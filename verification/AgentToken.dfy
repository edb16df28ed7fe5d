/** The printed form of a session credential and its parser (src/auth.rs). */
module AgentToken {
  import opened Bytes
  import R = Redaction

  const TOKEN_BYTES: nat := 32

  predicate IsSecret(token: seq<byte>) {
    |token| == TOKEN_BYTES
  }

  const HEX: seq<byte> := [48, 49, 50, 51, 52, 53, 54, 55, 56, 57, 97, 98, 99, 100, 101, 102]

  function DecodeNibble(encoded: byte): Option<byte> {
    if 48 <= encoded <= 57 then Some(encoded - 48)
    else if 97 <= encoded <= 102 then Some(encoded - 97 + 10)
    else None
  }

  /** The digits at pair `i` of a token's text. */
  ghost predicate PairSpells(encoded: seq<byte>, i: nat, value: byte) {
    && |R.TOKEN_PREFIX| + 2 * i + 1 < |encoded|
    && encoded[|R.TOKEN_PREFIX| + 2 * i] == HEX[value / 16]
    && encoded[|R.TOKEN_PREFIX| + 2 * i + 1] == HEX[value % 16]
  }

  /** `encoded` spells the bytes of `token`, two lower-case digits a byte, after the prefix. */
  ghost predicate Spells(encoded: seq<byte>, token: seq<byte>) {
    && |encoded| == |R.TOKEN_PREFIX| + 2 * |token|
    && R.TOKEN_PREFIX <= encoded
    && forall i | 0 <= i < |token| :: PairSpells(encoded, i, token[i])
  }

  lemma NibbleRoundTrip(n: byte)
    requires n < 16
    ensures DecodeNibble(HEX[n]) == Some(n) && R.IsHexDigit(HEX[n])
  {
  }

  lemma NibbleIsCanonical(encoded: byte)
    requires DecodeNibble(encoded).Some?
    ensures DecodeNibble(encoded).value < 16 && HEX[DecodeNibble(encoded).value] == encoded
  {
  }

  /** Returns the value used for `COTERIE_TOKEN` and RPC authentication. */
  method ExposeSecret(token: seq<byte>) returns (encoded: seq<byte>)
    requires IsSecret(token)
    ensures Spells(encoded, token)
  {
    encoded := R.TOKEN_PREFIX;
    for i := 0 to |token|
      invariant Spells(encoded, token[..i])
    {
      encoded := encoded + [HEX[token[i] / 16]];
      encoded := encoded + [HEX[token[i] % 16]];
    }
    assert token[..|token|] == token;
  }

  lemma BadPairSpellsNothing(encoded: seq<byte>, i: nat)
    requires |R.TOKEN_PREFIX| + 2 * i + 1 < |encoded|
    requires || DecodeNibble(encoded[|R.TOKEN_PREFIX| + 2 * i]).None?
             || DecodeNibble(encoded[|R.TOKEN_PREFIX| + 2 * i + 1]).None?
    ensures forall value :: !PairSpells(encoded, i, value)
  {
    forall value: byte
      ensures !PairSpells(encoded, i, value)
    {
      NibbleRoundTrip(value / 16);
      NibbleRoundTrip(value % 16);
    }
  }

  lemma NibblesOfByte(high: byte, low: byte)
    requires high < 16 && low < 16
    ensures (16 * high + low) / 16 == high && (16 * high + low) % 16 == low
  {
  }

  lemma DigitsSpell(encoded: seq<byte>, i: nat, high: byte, low: byte)
    requires |R.TOKEN_PREFIX| + 2 * i + 1 < |encoded| && high < 16 && low < 16
    requires encoded[|R.TOKEN_PREFIX| + 2 * i] == HEX[high] && encoded[|R.TOKEN_PREFIX| + 2 * i + 1] == HEX[low]
    ensures PairSpells(encoded, i, 16 * high + low)
  {
    NibblesOfByte(high, low);
  }

  lemma GoodPairSpells(encoded: seq<byte>, i: nat)
    requires |R.TOKEN_PREFIX| + 2 * i + 1 < |encoded|
    requires DecodeNibble(encoded[|R.TOKEN_PREFIX| + 2 * i]).Some?
    requires DecodeNibble(encoded[|R.TOKEN_PREFIX| + 2 * i + 1]).Some?
    ensures var high := DecodeNibble(encoded[|R.TOKEN_PREFIX| + 2 * i]).value;
            var low := DecodeNibble(encoded[|R.TOKEN_PREFIX| + 2 * i + 1]).value;
            high < 16 && low < 16 && PairSpells(encoded, i, 16 * high + low)
  {
    var first, second := encoded[|R.TOKEN_PREFIX| + 2 * i], encoded[|R.TOKEN_PREFIX| + 2 * i + 1];
    NibbleIsCanonical(first);
    NibbleIsCanonical(second);
    hide DecodeNibble, PairSpells;
    DigitsSpell(encoded, i, DecodeNibble(first).value, DecodeNibble(second).value);
  }

  /** Parses exactly the printed tokens: nothing else is accepted, and nothing printed is refused. */
  method FromStr(encoded: seq<byte>) returns (parsed: Option<seq<byte>>)
    ensures parsed.Some? ==> IsSecret(parsed.value) && Spells(encoded, parsed.value)
    ensures parsed.None? ==> forall token | IsSecret(token) :: !Spells(encoded, token)
  {
    if !(R.TOKEN_PREFIX <= encoded) {
      return None;
    }
    var payload := encoded[|R.TOKEN_PREFIX|..];
    if |payload| != TOKEN_BYTES * 2 {
      return None;
    }
    var bytes: seq<byte> := [];
    for i := 0 to TOKEN_BYTES
      invariant |bytes| == i
      invariant forall k | 0 <= k < i :: PairSpells(encoded, k, bytes[k])
    {
      var high, low := DecodeNibble(payload[2 * i]), DecodeNibble(payload[2 * i + 1]);
      if high.None? || low.None? {
        BadPairSpellsNothing(encoded, i);
        assert forall token | IsSecret(token) :: Spells(encoded, token) ==> PairSpells(encoded, i, token[i]);
        return None;
      }
      GoodPairSpells(encoded, i);
      bytes := bytes + [16 * high.value + low.value];
    }
    return Some(bytes);
  }

  /** A printed form belongs to one token only, so parsing a printed token gives that token back. */
  lemma SpellingIsInjective(encoded: seq<byte>, token: seq<byte>, other: seq<byte>)
    requires Spells(encoded, token) && Spells(encoded, other)
    ensures token == other
  {
    forall i | 0 <= i < |token|
      ensures token[i] == other[i]
    {
      assert PairSpells(encoded, i, token[i]) && PairSpells(encoded, i, other[i]);
      NibbleRoundTrip(token[i] / 16);
      NibbleRoundTrip(token[i] % 16);
      NibbleRoundTrip(other[i] / 16);
      NibbleRoundTrip(other[i] % 16);
    }
  }

  /** The redactor recognizes every printed token, wherever it stands in a stream. */
  lemma PrintedTokensAreConcealed(
      secrets: seq<seq<byte>>, token: seq<byte>, encoded: seq<byte>, text: seq<byte>, at: nat)
    requires R.NoEmptySecret(secrets) && IsSecret(token) && Spells(encoded, token)
    requires R.OccursAt(text, encoded, at)
    ensures at < |text| == |R.Marks(R.Decompose(secrets, text))|
    ensures R.Marks(R.Decompose(secrets, text))[at]
  {
    forall i | |R.TOKEN_PREFIX| <= i < |encoded|
      ensures R.IsHexDigit(encoded[i])
    {
      var k := (i - |R.TOKEN_PREFIX|) / 2;
      assert PairSpells(encoded, k, token[k]);
      NibbleRoundTrip(token[k] / 16);
      NibbleRoundTrip(token[k] % 16);
    }
    R.OccurrencesAreConcealed(secrets, text, encoded, at);
  }
}
