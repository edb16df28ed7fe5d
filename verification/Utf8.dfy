/** Well-formed UTF-8 (section 4 of RFC 3629) and the verdict of an incremental decoder. */
module Utf8 {
  import opened Bytes

  predicate IsContinuation(b: byte) {
    0x80 <= b <= 0xBF
  }

  /** The four productions of the grammar in section 4 of RFC 3629. */
  predicate Production(c: seq<byte>) {
    || (|c| == 1 && c[0] <= 0x7F)
    || (|c| == 2 && 0xC2 <= c[0] <= 0xDF && IsContinuation(c[1]))
    || (&& |c| == 3 && IsContinuation(c[2])
        && (|| (c[0] == 0xE0 && 0xA0 <= c[1] <= 0xBF)
            || (0xE1 <= c[0] <= 0xEC && IsContinuation(c[1]))
            || (c[0] == 0xED && 0x80 <= c[1] <= 0x9F)
            || (0xEE <= c[0] <= 0xEF && IsContinuation(c[1]))))
    || (&& |c| == 4 && IsContinuation(c[2]) && IsContinuation(c[3])
        && (|| (c[0] == 0xF0 && 0x90 <= c[1] <= 0xBF)
            || (0xF1 <= c[0] <= 0xF3 && IsContinuation(c[1]))
            || (c[0] == 0xF4 && 0x80 <= c[1] <= 0x8F)))
  }

  // ----- The decoder's view -----

  /** The length announced by a leading byte; zero when the byte starts no character. */
  function CharLength(first: byte): nat {
    if first <= 0x7F then 1
    else if 0xC2 <= first <= 0xDF then 2
    else if 0xE0 <= first <= 0xEF then 3
    else if 0xF0 <= first <= 0xF4 then 4
    else 0
  }

  predicate SecondAllowed(first: byte, second: byte) {
    && IsContinuation(second)
    && (first == 0xE0 ==> 0xA0 <= second)
    && (first == 0xED ==> second <= 0x9F)
    && (first == 0xF0 ==> 0x90 <= second)
    && (first == 0xF4 ==> second <= 0x8F)
  }

  /** `c` is a nonempty beginning of some character. */
  predicate Begins(c: seq<byte>) {
    && 0 < |c| <= CharLength(c[0])
    && (|c| > 1 ==> SecondAllowed(c[0], c[1]))
    && forall i | 2 <= i < |c| :: IsContinuation(c[i])
  }

  lemma BeginsIsProduction(c: seq<byte>)
    ensures Production(c) <==> Begins(c) && |c| == CharLength(c[0])
  {
  }

  /** A whole character stands at the front of `s`. */
  predicate Leads(s: seq<byte>) {
    s != [] && 1 <= CharLength(s[0]) <= |s| && Begins(s[..CharLength(s[0])])
  }

  predicate WellFormed(s: seq<byte>)
    decreases |s|
  {
    s == [] || (Leads(s) && WellFormed(s[CharLength(s[0])..]))
  }

  /** The well-formed texts are exactly the concatenations of the grammar's characters. */
  lemma {:induction false} CharactersAreWellFormed(characters: seq<seq<byte>>)
    requires forall c | c in characters :: Production(c)
    ensures WellFormed(Flatten(characters))
  {
    if characters != [] {
      var c, rest := characters[0], Flatten(characters[1..]);
      assert c in characters;
      BeginsIsProduction(c);
      CharactersAreWellFormed(characters[1..]);
      assert (c + rest)[..|c|] == c && (c + rest)[|c|..] == rest;
    }
  }

  lemma {:induction false} WellFormedIsCharacters(s: seq<byte>) returns (characters: seq<seq<byte>>)
    requires WellFormed(s)
    ensures forall c | c in characters :: Production(c)
    ensures Flatten(characters) == s
    decreases |s|
  {
    if s == [] {
      characters := [];
    } else {
      var n := CharLength(s[0]);
      BeginsIsProduction(s[..n]);
      var rest := WellFormedIsCharacters(s[n..]);
      characters := [s[..n]] + rest;
      assert characters[1..] == rest && s == s[..n] + s[n..];
    }
  }

  datatype Verdict = Valid | Incomplete | Invalid

  /**
   * How a strict decoder judges a slice: `Incomplete` when everything up to the end is sound but the
   * last character is cut short, which is the only case without an error length.
   */
  function Check(s: seq<byte>): Verdict
    decreases |s|
  {
    if s == [] then Valid
    else
      var n := CharLength(s[0]);
      var available := if n <= |s| then n else |s|;
      if !Begins(s[..available]) then Invalid
      else if |s| < n then Incomplete
      else Check(s[n..])
  }

  /** The decoder accepts exactly the well-formed texts. */
  lemma {:induction false} CheckDecidesWellFormed(s: seq<byte>)
    ensures Check(s) == Valid <==> WellFormed(s)
    decreases |s|
  {
    if s != [] && 1 <= CharLength(s[0]) <= |s| {
      CheckDecidesWellFormed(s[CharLength(s[0])..]);
    }
  }

  /** A slice that begins a character is judged by its length alone. */
  lemma CheckOfOneCharacter(c: seq<byte>)
    requires Begins(c)
    ensures Check(c) == if |c| < CharLength(c[0]) then Incomplete else Valid
  {
    assert c[..|c|] == c;
  }

  lemma {:induction false} WellFormedConcat(a: seq<byte>, b: seq<byte>)
    requires WellFormed(a) && WellFormed(b)
    ensures WellFormed(a + b)
    decreases |a|
  {
    if a == [] {
      assert a + b == b;
    } else {
      var n := CharLength(a[0]);
      WellFormedConcat(a[n..], b);
      assert (a + b)[n..] == a[n..] + b && (a + b)[..n] == a[..n];
    }
  }

  /** Cutting at a character boundary leaves a well-formed rest. */
  lemma {:induction false} WellFormedRest(s: seq<byte>, k: nat)
    requires WellFormed(s) && k <= |s| && WellFormed(s[..k])
    ensures WellFormed(s[k..])
    decreases |s|
  {
    if k == 0 {
      assert s[0..] == s;
    } else {
      var n := CharLength(s[0]);
      assert s[..k][n..] == s[n..][..k - n] && s[k..] == s[n..][k - n..];
      WellFormedRest(s[n..], k - n);
    }
  }

  /** The character that covers byte `n - 1` of a well-formed text starts at `p` and is all there. */
  ghost predicate CoveredBy(s: seq<byte>, p: nat, n: nat) {
    && p < n <= |s|
    && n <= p + CharLength(s[p]) <= |s|
    && Begins(s[p..p + CharLength(s[p])])
    && WellFormed(s[..p]) && WellFormed(s[p..])
  }

  lemma {:induction false} CoveringCharacter(s: seq<byte>, n: nat) returns (p: nat)
    requires WellFormed(s) && 0 < n <= |s|
    ensures CoveredBy(s, p, n)
    decreases |s|
  {
    var m := CharLength(s[0]);
    if n <= m {
      p := 0;
      assert s[0..] == s;
    } else {
      p := CoveringCharacter(s[m..], n - m);
      var len := CharLength(s[m..][p]);
      assert s[m..][p..p + len] == s[m + p..m + p + len] && s[m..][p..] == s[m + p..];
      assert s[..m + p][..m] == s[..m] && s[..m + p][m..] == s[m..][..p];
      assert Leads(s[..m + p]);
      p := m + p;
    }
  }

  /** After a covering character ends, the text before and behind is whole. */
  lemma BoundaryAfter(s: seq<byte>, p: nat, n: nat)
    requires CoveredBy(s, p, n)
    ensures var e := p + CharLength(s[p]); WellFormed(s[..e]) && WellFormed(s[e..])
  {
    var m := CharLength(s[p]);
    assert s[p + m..] == s[p..][m..];
    var c := s[p..p + m];
    assert c[..m] == c && c[m..] == [];
    assert WellFormed(c);
    WellFormedConcat(s[..p], c);
    assert s[..p + m] == s[..p] + c;
  }
}
