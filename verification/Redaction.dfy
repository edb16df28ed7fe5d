/** Credential filtering over a byte stream that arrives in arbitrary chunks (src/redaction.rs). */
module Redaction {
  import opened Bytes

  const REPLACEMENT: seq<byte> := [91, 82, 69, 68, 65, 67, 84, 69, 68, 93] // [REDACTED]
  const TOKEN_PREFIX: seq<byte> := [99, 111, 116, 49, 95] // cot1_
  const TOKEN_LENGTH: nat := 69

  predicate IsHexDigit(b: byte) {
    48 <= b <= 57 || 65 <= b <= 70 || 97 <= b <= 102
  }

  predicate IsToken(c: seq<byte>) {
    && |c| == TOKEN_LENGTH
    && TOKEN_PREFIX <= c
    && forall i | |TOKEN_PREFIX| <= i < TOKEN_LENGTH :: IsHexDigit(c[i])
  }

  /** What must never be released: a registered secret, or anything shaped like an agent token. */
  predicate Credential(secrets: seq<seq<byte>>, c: seq<byte>) {
    c in secrets || IsToken(c)
  }

  predicate NoEmptySecret(secrets: seq<seq<byte>>) {
    [] !in secrets
  }

  /** The text so far could still grow into a credential. */
  ghost predicate Ambiguous(secrets: seq<seq<byte>>, text: seq<byte>) {
    exists c :: Credential(secrets, c) && |text| < |c| && text <= c
  }

  // ----- The tests the scanner makes at one position -----

  predicate TokenPartial(text: seq<byte>) {
    && |text| < TOKEN_LENGTH
    && (|| text <= TOKEN_PREFIX
        || (TOKEN_PREFIX <= text && forall i | |TOKEN_PREFIX| <= i < |text| :: IsHexDigit(text[i])))
  }

  predicate Partial(secrets: seq<seq<byte>>, text: seq<byte>) {
    || TokenPartial(text)
    || exists i | 0 <= i < |secrets| :: |text| < |secrets[i]| && text <= secrets[i]
  }

  function LongestSecret(secrets: seq<seq<byte>>, text: seq<byte>): (n: nat)
    ensures n <= |text|
  {
    if secrets == [] then 0
    else
      var rest := LongestSecret(secrets[1..], text);
      if secrets[0] <= text && |secrets[0]| > rest then |secrets[0]| else rest
  }

  /** The length of the longest credential at the start of `text`, or zero. */
  function MatchLength(secrets: seq<seq<byte>>, text: seq<byte>): (n: nat)
    ensures n <= |text|
  {
    var exact := LongestSecret(secrets, text);
    if TOKEN_LENGTH <= |text| && IsToken(text[..TOKEN_LENGTH]) && exact < TOKEN_LENGTH
    then TOKEN_LENGTH else exact
  }

  lemma {:induction false} LongestSecretIsLongest(secrets: seq<seq<byte>>, text: seq<byte>)
    ensures forall s | s in secrets && s <= text :: |s| <= LongestSecret(secrets, text)
    ensures LongestSecret(secrets, text) > 0 ==> text[..LongestSecret(secrets, text)] in secrets
  {
    if secrets != [] {
      LongestSecretIsLongest(secrets[1..], text);
      assert secrets[0] <= text ==> secrets[0] == text[..|secrets[0]|];
      assert secrets == [secrets[0]] + secrets[1..];
    }
  }

  /** Some credential is complete at the start of `text`. */
  predicate Matches(secrets: seq<seq<byte>>, text: seq<byte>) {
    || (exists i | 0 <= i < |secrets| :: secrets[i] <= text)
    || (TOKEN_LENGTH <= |text| && IsToken(text[..TOKEN_LENGTH]))
  }

  /** Without an empty secret every match is at least one byte long, so the scan always advances. */
  lemma MatchesAdvance(secrets: seq<seq<byte>>, text: seq<byte>)
    requires NoEmptySecret(secrets)
    ensures Matches(secrets, text) <==> MatchLength(secrets, text) > 0
  {
    MatchLengthIsLongest(secrets, text);
    if i :| 0 <= i < |secrets| && secrets[i] <= text {
      assert Credential(secrets, secrets[i]);
    }
    if MatchLength(secrets, text) > 0 {
      var c := text[..MatchLength(secrets, text)];
      assert c <= text;
    }
  }

  /** The scanner's greedy choice is the longest credential that starts here. */
  lemma MatchLengthIsLongest(secrets: seq<seq<byte>>, text: seq<byte>)
    ensures forall c | Credential(secrets, c) && c <= text :: |c| <= MatchLength(secrets, text)
    ensures MatchLength(secrets, text) > 0 ==> Credential(secrets, text[..MatchLength(secrets, text)])
  {
    LongestSecretIsLongest(secrets, text);
    forall c | Credential(secrets, c) && c <= text
      ensures |c| <= MatchLength(secrets, text)
    {
      assert c == text[..|c|];
    }
  }

  /** The byte tests decide exactly whether some credential could still be completed. */
  lemma PartialIsAmbiguous(secrets: seq<seq<byte>>, text: seq<byte>)
    ensures Partial(secrets, text) <==> Ambiguous(secrets, text)
  {
    if TokenPartial(text) {
      var token := seq(TOKEN_LENGTH, i requires 0 <= i < TOKEN_LENGTH =>
        if i < |text| then text[i] else if i < |TOKEN_PREFIX| then TOKEN_PREFIX[i] else 48);
      assert IsToken(token) && text <= token;
      assert Credential(secrets, token);
    }
  }

  // ----- The scan as a decomposition of its input -----

  /** A byte passed through, or a stretch replaced as a whole. */
  datatype Segment = Literal(value: byte) | Concealed(bytes: seq<byte>) {
    function Text(): seq<byte> {
      match this case Literal(b) => [b] case Concealed(s) => s
    }

    function Shown(): seq<byte> {
      match this case Literal(b) => [b] case Concealed(_) => REPLACEMENT
    }

    function Hidden(): seq<bool> {
      match this case Literal(_) => [false] case Concealed(s) => seq(|s|, _ => true)
    }
  }

  /** The concatenation of one view of every segment. */
  function Spell<T>(segments: seq<Segment>, view: Segment -> seq<T>): seq<T> {
    if segments == [] then [] else view(segments[0]) + Spell(segments[1..], view)
  }

  function Raw(segments: seq<Segment>): seq<byte> {
    Spell(segments, (s: Segment) => s.Text())
  }

  function Render(segments: seq<Segment>): seq<byte> {
    Spell(segments, (s: Segment) => s.Shown())
  }

  /** For each input byte, whether it was concealed. */
  function Marks(segments: seq<Segment>): seq<bool> {
    Spell(segments, (s: Segment) => s.Hidden())
  }

  function FirstSegment(secrets: seq<seq<byte>>, text: seq<byte>): (s: Segment)
    requires text != []
    ensures 0 < |s.Text()| <= |text| && s.Text() == text[..|s.Text()|]
  {
    var n := MatchLength(secrets, text);
    if n > 0 then Concealed(text[..n]) else Literal(text[0])
  }

  lemma {:induction false} SpellAppend<T>(a: seq<Segment>, b: seq<Segment>, view: Segment -> seq<T>)
    ensures Spell(a + b, view) == Spell(a, view) + Spell(b, view)
  {
    if a == [] {
      assert a + b == b;
    } else {
      SpellAppend(a[1..], b, view);
      assert (a + b)[1..] == a[1..] + b;
      ConcatAssociative(view(a[0]), Spell(a[1..], view), Spell(b, view));
    }
  }

  lemma SpellOne<T>(segment: Segment, view: Segment -> seq<T>)
    ensures Spell([segment], view) == view(segment)
  {
    assert [segment][1..] == [];
  }

  lemma ViewsAppend(a: seq<Segment>, b: seq<Segment>)
    ensures Raw(a + b) == Raw(a) + Raw(b)
    ensures Render(a + b) == Render(a) + Render(b)
    ensures Marks(a + b) == Marks(a) + Marks(b)
  {
    SpellAppend(a, b, (s: Segment) => s.Text());
    SpellAppend(a, b, (s: Segment) => s.Shown());
    SpellAppend(a, b, (s: Segment) => s.Hidden());
  }

  lemma OneSegment(segment: Segment)
    ensures Raw([segment]) == segment.Text()
    ensures Render([segment]) == segment.Shown()
    ensures Marks([segment]) == segment.Hidden()
  {
    SpellOne(segment, (s: Segment) => s.Text());
    SpellOne(segment, (s: Segment) => s.Shown());
    SpellOne(segment, (s: Segment) => s.Hidden());
  }

  /** The segments that are decided, whatever input follows. */
  function Done(secrets: seq<seq<byte>>, text: seq<byte>): seq<Segment>
    decreases |text|
  {
    if text == [] || Partial(secrets, text) then []
    else
      var first := FirstSegment(secrets, text);
      [first] + Done(secrets, text[|first.Text()|..])
  }

  /** The undecided rest, which must wait for more input. */
  function Rest(secrets: seq<seq<byte>>, text: seq<byte>): (rest: seq<byte>)
    ensures rest == [] || Partial(secrets, rest)
    decreases |text|
  {
    if text == [] || Partial(secrets, text) then text
    else Rest(secrets, text[|FirstSegment(secrets, text).Text()|..])
  }

  function Tail(pending: seq<byte>): seq<Segment> {
    if pending == [] then [] else [Concealed(pending)]
  }

  /** The final decomposition: an ambiguous tail is concealed when the stream ends. */
  function Decompose(secrets: seq<seq<byte>>, text: seq<byte>): seq<Segment> {
    Done(secrets, text) + Tail(Rest(secrets, text))
  }

  /** Nothing is lost: the segments and the rest spell the input. */
  lemma {:induction false} DonePreservesText(secrets: seq<seq<byte>>, text: seq<byte>)
    ensures Raw(Done(secrets, text)) + Rest(secrets, text) == text
    decreases |text|
  {
    if text != [] && !Partial(secrets, text) {
      var first := FirstSegment(secrets, text);
      var tail := text[|first.Text()|..];
      DonePreservesText(secrets, tail);
      ViewsAppend([first], Done(secrets, tail));
      OneSegment(first);
      ConcatAssociative(first.Text(), Raw(Done(secrets, tail)), Rest(secrets, tail));
      assert text == first.Text() + tail;
    }
  }

  lemma DecomposePreservesText(secrets: seq<seq<byte>>, text: seq<byte>)
    ensures Raw(Decompose(secrets, text)) == text
  {
    DonePreservesText(secrets, text);
    var rest := Rest(secrets, text);
    ViewsAppend(Done(secrets, text), Tail(rest));
    OneSegment(Concealed(rest));
  }

  // ----- Stability: later input never changes a decision already made -----

  lemma StableDecision(secrets: seq<seq<byte>>, text: seq<byte>, more: seq<byte>)
    requires text != [] && !Partial(secrets, text)
    ensures !Partial(secrets, text + more)
    ensures FirstSegment(secrets, text + more) == FirstSegment(secrets, text)
  {
    var longer := text + more;
    PartialIsAmbiguous(secrets, text);
    forall c: seq<byte> | |text| < |c| && (c <= longer || longer <= c)
      ensures text <= c
    {
      assert text == longer[..|text|];
    }
    assert forall c | Credential(secrets, c) :: c <= longer <==> c <= text;
    PartialIsAmbiguous(secrets, longer);
    MatchLengthIsLongest(secrets, text);
    MatchLengthIsLongest(secrets, longer);
    var n, m := MatchLength(secrets, text), MatchLength(secrets, longer);
    if n > 0 {
      assert text[..n] <= longer;
    }
    if m > 0 {
      assert longer[..m] <= longer;
    }
    assert n == m;
    assert n > 0 ==> text[..n] == longer[..n];
  }

  /** Scanning a longer text resumes exactly where scanning its beginning stopped. */
  lemma {:induction false} ScanResumes(secrets: seq<seq<byte>>, text: seq<byte>, more: seq<byte>)
    ensures Done(secrets, text + more) == Done(secrets, text) + Done(secrets, Rest(secrets, text) + more)
    ensures Rest(secrets, text + more) == Rest(secrets, Rest(secrets, text) + more)
    decreases |text|
  {
    hide Partial, FirstSegment;
    if text != [] && !Partial(secrets, text) {
      StableDecision(secrets, text, more);
      var first := FirstSegment(secrets, text);
      var tail := text[|first.Text()|..];
      ScanResumes(secrets, tail, more);
      assert (text + more)[|first.Text()|..] == tail + more;
      ConcatAssociative([first], Done(secrets, tail), Done(secrets, Rest(secrets, tail) + more));
    }
  }

  /** What a sequence of pushes emits after `pending`. */
  function Emitted(secrets: seq<seq<byte>>, pending: seq<byte>, chunks: seq<seq<byte>>): seq<byte>
    decreases |chunks|
  {
    if chunks == [] then []
    else
      Render(Done(secrets, pending + chunks[0]))
      + Emitted(secrets, Rest(secrets, pending + chunks[0]), chunks[1..])
  }

  /** What a sequence of pushes leaves pending. */
  function Left(secrets: seq<seq<byte>>, pending: seq<byte>, chunks: seq<seq<byte>>): seq<byte>
    decreases |chunks|
  {
    if chunks == [] then pending else Left(secrets, Rest(secrets, pending + chunks[0]), chunks[1..])
  }

  /** Everything a reader sees: the output of the pushes, then that of `finish`. */
  function Filtered(secrets: seq<seq<byte>>, chunks: seq<seq<byte>>): seq<byte> {
    Emitted(secrets, [], chunks) + Render(Tail(Left(secrets, [], chunks)))
  }

  lemma {:induction false} PushesAreOneScan(secrets: seq<seq<byte>>, pending: seq<byte>, chunks: seq<seq<byte>>)
    requires pending == [] || Partial(secrets, pending)
    ensures Emitted(secrets, pending, chunks) == Render(Done(secrets, pending + Flatten(chunks)))
    ensures Left(secrets, pending, chunks) == Rest(secrets, pending + Flatten(chunks))
    decreases |chunks|
  {
    if chunks == [] {
      assert pending + Flatten(chunks) == pending;
    } else {
      var text, others := pending + chunks[0], Flatten(chunks[1..]);
      var rest := Rest(secrets, text);
      PushesAreOneScan(secrets, rest, chunks[1..]);
      ScanResumes(secrets, text, others);
      ConcatAssociative(pending, chunks[0], others);
      ViewsAppend(Done(secrets, text), Done(secrets, rest + others));
    }
  }

  lemma FilteredOnce(secrets: seq<seq<byte>>, chunk: seq<byte>)
    ensures Filtered(secrets, [chunk]) == Render(Done(secrets, chunk)) + Render(Tail(Rest(secrets, chunk)))
  {
    PushesAreOneScan(secrets, [], [chunk]);
    FlattenOne(chunk);
    assert [] + chunk == chunk;
  }

  /** The filtered stream depends on the bytes alone: it renders the decomposition of the whole input. */
  lemma FilteredIsDecomposition(secrets: seq<seq<byte>>, chunks: seq<seq<byte>>)
    ensures Filtered(secrets, chunks) == Render(Decompose(secrets, Flatten(chunks)))
  {
    PushesAreOneScan(secrets, [], chunks);
    var text := Flatten(chunks);
    assert [] + text == text;
    ViewsAppend(Done(secrets, text), Tail(Rest(secrets, text)));
  }

  /** Every way of cutting the input into chunks is filtered alike. */
  lemma ChunkingIsInvisible(secrets: seq<seq<byte>>, chunks: seq<seq<byte>>, others: seq<seq<byte>>)
    requires Flatten(chunks) == Flatten(others)
    ensures Filtered(secrets, chunks) == Filtered(secrets, others)
  {
    FilteredIsDecomposition(secrets, chunks);
    FilteredIsDecomposition(secrets, others);
  }

  /** A waiting tail is a proper prefix of a credential, hence shorter than the longest one. */
  lemma PendingIsBounded(secrets: seq<seq<byte>>, pending: seq<byte>, longest: nat)
    requires Partial(secrets, pending)
    requires TOKEN_LENGTH <= longest && forall s | s in secrets :: |s| <= longest
    ensures |pending| < longest && Ambiguous(secrets, pending)
  {
    PartialIsAmbiguous(secrets, pending);
  }

  // ----- Concealment -----

  ghost predicate OccursAt(text: seq<byte>, c: seq<byte>, at: nat) {
    at + |c| <= |text| && text[at..at + |c|] == c
  }

  lemma {:induction false} MarksCoverText(segments: seq<Segment>)
    ensures |Marks(segments)| == |Raw(segments)|
  {
    if segments != [] {
      MarksCoverText(segments[1..]);
      assert segments == [segments[0]] + segments[1..];
      ViewsAppend([segments[0]], segments[1..]);
      OneSegment(segments[0]);
    }
  }

  /** The decomposition starts with the first segment and continues with that of what follows. */
  lemma DecomposeStep(secrets: seq<seq<byte>>, text: seq<byte>)
    requires text != [] && !Partial(secrets, text)
    ensures var first := FirstSegment(secrets, text);
            var rest := Decompose(secrets, text[|first.Text()|..]);
            && Decompose(secrets, text) == [first] + rest
            && Marks(Decompose(secrets, text)) == first.Hidden() + Marks(rest)
  {
    var first := FirstSegment(secrets, text);
    var tail := text[|first.Text()|..];
    ConcatAssociative([first], Done(secrets, tail), Tail(Rest(secrets, tail)));
    ViewsAppend([first], Decompose(secrets, tail));
    OneSegment(first);
  }

  /** A position where a credential starts is never passed through. */
  lemma StartIsConcealed(secrets: seq<seq<byte>>, text: seq<byte>, c: seq<byte>, at: nat)
    requires c != [] && Credential(secrets, c) && OccursAt(text, c, at)
    requires at < |FirstSegment(secrets, text).Text()|
    ensures FirstSegment(secrets, text).Hidden()[at]
  {
    if at == 0 {
      assert c == text[..|c|];
      MatchLengthIsLongest(secrets, text);
    }
  }

  lemma AmbiguousTextIsConcealed(secrets: seq<seq<byte>>, text: seq<byte>)
    requires text != [] && Partial(secrets, text)
    ensures Marks(Decompose(secrets, text)) == seq(|text|, _ => true)
  {
    assert Decompose(secrets, text) == [Concealed(text)];
    OneSegment(Concealed(text));
  }

  lemma OccursInRest(text: seq<byte>, c: seq<byte>, at: nat, n: nat)
    requires OccursAt(text, c, at) && n <= at
    ensures OccursAt(text[n..], c, at - n)
  {
    assert text[at..at + |c|] == text[n..][at - n..at - n + |c|];
  }

  /** The first byte of every occurrence of every credential is concealed. */
  lemma {:induction false} OccurrencesAreConcealed(
      secrets: seq<seq<byte>>, text: seq<byte>, c: seq<byte>, at: nat)
    requires NoEmptySecret(secrets) && Credential(secrets, c) && OccursAt(text, c, at)
    ensures at < |text| == |Marks(Decompose(secrets, text))|
    ensures Marks(Decompose(secrets, text))[at]
    decreases |text|
  {
    assert c != [] && at < |text|;
    hide Marks, Decompose, OccursAt, Credential;
    if Partial(secrets, text) {
      AmbiguousTextIsConcealed(secrets, text);
    } else {
      var n := |FirstSegment(secrets, text).Text()|;
      DecomposeStep(secrets, text);
      DecomposePreservesText(secrets, text[n..]);
      MarksCoverText(Decompose(secrets, text[n..]));
      if at < n {
        StartIsConcealed(secrets, text, c, at);
      } else {
        OccursInRest(text, c, at, n);
        OccurrencesAreConcealed(secrets, text[n..], c, at - n);
      }
    }
  }

  /** No run of bytes that passed through contains a whole credential. */
  lemma LiteralRunsHoldNoCredential(
      secrets: seq<seq<byte>>, text: seq<byte>, from: nat, to: nat, c: seq<byte>, at: nat)
    requires NoEmptySecret(secrets) && Credential(secrets, c)
    requires from <= to <= |text| && |Marks(Decompose(secrets, text))| == |text|
    requires forall i | from <= i < to :: !Marks(Decompose(secrets, text))[i]
    requires from <= at
    ensures !(at + |c| <= to && OccursAt(text, c, at))
  {
    if at + |c| <= to && OccursAt(text, c, at) {
      OccurrencesAreConcealed(secrets, text, c, at);
    }
  }

  /** Nothing but a whole credential, or an ambiguous tail at the very end, is ever concealed. */
  lemma {:induction false} OnlyCredentialsAreConcealed(secrets: seq<seq<byte>>, text: seq<byte>, k: nat)
    requires k < |Decompose(secrets, text)| && Decompose(secrets, text)[k].Concealed?
    ensures var hidden := Decompose(secrets, text)[k].bytes;
            || Credential(secrets, hidden)
            || (k == |Decompose(secrets, text)| - 1 && Ambiguous(secrets, hidden))
    decreases |text|
  {
    hide Marks, Partial, Ambiguous, Credential;
    PartialIsAmbiguous(secrets, text);
    if text != [] && !Partial(secrets, text) {
      DecomposeStep(secrets, text);
      if k == 0 {
        MatchLengthIsLongest(secrets, text);
      } else {
        OnlyCredentialsAreConcealed(secrets, text[|FirstSegment(secrets, text).Text()|..], k - 1);
      }
    }
  }

  // ----- Complete values -----

  const DELIMITER: byte := 0

  predicate NoDelimiter(secrets: seq<seq<byte>>) {
    forall s | s in secrets :: DELIMITER !in s
  }

  /** What `text` returns: the filtered value with the delimiter's byte popped. */
  function Redacted(secrets: seq<seq<byte>>, value: seq<byte>): seq<byte> {
    var output := Filtered(secrets, [value + [DELIMITER]]);
    if output == [] then [] else output[..|output| - 1]
  }

  lemma {:induction false} TokensHoldNoDelimiter(c: seq<byte>)
    requires IsToken(c)
    ensures DELIMITER !in c
  {
    forall i | 0 <= i < |c|
      ensures c[i] != DELIMITER
    {
      if i < |TOKEN_PREFIX| {
        assert c[i] == TOKEN_PREFIX[i];
      }
    }
  }

  /** A text that ends with the delimiter is never ambiguous, and no credential reaches its end. */
  lemma DelimitedTextIsDecided(secrets: seq<seq<byte>>, value: seq<byte>)
    requires NoDelimiter(secrets)
    ensures !Partial(secrets, value + [DELIMITER])
    ensures MatchLength(secrets, value + [DELIMITER]) <= |value|
  {
    var text := value + [DELIMITER];
    forall c | Credential(secrets, c) && |text| <= |c|
      ensures !(text <= c) && !(c <= text)
    {
      if IsToken(c) {
        TokensHoldNoDelimiter(c);
      }
      assert text[|value|] !in c;
    }
    PartialIsAmbiguous(secrets, text);
    MatchLengthIsLongest(secrets, text);
    assert text[..MatchLength(secrets, text)] <= text;
  }

  /** A delimited text is decided to its end, and its last segment is the delimiter itself. */
  lemma {:induction false} DelimiterComesLast(secrets: seq<seq<byte>>, value: seq<byte>) returns (body: seq<Segment>)
    requires NoDelimiter(secrets)
    ensures Rest(secrets, value + [DELIMITER]) == []
    ensures Done(secrets, value + [DELIMITER]) == body + [Literal(DELIMITER)]
    ensures Raw(body) == value
    decreases |value|
  {
    var text := value + [DELIMITER];
    DelimitedTextIsDecided(secrets, value);
    var first := FirstSegment(secrets, text);
    var n := |first.Text()|;
    if value == [] {
      body := [];
      assert text[n..] == [];
    } else {
      assert text[n..] == value[n..] + [DELIMITER];
      var rest := DelimiterComesLast(secrets, value[n..]);
      body := [first] + rest;
      ConcatAssociative([first], rest, [Literal(DELIMITER)]);
      ViewsAppend([first], rest);
      OneSegment(first);
      assert value == value[..n] + value[n..] && text[..n] == value[..n];
    }
  }

  /** Popping the last byte removes the delimiter and no byte of the value or of a replacement. */
  lemma RedactedDropsOnlyTheDelimiter(secrets: seq<seq<byte>>, value: seq<byte>) returns (body: seq<Segment>)
    requires NoDelimiter(secrets)
    ensures Decompose(secrets, value + [DELIMITER]) == body + [Literal(DELIMITER)]
    ensures Raw(body) == value && Redacted(secrets, value) == Render(body)
  {
    var text := value + [DELIMITER];
    body := DelimiterComesLast(secrets, value);
    assert Decompose(secrets, text) == Done(secrets, text);
    FilteredIsDecomposition(secrets, [text]);
    FlattenOne(text);
    ViewsAppend(body, [Literal(DELIMITER)]);
    OneSegment(Literal(DELIMITER));
  }

  lemma {:induction false} LiteralsRenderThemselves(segments: seq<Segment>)
    requires forall k | 0 <= k < |segments| :: segments[k].Literal?
    ensures Render(segments) == Raw(segments)
  {
    if segments != [] {
      LiteralsRenderThemselves(segments[1..]);
      assert segments == [segments[0]] + segments[1..];
      ViewsAppend([segments[0]], segments[1..]);
      OneSegment(segments[0]);
    }
  }

  /** Where each segment of a decomposition lies in the text. */
  lemma {:induction false} SegmentOccurs(segments: seq<Segment>, k: nat)
    requires k < |segments| && segments[k].Concealed?
    ensures exists at: nat :: OccursAt(Raw(segments), segments[k].bytes, at)
  {
    var prefix, suffix := segments[..k], segments[k + 1..];
    assert segments == prefix + ([segments[k]] + suffix);
    ViewsAppend(prefix, [segments[k]] + suffix);
    ViewsAppend([segments[k]], suffix);
    OneSegment(segments[k]);
    assert OccursAt(Raw(segments), segments[k].bytes, |Raw(prefix)|);
  }

  /** A value that holds no credential is returned byte for byte. */
  lemma CleanValuesAreUnchanged(secrets: seq<seq<byte>>, value: seq<byte>)
    requires NoEmptySecret(secrets) && NoDelimiter(secrets)
    requires forall c, at: nat | Credential(secrets, c) :: !OccursAt(value, c, at)
    ensures Redacted(secrets, value) == value
  {
    var body := RedactedDropsOnlyTheDelimiter(secrets, value);
    var all := Decompose(secrets, value + [DELIMITER]);
    forall k | 0 <= k < |body|
      ensures body[k].Literal?
    {
      if body[k].Concealed? {
        assert all[k] == body[k] && k < |all| - 1;
        OnlyCredentialsAreConcealed(secrets, value + [DELIMITER], k);
        SegmentOccurs(body, k);
      }
    }
    LiteralsRenderThemselves(body);
  }

  /** A value that is a credential is shown as exactly the ten characters of the marker, however long it is. */
  lemma CredentialsBecomeTheMarker(secrets: seq<seq<byte>>, value: seq<byte>)
    requires NoEmptySecret(secrets) && NoDelimiter(secrets) && Credential(secrets, value)
    ensures Redacted(secrets, value) == ['[' as byte, 'R' as byte, 'E' as byte, 'D' as byte, 'A' as byte,
                                         'C' as byte, 'T' as byte, 'E' as byte, 'D' as byte, ']' as byte]
  {
    var body := RedactedDropsOnlyTheDelimiter(secrets, value);
    var text := value + [DELIMITER];
    DelimitedTextIsDecided(secrets, value);
    MatchLengthIsLongest(secrets, text);
    assert value <= text && text[..|value|] == value && text[|value|..] == [DELIMITER];
    assert FirstSegment(secrets, text) == Concealed(value);
    DecomposeStep(secrets, text);
    DelimiterIsLiteral(secrets);
    assert body + [Literal(DELIMITER)] == [Concealed(value)] + [Literal(DELIMITER)];
    assert body == [Concealed(value)];
    OneSegment(Concealed(value));
  }

  lemma DelimiterIsLiteral(secrets: seq<seq<byte>>)
    requires NoDelimiter(secrets)
    ensures Decompose(secrets, [DELIMITER]) == [Literal(DELIMITER)]
  {
    assert [] + [DELIMITER] == [DELIMITER];
    DelimitedTextIsDecided(secrets, []);
    DecomposeStep(secrets, [DELIMITER]);
  }

  // ----- The buffered scanner -----

  /** The scan has decided the beginning of `text` as the segments `done` and is left with `todo`. */
  ghost predicate Scanned(secrets: seq<seq<byte>>, text: seq<byte>, done: seq<Segment>, todo: seq<byte>) {
    && Done(secrets, text) == done + Done(secrets, todo)
    && Rest(secrets, text) == Rest(secrets, todo)
  }

  lemma ScanStep(secrets: seq<seq<byte>>, text: seq<byte>, done: seq<Segment>, todo: seq<byte>)
    requires todo != [] && !Partial(secrets, todo) && Scanned(secrets, text, done, todo)
    ensures var first := FirstSegment(secrets, todo);
            && Scanned(secrets, text, done + [first], todo[|first.Text()|..])
            && Render(done + [first]) == Render(done) + first.Shown()
  {
    var first := FirstSegment(secrets, todo);
    ConcatAssociative(done, [first], Done(secrets, todo[|first.Text()|..]));
    ViewsAppend(done, [first]);
    OneSegment(first);
  }

  lemma AmbiguousScan(secrets: seq<seq<byte>>, text: seq<byte>, done: seq<Segment>, todo: seq<byte>)
    requires todo != [] && Partial(secrets, todo) && Scanned(secrets, text, done, todo)
    ensures Done(secrets, text) == done && Rest(secrets, text) == todo
    ensures Render(Decompose(secrets, text)) == Render(done) + REPLACEMENT
  {
    assert done + [] == done;
    ViewsAppend(done, [Concealed(todo)]);
    OneSegment(Concealed(todo));
  }

  lemma CompletedScan(secrets: seq<seq<byte>>, text: seq<byte>, done: seq<Segment>)
    requires Scanned(secrets, text, done, [])
    ensures Done(secrets, text) == Decompose(secrets, text) == done && Rest(secrets, text) == []
  {
    assert done + [] == done;
  }

  class Redactor {
    var secrets: seq<seq<byte>>
    var pending: seq<byte>

    ghost predicate Valid()
      reads this
    {
      && NoEmptySecret(secrets)
      && (forall i, j | 0 <= i < j < |secrets| :: secrets[i] != secrets[j])
      && (pending == [] || Partial(secrets, pending))
    }

    constructor ()
      ensures Valid() && secrets == [] && pending == []
    {
      secrets, pending := [], [];
    }

    method Add(secret: seq<byte>)
      requires Valid()
      modifies this`secrets
      ensures Valid()
      ensures secrets == if secret == [] || secret in old(secrets) then old(secrets) else old(secrets) + [secret]
    {
      if secret != [] && secret !in secrets {
        secrets := secrets + [secret];
        if pending != [] && !TokenPartial(pending) {
          ghost var i :| 0 <= i < |old(secrets)| && |pending| < |old(secrets)[i]| && pending <= old(secrets)[i];
          assert secrets[i] == old(secrets)[i];
        }
      }
    }

    method Push(bytes: seq<byte>) returns (output: seq<byte>)
      requires Valid()
      modifies this`pending
      ensures Valid()
      ensures output == Render(Done(secrets, old(pending) + bytes))
      ensures pending == Rest(secrets, old(pending) + bytes)
    {
      pending := pending + bytes;
      output := Drain(false);
    }

    method Finish() returns (output: seq<byte>)
      requires Valid()
      modifies this`pending
      ensures Valid() && pending == []
      ensures output == Render(Tail(old(pending)))
    {
      output := Drain(true);
      assert Decompose(secrets, old(pending)) == Tail(old(pending));
    }

    /** Redacts a stream that arrives in chunks, from its first push to the end of its session. */
    method RedactStream(chunks: seq<seq<byte>>) returns (output: seq<byte>)
      requires Valid() && pending == []
      modifies this`pending
      ensures Valid() && pending == []
      ensures output == Filtered(secrets, chunks)
    {
      hide Render, Done, Rest, Partial, Tail;
      output := [];
      for i := 0 to |chunks|
        invariant Valid()
        invariant output + Emitted(secrets, pending, chunks[i..]) == Emitted(secrets, [], chunks)
        invariant Left(secrets, pending, chunks[i..]) == Left(secrets, [], chunks)
      {
        assert chunks[i..][0] == chunks[i] && chunks[i..][1..] == chunks[i + 1..];
        var emitted := Push(chunks[i]);
        ConcatAssociative(output, emitted, Emitted(secrets, pending, chunks[i + 1..]));
        output := output + emitted;
      }
      assert output + [] == output;
      var tail := Finish();
      output := output + tail;
    }

    method Drain(end: bool) returns (output: seq<byte>)
      requires NoEmptySecret(secrets)
      modifies this`pending
      ensures output == Render(if end then Decompose(secrets, old(pending)) else Done(secrets, old(pending)))
      ensures pending == if end then [] else Rest(secrets, old(pending))
    {
      output := [];
      var offset := 0;
      ghost var text, todo := pending, pending;
      ghost var done: seq<Segment> := [];
      while offset < |pending|
        invariant 0 <= offset <= |pending| && pending == text && todo == pending[offset..]
        invariant output == Render(done)
        invariant Scanned(secrets, text, done, todo)
        decreases |pending| - offset
      {
        var remaining := pending[offset..];
        if Partial(secrets, remaining) {
          AmbiguousScan(secrets, text, done, todo);
          if end {
            output := output + REPLACEMENT;
            offset := |pending|;
          }
          pending := pending[offset..];
          return;
        }
        var length := MatchLength(secrets, remaining);
        ghost var segment := FirstSegment(secrets, remaining);
        ScanStep(secrets, text, done, todo);
        done, todo := done + [segment], todo[|segment.Text()|..];
        MatchesAdvance(secrets, remaining);
        if Matches(secrets, remaining) {
          output := output + REPLACEMENT;
          offset := offset + length;
        } else {
          output := output + [remaining[0]];
          offset := offset + 1;
        }
        assert todo == pending[offset..];
      }
      CompletedScan(secrets, text, done);
      pending := pending[offset..];
    }
  }

  /** Redacts one complete value with a scanner of its own. */
  method Text(environment: seq<seq<byte>>, value: seq<byte>) returns (output: seq<byte>)
    ensures exists secrets ::
              && NoEmptySecret(secrets)
              && (forall s :: s in secrets <==> s in environment && s != [])
              && output == Redacted(secrets, value)
  {
    hide Filtered, Render, Done, Rest, Partial;
    var redactor := new Redactor();
    for i := 0 to |environment|
      invariant redactor.Valid() && redactor.pending == []
      invariant forall s :: s in redactor.secrets <==> s in environment[..i] && s != []
    {
      redactor.Add(environment[i]);
    }
    assert environment[..|environment|] == environment;
    assert [] + (value + [DELIMITER]) == value + [DELIMITER];
    FilteredOnce(redactor.secrets, value + [DELIMITER]);
    output := redactor.Push(value + [DELIMITER]);
    var tail := redactor.Finish();
    output := output + tail;
    if |output| > 0 {
      output := output[..|output| - 1];
    }
  }
}
