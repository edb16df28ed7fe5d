/** Byte pages over append-only transcripts (src/transcript.rs). */
module Transcript {
  import opened Bytes
  import opened Utf8

  type SessionId = nat

  const NEWLINE: byte := 10
  const MAXIMUM_LIMIT: nat := 65536
  const EXTENSIONS: nat := 3

  datatype Page = Page(
    bytes: seq<byte>, startCursor: nat, totalBytes: nat, partialHead: bool,
    nextCursor: nat, eof: bool, incompleteTail: bool)

  datatype ReadError = LimitOutOfRange | NotFound | CursorBeyondEnd

  datatype ReadResult = Success(page: Page) | Failure(error: ReadError)

  /** The last byte that does not continue a character, or the first byte when there is none. */
  function LastLead(bytes: seq<byte>): (k: nat)
    ensures bytes == [] ==> k == 0
    ensures bytes != [] ==> k < |bytes|
    decreases |bytes|
  {
    if bytes == [] then 0
    else if !IsContinuation(bytes[|bytes| - 1]) then |bytes| - 1
    else LastLead(bytes[..|bytes| - 1])
  }

  predicate CutShort(bytes: seq<byte>) {
    Check(bytes[LastLead(bytes)..]) == Incomplete
  }

  /** Where a page that would end at `end` really ends: at most `steps` bytes later. */
  function Extended(file: seq<byte>, start: nat, end: nat, steps: nat): (e: nat)
    requires start <= end <= |file|
    ensures end <= e <= |file| && e <= end + steps
    decreases |file| - end
  {
    if steps > 0 && CutShort(file[start..end]) && end < |file| then Extended(file, start, end + 1, steps - 1)
    else end
  }

  /** Where a tail page that would start at `after` really starts: at most `steps` bytes earlier. */
  function BackedUp(file: seq<byte>, after: nat, steps: nat): (s: nat)
    requires after <= |file|
    ensures s <= after <= s + steps
    decreases after
  {
    if steps == 0 || after == 0 || after == |file| || !IsContinuation(file[after]) then after
    else BackedUp(file, after - 1, steps - 1)
  }

  function ForwardEnd(file: seq<byte>, start: nat, limit: nat): (e: nat)
    requires start <= |file|
    ensures start <= e <= |file| && e <= start + limit + EXTENSIONS
    ensures start < |file| && 1 <= limit ==> start < e
  {
    Extended(file, start, if start + limit <= |file| then start + limit else |file|, EXTENSIONS)
  }

  function TailStart(file: seq<byte>, limit: nat): (s: nat)
    ensures s <= |file| <= s + limit + EXTENSIONS
  {
    BackedUp(file, if limit <= |file| then |file| - limit else 0, EXTENSIONS)
  }

  /** The page that reports the bytes between two cursors of a file. */
  function PageOf(file: seq<byte>, start: nat, end: nat): Page
    requires start <= end <= |file|
  {
    Page(file[start..end], start, |file|, start > 0 && file[start - 1] != NEWLINE, end, end == |file|,
         file != [] && file[|file| - 1] != NEWLINE)
  }

  const EMPTY_PAGE := Page([], 0, 0, false, 0, true, false)

  class TranscriptStore {
    var transcripts: map<SessionId, seq<byte>>

    constructor ()
      ensures transcripts == map[]
    {
      transcripts := map[];
    }

    /** Appends provider bytes without rewriting any existing transcript data. */
    method AppendBytes(session: SessionId, bytes: seq<byte>)
      modifies this
      ensures transcripts == old(transcripts)[session :=
                (if session in old(transcripts) then old(transcripts)[session] else []) + bytes]
    {
      if session !in transcripts {
        transcripts := transcripts[session := []];
      }
      transcripts := transcripts[session := transcripts[session] + bytes];
    }

    method ReadPage(session: SessionId, cursor: nat, limit: nat, tail: bool) returns (result: ReadResult)
      requires tail ==> cursor == 0
      ensures !(1 <= limit <= MAXIMUM_LIMIT) ==> result == Failure(LimitOutOfRange)
      ensures 1 <= limit <= MAXIMUM_LIMIT && session !in transcripts
              ==> result == if cursor == 0 then Success(EMPTY_PAGE) else Failure(NotFound)
      ensures 1 <= limit <= MAXIMUM_LIMIT && session in transcripts ==>
                var file := transcripts[session];
                result ==
                  if tail then Success(PageOf(file, TailStart(file, limit), |file|))
                  else if cursor > |file| then Failure(CursorBeyondEnd)
                  else Success(PageOf(file, cursor, ForwardEnd(file, cursor, limit)))
      ensures result.Success? && session in transcripts ==>
                var page, file := result.page, transcripts[session];
                && page.startCursor <= page.nextCursor <= |file| == page.totalBytes
                && page.bytes == file[page.startCursor..page.nextCursor]
                && (if tail then page.startCursor == TailStart(file, limit) && page.nextCursor == |file|
                    else page.startCursor == cursor && page.nextCursor == ForwardEnd(file, cursor, limit))
                && (page.eof <==> page.nextCursor == |file|)
                && (page.partialHead <==> page.startCursor > 0 && file[page.startCursor - 1] != 10)
                && (page.incompleteTail <==> |file| > 0 && file[|file| - 1] != 10)
      ensures result.Success? && session !in transcripts ==>
                var page := result.page;
                && page.bytes == [] && page.startCursor == page.totalBytes == page.nextCursor == 0
                && !page.partialHead && page.eof && !page.incompleteTail
    {
      hide Extended, BackedUp;
      if !(1 <= limit <= MAXIMUM_LIMIT) {
        return Failure(LimitOutOfRange);
      }
      if session !in transcripts {
        return if cursor == 0 then Success(EMPTY_PAGE) else Failure(NotFound);
      }
      var file := transcripts[session];
      var length := |file|;
      var after := cursor;
      if tail {
        after := SeekTail(file, limit);
      }
      if after > length {
        return Failure(CursorBeyondEnd);
      }
      var next := if tail || length < after + limit then length else after + limit;
      next := ReadOn(file, after, next);
      assert next == if tail then length else ForwardEnd(file, after, limit);
      var partialHead := after > 0 && file[after - 1] != NEWLINE;
      var last := if length > 0 then file[length - 1] else NEWLINE;
      return Success(Page(file[after..next], after, length, partialHead, next, next == length, last != NEWLINE));
    }

    /**
     * Follows a transcript: every page starts where the one before it ended, and other sessions' output and more of
     * this one's may be appended before each read. What is received is exactly the file up to the cursor.
     */
    method Follow(session: SessionId, limits: seq<nat>, appended: seq<(SessionId, seq<byte>)>)
      returns (received: seq<byte>, cursor: nat)
      requires session in transcripts && |limits| == |appended|
      requires forall i | 0 <= i < |limits| :: 1 <= limits[i] <= MAXIMUM_LIMIT
      modifies this
      ensures session in transcripts && old(transcripts[session]) <= transcripts[session]
      ensures cursor <= |transcripts[session]| && received == transcripts[session][..cursor]
    {
      received, cursor := [], 0;
      for i := 0 to |limits|
        invariant session in transcripts && old(transcripts[session]) <= transcripts[session]
        invariant cursor <= |transcripts[session]| && received == transcripts[session][..cursor]
      {
        AppendBytes(appended[i].0, appended[i].1);
        var result := ReadPage(session, cursor, limits[i], false);
        received, cursor := received + result.page.bytes, result.page.nextCursor;
      }
    }

    /** Includes the leading byte when the tail starts inside a character. */
    static method SeekTail(file: seq<byte>, limit: nat) returns (after: nat)
      ensures after == TailStart(file, limit)
    {
      after := if limit <= |file| then |file| - limit else 0;
      var steps := 0;
      while steps < EXTENSIONS
        invariant 0 <= steps <= EXTENSIONS && after <= |file|
        invariant BackedUp(file, after, EXTENSIONS - steps) == TailStart(file, limit)
      {
        if after == 0 || after == |file| || !IsContinuation(file[after]) {
          break;
        }
        after, steps := after - 1, steps + 1;
      }
    }

    /** Reads the at most three bytes that a bisected character still lacks. */
    static method ReadOn(file: seq<byte>, after: nat, end: nat) returns (next: nat)
      requires after <= end <= |file|
      ensures next == Extended(file, after, end, EXTENSIONS)
    {
      var bytes := file[after..end];
      next := end;
      var steps := 0;
      while steps < EXTENSIONS
        invariant 0 <= steps <= EXTENSIONS && after <= next <= |file|
        invariant bytes == file[after..next]
        invariant Extended(file, after, next, EXTENSIONS - steps) == Extended(file, after, end, EXTENSIONS)
      {
        if !(CutShort(bytes) && next < |file|) {
          break;
        }
        SliceSnoc(file, after, next);
        bytes, next, steps := bytes + [file[next]], next + 1, steps + 1;
      }
    }
  }

  // ----- Pages of well-formed text are whole characters -----

  /** Up to a covering character's end, the page's last slice is that character, cut short or whole. */
  lemma {:induction false} LastSliceIsTheCharacter(s: seq<byte>, p: nat, n: nat)
    requires CoveredBy(s, p, n)
    ensures LastLead(s[..n]) == p
    ensures CutShort(s[..n]) <==> n < p + CharLength(s[p])
    decreases n
  {
    hide WellFormed;
    var c := s[p..p + CharLength(s[p])];
    assert s[..n][..n - 1] == s[..n - 1];
    if n - 1 > p {
      assert s[n - 1] == c[n - 1 - p];
      LastSliceIsTheCharacter(s, p, n - 1);
    }
    assert s[..n][p..] == c[..n - p];
    CheckOfOneCharacter(c[..n - p]);
  }

  /** The extension stops at the end of the covering character, wherever the text around it stops being whole. */
  lemma {:induction false} ExtensionReachesTheEnd(file: seq<byte>, start: nat, bound: nat, p: nat, n: nat, steps: nat)
    requires start <= bound <= |file| && CoveredBy(file[start..bound], p, n)
    requires p + CharLength(file[start..bound][p]) <= n + steps
    ensures Extended(file, start, start + n, steps) == start + p + CharLength(file[start..bound][p])
    decreases steps
  {
    hide WellFormed, Begins, Check, CharLength;
    var s := file[start..bound];
    LastSliceIsTheCharacter(s, p, n);
    assert s[..n] == file[start..start + n];
    if n < p + CharLength(s[p]) {
      ExtensionReachesTheEnd(file, start, bound, p, n + 1, steps - 1);
    }
  }

  /** Where a page would end if characters did not matter. */
  function PlainEnd(file: seq<byte>, start: nat, limit: nat): (e: nat)
    requires start <= |file|
    ensures start <= e <= |file|
  {
    if start + limit <= |file| then start + limit else |file|
  }

  /** Whole characters reach from the start of a forward page to within three bytes behind its limit. */
  ghost predicate EndsWhole(file: seq<byte>, start: nat, limit: nat)
    requires start <= |file|
  {
    exists bound :: PlainEnd(file, start, limit) <= bound <= |file| && bound <= PlainEnd(file, start, limit) + EXTENSIONS
                    && WellFormed(file[start..bound])
  }

  /** A page is whole characters if whole characters reach as far as its limit, whatever follows them. */
  lemma PageEndsAfterCharacter(file: seq<byte>, start: nat, limit: nat, bound: nat)
    requires start <= |file| && PlainEnd(file, start, limit) <= bound <= |file| && WellFormed(file[start..bound])
    ensures WellFormed(file[start..ForwardEnd(file, start, limit)])
  {
    hide WellFormed, Begins, Check;
    var s, n := file[start..bound], PlainEnd(file, start, limit) - start;
    if n == 0 {
      WellFormedNothing();
      assert file[start..start] == [];
      assert ForwardEnd(file, start, limit) == start by { EmptyPagesAreNotCutShort(); }
    } else {
      var p := CoveringCharacter(s, n);
      ExtensionReachesTheEnd(file, start, bound, p, n, EXTENSIONS);
      BoundaryAfter(s, p, n);
      assert s[..p + CharLength(s[p])] == file[start..start + p + CharLength(s[p])];
    }
  }

  lemma EmptyPagesAreNotCutShort()
    ensures !CutShort([])
  {
  }

  lemma WellFormedNothing()
    ensures WellFormed([])
  {
  }

  /** Exactly when a forward page of any file is whole characters. */
  lemma ForwardPageIsWholeExactly(file: seq<byte>, start: nat, limit: nat)
    requires start <= |file|
    ensures WellFormed(file[start..ForwardEnd(file, start, limit)]) <==> EndsWhole(file, start, limit)
  {
    hide WellFormed;
    if EndsWhole(file, start, limit) {
      var bound :| PlainEnd(file, start, limit) <= bound <= |file| && WellFormed(file[start..bound]);
      PageEndsAfterCharacter(file, start, limit, bound);
    }
  }

  lemma AppendWhole(file: seq<byte>, start: nat, end: nat)
    requires start <= end <= |file| && WellFormed(file[..start]) && WellFormed(file[start..end])
    ensures WellFormed(file[..end])
  {
    WellFormedConcat(file[..start], file[start..end]);
    assert file[..end] == file[..start] + file[start..end];
  }

  /**
   * From a character boundary, a forward page is whole characters and ends at a boundary if its limit stays
   * within the whole characters of the file, even when the last character is still being appended.
   */
  lemma ForwardPageIsWhole(file: seq<byte>, start: nat, limit: nat, whole: nat)
    requires start <= whole <= |file| && WellFormed(file[..start]) && WellFormed(file[..whole])
    requires PlainEnd(file, start, limit) <= whole
    ensures var end := ForwardEnd(file, start, limit);
            && WellFormed(file[start..end]) && WellFormed(file[..end])
            && end - start <= limit + EXTENSIONS
  {
    hide WellFormed, ForwardEnd;
    assert file[..whole][..start] == file[..start] && file[..whole][start..] == file[start..whole];
    WellFormedRest(file[..whole], start);
    PageEndsAfterCharacter(file, start, limit, whole);
    AppendWhole(file, start, ForwardEnd(file, start, limit));
  }

  /** Backing up stops at the first byte of the covering character, whatever precedes it. */
  lemma {:induction false} BackingUpReachesTheLead(file: seq<byte>, bound: nat, p: nat, n: nat, steps: nat)
    requires bound <= |file| && CoveredBy(file[bound..], p, n) && n - 1 - p <= steps
    ensures BackedUp(file, bound + n - 1, steps) == bound + p
    decreases steps
  {
    var s := file[bound..];
    var c := s[p..p + CharLength(s[p])];
    assert file[bound + n - 1] == s[n - 1] == c[n - 1 - p];
    if n - 1 > p {
      BackingUpReachesTheLead(file, bound, p, n - 1, steps - 1);
    }
  }

  /** Where a tail page would start if characters did not matter. */
  function PlainStart(file: seq<byte>, limit: nat): (s: nat)
    ensures s <= |file|
  {
    if limit <= |file| then |file| - limit else 0
  }

  /** Whole characters reach to the end of the file from within three bytes before the tail's limit. */
  ghost predicate StartsWhole(file: seq<byte>, limit: nat) {
    exists bound :: PlainStart(file, limit) - EXTENSIONS <= bound <= PlainStart(file, limit)
                    && 0 <= bound && WellFormed(file[bound..])
  }

  lemma TailStartsAtCharacter(file: seq<byte>, limit: nat, bound: nat)
    requires bound <= PlainStart(file, limit) && WellFormed(file[bound..])
    ensures bound <= TailStart(file, limit)
    ensures WellFormed(file[bound..TailStart(file, limit)]) && WellFormed(file[TailStart(file, limit)..])
  {
    hide WellFormed;
    var n := PlainStart(file, limit);
    WellFormedNothing();
    if n == |file| {
      assert file[n..] == [] && file[bound..n] == file[bound..];
    } else {
      var s := file[bound..];
      var p := CoveringCharacter(s, n - bound + 1);
      BackingUpReachesTheLead(file, bound, p, n - bound + 1, EXTENSIONS);
      assert s[..p] == file[bound..bound + p] && s[p..] == file[bound + p..];
    }
  }

  /** Exactly when a tail page of any file is whole characters. */
  lemma TailPageIsWholeExactly(file: seq<byte>, limit: nat)
    ensures WellFormed(file[TailStart(file, limit)..]) <==> StartsWhole(file, limit)
  {
    hide WellFormed;
    if StartsWhole(file, limit) {
      var bound :| 0 <= bound <= PlainStart(file, limit) && WellFormed(file[bound..]);
      TailStartsAtCharacter(file, limit, bound);
    }
  }

  /** A tail page starts between characters and is whole characters exactly when the whole file is well formed. */
  lemma TailPageIsWhole(file: seq<byte>, limit: nat)
    ensures var start := TailStart(file, limit);
            && |file| - start <= limit + EXTENSIONS
            && (WellFormed(file[..start]) && WellFormed(file[start..]) <==> WellFormed(file))
  {
    hide WellFormed;
    var start := TailStart(file, limit);
    assert file[0..] == file && file[0..start] == file[..start] && file[..start] + file[start..] == file;
    if WellFormed(file) {
      TailStartsAtCharacter(file, limit, 0);
    }
    if WellFormed(file[..start]) && WellFormed(file[start..]) {
      WellFormedConcat(file[..start], file[start..]);
    }
  }

  // ----- Reading a growing file page by page -----

  /** One page read: the file as it is at that moment, and the limit asked for. */
  datatype Visit = Visit(file: seq<byte>, limit: nat)

  /** Between reads the file only grows. */
  ghost predicate Growing(visits: seq<Visit>) {
    && (forall i | 0 <= i < |visits| :: 1 <= visits[i].limit)
    && forall i | 0 < i < |visits| :: visits[i - 1].file <= visits[i].file
  }

  /** The page that a visit gets when it asks from this cursor on. */
  function PageRead(visit: Visit, cursor: nat): Page
    requires cursor <= |visit.file|
  {
    PageOf(visit.file, cursor, ForwardEnd(visit.file, cursor, visit.limit))
  }

  /** The cursor after the visits, each page starting at the next cursor of the one before it. */
  ghost function Cursor(visits: seq<Visit>): (c: nat)
    requires Growing(visits)
    ensures visits == [] ==> c == 0
    ensures visits != [] ==> c <= |visits[|visits| - 1].file|
    decreases |visits|
  {
    if visits == [] then 0
    else PageRead(visits[|visits| - 1], Cursor(visits[..|visits| - 1])).nextCursor
  }

  /** The bytes of all pages. */
  ghost function Received(visits: seq<Visit>): seq<byte>
    requires Growing(visits)
    decreases |visits|
  {
    if visits == [] then []
    else
      var before := visits[..|visits| - 1];
      Received(before) + PageRead(visits[|visits| - 1], Cursor(before)).bytes
  }

  lemma ConsecutiveSlices(shorter: seq<byte>, longer: seq<byte>, middle: nat, end: nat)
    requires shorter <= longer && middle <= |shorter| && middle <= end <= |longer|
    ensures shorter[..middle] + longer[middle..end] == longer[..end]
  {
  }

  lemma PageReadOn(visit: Visit, cursor: nat)
    requires cursor <= |visit.file|
    ensures var page := PageRead(visit, cursor);
            && cursor <= page.nextCursor <= |visit.file|
            && page.bytes == visit.file[cursor..page.nextCursor]
  {
  }

  /** Pages concatenate exactly to the file up to the cursor, appends in between included. */
  lemma {:induction false} PagesAreLossless(visits: seq<Visit>)
    requires Growing(visits) && visits != []
    ensures Received(visits) == visits[|visits| - 1].file[..Cursor(visits)]
    decreases |visits|
  {
    hide PageRead;
    var before, visit := visits[..|visits| - 1], visits[|visits| - 1];
    PageReadOn(visit, Cursor(before));
    if before != [] {
      PagesAreLossless(before);
      ConsecutiveSlices(visits[|visits| - 2].file, visit.file, Cursor(before), Cursor(visits));
    }
  }

  lemma CursorsWithin(visits: seq<Visit>, i: nat)
    requires Growing(visits) && i < |visits|
    ensures Cursor(visits[..i]) <= Cursor(visits[..i + 1]) <= |visits[i].file|
    ensures Cursor(visits[..i + 1]) == ForwardEnd(visits[i].file, Cursor(visits[..i]), visits[i].limit)
  {
    assert visits[..i + 1][..i] == visits[..i];
  }

  ghost predicate PageIsWhole(visits: seq<Visit>, i: nat)
    requires Growing(visits) && i < |visits|
  {
    CursorsWithin(visits, i);
    WellFormed(visits[i].file[Cursor(visits[..i])..Cursor(visits[..i + 1])])
  }

  /**
   * Exactly when every page read from a growing file is whole characters: whole characters reach from each
   * cursor to within three bytes behind the limit. Then every cursor stands between characters.
   */
  lemma {:induction false} PagesStayAligned(visits: seq<Visit>)
    requires Growing(visits)
    ensures (forall i: nat | i < |visits| :: PageIsWhole(visits, i)) <==>
              forall i: nat | i < |visits| :: EndsWhole(visits[i].file, Cursor(visits[..i]), visits[i].limit)
    ensures (forall i: nat | i < |visits| :: PageIsWhole(visits, i)) && visits != [] ==>
              WellFormed(visits[|visits| - 1].file[..Cursor(visits)])
    decreases |visits|
  {
    hide ForwardEnd, Begins, CharLength, WellFormed, EndsWhole, Cursor;
    forall i: nat | i < |visits|
      ensures PageIsWhole(visits, i) <==> EndsWhole(visits[i].file, Cursor(visits[..i]), visits[i].limit)
    {
      CursorsWithin(visits, i);
      ForwardPageIsWholeExactly(visits[i].file, Cursor(visits[..i]), visits[i].limit);
    }
    if visits != [] && forall i: nat | i < |visits| :: PageIsWhole(visits, i) {
      WholePagesEndBetweenCharacters(visits);
    }
  }

  lemma NothingRead()
    ensures Cursor([]) == 0
  {
  }

  lemma {:induction false} WholePagesEndBetweenCharacters(visits: seq<Visit>)
    requires Growing(visits) && visits != [] && forall i: nat | i < |visits| :: PageIsWhole(visits, i)
    ensures WellFormed(visits[|visits| - 1].file[..Cursor(visits)])
    decreases |visits|
  {
    hide ForwardEnd, Begins, CharLength, WellFormed, Growing, Cursor;
    WellFormedNothing();
    var n := |visits| - 1;
    GrowingStepByStep(visits, n);
    CursorsWithin(visits, n);
    NothingRead();
    var last, before := visits[n], visits[..n];
    assert visits[..n + 1] == visits;
    assert PageIsWhole(visits, n);
    if before == [] {
      assert last.file[..0] == [];
    } else {
      forall i: nat | i < n
        ensures PageIsWhole(before, i)
      {
        assert PageIsWhole(visits, i) && before[..i] == visits[..i] && before[..i + 1] == visits[..i + 1];
      }
      WholePagesEndBetweenCharacters(before);
      assert last.file[..Cursor(before)] == visits[n - 1].file[..Cursor(before)];
    }
    AppendWhole(last.file, Cursor(before), Cursor(visits));
  }

  /** The page asked for stays within the first `whole` bytes of the file, which are whole characters. */
  ghost predicate ReadsWithin(visit: Visit, cursor: nat, whole: nat) {
    cursor <= |visit.file| && PlainEnd(visit.file, cursor, visit.limit) <= whole <= |visit.file| && WellFormed(visit.file[..whole])
  }

  /** Every page asked for stays within whole characters, which reach a little further at every visit. */
  ghost predicate AllReadWithin(visits: seq<Visit>, whole: seq<nat>)
    requires Growing(visits) && |whole| == |visits|
    decreases |visits|
  {
    visits == []
    || var n := |visits| - 1;
       ReadsWithin(visits[n], Cursor(visits[..n]), whole[n]) && AllReadWithin(visits[..n], whole[..n])
  }

  /** While every limit stays within the whole characters of the file, the cursor always stands between characters. */
  lemma {:induction false} WholeTextStaysAligned(visits: seq<Visit>, whole: seq<nat>)
    requires Growing(visits) && visits != [] && |whole| == |visits| && AllReadWithin(visits, whole)
    ensures WellFormed(visits[|visits| - 1].file[..Cursor(visits)]) && PageIsWhole(visits, |visits| - 1)
    decreases |visits|
  {
    hide ForwardEnd, Begins, CharLength, WellFormed, ReadsWithin, Cursor, Growing;
    var n := |visits| - 1;
    GrowingStepByStep(visits, n);
    if n > 0 {
      WholeTextStaysAligned(visits[..n], whole[..n]);
    }
    CursorStaysBetween(visits, whole[n]);
  }

  lemma GrowingStepByStep(visits: seq<Visit>, n: nat)
    requires Growing(visits) && n < |visits|
    ensures Growing(visits[..n]) && (n > 0 ==> visits[n - 1].file <= visits[n].file)
  {
  }

  lemma CursorStaysBetween(visits: seq<Visit>, whole: nat)
    requires Growing(visits) && visits != []
    requires ReadsWithin(visits[|visits| - 1], Cursor(visits[..|visits| - 1]), whole)
    requires |visits| > 1 ==> WellFormed(visits[|visits| - 2].file[..Cursor(visits[..|visits| - 1])])
    ensures WellFormed(visits[|visits| - 1].file[..Cursor(visits)]) && PageIsWhole(visits, |visits| - 1)
  {
    hide ForwardEnd, Begins, CharLength, WellFormed, Growing;
    WellFormedNothing();
    var n := |visits| - 1;
    GrowingStepByStep(visits, n);
    var last, cursor := visits[n], Cursor(visits[..n]);
    assert visits[..n + 1] == visits;
    if n == 0 {
      assert last.file[..0] == [];
    } else {
      assert last.file[..cursor] == visits[n - 1].file[..cursor];
    }
    ForwardPageIsWhole(last.file, cursor, last.limit, whole);
  }

  /** A file that no longer grows is read to its end: every page before that advances the cursor. */
  lemma {:induction false} ReadingReachesTheEnd(visits: seq<Visit>, file: seq<byte>)
    requires Growing(visits) && forall i | 0 <= i < |visits| :: visits[i].file == file
    ensures Cursor(visits) == |file| || Cursor(visits) >= |visits|
    ensures Cursor(visits) <= |file|
    decreases |visits|
  {
    if visits != [] {
      var before := visits[..|visits| - 1];
      ReadingReachesTheEnd(before, file);
    }
  }

  lemma ReadingIsComplete(visits: seq<Visit>, file: seq<byte>)
    requires Growing(visits) && forall i | 0 <= i < |visits| :: visits[i].file == file
    requires |file| <= |visits|
    ensures Received(visits) == file
  {
    ReadingReachesTheEnd(visits, file);
    if visits != [] {
      PagesAreLossless(visits);
    }
  }

  /** Alignment needs well-formed text: three extensions can stop inside a character of other bytes. */
  lemma MalformedPageMayStopInside()
    ensures var file := [0xC3, 0xF0, 0x9F, 0xA6, 0x80];
            && ForwardEnd(file, 0, 1) == 4 && !WellFormed(file) && Production(file[1..]) && CutShort(file[..4])
            && !EndsWhole(file, 0, 1)
  {
    var file: seq<byte> := [0xC3, 0xF0, 0x9F, 0xA6, 0x80];
    assert file[0..1] == [0xC3] && file[0..2] == [0xC3, 0xF0];
    assert file[0..3] == [0xC3, 0xF0, 0x9F] && file[0..4] == [0xC3, 0xF0, 0x9F, 0xA6];
    assert CutShort([0xC3]) by { assert [0xC3][0..] == [0xC3]; }
    assert CutShort(file[..4]) by {
      assert file[..4][..3] == file[..3] && file[..3][..2] == file[..2];
      assert file[..4][1..] == [0xF0, 0x9F, 0xA6];
      CheckOfOneCharacter([0xF0, 0x9F, 0xA6]);
    }
    assert CutShort([0xC3, 0xF0]) by { assert [0xC3, 0xF0][1..] == [0xF0]; }
    CheckDecidesWellFormed(file);
    CheckDecidesWellFormed(file[0..4]);
    ForwardPageIsWholeExactly(file, 0, 1);
  }
}
