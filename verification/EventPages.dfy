/** Reading a run's event stream in bounded pages (src/state.rs). */
module EventPages {
  import opened Tables
  import opened Database

  const MAXIMUM_EVENT_PAGE_LENGTH: nat := 900 * 1024

  /** The encoded length of a stretch of events; the encoding itself is a parameter. */
  function Length(events: seq<Event>, size: Event -> nat): nat
    decreases |events|
  {
    if events == [] then 0 else Length(events[..|events| - 1], size) + size(events[|events| - 1])
  }

  /** The rows after a cursor, in sequence order. */
  function RowsAfter(log: seq<Event>, after: int): seq<Event>
    requires Numbered(log, (e: Event) => e.sequence)
  {
    if after >= |log| then [] else if after <= 0 then log else log[after..]
  }

  /** The rows selected are exactly the events beyond the cursor, whatever the cursor is. */
  lemma RowsAreBeyondTheCursor(log: seq<Event>, after: int)
    requires Numbered(log, (e: Event) => e.sequence)
    ensures forall e :: e in RowsAfter(log, after) <==> e in log && e.sequence > after
    ensures Numbered(RowsAfter(log, after), (e: Event) => e.sequence - if after < 0 then 0 else after)
  {
    var key := (e: Event) => e.sequence;
    assert forall i | 0 <= i < |log| :: key(log[i]) == i + 1;
    if 0 < after < |log| {
      assert forall i | after <= i < |log| :: log[after..][i - after] == log[i];
    }
  }

  /**
   * A page is the longest stretch of rows after the cursor within both limits, except that an event too
   * large for any page is returned alone.
   */
  method EventsAfter(log: seq<Event>, after: int, limit: nat, size: Event -> nat) returns (events: seq<Event>)
    requires Numbered(log, (e: Event) => e.sequence)
    ensures events <= RowsAfter(log, after) && |events| <= limit
    ensures Length(events, size) <= MAXIMUM_EVENT_PAGE_LENGTH || |events| == 1
    ensures var rows := RowsAfter(log, after);
            |events| < limit && |events| < |rows| ==>
              events != [] && Length(rows[..|events| + 1], size) > MAXIMUM_EVENT_PAGE_LENGTH
  {
    var rows := RowsAfter(log, after);
    var selected := if |rows| > limit then rows[..limit] else rows;
    events := [];
    var length := 0;
    for i := 0 to |selected|
      invariant events == selected[..i] && length == Length(events, size)
      invariant length <= MAXIMUM_EVENT_PAGE_LENGTH || |events| == 1
    {
      var event := selected[i];
      var encoded := size(event);
      assert rows[..i + 1] == events + [event] && (events + [event])[..i] == events;
      if events != [] && length + encoded > MAXIMUM_EVENT_PAGE_LENGTH {
        return;
      }
      length := length + encoded;
      events := events + [event];
    }
  }

  /** Reading on from the last event of a page misses nothing and repeats nothing. */
  lemma PagesAreLossless(log: seq<Event>, after: nat, page: seq<Event>)
    requires Numbered(log, (e: Event) => e.sequence)
    requires page != [] && page <= RowsAfter(log, after)
    ensures page + RowsAfter(log, page[|page| - 1].sequence) == RowsAfter(log, after)
  {
    var key := (e: Event) => e.sequence;
    assert key(log[after + |page| - 1]) == after + |page|;
    var rows := RowsAfter(log, after);
    assert page[|page| - 1] == rows[|page| - 1];
    assert rows == page + rows[|page|..];
  }
}
