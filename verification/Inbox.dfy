/** Durable inboxes and prefix acknowledgement (src/state.rs). */
module Inboxes {
  import opened Bytes
  import opened Tables
  import opened Database
  import opened EventLog

  // ----- Operations -----

  datatype SendInput = SendInput(
    operation: OperationId, run: RunId, actor: Option<AgentId>, recipient: AgentId, body: string, at: Time)

  function WithInbox(db: Db, run: RunId, agent: AgentId, box: seq<Message>): Db {
    db.(inboxes := db.inboxes[(run, agent) := box])
  }

  function Sequence(): Message -> int {
    (m: Message) => m.sequence
  }

  function ApplySend(db: Db, input: SendInput): Result<(Db, Response)> {
    var box := Inbox(db, input.run, input.recipient);
    var sequence := Highest(box, Sequence()) + 1;
    if !AgentInRun(db, input.recipient, input.run)
       || (input.actor.Some? && !AgentInRun(db, input.actor.value, input.run))
    then Err(ConstraintViolation)
    else
      var sent := WithInbox(db, input.run, input.recipient,
                            box + [Message(input.actor, sequence, input.body, input.at, None)]);
      Ok((Append(sent, input.run, input.actor, input.operation, MessageSent(input.recipient, sequence)), Sent(sequence)))
  }

  datatype AcknowledgeInput = AcknowledgeInput(
    operation: OperationId, run: RunId, agent: AgentId, through: int, at: Time)

  predicate Covers(input: AcknowledgeInput, m: Message) {
    m.sequence <= input.through && m.acknowledged.None?
  }

  /** The highest acknowledged sequence; an unacknowledged row counts as the default, zero. */
  function Cursor(box: seq<Message>): int {
    Highest(box, (m: Message) => if m.acknowledged.Some? then m.sequence else 0)
  }

  function ApplyAcknowledge(db: Db, input: AcknowledgeInput): Result<(Db, Response)> {
    var box := Inbox(db, input.run, input.agent);
    var highest := Highest(box, Sequence());
    if input.through <= 0 || input.through > highest then Ok((db, CursorNotFound(highest)))
    else if exists m | m in box :: Covers(input, m) && input.at < m.createdAt then Err(ConstraintViolation)
    else
      var covered := (m: Message) => Covers(input, m);
      var previous, count := Cursor(box), Count(box, covered);
      var through := if previous > input.through then previous else input.through;
      var updated := WithInbox(db, input.run, input.agent,
                               Update(box, covered, (m: Message) => m.(acknowledged := Some(input.at))));
      var after := if count == 0 then updated
        else Append(updated, input.run, Some(input.agent), input.operation,
                    MessageAcknowledged(input.agent, count, through));
      Ok((after, Acknowledged(through, count)))
  }

  // ----- Which sends and acknowledgements are accepted -----

  /** A message is accepted exactly for an agent of the run, from the operator or another agent of it; it is stored unread. */
  lemma SendsAreAcceptedExactly(db: Db, input: SendInput)
    ensures ApplySend(db, input).Ok? <==>
              && input.recipient in db.agents && db.agents[input.recipient].run == input.run
              && (match input.actor
                  case None => true
                  case Some(sender) => sender in db.agents && db.agents[sender].run == input.run)
    ensures ApplySend(db, input).Ok? ==>
              var box, after := Inbox(db, input.run, input.recipient), ApplySend(db, input).value.0;
              var sequence := Highest(box, (m: Message) => m.sequence) + 1;
              && ApplySend(db, input).value.1 == Sent(sequence)
              && Inbox(after, input.run, input.recipient) ==
                   box + [Message(input.actor, sequence, input.body, input.at, None)]
  {
    assert Sequence() == ((m: Message) => m.sequence);
  }

  /** An acknowledgement is refused exactly at a cursor that does not exist, and fails only if dated before a message it covers. */
  lemma AcknowledgementsAreAcceptedExactly(db: Db, input: AcknowledgeInput)
    ensures var box := Inbox(db, input.run, input.agent);
            var highest := Highest(box, Sequence());
            && (ApplyAcknowledge(db, input) == Ok((db, CursorNotFound(highest))) <==>
                  input.through <= 0 || input.through > highest)
            && (ApplyAcknowledge(db, input).Err? <==>
                  && 0 < input.through <= highest
                  && exists i :: 0 <= i < |box| && box[i].sequence <= input.through && box[i].acknowledged.None?
                                 && input.at < box[i].createdAt)
  {
    hide Highest, Cursor, Count, Update, Append;
    var box := Inbox(db, input.run, input.agent);
    if exists m | m in box :: Covers(input, m) && input.at < m.createdAt {
      var m :| m in box && Covers(input, m) && input.at < m.createdAt;
      var i :| 0 <= i < |box| && box[i] == m;
    } else {
      assert forall i | 0 <= i < |box| :: box[i] in box;
    }
  }

  // ----- The invariant -----

  /** Exactly the first `k` messages are acknowledged. */
  ghost predicate AcknowledgedThrough(box: seq<Message>, k: nat) {
    k <= |box| && forall i | 0 <= i < |box| :: box[i].acknowledged.Some? <==> i < k
  }

  /** In a numbered inbox the cursor is the length of the acknowledged prefix. */
  lemma {:induction false} CursorOfPrefix(box: seq<Message>, k: nat)
    requires Numbered(box, Sequence()) && AcknowledgedThrough(box, k)
    ensures Cursor(box) == k
    decreases |box|
  {
    if box != [] {
      var n := |box| - 1;
      assert Sequence()(box[n]) == n + 1;
      assert forall i | 0 <= i < n :: Sequence()(box[..n][i]) == Sequence()(box[i]);
      CursorOfPrefix(box[..n], if k == |box| then n else k);
    }
  }

  lemma {:induction false} CountInRange(box: seq<Message>, input: AcknowledgeInput, k: nat)
    requires Numbered(box, Sequence()) && AcknowledgedThrough(box, k)
    ensures Count(box, (m: Message) => Covers(input, m)) ==
              (if input.through <= k then 0 else if input.through <= |box| then input.through - k else |box| - k)
    decreases |box|
  {
    if box != [] {
      var n := |box| - 1;
      assert Sequence()(box[n]) == n + 1;
      assert forall i | 0 <= i < n :: Sequence()(box[..n][i]) == Sequence()(box[i]);
      CountInRange(box[..n], input, if k == |box| then n else k);
    }
  }

  function Greater(a: int, b: int): int {
    if a > b then a else b
  }

  /**
   * An acknowledgement at an existing cursor moves the prefix forward to it, never back, and reports the
   * new prefix and how much it grew; any other cursor changes nothing.
   */
  lemma AcknowledgementMovesThePrefix(db: Db, input: AcknowledgeInput, k: nat)
    requires Numbered(Inbox(db, input.run, input.agent), Sequence())
    requires AcknowledgedThrough(Inbox(db, input.run, input.agent), k)
    requires ApplyAcknowledge(db, input).Ok?
    ensures var box := Inbox(db, input.run, input.agent);
            var (after, response) := ApplyAcknowledge(db, input).value;
            if 0 < input.through <= |box| then
              && response == Acknowledged(Greater(k, input.through), Greater(k, input.through) - k)
              && Numbered(Inbox(after, input.run, input.agent), Sequence())
              && |Inbox(after, input.run, input.agent)| == |box|
              && AcknowledgedThrough(Inbox(after, input.run, input.agent), Greater(k, input.through))
            else after == db && response == CursorNotFound(|box|)
  {
    var box := Inbox(db, input.run, input.agent);
    HighestOfNumbered(box, Sequence());
    if 0 < input.through <= |box| {
      CursorOfPrefix(box, k);
      CountInRange(box, input, k);
      var updated := Update(box, (m: Message) => Covers(input, m), (m: Message) => m.(acknowledged := Some(input.at)));
      assert Inbox(ApplyAcknowledge(db, input).value.0, input.run, input.agent) == updated;
      forall i | 0 <= i < |box|
        ensures updated[i].sequence == i + 1
        ensures updated[i].acknowledged.Some? <==> i < Greater(k, input.through)
      {
        assert Sequence()(box[i]) == i + 1;
      }
    }
  }

  // ----- The log of an inbox -----

  /** How many messages a log says were sent to an agent. */
  function SentIn(log: seq<Event>, agent: AgentId): nat
    decreases |log|
  {
    if log == [] then 0
    else
      var rest := SentIn(log[..|log| - 1], agent);
      match log[|log| - 1].body
      case MessageSent(recipient, _) => if recipient == agent then rest + 1 else rest
      case _ => rest
  }

  /** The sum of the counts an agent's acknowledgements reported. */
  function AcknowledgedIn(log: seq<Event>, agent: AgentId): nat
    decreases |log|
  {
    if log == [] then 0
    else
      var rest := AcknowledgedIn(log[..|log| - 1], agent);
      match log[|log| - 1].body
      case MessageAcknowledged(reader, count, _) => if reader == agent then rest + count else rest
      case _ => rest
  }

  lemma InboxFoldsAfter(
      log: seq<Event>, actor: Option<AgentId>, operation: OperationId, body: EventBody, agent: AgentId)
    ensures var longer := Appended(log, actor, operation, body);
            && SentIn(longer, agent) ==
                 SentIn(log, agent) + (if body.MessageSent? && body.recipient == agent then 1 else 0)
            && AcknowledgedIn(longer, agent) ==
                 AcknowledgedIn(log, agent)
                 + (if body.MessageAcknowledged? && body.reader == agent then body.count else 0)
  {
    var longer := Appended(log, actor, operation, body);
    assert longer[..|longer| - 1] == log;
  }

  /** Messages are numbered 1..n, exactly 1..k are acknowledged, and the log tells both n and k. */
  ghost predicate InboxTold(log: seq<Event>, box: seq<Message>, agent: AgentId) {
    && Numbered(box, Sequence()) && SentIn(log, agent) == |box|
    && AcknowledgedThrough(box, AcknowledgedIn(log, agent))
  }

  ghost predicate InboxesTold(db: Db) {
    forall run: RunId, agent: AgentId :: InboxTold(LogOf(db, run), Inbox(db, run, agent), agent)
  }

  /** A send appends one message to one inbox, and its event to one log. */
  lemma SendIsLocal(db: Db, input: SendInput)
    requires ApplySend(db, input).Ok? && Numbered(Inbox(db, input.run, input.recipient), Sequence())
    ensures var (after, response) := ApplySend(db, input).value;
            var box := Inbox(db, input.run, input.recipient);
            && response == Sent(|box| + 1)
            && Inbox(after, input.run, input.recipient) == box + [Message(input.actor, |box| + 1, input.body, input.at, None)]
            && (forall run: RunId, agent: AgentId | (run, agent) != (input.run, input.recipient) ::
                  Inbox(after, run, agent) == Inbox(db, run, agent))
            && (forall run | run != input.run :: LogOf(after, run) == LogOf(db, run))
            && LogOf(after, input.run) == Appended(LogOf(db, input.run), input.actor, input.operation,
                                                   MessageSent(input.recipient, |box| + 1))
  {
    HighestOfNumbered(Inbox(db, input.run, input.recipient), Sequence());
  }

  lemma SendKeepsInboxes(db: Db, input: SendInput)
    requires InboxesTold(db) && ApplySend(db, input).Ok?
    ensures InboxesTold(ApplySend(db, input).value.0)
    ensures ApplySend(db, input).value.1 == Sent(|Inbox(db, input.run, input.recipient)| + 1)
  {
    assert InboxTold(LogOf(db, input.run), Inbox(db, input.run, input.recipient), input.recipient);
    SendIsLocal(db, input);
    hide ApplySend;
    LongerInboxIsTold(db, ApplySend(db, input).value.0, input);
  }

  lemma LongerInboxIsTold(db: Db, after: Db, input: SendInput)
    requires InboxesTold(db)
    requires var box := Inbox(db, input.run, input.recipient);
             && Inbox(after, input.run, input.recipient) ==
                  box + [Message(input.actor, |box| + 1, input.body, input.at, None)]
             && LogOf(after, input.run) == Appended(LogOf(db, input.run), input.actor, input.operation,
                                                    MessageSent(input.recipient, |box| + 1))
    requires forall run: RunId, agent: AgentId | (run, agent) != (input.run, input.recipient) ::
               Inbox(after, run, agent) == Inbox(db, run, agent)
    requires forall run | run != input.run :: LogOf(after, run) == LogOf(db, run)
    ensures InboxesTold(after)
  {
    var sent := MessageSent(input.recipient, |Inbox(db, input.run, input.recipient)| + 1);
    forall run: RunId, agent: AgentId
      ensures InboxTold(LogOf(after, run), Inbox(after, run, agent), agent)
    {
      assert InboxTold(LogOf(db, run), Inbox(db, run, agent), agent);
      if run == input.run {
        InboxFoldsAfter(LogOf(db, run), input.actor, input.operation, sent, agent);
        SentMessageIsTold(LogOf(db, run), LogOf(after, run), Inbox(db, run, agent), Inbox(after, run, agent), agent);
      }
    }
  }

  lemma SentMessageIsTold(log: seq<Event>, longer: seq<Event>, box: seq<Message>, fuller: seq<Message>, agent: AgentId)
    requires InboxTold(log, box, agent) && AcknowledgedIn(longer, agent) == AcknowledgedIn(log, agent)
    requires SentIn(longer, agent) == |fuller|
    requires || fuller == box
             || (|fuller| == |box| + 1 && fuller[..|box|] == box && fuller[|box|].sequence == |box| + 1
                 && fuller[|box|].acknowledged.None?)
    ensures InboxTold(longer, fuller, agent)
  {
    forall i | 0 <= i < |fuller|
      ensures Sequence()(fuller[i]) == i + 1
      ensures fuller[i].acknowledged.Some? <==> i < AcknowledgedIn(log, agent)
    {
      if i < |box| {
        assert fuller[i] == fuller[..|box|][i] || fuller == box;
        assert Sequence()(box[i]) == i + 1;
      }
    }
  }

  /** An acknowledgement touches one inbox and logs one event if it acknowledged anything. */
  lemma AcknowledgementIsLocal(db: Db, input: AcknowledgeInput)
    requires ApplyAcknowledge(db, input).Ok? && ApplyAcknowledge(db, input).value.1.Acknowledged?
    ensures var (after, response) := ApplyAcknowledge(db, input).value;
            && after == db.(inboxes := after.inboxes, events := after.events)
            && (forall run: RunId, agent: AgentId | (run, agent) != (input.run, input.agent) ::
                  Inbox(after, run, agent) == Inbox(db, run, agent))
            && (forall run | run != input.run :: LogOf(after, run) == LogOf(db, run))
            && LogOf(after, input.run) ==
                 (if response.count == 0 then LogOf(db, input.run)
                  else Appended(LogOf(db, input.run), Some(input.agent), input.operation,
                                MessageAcknowledged(input.agent, response.count, response.through)))
  {
  }

  lemma AcknowledgeKeepsInboxes(db: Db, input: AcknowledgeInput)
    requires InboxesTold(db) && ApplyAcknowledge(db, input).Ok?
    ensures InboxesTold(ApplyAcknowledge(db, input).value.0)
  {
    var log := LogOf(db, input.run);
    assert InboxTold(log, Inbox(db, input.run, input.agent), input.agent);
    AcknowledgementMovesThePrefix(db, input, AcknowledgedIn(log, input.agent));
    if ApplyAcknowledge(db, input).value.1.Acknowledged? {
      AcknowledgementIsLocal(db, input);
      var (after, response) := ApplyAcknowledge(db, input).value;
      MovedPrefixIsTold(db, after, input, response.count, response.through);
    }
  }

  lemma MovedPrefixIsTold(db: Db, after: Db, input: AcknowledgeInput, count: nat, through: int)
    requires InboxesTold(db)
    requires forall run: RunId, agent: AgentId | (run, agent) != (input.run, input.agent) ::
               Inbox(after, run, agent) == Inbox(db, run, agent)
    requires forall run | run != input.run :: LogOf(after, run) == LogOf(db, run)
    requires LogOf(after, input.run) ==
               (if count == 0 then LogOf(db, input.run)
                else Appended(LogOf(db, input.run), Some(input.agent), input.operation,
                              MessageAcknowledged(input.agent, count, through)))
    requires Numbered(Inbox(after, input.run, input.agent), Sequence())
    requires |Inbox(after, input.run, input.agent)| == |Inbox(db, input.run, input.agent)|
    requires AcknowledgedThrough(
               Inbox(after, input.run, input.agent), AcknowledgedIn(LogOf(db, input.run), input.agent) + count)
    ensures InboxesTold(after)
  {
    forall run: RunId, agent: AgentId
      ensures InboxTold(LogOf(after, run), Inbox(after, run, agent), agent)
    {
      assert InboxTold(LogOf(db, run), Inbox(db, run, agent), agent);
      InboxFoldsAfter(LogOf(db, run), Some(input.agent), input.operation,
                      MessageAcknowledged(input.agent, count, through), agent);
    }
  }

  /** What every inbox looks like, and what its log adds up to. */
  lemma InboxesArePrefixAcknowledged(db: Db, run: RunId, agent: AgentId)
    requires InboxesTold(db)
    ensures var box, k := Inbox(db, run, agent), AcknowledgedIn(LogOf(db, run), agent);
            && k <= |box| == SentIn(LogOf(db, run), agent) && Cursor(box) == k
            && forall i | 0 <= i < |box| :: box[i].sequence == i + 1 && (box[i].acknowledged.Some? <==> i < k)
  {
    var box := Inbox(db, run, agent);
    assert InboxTold(LogOf(db, run), box, agent);
    CursorOfPrefix(box, AcknowledgedIn(LogOf(db, run), agent));
    assert forall i | 0 <= i < |box| :: Sequence()(box[i]) == i + 1;
  }

  // ----- Messages persist -----

  ghost predicate MessageEvolves(before: Message, after: Message) {
    && after.(acknowledged := None) == before.(acknowledged := None)
    && (before.acknowledged.Some? ==> after == before)
  }

  /** Messages are never removed or rewritten, and an acknowledgement is final. */
  ghost predicate InboxesExtend(db: Db, after: Db) {
    forall run: RunId, agent: AgentId :: InboxExtends(Inbox(db, run, agent), Inbox(after, run, agent))
  }

  ghost predicate InboxExtends(before: seq<Message>, after: seq<Message>) {
    |before| <= |after| && forall i | 0 <= i < |before| :: MessageEvolves(before[i], after[i])
  }

  lemma InboxesExtendTransitively(a: Db, b: Db, c: Db)
    requires InboxesExtend(a, b) && InboxesExtend(b, c)
    ensures InboxesExtend(a, c)
  {
    forall run: RunId, agent: AgentId
      ensures InboxExtends(Inbox(a, run, agent), Inbox(c, run, agent))
    {
      assert InboxExtends(Inbox(a, run, agent), Inbox(b, run, agent));
      assert InboxExtends(Inbox(b, run, agent), Inbox(c, run, agent));
      forall i | 0 <= i < |Inbox(a, run, agent)|
        ensures MessageEvolves(Inbox(a, run, agent)[i], Inbox(c, run, agent)[i])
      {
        assert MessageEvolves(Inbox(a, run, agent)[i], Inbox(b, run, agent)[i]);
        assert MessageEvolves(Inbox(b, run, agent)[i], Inbox(c, run, agent)[i]);
      }
    }
  }

  lemma SendExtendsInboxes(db: Db, input: SendInput)
    requires ApplySend(db, input).Ok?
    ensures InboxesExtend(db, ApplySend(db, input).value.0)
  {
  }

  lemma AcknowledgeExtendsInboxes(db: Db, input: AcknowledgeInput)
    requires ApplyAcknowledge(db, input).Ok?
    ensures InboxesExtend(db, ApplyAcknowledge(db, input).value.0)
  {
    if ApplyAcknowledge(db, input).value.1.Acknowledged? {
      AcknowledgedInboxExtends(db, input);
      AcknowledgementIsLocal(db, input);
      ChangedInboxExtends(db, ApplyAcknowledge(db, input).value.0, input.run, input.agent);
    }
  }

  lemma AcknowledgedInboxExtends(db: Db, input: AcknowledgeInput)
    requires ApplyAcknowledge(db, input).Ok? && ApplyAcknowledge(db, input).value.1.Acknowledged?
    ensures InboxExtends(Inbox(db, input.run, input.agent),
                         Inbox(ApplyAcknowledge(db, input).value.0, input.run, input.agent))
  {
    var box := Inbox(db, input.run, input.agent);
    assert Inbox(ApplyAcknowledge(db, input).value.0, input.run, input.agent) ==
      Update(box, (m: Message) => Covers(input, m), (m: Message) => m.(acknowledged := Some(input.at)));
  }

  lemma ChangedInboxExtends(db: Db, after: Db, run: RunId, agent: AgentId)
    requires InboxExtends(Inbox(db, run, agent), Inbox(after, run, agent))
    requires forall r: RunId, a: AgentId | (r, a) != (run, agent) :: Inbox(after, r, a) == Inbox(db, r, a)
    ensures InboxesExtend(db, after)
  {
    forall r: RunId, a: AgentId
      ensures InboxExtends(Inbox(db, r, a), Inbox(after, r, a))
    {
      assert (r, a) == (run, agent) || Inbox(after, r, a) == Inbox(db, r, a);
    }
  }
}
