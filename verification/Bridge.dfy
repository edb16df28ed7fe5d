/** A client that resends a request once over a lost connection (src/mcp.rs). */
module Bridge {
  import opened Bytes
  import opened Database
  import opened Ledger
  import opened Runs
  import opened Guarantees
  import opened DurableStore

  /** A request is answered, or its connection drops before or after the supervisor commits it. */
  datatype Delivery = Delivered | Dropped(committed: bool, transient: bool) {
    function Fate(): Fate {
      match this
      case Delivered => Completes
      case Dropped(committed, _) => if committed then LosesResponse else FailsBeforeCommit
    }
  }

  datatype Reconnection =
    | NoSupervisor
    | ConnectFails
    | Connected(run: RunId, connection: nat, answersWhoami: bool)

  datatype Reply = Answered(answer: Result<Outcome>) | ConnectionLost | InvalidProof | ReconnectFailed

  class Client {
    var run: RunId
    var connection: nat

    constructor (run: RunId, connection: nat)
      ensures this.run == run && this.connection == connection
    {
      this.run, this.connection := run, connection;
    }

    method Request(store: Store, m: Mutation, delivery: Delivery) returns (reply: Reply)
      requires store.Valid()
      modifies store
      ensures store.Valid() && store.history == old(store.history) + [Call(m, delivery.Fate())]
      ensures store.tables == Attempt(old(store.tables), m, delivery.Fate())
      ensures store.tables ==
                if delivery.Delivered? || delivery.committed then Committed(old(store.tables), Mutate(old(store.tables), m))
                else old(store.tables)
      ensures reply == if delivery.Delivered? then Answered(OutcomeOf(Mutate(old(store.tables), m))) else ConnectionLost
    {
      var answer := store.Mutate(m, delivery.Fate());
      reply := if delivery.Delivered? then Answered(answer.value) else ConnectionLost;
    }
  }

  predicate Reaches(reconnection: Reconnection, run: RunId) {
    reconnection.Connected? && reconnection.run == run && reconnection.answersWhoami
  }

  /** Why nothing was sent again. */
  function Refusal(reconnection: Reconnection, run: RunId): Reply {
    match reconnection
    case NoSupervisor => ConnectionLost
    case ConnectFails => ReconnectFailed
    case Connected(other, _, _) => if other != run then InvalidProof else ReconnectFailed
  }

  predicate Resends(first: Delivery) {
    first.Dropped? && first.transient
  }

  /** The steps a reconnecting request leaves in the history of the store. */
  function Trail(m: Mutation, run: RunId, first: Delivery, others: seq<Step>, reconnection: Reconnection, second: Delivery)
    : seq<Step>
  {
    [Call(m, first.Fate())]
    + (if Resends(first) then others else [])
    + (if Resends(first) && Reaches(reconnection, run) then [Call(m, second.Fate())] else [])
  }

  /** Sends the mutation through a new connection, if one to the same run can be made. */
  method Resend(store: Store, client: Client, m: Mutation, reconnection: Reconnection, second: Delivery)
    returns (reply: Reply)
    requires store.Valid()
    modifies store, client
    ensures store.Valid() && client.run == old(client.run)
    ensures store.history ==
              old(store.history) + if Reaches(reconnection, client.run) then [Call(m, second.Fate())] else []
    ensures store.tables ==
              if Reaches(reconnection, client.run) then Attempt(old(store.tables), m, second.Fate()) else old(store.tables)
    ensures reply ==
              if !Reaches(reconnection, client.run) then Refusal(reconnection, client.run)
              else if second.Delivered? then Answered(OutcomeOf(Mutate(old(store.tables), m)))
              else ConnectionLost
    ensures client.connection ==
              if Reaches(reconnection, client.run) then reconnection.connection else old(client.connection)
  {
    match reconnection
    case NoSupervisor => return ConnectionLost;
    case ConnectFails => return ReconnectFailed;
    case Connected(run, connection, answersWhoami) =>
      if run != client.run {
        return InvalidProof;
      }
      if !answersWhoami {
        return ReconnectFailed;
      }
      var replacement := new Client(run, connection);
      reply := replacement.Request(store, m, second);
      client.run, client.connection := replacement.run, replacement.connection;
  }

  /**
   * Sends a mutation, and once more if the connection is lost and the same run answers again, while others
   * use the store in between. The mutation takes effect at most once; a successful answer is its stored
   * result; and if the first sending took effect, the second only learns its result.
   */
  method RequestReconnecting(
      store: Store, client: Client, m: Mutation,
      first: Delivery, others: seq<Step>, reconnection: Reconnection, second: Delivery) returns (reply: Reply)
    requires store.Valid()
    modifies store, client
    ensures store.Valid() && client.run == old(client.run)
    ensures store.history == old(store.history) + Trail(m, client.run, first, others, reconnection, second)
    ensures Effects(EMPTY_DB, store.history, m.command.Id()) <= 1
    ensures reply.Answered? && reply.answer.Ok? ==> IsStored(store.tables, m, reply.answer.value)
    ensures reply.Answered? && reply.answer.Ok? ==> Effects(EMPTY_DB, store.history, m.command.Id()) == 1
    ensures TakesEffect(old(store.tables), m, first.Fate()) && first.Dropped? && reply.Answered? ==>
              && reply.answer == Ok(Replayed(Mutate(old(store.tables), m).value.1.response))
              && store.tables == After(Next(old(store.tables), Call(m, first.Fate())), others)
    ensures !(first.Dropped? && first.transient) ==>
              && store.history == old(store.history) + [Call(m, first.Fate())]
              && reply == if first.Delivered? then Answered(OutcomeOf(Mutate(old(store.tables), m))) else ConnectionLost
    ensures first.Dropped? && first.transient ==>
              && store.history ==
                   old(store.history) + [Call(m, first.Fate())] + others
                   + (if reconnection.Connected? && reconnection.run == client.run && reconnection.answersWhoami
                      then [Call(m, second.Fate())] else [])
              && (match reconnection
                  case NoSupervisor => reply == ConnectionLost
                  case ConnectFails => reply == ReconnectFailed
                  case Connected(run, _, answersWhoami) =>
                    if run != client.run then reply == InvalidProof
                    else if !answersWhoami then reply == ReconnectFailed
                    else reply.Answered? || reply == ConnectionLost)
    ensures reply.Answered? <==>
              first.Delivered?
              || (first.transient && reconnection.Connected? && reconnection.run == client.run
                  && reconnection.answersWhoami && second.Delivered?)
    ensures reply == InvalidProof <==>
              Resends(first) && reconnection.Connected? && reconnection.run != client.run
    ensures client.connection ==
              if Resends(first) && Reaches(reconnection, client.run) then reconnection.connection
              else old(client.connection)
  {
    hide Mutate, Attempt, Effects, IsStored, After;
    ghost var past, before := store.history, store.tables;
    reply := client.Request(store, m, first);
    AnswersAreStored(past, m, first);
    if Resends(first) {
      store.Interleave(others);
      ghost var resumed, between := store.history, store.tables;
      reply := Resend(store, client, m, reconnection, second);
      AnswersAreStored(resumed, m, second);
      ResentCallsReplay(past, before, m, first, others, between);
    }
    EffectsAreBounded(store.history, store.tables, m);
  }

  /** The answered outcome is the one in the ledger. */
  predicate IsStored(db: Db, m: Mutation, outcome: Outcome) {
    m.command.Id() in db.operations && db.operations[m.command.Id()].result == Some(outcome.response)
  }

  lemma EffectsAreBounded(history: seq<Step>, db: Db, m: Mutation)
    requires db == Reached(history)
    ensures Effects(EMPTY_DB, history, m.command.Id()) <= 1
    ensures forall outcome | IsStored(db, m, outcome) :: Effects(EMPTY_DB, history, m.command.Id()) == 1
  {
    EmptyIsSafe();
    EachOperationTakesEffectAtMostOnce(EMPTY_DB, history, m.command.Id(), {});
  }

  /** An answered success leaves its response in the ledger. */
  lemma AnswersAreStored(history: seq<Step>, m: Mutation, delivery: Delivery)
    ensures var db := Reached(history);
            delivery.Delivered? && OutcomeOf(Mutate(db, m)).Ok? ==>
              IsStored(Attempt(db, m, delivery.Fate()), m, OutcomeOf(Mutate(db, m)).value)
  {
    hide Mutate;
    ReachableStatesAreSafe(history);
    if Mutate(Reached(history), m).Ok? {
      MutationCompletesItsOperation(Reached(history), m);
    }
  }

  /** If the first sending took effect, sending again only returns its stored response. */
  lemma ResentCallsReplay(
      past: seq<Step>, before: Db, m: Mutation, first: Delivery, others: seq<Step>, between: Db)
    requires before == Reached(past)
    requires between == After(Attempt(before, m, first.Fate()), others)
    ensures TakesEffect(before, m, first.Fate()) ==>
              && Next(before, Call(m, first.Fate())) == Attempt(before, m, first.Fate())
              && OutcomeOf(Mutate(between, m)) == Ok(Replayed(Mutate(before, m).value.1.response))
              && forall fate :: Attempt(between, m, fate) == between
  {
    hide Mutate, After, SameIdentity;
    if TakesEffect(before, m, first.Fate()) {
      RepeatedCallsReplay(past, m, first.Fate(), others, m);
    }
  }
}
