/** Acquiring, publishing and retiring as programs, with anything others do between their steps (src/project.rs). */
module ProjectIndex {
  import opened Bytes
  import opened Lease
  import opened ActiveRunIndex

  /** A step of somebody else, while the power stays on and outsiders leave the lock path of `key` alone. */
  predicate IsForeign(step: Step, w: WorkerId, key: Key) {
    match step
    case Relink(k, _) => k != key
    case PowerLoss => false
    case Reap(_) => true
    case Pin(_, _) => true
    case Unpin(_) => true
    case _ => step.worker != w
  }

  predicate AreForeign(steps: seq<Step>, w: WorkerId, key: Key) {
    forall step | step in steps :: IsForeign(step, w, key)
  }

  /** Nobody else can disturb a lease holder, or the entry its lease protects. */
  lemma ForeignStepsLeaveTheHolder(s: State, relinked: set<Key>, step: Step, w: WorkerId)
    requires IndexSound(s, relinked) && IsHolding(s, w) && IsForeign(step, w, s.workers[w].guard.key)
    requires s.workers[w].guard.key !in relinked
    ensures IsHolding(Next(s, step), w) && Next(s, step).workers[w] == s.workers[w]
    ensures EntryAt(Next(s, step), s.workers[w].guard.key) == EntryAt(s, s.workers[w].guard.key)
  {
    if step.Advance? && IsHolding(s, step.worker) {
      AdvanceWorksAlone(s, step.worker);
      if s.workers[step.worker].guard.key == s.workers[w].guard.key {
        OneHolder(s, relinked, step.worker, w);
      }
      EffectIsLocal(s, relinked, step.worker, s.workers[w].guard.key);
    } else {
      OtherStepsKeepEntries(s, step, s.workers[w].guard.key);
      IdleStepsLeaveTheHolder(s, step, w);
    }
  }

  lemma IdleStepsLeaveTheHolder(s: State, step: Step, w: WorkerId)
    requires IsHolding(s, w) && IsForeign(step, w, s.workers[w].guard.key) && (step.Advance? ==> !IsHolding(s, step.worker))
    ensures IsHolding(Next(s, step), w) && Next(s, step).workers[w] == s.workers[w]
  {
  }

  /** Renaming publishes the entry, removing takes out the run's own entry, and no other step changes it. */
  lemma WorkMeetsItsPurpose(s: State, relinked: set<Key>, w: WorkerId)
    requires IndexSound(s, relinked) && IsHolding(s, w)
    requires s.workers[w].guard.key !in relinked
    ensures var guard, task, after := s.workers[w].guard, s.workers[w].task, Worked(s, w);
            && (task.Publishing? && task.publish.Ready? ==>
                  EntryAt(after, guard.key) == Some(task.entry) && task.temporary !in after.temporaries)
            && (task.Retiring? && task.retire.Confirmed? ==>
                  EntryAt(s, guard.key).Some? && EntryAt(s, guard.key).value.run == guard.run
                  && EntryAt(after, guard.key).None?)
            && (!(task.Publishing? && task.publish.Ready?) && !(task.Retiring? && task.retire.Confirmed?) ==>
                  EntryAt(after, guard.key) == EntryAt(s, guard.key))
  {
    assert WorkerFits(s, w, s.workers[w], relinked);
    var key := s.workers[w].guard.key;
    if key in s.entries {
      assert PublishedFor(s, s.entries[key], key);
    }
  }

  /** Why the file is synced before it is renamed: what was only written does not survive a power failure. */
  lemma OnlySyncedContentsSurvive(s: State, task: Task)
    requires task.Publishing? && task.temporary in s.files
    ensures task.publish.Created? ==>
              Next(PublishEffect(s, task), PowerLoss).files[task.temporary].content == Partial
    ensures task.publish.Written? ==>
              Next(PublishEffect(s, task), PowerLoss).files[task.temporary].content == Complete(task.entry)
    ensures task.publish.Synced? && s.files[task.temporary].synced ==>
              Next(PublishEffect(s, task), PowerLoss).files[task.temporary] == s.files[task.temporary]
  {
  }

  /** The steps a task still has to take, at most. */
  function Left(task: Task): nat {
    match task
    case Resting => 0
    case Publishing(_, phase, _, _) => 10 - phase.Rank()
    case Retiring(_, phase, _) => 10 - phase.Rank()
  }

  /** Work ends or moves on to its next phase. */
  ghost predicate Follows(before: Task, after: Task) {
    match before
    case Resting => after == Resting
    case Publishing(entry, phase, _, _) =>
      after == Resting
      || (after.Publishing? && after.entry == entry && after.publish.Rank() == phase.Rank() + 1 && !phase.Ready?)
      || (after.Publishing? && after.entry == entry && after.publish.Renamed? && phase.Ready?)
    case Retiring(identity, phase, _) =>
      after == Resting
      || (after.Retiring? && after.identity == identity && after.retire.Rank() == phase.Rank() + 1 && !phase.Confirmed?)
      || (after.Retiring? && after.identity == identity && after.retire.Removed? && phase.Confirmed?)
  }

  lemma WorkFollows(s: State, w: WorkerId)
    requires IsHolding(s, w)
    ensures IsHolding(Worked(s, w), w) && Worked(s, w).workers[w].guard == s.workers[w].guard
    ensures Follows(s.workers[w].task, Worked(s, w).workers[w].task)
    ensures s.workers[w].task.Publishing? && s.workers[w].task.publish.Ready? ==>
              Worked(s, w).workers[w].task.Publishing?
    ensures s.workers[w].task.Retiring? && s.workers[w].task.retire.Confirmed? ==>
              Worked(s, w).workers[w].task.Retiring?
  {
    AdvanceWorksAlone(s, w);
  }

  /** A different entry is in the way of a publication. */
  predicate Occupied(existing: Option<Entry>, entry: Entry) {
    existing.Some? && existing.value != entry
  }

  /** A publication gets past every check except the comparison with what is already published. */
  lemma PublicationSucceedsUnlessOccupied(s: State, relinked: set<Key>, w: WorkerId)
    requires IndexSound(s, relinked) && IsHolding(s, w) && s.workers[w].task.Publishing?
    requires s.workers[w].guard.key !in relinked
    ensures var guard, task := s.workers[w].guard, s.workers[w].task;
            !task.publish.Renamed? ==>
              (Worked(s, w).workers[w].task.Resting? <==>
                 task.publish.Looked? && Occupied(EntryAt(s, guard.key), task.entry))
  {
    var guard := s.workers[w].guard;
    assert WorkerFits(s, w, s.workers[w], relinked);
    if guard.key in s.entries {
      assert PublishedFor(s, s.entries[guard.key], guard.key);
    }
  }

  /** The entry is the one this project published for this run. */
  predicate IsOwn(existing: Option<Entry>, identity: Identity, run: RunId) {
    existing.Some? && existing.value.identity == identity && existing.value.run == run
  }

  /** Reading the entry decides a retirement: it goes on exactly for the run's own entry. */
  ghost predicate Decides(before: Task, after: Task, existing: Option<Entry>, run: RunId)
    requires before.Retiring?
  {
    && (after.Resting? ==> !IsOwn(existing, before.identity, run))
    && (before.retire.Opened? && !after.Resting? ==> IsOwn(existing, before.identity, run))
  }

  lemma RetirementSucceedsForItsOwn(s: State, relinked: set<Key>, w: WorkerId)
    requires IndexSound(s, relinked) && IsHolding(s, w) && s.workers[w].task.Retiring? && !s.workers[w].task.retire.Removed?
    requires s.workers[w].guard.key !in relinked
    ensures var guard, task := s.workers[w].guard, s.workers[w].task;
            Decides(task, Worked(s, w).workers[w].task, EntryAt(s, guard.key), guard.run)
  {
    var guard := s.workers[w].guard;
    assert WorkerFits(s, w, s.workers[w], relinked);
    if guard.key in s.entries {
      assert PublishedFor(s, s.entries[guard.key], guard.key);
    }
  }

  /** How far a retirement has come: `own` says the entry found is the run's own. */
  ghost predicate Retreating(task: Task, identity: Identity, admitted: bool, own: bool, removed: bool) {
    match task
    case Resting => removed <==> admitted && own
    case Publishing(_, _, _, _) => false
    case Retiring(i, phase, _) =>
      admitted && i == identity && (removed <==> phase.Removed?) && (phase.Rank() >= 2 ==> own)
  }

  lemma RetreatFollows(
      before: Task, after: Task, identity: Identity, admitted: bool, existing: Option<Entry>, run: RunId, removed: bool)
    requires before.Retiring? && Retreating(before, identity, admitted, IsOwn(existing, identity, run), removed)
    requires Follows(before, after) && (before.retire.Confirmed? ==> after.Retiring?)
    requires !before.retire.Removed? ==> Decides(before, after, existing, run)
    ensures Retreating(after, identity, admitted, IsOwn(existing, identity, run), removed || before.retire.Confirmed?)
    ensures Left(after) < Left(before)
  {
  }

  /** How far a publication has come: `free` says nothing different was published before it. */
  ghost predicate Underway(task: Task, entry: Entry, admitted: bool, free: bool, published: bool) {
    match task
    case Resting => published <==> admitted && free
    case Publishing(e, phase, _, _) =>
      admitted && e == entry && (published <==> phase.Renamed?) && (phase.Rank() >= 2 ==> free)
    case Retiring(_, _, _) => false
  }

  lemma UnderwayFollows(before: Task, after: Task, entry: Entry, admitted: bool, free: bool, published: bool)
    requires before.Publishing? && Underway(before, entry, admitted, free, published) && Follows(before, after)
    requires !before.publish.Renamed? ==> (after.Resting? <==> before.publish.Looked? && !free)
    ensures Underway(after, entry, admitted, free, published || before.publish.Ready?)
    ensures Left(after) < Left(before)
  {
  }

  lemma BeginningLeavesTheIndex(s: State, relinked: set<Key>, w: WorkerId, entry: Entry)
    requires IndexSound(s, relinked) && IsHolding(s, w) && s.workers[w].task.Resting?
    ensures var after := Next(s, BeginPublish(w, entry));
            && IsHolding(after, w) && after.workers[w].guard == s.workers[w].guard
            && EntryAt(after, s.workers[w].guard.key) == EntryAt(s, s.workers[w].guard.key)
            && (after.workers[w].task.Resting?
                || (after.workers[w].task.Publishing? && after.workers[w].task.entry == entry
                    && after.workers[w].task.publish.Verified?))
            && (after.workers[w].task.Publishing? <==>
                  Verifies(s, s.workers[w].guard, entry.identity, entry.run) && Publishable(s, entry))
  {
  }

  lemma RetirementLeavesTheIndex(s: State, relinked: set<Key>, w: WorkerId, identity: Identity, run: RunId)
    requires IndexSound(s, relinked) && IsHolding(s, w) && s.workers[w].task.Resting?
    ensures var after := Next(s, BeginRetire(w, identity, run));
            && IsHolding(after, w) && after.workers[w].guard == s.workers[w].guard
            && EntryAt(after, s.workers[w].guard.key) == EntryAt(s, s.workers[w].guard.key)
            && (after.workers[w].task.Resting?
                || (after.workers[w].task.Retiring? && after.workers[w].task.identity == identity
                    && after.workers[w].task.retire.Admitted?))
            && (after.workers[w].task.Retiring? <==> Verifies(s, s.workers[w].guard, identity, run))
  {
  }

  class World {
    var state: State
    ghost var history: seq<Step>

    ghost predicate Valid()
      reads this
    {
      state == After(INITIAL, history)
    }

    /** A lease of a key whose lock path outsiders have left alone. */
    ghost predicate Leases(w: WorkerId)
      reads this
    {
      Valid() && IsHolding(state, w) && state.workers[w].guard.key !in RelinkedIn(history)
    }

    constructor ()
      ensures Valid() && state == INITIAL
    {
      state, history := INITIAL, [];
    }

    /** One atomic step of anybody. */
    method Do(step: Step)
      requires Valid()
      modifies this
      ensures Valid() && history == old(history) + [step] && state == Next(old(state), step)
      ensures IndexSound(old(state), RelinkedIn(old(history))) && IndexSound(state, RelinkedIn(history))
      ensures RelinkedIn(history) == RelinkedIn(old(history)) + if step.Relink? then {step.key} else {}
    {
      hide IndexSound, RelinkedIn, Next;
      HistoriesAreSound(history);
      RelinkedOneMore(history, step);
      StepKeepsSound(state, RelinkedIn(history), step);
      state := Next(state, step);
      history := history + [step];
      assert history[..|history| - 1] == old(history);
    }

    /** Everybody else goes on while lease holder `w` is between two of its own steps. */
    method Meanwhile(w: WorkerId, others: seq<Step>)
      requires Leases(w) && AreForeign(others, w, state.workers[w].guard.key)
      modifies this
      ensures Leases(w) && state.workers[w] == old(state).workers[w]
      ensures EntryAt(state, state.workers[w].guard.key) == old(EntryAt(state, state.workers[w].guard.key))
    {
      for i := 0 to |others|
        invariant Leases(w) && state.workers[w] == old(state).workers[w]
        invariant EntryAt(state, state.workers[w].guard.key) == old(EntryAt(state, state.workers[w].guard.key))
      {
        HistoriesAreSound(history);
        assert others[i] in others;
        ForeignStepsLeaveTheHolder(state, RelinkedIn(history), others[i], w);
        Do(others[i]);
      }
    }

    /** The next step of the holder's work, after whatever others do first. */
    method Work(w: WorkerId, others: seq<Step>)
      requires Leases(w) && AreForeign(others, w, state.workers[w].guard.key)
      modifies this
      ensures Leases(w) && state.workers[w].guard == old(state).workers[w].guard
      ensures Follows(old(state).workers[w].task, state.workers[w].task)
      ensures var before, after, key := old(state).workers[w].task, state.workers[w].task, state.workers[w].guard.key;
              && (before.Publishing? && !before.publish.Renamed? ==>
                    (after.Resting? <==>
                       before.publish.Looked?
                       && Occupied(old(EntryAt(state, state.workers[w].guard.key)), before.entry)))
              && (before.Retiring? && before.retire.Confirmed? ==> after.Retiring?)
              && (before.Retiring? && !before.retire.Removed? ==>
                    Decides(before, after, old(EntryAt(state, state.workers[w].guard.key)), state.workers[w].guard.run))
              && (if before.Publishing? && before.publish.Ready? then EntryAt(state, key) == Some(before.entry)
                  else if before.Retiring? && before.retire.Confirmed? then
                    && EntryAt(state, key).None? && old(EntryAt(state, state.workers[w].guard.key)).Some?
                    && old(EntryAt(state, state.workers[w].guard.key)).value.run == state.workers[w].guard.run
                  else EntryAt(state, key) == old(EntryAt(state, state.workers[w].guard.key)))
    {
      hide Worked, EntryAt, AreForeign, Follows, WorkersFit, FilesFit, Occupied, Decides;
      Meanwhile(w, others);
      HistoriesAreSound(history);
      WorkFollows(state, w);
      if state.workers[w].task.Publishing? {
        PublicationSucceedsUnlessOccupied(state, RelinkedIn(history), w);
      } else if state.workers[w].task.Retiring? && !state.workers[w].task.retire.Removed? {
        RetirementSucceedsForItsOwn(state, RelinkedIn(history), w);
      }
      WorkMeetsItsPurpose(state, RelinkedIn(history), w);
      Do(Advance(w));
    }

    /**
     * Publishes an entry under the worker's lease. Success means the entry is in the index when the call
     * returns, whatever others did between any two steps; failure leaves the index entry as it was.
     */
    method Publish(w: WorkerId, entry: Entry, others: nat -> seq<Step>) returns (published: bool)
      requires Leases(w) && state.workers[w].task.Resting?
      requires forall n :: AreForeign(others(n), w, state.workers[w].guard.key)
      modifies this
      ensures Leases(w) && state.workers[w] == old(state).workers[w]
      ensures EntryAt(state, state.workers[w].guard.key) ==
                if published then Some(entry) else old(EntryAt(state, state.workers[w].guard.key))
      ensures published <==>
                && Verifies(old(state), old(state).workers[w].guard, entry.identity, entry.run)
                && Publishable(old(state), entry)
                && !Occupied(old(EntryAt(state, state.workers[w].guard.key)), entry)
    {
      hide Worked, AreForeign, EntryAt, Verifies;
      published := false;
      ghost var guard := state.workers[w].guard;
      ghost var before := EntryAt(state, guard.key);
      Do(BeginPublish(w, entry));
      BeginningLeavesTheIndex(old(state), RelinkedIn(old(history)), w, entry);
      ghost var admitted := state.workers[w].task.Publishing?;
      while !state.workers[w].task.Resting?
        invariant Leases(w) && state.workers[w].guard == guard
        invariant Underway(state.workers[w].task, entry, admitted, !Occupied(before, entry), published)
        invariant EntryAt(state, guard.key) == if published then Some(entry) else before
        decreases Left(state.workers[w].task)
      {
        var task := state.workers[w].task;
        Work(w, others(task.publish.Rank()));
        UnderwayFollows(task, state.workers[w].task, entry, admitted, !Occupied(before, entry), published);
        published := published || task.publish.Ready?;
      }
    }

    /**
     * Retires an entry exactly if it is the one the project published for the worker's run; any other entry
     * stays as it was, whatever others did between any two steps.
     */
    method Retire(w: WorkerId, identity: Identity, run: RunId, others: nat -> seq<Step>) returns (removed: bool)
      requires Leases(w) && state.workers[w].task.Resting?
      requires forall n :: AreForeign(others(n), w, state.workers[w].guard.key)
      modifies this
      ensures Leases(w) && state.workers[w] == old(state).workers[w]
      ensures EntryAt(state, state.workers[w].guard.key) ==
                if removed then None else old(EntryAt(state, state.workers[w].guard.key))
      ensures removed <==>
                && Verifies(old(state), old(state).workers[w].guard, identity, run)
                && IsOwn(old(EntryAt(state, state.workers[w].guard.key)), identity, old(state).workers[w].guard.run)
    {
      hide Worked, AreForeign, EntryAt, Verifies, IsOwn, Decides, Follows;
      removed := false;
      ghost var guard := state.workers[w].guard;
      ghost var before := EntryAt(state, guard.key);
      Do(BeginRetire(w, identity, run));
      RetirementLeavesTheIndex(old(state), RelinkedIn(old(history)), w, identity, run);
      ghost var admitted := state.workers[w].task.Retiring?;
      while !state.workers[w].task.Resting?
        invariant Leases(w) && state.workers[w].guard == guard
        invariant Retreating(state.workers[w].task, identity, admitted, IsOwn(before, identity, guard.run), removed)
        invariant EntryAt(state, guard.key) == if removed then None else before
        decreases Left(state.workers[w].task)
      {
        var task := state.workers[w].task;
        Work(w, others(task.retire.Rank()));
        RetreatFollows(task, state.workers[w].task, identity, admitted, before, guard.run, removed);
        removed := removed || task.retire.Confirmed?;
      }
    }
  }
}
