/** Project leases and the active-run index as interleaved steps of many processes (src/project.rs). */
module Lease {
  import opened Bytes

  type Inode = nat
  type Key = nat
  type RunId = nat
  type WorkerId = nat
  type ReaderId = nat

  const ACTIVE_RUN_INDEX_VERSION: nat := 1

  /** A project identity and its digest; different identities may share a digest. */
  datatype Identity = Identity(name: nat, digest: Key)

  datatype Entry = Entry(version: nat, run: RunId, project: nat, key: Key, identity: Identity)

  /** Anything short of the whole document is partial. */
  datatype Content = Partial | Complete(entry: Entry)

  datatype File = File(content: Content, synced: bool)

  /** A lease guard: the open lock file, and what it claims to own. */
  datatype Guard = Guard(key: Key, run: RunId, lock: Inode)

  datatype PublishPhase = Verified | Looked | Matched | Created | Written | Synced | Reverified | Pinned | Ready | Renamed {
    function Rank(): nat {
      match this
      case Verified => 0
      case Looked => 1
      case Matched => 2
      case Created => 3
      case Written => 4
      case Synced => 5
      case Reverified => 6
      case Pinned => 7
      case Ready => 8
      case Renamed => 9
    }
  }

  datatype RetirePhase = Admitted | Opened | Recognized | Confirmed | Removed {
    function Rank(): nat {
      match this
      case Admitted => 0
      case Opened => 1
      case Recognized => 2
      case Confirmed => 3
      case Removed => 4
    }
  }

  datatype Task =
    | Resting
    | Publishing(entry: Entry, publish: PublishPhase, existing: Option<Inode>, temporary: Inode)
    | Retiring(identity: Identity, retire: RetirePhase, found: Option<Inode>)

  /** One attempt at a lease, and the work done under it. */
  datatype Worker =
    | Opening(guard: Guard)
    | Locked(guard: Guard)
    | Checked(guard: Guard)
    | Holding(guard: Guard, task: Task)

  datatype Reader = Reader(identity: Identity, file: Inode)

  /** The directories, the file contents, the kernel's lock table and every live process. */
  datatype State = State(
    locks: map<Key, Inode>,
    holders: map<Inode, WorkerId>,
    entries: map<Key, Inode>,
    files: map<Inode, File>,
    temporaries: set<Inode>,
    published: set<Inode>,
    workers: map<WorkerId, Worker>,
    readers: map<ReaderId, Reader>,
    next: Inode) // the lowest inode never used

  const INITIAL := State(map[], map[], map[], map[], {}, {}, map[], map[], 0)

  // ----- Steps -----

  datatype Step =
    | Open(worker: WorkerId, identity: Identity, run: RunId)
    | TryLock(worker: WorkerId)
    | CheckLock(worker: WorkerId)
    | RecordOwner(worker: WorkerId)
    | Drop(worker: WorkerId)
    | Crash(worker: WorkerId)
    | Reap(lock: Inode)
    | PowerLoss
    | BeginPublish(worker: WorkerId, entry: Entry)
    | BeginRetire(worker: WorkerId, identity: Identity, run: RunId)
    | Advance(worker: WorkerId)
    | Pin(reader: ReaderId, identity: Identity)
    | Unpin(reader: ReaderId)
    | Relink(key: Key, target: Option<Inode>)

  predicate HasLock(worker: Worker) {
    !worker.Opening?
  }

  predicate IsHolding(s: State, w: WorkerId) {
    w in s.workers && s.workers[w].Holding?
  }

  /** The lock path still names the locked file. */
  predicate LinkIntact(s: State, guard: Guard) {
    guard.key in s.locks && s.locks[guard.key] == guard.lock
  }

  /** What `verify` checks of a lease for an identity and a run. */
  predicate Verifies(s: State, guard: Guard, identity: Identity, run: RunId) {
    guard.key == identity.digest && guard.run == run && LinkIntact(s, guard)
  }

  function Without<K, V>(m: map<K, V>, k: K): map<K, V> {
    m - {k}
  }

  function With(s: State, w: WorkerId, worker: Worker): State {
    s.(workers := s.workers[w := worker])
  }

  /** Unlocking and closing the lock file of a worker that is done. */
  function Released(s: State, w: WorkerId): State
    requires w in s.workers
  {
    var worker := s.workers[w];
    s.(workers := Without(s.workers, w),
       holders := if HasLock(worker) then Without(s.holders, worker.guard.lock) else s.holders)
  }

  function Current(s: State, key: Key): Option<Inode> {
    if key in s.entries then Some(s.entries[key]) else None
  }

  /** The document a lookup for `identity` accepts in a pinned file, if any. */
  function Parsed(s: State, file: Inode, identity: Identity): Option<Entry> {
    if file in s.files && s.files[file].content.Complete?
       && s.files[file].content.entry.version == ACTIVE_RUN_INDEX_VERSION
       && s.files[file].content.entry.key == identity.digest && s.files[file].content.entry.identity == identity
    then Some(s.files[file].content.entry) else None
  }

  predicate Publishable(s: State, entry: Entry) {
    entry.version == ACTIVE_RUN_INDEX_VERSION && entry.key == entry.identity.digest
  }

  /** Where a publication goes next; a failed check ends it and leaves its temporary file behind. */
  function PublishNext(s: State, guard: Guard, task: Task): Task
    requires task.Publishing?
  {
    match task.publish
    case Verified => task.(publish := Looked, existing := Current(s, task.entry.key))
    case Looked =>
      if task.existing.Some? && Parsed(s, task.existing.value, task.entry.identity) != Some(task.entry) then Resting
      else task.(publish := Matched)
    case Matched => task.(publish := Created, temporary := s.next)
    case Created => task.(publish := Written)
    case Written => task.(publish := Synced)
    case Synced =>
      if Verifies(s, guard, task.entry.identity, task.entry.run) then task.(publish := Reverified) else Resting
    case Reverified => if task.temporary in s.temporaries then task.(publish := Pinned) else Resting
    case Pinned => if task.existing == Current(s, task.entry.key) then task.(publish := Ready) else Resting
    case Ready => task.(publish := Renamed)
    case Renamed => Resting
  }

  /** What that step does to the file system: create, write, sync and rename the temporary file. */
  function PublishEffect(s: State, task: Task): State
    requires task.Publishing?
  {
    match task.publish
    case Matched => s.(files := s.files[s.next := File(Partial, false)],
                       temporaries := s.temporaries + {s.next}, next := s.next + 1)
    case Created => s.(files := s.files[task.temporary := File(Complete(task.entry), false)])
    case Written => s.(files := s.files[task.temporary := File(Complete(task.entry), true)])
    case Ready => s.(entries := s.entries[task.entry.key := task.temporary],
                     temporaries := s.temporaries - {task.temporary}, published := s.published + {task.temporary})
    case _ => s
  }

  /** Where a retirement goes next. */
  function RetireNext(s: State, guard: Guard, task: Task): Task
    requires task.Retiring?
  {
    match task.retire
    case Admitted =>
      if Current(s, task.identity.digest).None? then Resting
      else task.(retire := Opened, found := Current(s, task.identity.digest))
    case Opened =>
      if task.found.Some? && Parsed(s, task.found.value, task.identity).Some?
         && Parsed(s, task.found.value, task.identity).value.run == guard.run
      then task.(retire := Recognized) else Resting
    case Recognized =>
      if task.found == Current(s, task.identity.digest) then task.(retire := Confirmed) else Resting
    case Confirmed => task.(retire := Removed)
    case Removed => Resting
  }

  function RetireEffect(s: State, task: Task): State
    requires task.Retiring?
  {
    if task.retire.Confirmed? then s.(entries := Without(s.entries, task.identity.digest)) else s
  }

  /** One more step of whatever a lease holder is doing. */
  function Worked(s: State, w: WorkerId): State
    requires IsHolding(s, w)
  {
    var guard, task := s.workers[w].guard, s.workers[w].task;
    match task
    case Resting => s
    case Publishing(_, _, _, _) => With(PublishEffect(s, task), w, Holding(guard, PublishNext(s, guard, task)))
    case Retiring(_, _, _) => With(RetireEffect(s, task), w, Holding(guard, RetireNext(s, guard, task)))
  }

  function Next(s: State, step: Step): State {
    match step
    case Open(w, identity, run) =>
      var key := identity.digest;
      if w in s.workers then s
      else if key in s.locks then With(s, w, Opening(Guard(key, run, s.locks[key])))
      else With(s, w, Opening(Guard(key, run, s.next))).(locks := s.locks[key := s.next], next := s.next + 1)
    case TryLock(w) =>
      if w !in s.workers || !s.workers[w].Opening? then s
      else if s.workers[w].guard.lock in s.holders then Released(s, w)
      else With(s, w, Locked(s.workers[w].guard)).(holders := s.holders[s.workers[w].guard.lock := w])
    case CheckLock(w) =>
      if w !in s.workers || !s.workers[w].Locked? then s
      else if LinkIntact(s, s.workers[w].guard) then With(s, w, Checked(s.workers[w].guard))
      else Released(s, w)
    case RecordOwner(w) =>
      if w in s.workers && s.workers[w].Checked? then With(s, w, Holding(s.workers[w].guard, Resting)) else s
    case Drop(w) =>
      if IsHolding(s, w) && s.workers[w].task.Resting? then Released(s, w) else s
    case Crash(w) =>
      s.(workers := Without(s.workers, w))
    case Reap(lock) =>
      if lock in s.holders && !(s.holders[lock] in s.workers && HasLock(s.workers[s.holders[lock]])
                                && s.workers[s.holders[lock]].guard.lock == lock)
      then s.(holders := Without(s.holders, lock)) else s
    case PowerLoss =>
      s.(workers := map[], readers := map[], holders := map[],
         files := map i | i in s.files :: if s.files[i].synced then s.files[i] else File(Partial, false))
    case BeginPublish(w, entry) =>
      if IsHolding(s, w) && s.workers[w].task.Resting?
         && Verifies(s, s.workers[w].guard, entry.identity, entry.run) && Publishable(s, entry)
      then With(s, w, Holding(s.workers[w].guard, Publishing(entry, Verified, None, 0))) else s
    case BeginRetire(w, identity, run) =>
      if IsHolding(s, w) && s.workers[w].task.Resting? && Verifies(s, s.workers[w].guard, identity, run)
      then With(s, w, Holding(s.workers[w].guard, Retiring(identity, Admitted, None))) else s
    case Advance(w) =>
      if IsHolding(s, w) then Worked(s, w) else s
    case Pin(r, identity) =>
      if identity.digest in s.entries
      then s.(readers := s.readers[r := Reader(identity, s.entries[identity.digest])]) else s
    case Unpin(r) => s.(readers := Without(s.readers, r))
    case Relink(key, target) =>
      s.(locks := if target.None? then Without(s.locks, key) else s.locks[key := target.value])
  }

  function After(s: State, steps: seq<Step>): State
    decreases |steps|
  {
    if steps == [] then s else Next(After(s, steps[..|steps| - 1]), steps[|steps| - 1])
  }

  /** The keys whose lock paths outsiders relinked. */
  function RelinkedIn(steps: seq<Step>): set<Key> {
    set step | step in steps && step.Relink? :: step.key
  }

  lemma RelinkedOneMore(steps: seq<Step>, step: Step)
    ensures RelinkedIn(steps + [step]) == RelinkedIn(steps) + (if step.Relink? then {step.key} else {})
  {
    assert step in steps + [step];
  }

  // ----- One verified lease per key, whatever outsiders do to the lock paths -----

  /** Every locked file is locked by the worker that believes so. */
  ghost predicate LocksHeld(s: State) {
    forall w | w in s.workers && HasLock(s.workers[w]) ::
      s.workers[w].guard.lock in s.holders && s.holders[s.workers[w].guard.lock] == w
  }

  /** Work under a lease touches no lock, no reader and no other worker. */
  ghost predicate WorksAlone(s: State, after: State, w: WorkerId)
    requires IsHolding(s, w)
  {
    && IsHolding(after, w) && after.workers[w].guard == s.workers[w].guard
    && after.workers == s.workers[w := after.workers[w]]
    && after.locks == s.locks && after.holders == s.holders && after.readers == s.readers
  }

  lemma EffectsLeaveProcesses(s: State, task: Task)
    ensures task.Publishing? ==> SameProcesses(s, PublishEffect(s, task))
    ensures task.Retiring? ==> SameProcesses(s, RetireEffect(s, task))
  {
    if task.Publishing? {
      PublishingLeavesProcesses(s, task);
    }
  }

  lemma PublishingLeavesProcesses(s: State, task: Task)
    requires task.Publishing?
    ensures SameProcesses(s, PublishEffect(s, task))
  {
    match task.publish
    case Matched =>
    case Created =>
    case Written =>
    case Ready =>
    case _ =>
  }

  ghost predicate SameProcesses(s: State, after: State) {
    after.workers == s.workers && after.locks == s.locks && after.holders == s.holders && after.readers == s.readers
  }

  lemma AdvanceWorksAlone(s: State, w: WorkerId)
    requires IsHolding(s, w)
    ensures WorksAlone(s, Worked(s, w), w)
  {
    EffectsLeaveProcesses(s, s.workers[w].task);
  }

  lemma StepKeepsLocksHeld(s: State, step: Step)
    requires LocksHeld(s)
    ensures LocksHeld(Next(s, step))
  {
    if step.Advance? {
      if IsHolding(s, step.worker) {
        AdvanceWorksAlone(s, step.worker);
      }
    } else {
      OtherStepsKeepLocksHeld(s, step);
    }
  }

  lemma OtherStepsKeepLocksHeld(s: State, step: Step)
    requires LocksHeld(s) && !step.Advance?
    ensures LocksHeld(Next(s, step))
  {
    match step
    case TryLock(w) => LockingKeepsLocksHeld(s, w);
    case CheckLock(w) => CheckingKeepsLocksHeld(s, w);
    case Drop(w) => DroppingKeepsLocksHeld(s, w);
    case Reap(lock) => ReapingKeepsLocksHeld(s, lock);
    case _ =>
  }

  lemma LockingKeepsLocksHeld(s: State, w: WorkerId)
    requires LocksHeld(s)
    ensures LocksHeld(Next(s, TryLock(w)))
  {
  }

  lemma CheckingKeepsLocksHeld(s: State, w: WorkerId)
    requires LocksHeld(s)
    ensures LocksHeld(Next(s, CheckLock(w)))
  {
  }

  lemma DroppingKeepsLocksHeld(s: State, w: WorkerId)
    requires LocksHeld(s)
    ensures LocksHeld(Next(s, Drop(w)))
  {
  }

  lemma ReapingKeepsLocksHeld(s: State, lock: Inode)
    requires LocksHeld(s)
    ensures LocksHeld(Next(s, Reap(lock)))
  {
  }

  lemma {:induction false} LocksAreHeld(s: State, steps: seq<Step>)
    requires LocksHeld(s)
    ensures LocksHeld(After(s, steps))
    decreases |steps|
  {
    if steps != [] {
      LocksAreHeld(s, steps[..|steps| - 1]);
      StepKeepsLocksHeld(After(s, steps[..|steps| - 1]), steps[|steps| - 1]);
    }
  }

  /** At most one lease per project key would pass verification at any instant, even with paths relinked. */
  lemma OneLeaseVerifies(
      steps: seq<Step>, v: WorkerId, w: WorkerId, i: Identity, j: Identity, q: RunId, r: RunId)
    requires var s := After(INITIAL, steps);
             && IsHolding(s, v) && IsHolding(s, w)
             && Verifies(s, s.workers[v].guard, i, q) && Verifies(s, s.workers[w].guard, j, r) && i.digest == j.digest
    ensures v == w
  {
    LocksAreHeld(INITIAL, steps);
  }
}
