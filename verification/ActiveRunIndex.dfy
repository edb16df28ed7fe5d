/**
 * The active-run index (src/project.rs): always complete, and owned and never replaced for every key whose lock
 * path nobody relinks.
 */
module ActiveRunIndex {
  import opened Bytes
  import opened Lease

  // ----- The invariant -----

  ghost predicate Whole(files: map<Inode, File>, i: Inode) {
    && i in files && files[i].synced && files[i].content.Complete?
    && files[i].content.entry.version == ACTIVE_RUN_INDEX_VERSION
    && files[i].content.entry.key == files[i].content.entry.identity.digest
  }

  function EntryAt(s: State, key: Key): Option<Entry> {
    if key in s.entries && s.entries[key] in s.files && s.files[s.entries[key]].content.Complete?
    then Some(s.files[s.entries[key]].content.entry) else None
  }

  /** A published file holds an entry for this key. */
  ghost predicate PublishedFor(s: State, i: Inode, key: Key) {
    i in s.published && Whole(s.files, i) && s.files[i].content.entry.key == key
  }

  ghost predicate LocksFile(s: State, w: WorkerId, guard: Guard) {
    guard.lock in s.holders && s.holders[guard.lock] == w
  }

  ghost predicate OwnsLock(s: State, w: WorkerId, guard: Guard) {
    LinkIntact(s, guard) && LocksFile(s, w, guard)
  }

  predicate HasTemporary(task: Task) {
    task.Publishing? && 3 <= task.publish.Rank() <= 8
  }

  /** What a publication relies on; what it read of the index counts only while its key's path was not relinked. */
  ghost predicate PublicationFits(s: State, guard: Guard, task: Task, leased: bool)
    requires task.Publishing?
  {
    var entry, rank := task.entry, task.publish.Rank();
    && entry.version == ACTIVE_RUN_INDEX_VERSION && entry.key == entry.identity.digest == guard.key
    && entry.run == guard.run
    && (leased && 1 <= rank <= 8 ==> task.existing == Current(s, guard.key))
    && (leased && 2 <= rank <= 8 && task.existing.Some? ==> EntryAt(s, guard.key) == Some(entry))
    && (3 <= rank <= 8 ==> task.temporary in s.files && task.temporary in s.temporaries && task.temporary !in s.published)
    && (4 <= rank <= 8 ==> s.files[task.temporary].content == Complete(entry))
    && (5 <= rank <= 8 ==> s.files[task.temporary].synced)
  }

  ghost predicate RetirementFits(s: State, guard: Guard, task: Task, leased: bool)
    requires task.Retiring?
  {
    var rank := task.retire.Rank();
    && task.identity.digest == guard.key
    && (leased && 1 <= rank <= 3 ==> task.found.Some? && task.found == Current(s, guard.key))
    && (leased && 2 <= rank <= 3 ==> EntryAt(s, guard.key).Some? && EntryAt(s, guard.key).value.run == guard.run)
  }

  ghost predicate TaskFits(s: State, guard: Guard, task: Task, leased: bool) {
    && (task.Publishing? ==> PublicationFits(s, guard, task, leased))
    && (task.Retiring? ==> RetirementFits(s, guard, task, leased))
  }

  ghost predicate WorkerFits(s: State, w: WorkerId, worker: Worker, relinked: set<Key>) {
    var leased := worker.guard.key !in relinked;
    && (leased ==> LinkIntact(s, worker.guard))
    && (HasLock(worker) ==> LocksFile(s, w, worker.guard))
    && (worker.Holding? ==> TaskFits(s, worker.guard, worker.task, leased))
  }

  ghost predicate WorkersFit(s: State, relinked: set<Key>) {
    && (forall w | w in s.workers :: WorkerFits(s, w, s.workers[w], relinked))
    && (forall v, w | v != w && IsHolding(s, v) && IsHolding(s, w)
                      && HasTemporary(s.workers[v].task) && HasTemporary(s.workers[w].task) ::
          s.workers[v].task.temporary != s.workers[w].task.temporary)
  }

  ghost predicate FilesFit(s: State) {
    && (forall i | i in s.files :: i < s.next)
    && (forall i | i in s.published :: Whole(s.files, i))
    && (forall k | k in s.entries :: PublishedFor(s, s.entries[k], k))
    && (forall r | r in s.readers :: PublishedFor(s, s.readers[r].file, s.readers[r].identity.digest))
  }

  /** The invariant once outsiders have relinked the lock paths of these keys. */
  ghost predicate IndexSound(s: State, relinked: set<Key>) {
    WorkersFit(s, relinked) && FilesFit(s)
  }

  /** A key whose path was not relinked has one lease holder. */
  lemma OneHolder(s: State, relinked: set<Key>, v: WorkerId, w: WorkerId)
    requires IndexSound(s, relinked) && IsHolding(s, v) && IsHolding(s, w)
    requires s.workers[v].guard.key == s.workers[w].guard.key && s.workers[v].guard.key !in relinked
    ensures v == w
  {
    assert WorkerFits(s, v, s.workers[v], relinked) && WorkerFits(s, w, s.workers[w], relinked);
  }

  // ----- What a worker relies on -----

  /**
   * The step leaves a worker's world alone: its lock and link, the entry of its key, and its temporary file.
   */
  ghost predicate Undisturbed(s: State, after: State, w: WorkerId, worker: Worker, relinked: set<Key>) {
    var leased := worker.guard.key !in relinked;
    && (leased && LinkIntact(s, worker.guard) ==> LinkIntact(after, worker.guard))
    && (HasLock(worker) && LocksFile(s, w, worker.guard) ==> LocksFile(after, w, worker.guard))
    && (worker.Holding? && !worker.task.Resting? ==>
          && (leased ==> Current(after, worker.guard.key) == Current(s, worker.guard.key)
                         && EntryAt(after, worker.guard.key) == EntryAt(s, worker.guard.key))
          && (HasTemporary(worker.task) && worker.task.temporary in s.files ==>
                && worker.task.temporary in after.files
                && after.files[worker.task.temporary] == s.files[worker.task.temporary]
                && (worker.task.temporary in s.temporaries ==> worker.task.temporary in after.temporaries)
                && (worker.task.temporary !in s.published ==> worker.task.temporary !in after.published)))
  }

  lemma UndisturbedStaysFit(s: State, relinked: set<Key>, after: State, w: WorkerId, worker: Worker)
    requires WorkerFits(s, w, worker, relinked) && Undisturbed(s, after, w, worker, relinked)
    ensures WorkerFits(after, w, worker, relinked)
  {
  }

  /** If every other worker is undisturbed and the acting one fits, all fit. */
  lemma OthersStayFit(s: State, relinked: set<Key>, after: State, w: WorkerId)
    requires WorkersFit(s, relinked) && forall v | v in after.workers && v != w :: v in s.workers && after.workers[v] == s.workers[v]
    requires forall v | v in after.workers && v != w :: Undisturbed(s, after, v, s.workers[v], relinked)
    requires w in after.workers ==> WorkerFits(after, w, after.workers[w], relinked)
    requires IsHolding(after, w) && HasTemporary(after.workers[w].task) ==>
               forall v | v != w && IsHolding(s, v) && HasTemporary(s.workers[v].task) ::
                 s.workers[v].task.temporary != after.workers[w].task.temporary
    ensures WorkersFit(after, relinked)
  {
    forall v | v in after.workers
      ensures WorkerFits(after, v, after.workers[v], relinked)
    {
      if v != w {
        UndisturbedStaysFit(s, relinked, after, v, s.workers[v]);
      }
    }
  }

  // ----- Steps that only come and go -----

  ghost predicate SameIndex(s: State, after: State) {
    && after.files == s.files && after.entries == s.entries && after.published == s.published
    && after.readers == s.readers && after.temporaries == s.temporaries && after.next >= s.next
  }

  /** Links stay, other workers stay, and locks of other workers stay. */
  ghost predicate SameOthers(s: State, after: State, w: WorkerId) {
    && (forall k | k in s.locks :: k in after.locks && after.locks[k] == s.locks[k])
    && (forall i | i in s.holders && s.holders[i] != w :: i in after.holders && after.holders[i] == s.holders[i])
    && (forall v | v in after.workers && v != w :: v in s.workers && after.workers[v] == s.workers[v])
  }

  lemma QuietStepKeepsSound(s: State, relinked: set<Key>, after: State, w: WorkerId)
    requires IndexSound(s, relinked) && SameIndex(s, after) && SameOthers(s, after, w)
    requires w in after.workers ==>
               && WorkerFits(after, w, after.workers[w], relinked)
               && !(after.workers[w].Holding? && HasTemporary(after.workers[w].task))
    ensures IndexSound(after, relinked)
  {
    QuietStepDisturbsNobody(s, relinked, after, w);
    OthersStayFit(s, relinked, after, w);
  }

  lemma QuietStepDisturbsNobody(s: State, relinked: set<Key>, after: State, w: WorkerId)
    requires SameIndex(s, after) && SameOthers(s, after, w)
    ensures forall v | v in after.workers && v != w :: Undisturbed(s, after, v, s.workers[v], relinked)
  {
  }

  lemma ArrivalKeepsSound(s: State, relinked: set<Key>, w: WorkerId, identity: Identity, run: RunId)
    requires IndexSound(s, relinked)
    ensures IndexSound(Next(s, Open(w, identity, run)), relinked)
  {
    hide IndexSound;
    var key := identity.digest;
    if w !in s.workers {
      if key in s.locks {
        var guard := Guard(key, run, s.locks[key]);
        QuietStepKeepsSound(s, relinked, With(s, w, Opening(guard)), w);
      } else {
        ArrivalAtFreshKey(s, relinked, w, Guard(key, run, s.next));
      }
    }
  }

  lemma ArrivalAtFreshKey(s: State, relinked: set<Key>, w: WorkerId, guard: Guard)
    requires IndexSound(s, relinked) && w !in s.workers && guard.key !in s.locks && guard.lock == s.next
    ensures IndexSound(With(s, w, Opening(guard)).(locks := s.locks[guard.key := s.next], next := s.next + 1), relinked)
  {
    hide IndexSound;
    QuietStepKeepsSound(s, relinked, With(s, w, Opening(guard)).(locks := s.locks[guard.key := s.next], next := s.next + 1), w);
  }

  lemma LockingKeepsSound(s: State, relinked: set<Key>, w: WorkerId)
    requires IndexSound(s, relinked)
    ensures IndexSound(Next(s, TryLock(w)), relinked)
  {
    if w in s.workers && s.workers[w].Opening? {
      assert WorkerFits(s, w, s.workers[w], relinked);
      QuietStepKeepsSound(s, relinked, Next(s, TryLock(w)), w);
    }
  }

  lemma CheckingKeepsSound(s: State, relinked: set<Key>, w: WorkerId)
    requires IndexSound(s, relinked)
    ensures IndexSound(Next(s, CheckLock(w)), relinked)
  {
    if w in s.workers && s.workers[w].Locked? {
      assert WorkerFits(s, w, s.workers[w], relinked);
      QuietStepKeepsSound(s, relinked, Next(s, CheckLock(w)), w);
    }
  }

  lemma RecordingKeepsSound(s: State, relinked: set<Key>, w: WorkerId)
    requires IndexSound(s, relinked)
    ensures IndexSound(Next(s, RecordOwner(w)), relinked)
  {
    if w in s.workers && s.workers[w].Checked? {
      assert WorkerFits(s, w, s.workers[w], relinked);
      QuietStepKeepsSound(s, relinked, Next(s, RecordOwner(w)), w);
    }
  }

  lemma DroppingKeepsSound(s: State, relinked: set<Key>, w: WorkerId)
    requires IndexSound(s, relinked)
    ensures IndexSound(Next(s, Drop(w)), relinked)
  {
    if IsHolding(s, w) && s.workers[w].task.Resting? {
      assert WorkerFits(s, w, s.workers[w], relinked);
      QuietStepKeepsSound(s, relinked, Next(s, Drop(w)), w);
    }
  }

  lemma CrashingKeepsSound(s: State, relinked: set<Key>, w: WorkerId)
    requires IndexSound(s, relinked)
    ensures IndexSound(Next(s, Crash(w)), relinked)
  {
    QuietStepKeepsSound(s, relinked, Next(s, Crash(w)), w);
  }

  lemma BeginningPublicationKeepsSound(s: State, relinked: set<Key>, w: WorkerId, entry: Entry)
    requires IndexSound(s, relinked)
    ensures IndexSound(Next(s, BeginPublish(w, entry)), relinked)
  {
    if IsHolding(s, w) && s.workers[w].task.Resting? {
      assert WorkerFits(s, w, s.workers[w], relinked);
      QuietStepKeepsSound(s, relinked, Next(s, BeginPublish(w, entry)), w);
    }
  }

  lemma BeginningRetirementKeepsSound(s: State, relinked: set<Key>, w: WorkerId, identity: Identity, run: RunId)
    requires IndexSound(s, relinked)
    ensures IndexSound(Next(s, BeginRetire(w, identity, run)), relinked)
  {
    if IsHolding(s, w) && s.workers[w].task.Resting? {
      assert WorkerFits(s, w, s.workers[w], relinked);
      QuietStepKeepsSound(s, relinked, Next(s, BeginRetire(w, identity, run)), w);
    }
  }

  /** Readers and the reaper touch nothing a live worker relies on. */
  lemma BystandersKeepWorkersFit(s: State, relinked: set<Key>, after: State)
    requires WorkersFit(s, relinked) && after.workers == s.workers && after.files == s.files && after.entries == s.entries
    requires after.published == s.published && after.temporaries == s.temporaries && after.locks == s.locks
    requires forall w | w in s.workers && LocksFile(s, w, s.workers[w].guard) && HasLock(s.workers[w]) ::
               LocksFile(after, w, s.workers[w].guard)
    ensures WorkersFit(after, relinked)
  {
    forall w | w in s.workers
      ensures WorkerFits(after, w, s.workers[w], relinked)
    {
      assert WorkerFits(s, w, s.workers[w], relinked);
      assert Undisturbed(s, after, w, s.workers[w], relinked);
    }
  }

  lemma ReapingKeepsSound(s: State, relinked: set<Key>, lock: Inode)
    requires IndexSound(s, relinked)
    ensures IndexSound(Next(s, Reap(lock)), relinked)
  {
    BystandersKeepWorkersFit(s, relinked, Next(s, Reap(lock)));
  }

  lemma PinningKeepsSound(s: State, relinked: set<Key>, r: ReaderId, identity: Identity)
    requires IndexSound(s, relinked)
    ensures IndexSound(Next(s, Pin(r, identity)), relinked)
  {
    BystandersKeepWorkersFit(s, relinked, Next(s, Pin(r, identity)));
  }

  lemma UnpinningKeepsSound(s: State, relinked: set<Key>, r: ReaderId)
    requires IndexSound(s, relinked)
    ensures IndexSound(Next(s, Unpin(r)), relinked)
  {
    BystandersKeepWorkersFit(s, relinked, Next(s, Unpin(r)));
  }

  lemma PowerLossKeepsSound(s: State, relinked: set<Key>)
    requires IndexSound(s, relinked)
    ensures IndexSound(Next(s, PowerLoss), relinked)
  {
  }

  // ----- Steps under a lease -----

  /** The effect of a step under one lease is invisible to the holders of all others. */
  lemma WorkDisturbsNobody(s: State, relinked: set<Key>, w: WorkerId, v: WorkerId)
    requires IndexSound(s, relinked) && IsHolding(s, w) && v in s.workers && v != w
    ensures Undisturbed(s, Worked(s, w), v, s.workers[v], relinked)
  {
    AdvanceWorksAlone(s, w);
    assert WorkerFits(s, w, s.workers[w], relinked) && WorkerFits(s, v, s.workers[v], relinked);
    var after, guard, task := Worked(s, w), s.workers[w].guard, s.workers[w].task;
    if IsHolding(s, v) && !task.Resting? {
      assert s.workers[v].guard.key in relinked || s.workers[v].guard.key != guard.key by {
        if s.workers[v].guard.key !in relinked && s.workers[v].guard.key == guard.key {
          OneHolder(s, relinked, v, w);
        }
      }
      EffectIsLocal(s, relinked, w, s.workers[v].guard.key);
    }
  }

  /** A step under a lease changes no entry of another key, and no file but its own temporary file. */
  lemma EffectIsLocal(s: State, relinked: set<Key>, w: WorkerId, key: Key)
    requires IndexSound(s, relinked) && IsHolding(s, w)
    ensures var after := Worked(s, w);
            && OnlyTouches(s, after, OwnFile(s.workers[w].task))
            && (key != s.workers[w].guard.key ==> Current(after, key) == Current(s, key) && EntryAt(after, key) == EntryAt(s, key))
  {
    hide FilesFit, Current, EntryAt, WorkersFit;
    OtherFilesStay(s, w);
    OtherEntriesStay(s, relinked, w, key);
  }

  /** No file but this one changes, leaves the temporary files, or is published. */
  ghost predicate OnlyTouches(s: State, after: State, mine: set<Inode>) {
    && (forall i | i in s.files && i !in mine :: i in after.files && after.files[i] == s.files[i])
    && (forall i | i in s.temporaries && i !in mine :: i in after.temporaries)
    && (forall i | i in after.published && i !in s.published :: i in mine)
  }

  function OwnFile(task: Task): set<Inode> {
    if HasTemporary(task) then {task.temporary} else {}
  }

  lemma OtherFilesStay(s: State, w: WorkerId)
    requires FilesFit(s) && IsHolding(s, w)
    ensures OnlyTouches(s, Worked(s, w), OwnFile(s.workers[w].task))
  {
    hide FilesFit, PublishEffect;
    var task := s.workers[w].task;
    if task.Publishing? {
      PublishingTouchesItsFile(s, task);
    }
  }

  lemma PublishingTouchesItsFile(s: State, task: Task)
    requires FilesFit(s) && task.Publishing?
    ensures OnlyTouches(s, PublishEffect(s, task), OwnFile(task))
  {
  }

  lemma OtherEntriesStay(s: State, relinked: set<Key>, w: WorkerId, key: Key)
    requires IndexSound(s, relinked) && IsHolding(s, w)
    ensures var after := Worked(s, w);
            key != s.workers[w].guard.key ==> Current(after, key) == Current(s, key) && EntryAt(after, key) == EntryAt(s, key)
  {
    hide WorkersFit, FilesFit, PublishEffect, RetireEffect, PublishNext, RetireNext;
    WorkIsForItsKey(s, relinked, w);
    var task := s.workers[w].task;
    if key != s.workers[w].guard.key {
      if task.Publishing? {
        PublishingLeavesOtherEntries(s, task, key);
      } else if task.Retiring? {
        RetiringLeavesOtherEntries(s, task, key);
      }
    }
  }

  lemma PublishingLeavesOtherEntries(s: State, task: Task, key: Key)
    requires FilesFit(s) && task.Publishing? && key != task.entry.key
    requires HasTemporary(task) ==> task.temporary !in s.published
    ensures Current(PublishEffect(s, task), key) == Current(s, key) && EntryAt(PublishEffect(s, task), key) == EntryAt(s, key)
  {
    assert key in s.entries ==> PublishedFor(s, s.entries[key], key);
  }

  lemma RetiringLeavesOtherEntries(s: State, task: Task, key: Key)
    requires task.Retiring? && key != task.identity.digest
    ensures Current(RetireEffect(s, task), key) == Current(s, key) && EntryAt(RetireEffect(s, task), key) == EntryAt(s, key)
  {
  }

  lemma WorkIsForItsKey(s: State, relinked: set<Key>, w: WorkerId)
    requires WorkersFit(s, relinked) && IsHolding(s, w)
    ensures var guard, task := s.workers[w].guard, s.workers[w].task;
            && (task.Publishing? ==> task.entry.key == guard.key)
            && (task.Retiring? ==> task.identity.digest == guard.key)
            && (task.Publishing? && HasTemporary(task) ==> task.temporary !in s.published)
  {
    assert WorkerFits(s, w, s.workers[w], relinked);
  }

  lemma PublishingKeepsFiles(s: State, guard: Guard, task: Task, leased: bool)
    requires FilesFit(s) && task.Publishing? && PublicationFits(s, guard, task, leased)
    ensures FilesFit(PublishEffect(s, task))
  {
    match task.publish
    case Matched => CreationKeepsFiles(s, File(Partial, false));
    case Created => WritingKeepsFiles(s, task.temporary, File(Complete(task.entry), false));
    case Written => WritingKeepsFiles(s, task.temporary, File(Complete(task.entry), true));
    case Ready => RenamingKeepsFiles(s, guard, task, leased);
    case _ =>
  }

  lemma CreationKeepsFiles(s: State, file: File)
    requires FilesFit(s)
    ensures FilesFit(s.(files := s.files[s.next := file], temporaries := s.temporaries + {s.next}, next := s.next + 1))
  {
  }

  /** Rewriting a file that nobody published changes nothing for the index and its readers. */
  lemma WritingKeepsFiles(s: State, i: Inode, file: File)
    requires FilesFit(s) && i in s.files && i !in s.published
    ensures FilesFit(s.(files := s.files[i := file]))
  {
  }

  lemma RenamingKeepsFiles(s: State, guard: Guard, task: Task, leased: bool)
    requires FilesFit(s) && task.Publishing? && task.publish.Ready? && PublicationFits(s, guard, task, leased)
    ensures FilesFit(PublishEffect(s, task))
  {
  }

  lemma RetiringKeepsFiles(s: State, task: Task)
    requires FilesFit(s) && task.Retiring?
    ensures FilesFit(RetireEffect(s, task))
  {
  }

  lemma PublishingStaysFit(s: State, guard: Guard, task: Task, leased: bool)
    requires FilesFit(s) && task.Publishing? && PublicationFits(s, guard, task, leased)
    ensures TaskFits(PublishEffect(s, task), guard, PublishNext(s, guard, task), leased)
  {
    match task.publish
    case Matched => WritingStaysFit(s, guard, task, leased);
    case Created => WritingStaysFit(s, guard, task, leased);
    case Written => WritingStaysFit(s, guard, task, leased);
    case _ => CheckingStaysFit(s, guard, task, leased);
  }

  lemma WritingStaysFit(s: State, guard: Guard, task: Task, leased: bool)
    requires FilesFit(s) && task.Publishing? && PublicationFits(s, guard, task, leased)
    requires task.publish in {Matched, Created, Written}
    ensures TaskFits(PublishEffect(s, task), guard, PublishNext(s, guard, task), leased)
  {
    assert guard.key in s.entries ==> PublishedFor(s, s.entries[guard.key], guard.key);
  }

  lemma CheckingStaysFit(s: State, guard: Guard, task: Task, leased: bool)
    requires FilesFit(s) && task.Publishing? && PublicationFits(s, guard, task, leased)
    requires task.publish !in {Matched, Created, Written}
    ensures TaskFits(PublishEffect(s, task), guard, PublishNext(s, guard, task), leased)
  {
    assert guard.key in s.entries ==> PublishedFor(s, s.entries[guard.key], guard.key);
  }

  lemma RetiringStaysFit(s: State, guard: Guard, task: Task, leased: bool)
    requires FilesFit(s) && task.Retiring? && RetirementFits(s, guard, task, leased)
    ensures TaskFits(RetireEffect(s, task), guard, RetireNext(s, guard, task), leased)
  {
  }

  lemma WorkKeepsFiles(s: State, relinked: set<Key>, w: WorkerId)
    requires IndexSound(s, relinked) && IsHolding(s, w)
    ensures FilesFit(Worked(s, w))
  {
    var guard, task := s.workers[w].guard, s.workers[w].task;
    assert WorkerFits(s, w, s.workers[w], relinked);
    if task.Publishing? {
      PublishingKeepsFiles(s, guard, task, guard.key !in relinked);
    } else if task.Retiring? {
      RetiringKeepsFiles(s, task);
    }
  }

  lemma WorkKeepsItsWorkerFit(s: State, relinked: set<Key>, w: WorkerId)
    requires IndexSound(s, relinked) && IsHolding(s, w)
    ensures WorkerFits(Worked(s, w), w, Worked(s, w).workers[w], relinked)
  {
    var guard, task := s.workers[w].guard, s.workers[w].task;
    assert WorkerFits(s, w, s.workers[w], relinked);
    AdvanceWorksAlone(s, w);
    if task.Publishing? {
      PublishingStaysFit(s, guard, task, guard.key !in relinked);
    } else if task.Retiring? {
      RetiringStaysFit(s, guard, task, guard.key !in relinked);
    }
  }

  lemma WorkKeepsSound(s: State, relinked: set<Key>, w: WorkerId)
    requires IndexSound(s, relinked) && IsHolding(s, w)
    ensures IndexSound(Worked(s, w), relinked)
  {
    hide FilesFit, Worked;
    var after := Worked(s, w);
    AdvanceWorksAlone(s, w);
    WorkKeepsFiles(s, relinked, w);
    WorkKeepsItsWorkerFit(s, relinked, w);
    forall v | v in after.workers && v != w
      ensures Undisturbed(s, after, v, s.workers[v], relinked)
    {
      WorkDisturbsNobody(s, relinked, w, v);
    }
    forall v | v != w && IsHolding(s, v) && HasTemporary(s.workers[v].task) && HasTemporary(after.workers[w].task)
      ensures s.workers[v].task.temporary != after.workers[w].task.temporary
    {
      NewTemporaryIsDistinct(s, relinked, w, v);
    }
    OthersStayFit(s, relinked, after, w);
  }

  lemma NewTemporaryIsDistinct(s: State, relinked: set<Key>, w: WorkerId, v: WorkerId)
    requires IndexSound(s, relinked) && v != w && IsHolding(s, v) && IsHolding(s, w) && HasTemporary(s.workers[v].task)
    ensures var task := Worked(s, w).workers[w].task;
            HasTemporary(task) ==> s.workers[v].task.temporary != task.temporary
  {
    assert WorkerFits(s, v, s.workers[v], relinked);
  }

  lemma RelinkingKeepsSound(s: State, relinked: set<Key>, key: Key, target: Option<Inode>)
    requires IndexSound(s, relinked)
    ensures IndexSound(Next(s, Relink(key, target)), relinked + {key})
  {
    var after := Next(s, Relink(key, target));
    forall w | w in s.workers
      ensures WorkerFits(after, w, s.workers[w], relinked + {key})
    {
      assert WorkerFits(s, w, s.workers[w], relinked);
    }
  }

  lemma StepKeepsSound(s: State, relinked: set<Key>, step: Step)
    requires IndexSound(s, relinked)
    ensures IndexSound(Next(s, step), relinked + if step.Relink? then {step.key} else {})
  {
    hide IndexSound;
    assert relinked + {} == relinked;
    match step
    case Open(w, identity, run) => ArrivalKeepsSound(s, relinked, w, identity, run);
    case TryLock(w) => LockingKeepsSound(s, relinked, w);
    case CheckLock(w) => CheckingKeepsSound(s, relinked, w);
    case RecordOwner(w) => RecordingKeepsSound(s, relinked, w);
    case Drop(w) => DroppingKeepsSound(s, relinked, w);
    case Crash(w) => CrashingKeepsSound(s, relinked, w);
    case Reap(lock) => ReapingKeepsSound(s, relinked, lock);
    case PowerLoss => PowerLossKeepsSound(s, relinked);
    case BeginPublish(w, entry) => BeginningPublicationKeepsSound(s, relinked, w, entry);
    case BeginRetire(w, identity, run) => BeginningRetirementKeepsSound(s, relinked, w, identity, run);
    case Advance(w) => if IsHolding(s, w) { WorkKeepsSound(s, relinked, w); }
    case Pin(r, identity) => PinningKeepsSound(s, relinked, r, identity);
    case Unpin(r) => UnpinningKeepsSound(s, relinked, r);
    case Relink(key, target) => RelinkingKeepsSound(s, relinked, key, target);
  }

  // ----- Histories -----

  lemma InitialIsSound()
    ensures IndexSound(INITIAL, {})
  {
  }

  lemma {:induction false} IndexStaysSound(s: State, relinked: set<Key>, steps: seq<Step>)
    requires IndexSound(s, relinked)
    ensures IndexSound(After(s, steps), relinked + RelinkedIn(steps))
    decreases |steps|
  {
    hide IndexSound, Next, RelinkedIn;
    if steps == [] {
      NothingIsRelinked();
      assert relinked + {} == relinked;
    } else {
      var n := |steps| - 1;
      IndexStaysSound(s, relinked, steps[..n]);
      StepKeepsSound(After(s, steps[..n]), relinked + RelinkedIn(steps[..n]), steps[n]);
      assert steps[..n] + [steps[n]] == steps;
      RelinkedOneMore(steps[..n], steps[n]);
      var more := if steps[n].Relink? then {steps[n].key} else {};
      assert (relinked + RelinkedIn(steps[..n])) + more == relinked + (RelinkedIn(steps[..n]) + more);
    }
  }

  lemma NothingIsRelinked()
    ensures RelinkedIn([]) == {}
  {
  }

  lemma HistoriesAreSound(steps: seq<Step>)
    ensures IndexSound(After(INITIAL, steps), RelinkedIn(steps))
  {
    hide IndexSound;
    InitialIsSound();
    IndexStaysSound(INITIAL, {}, steps);
    assert {} + RelinkedIn(steps) == RelinkedIn(steps);
  }

  /** In any history that does not relink its lock path, a key has at most one lease holder, whatever happens to others. */
  lemma OneHolderUnlessRelinked(steps: seq<Step>, v: WorkerId, w: WorkerId)
    requires IsHolding(After(INITIAL, steps), v) && IsHolding(After(INITIAL, steps), w)
    requires After(INITIAL, steps).workers[v].guard.key == After(INITIAL, steps).workers[w].guard.key
    requires After(INITIAL, steps).workers[v].guard.key !in RelinkedIn(steps)
    ensures v == w
  {
    HistoriesAreSound(steps);
    OneHolder(After(INITIAL, steps), RelinkedIn(steps), v, w);
  }

  /** The holder of the key's lease, under this run, is the one at work. */
  ghost predicate IsWorkOf(s: State, step: Step, key: Key, run: RunId) {
    && step.Advance? && IsHolding(s, step.worker)
    && s.workers[step.worker].guard.key == key && s.workers[step.worker].guard.run == run
    && OwnsLock(s, step.worker, s.workers[step.worker].guard)
  }

  /**
   * After any history that leaves the key's lock path alone, its entry is replaced only by itself, and it appears
   * and disappears only by the work of a process that holds the key's lease under the entry's own run.
   */
  lemma EntriesBelongToTheirLease(steps: seq<Step>, step: Step, key: Key)
    requires key !in RelinkedIn(steps)
    ensures var s := After(INITIAL, steps);
            var before, after := EntryAt(s, key), EntryAt(Next(s, step), key);
            match (before, after)
            case (None, None) => true
            case (Some(e), Some(f)) => f == e
            case (Some(e), None) => IsWorkOf(s, step, key, e.run)
            case (None, Some(f)) => IsWorkOf(s, step, key, f.run)
  {
    var s := After(INITIAL, steps);
    HistoriesAreSound(steps);
    if step.Advance? && IsHolding(s, step.worker) {
      WorkChangesOwnEntry(s, RelinkedIn(steps), step.worker, key);
    } else {
      OtherStepsKeepEntries(s, step, key);
    }
  }

  lemma OtherStepsKeepEntries(s: State, step: Step, key: Key)
    requires FilesFit(s) && (step.Advance? ==> !IsHolding(s, step.worker))
    ensures EntryAt(Next(s, step), key) == EntryAt(s, key)
  {
    if key in s.entries {
      assert PublishedFor(s, s.entries[key], key);
    }
  }

  lemma WorkChangesOwnEntry(s: State, relinked: set<Key>, w: WorkerId, key: Key)
    requires IndexSound(s, relinked) && IsHolding(s, w) && key !in relinked
    ensures var before, after := EntryAt(s, key), EntryAt(Worked(s, w), key);
            match (before, after)
            case (None, None) => true
            case (Some(e), Some(f)) => f == e
            case (Some(e), None) => IsWorkOf(s, Advance(w), key, e.run)
            case (None, Some(f)) => IsWorkOf(s, Advance(w), key, f.run)
  {
    hide Worked, WorkersFit, FilesFit;
    if key != s.workers[w].guard.key {
      EffectIsLocal(s, relinked, w, key);
    } else {
      WorkChangesItsKey(s, relinked, w);
    }
  }

  lemma WorkChangesItsKey(s: State, relinked: set<Key>, w: WorkerId)
    requires IndexSound(s, relinked) && IsHolding(s, w) && s.workers[w].guard.key !in relinked
    ensures var key := s.workers[w].guard.key;
            var before, after := EntryAt(s, key), EntryAt(Worked(s, w), key);
            match (before, after)
            case (None, None) => true
            case (Some(e), Some(f)) => f == e
            case (Some(e), None) => IsWorkOf(s, Advance(w), key, e.run)
            case (None, Some(f)) => IsWorkOf(s, Advance(w), key, f.run)
  {
    var key := s.workers[w].guard.key;
    assert WorkerFits(s, w, s.workers[w], relinked);
    if key in s.entries {
      assert PublishedFor(s, s.entries[key], key);
    }
  }

  /** Whatever is relinked, every link of the index leads to a whole, synced entry of its own key. */
  lemma EntriesAreWhole(steps: seq<Step>, key: Key)
    requires key in After(INITIAL, steps).entries
    ensures var s := After(INITIAL, steps);
            && EntryAt(s, key).Some? && s.files[s.entries[key]].synced
            && EntryAt(s, key).value.key == key == EntryAt(s, key).value.identity.digest
            && EntryAt(s, key).value.version == ACTIVE_RUN_INDEX_VERSION
  {
    var s := After(INITIAL, steps);
    HistoriesAreSound(steps);
    assert PublishedFor(s, s.entries[key], key);
  }

  /** Whatever happens between opening and reading, a reader gets a whole entry of the key it looked up. */
  lemma ReadersSeeWholeEntries(steps: seq<Step>, r: ReaderId)
    requires r in After(INITIAL, steps).readers
    ensures var s := After(INITIAL, steps);
            && s.readers[r].file in s.files && s.files[s.readers[r].file].content.Complete?
            && s.files[s.readers[r].file].content.entry.key == s.readers[r].identity.digest
  {
    var s := After(INITIAL, steps);
    HistoriesAreSound(steps);
    assert PublishedFor(s, s.readers[r].file, s.readers[r].identity.digest);
  }

  // ----- What a relinked lock path costs -----

  lemma AfterOneMore(past: seq<Step>, step: Step)
    ensures After(INITIAL, past + [step]) == Next(After(INITIAL, past), step)
  {
    assert (past + [step])[..|past|] == past;
  }

  lemma LockingFreeFile(s: State, w: WorkerId, guard: Guard)
    requires w in s.workers && s.workers[w] == Opening(guard) && guard.lock !in s.holders && LinkIntact(s, guard)
    ensures Next(Next(Next(s, TryLock(w)), CheckLock(w)), RecordOwner(w)) ==
              s.(holders := s.holders[guard.lock := w], workers := s.workers[w := Holding(guard, Resting)])
  {
    var locked := s.(holders := s.holders[guard.lock := w], workers := s.workers[w := Locked(guard)]);
    assert Next(s, TryLock(w)) == locked;
    CheckingIntactLink(locked, w, guard);
  }

  lemma CheckingIntactLink(s: State, w: WorkerId, guard: Guard)
    requires w in s.workers && s.workers[w] == Locked(guard) && LinkIntact(s, guard)
    ensures Next(Next(s, CheckLock(w)), RecordOwner(w)) == With(s, w, Holding(guard, Resting))
  {
    assert Next(s, CheckLock(w)) == With(s, w, Checked(guard));
  }

  /** The file that opens next at a path which was removed, or which names `target` now. */
  function OpenedAfter(s: State, target: Option<Inode>): Inode {
    if target.Some? then target.value else s.next
  }

  lemma FiveStepsAcquire(s: State, w: WorkerId, i: Identity, run: RunId, target: Option<Inode>)
    requires w !in s.workers && OpenedAfter(s, target) !in s.holders
    ensures var after := Next(Next(Next(Next(Next(s, Relink(i.digest, target)), Open(w, i, run)), TryLock(w)), CheckLock(w)), RecordOwner(w));
            var guard := Guard(i.digest, run, OpenedAfter(s, target));
            && after.workers == s.workers[w := Holding(guard, Resting)] && LinkIntact(after, guard)
  {
    var guard := Guard(i.digest, run, OpenedAfter(s, target));
    var arrived := Next(Next(s, Relink(i.digest, target)), Open(w, i, run));
    assert arrived.workers == s.workers[w := Opening(guard)] && arrived.holders == s.holders && LinkIntact(arrived, guard);
    hide Next;
    LockingFreeFile(arrived, w, guard);
  }

  /** From any state in which a key is held, relinking its path lets any newcomer hold it too; only the newcomer verifies. */
  lemma RelinkingLetsTwoHold(past: seq<Step>, v: WorkerId, w: WorkerId, i: Identity, r: RunId, target: Option<Inode>)
    returns (steps: seq<Step>)
    requires IsHolding(After(INITIAL, past), v) && After(INITIAL, past).workers[v].guard.key == i.digest
    requires w !in After(INITIAL, past).workers && OpenedAfter(After(INITIAL, past), target) !in After(INITIAL, past).holders
    ensures steps == past + [Relink(i.digest, target)] + [Open(w, i, r)] + [TryLock(w)] + [CheckLock(w)] + [RecordOwner(w)]
    ensures var s := After(INITIAL, steps);
            && IsHolding(s, v) && s.workers[v] == After(INITIAL, past).workers[v]
            && IsHolding(s, w) && s.workers[w].guard.key == i.digest
            && !LinkIntact(s, s.workers[v].guard) && LinkIntact(s, s.workers[w].guard)
  {
    var s := After(INITIAL, past);
    steps := past + [Relink(i.digest, target)] + [Open(w, i, r)] + [TryLock(w)] + [CheckLock(w)] + [RecordOwner(w)];
    AfterOneMore(past, Relink(i.digest, target));
    AfterOneMore(past + [Relink(i.digest, target)], Open(w, i, r));
    AfterOneMore(past + [Relink(i.digest, target)] + [Open(w, i, r)], TryLock(w));
    AfterOneMore(past + [Relink(i.digest, target)] + [Open(w, i, r)] + [TryLock(w)], CheckLock(w));
    AfterOneMore(past + [Relink(i.digest, target)] + [Open(w, i, r)] + [TryLock(w)] + [CheckLock(w)], RecordOwner(w));
    FiveStepsAcquire(s, w, i, r, target);
    LocksAreHeld(INITIAL, past);
    assert s.workers[v].guard.lock in s.holders;
  }

  /** So two workers can come to hold leases of one key, from the first steps on. */
  lemma TwoCanHold(v: WorkerId, w: WorkerId, i: Identity, q: RunId, r: RunId) returns (steps: seq<Step>)
    requires v != w
    ensures var s := After(INITIAL, steps);
            && IsHolding(s, v) && s.workers[v].guard == Guard(i.digest, q, 0)
            && IsHolding(s, w) && s.workers[w].guard.key == i.digest
  {
    var arrived := Next(INITIAL, Open(v, i, q));
    LockingFreeFile(arrived, v, Guard(i.digest, q, 0));
    AfterOneMore([], Open(v, i, q));
    AfterOneMore([Open(v, i, q)], TryLock(v));
    AfterOneMore([Open(v, i, q), TryLock(v)], CheckLock(v));
    AfterOneMore([Open(v, i, q), TryLock(v), CheckLock(v)], RecordOwner(v));
    var past := [Open(v, i, q), TryLock(v), CheckLock(v)] + [RecordOwner(v)];
    assert [] + [Open(v, i, q)] == [Open(v, i, q)];
    assert [Open(v, i, q)] + [TryLock(v)] == [Open(v, i, q), TryLock(v)];
    assert [Open(v, i, q), TryLock(v)] + [CheckLock(v)] == [Open(v, i, q), TryLock(v), CheckLock(v)];
    steps := RelinkingLetsTwoHold(past, v, w, i, r, None);
  }
}
