/** Whole runs of the checkpoint machine, with crashes and reopens anywhere in them. */
module CheckpointRuns {
  import opened Options
  import opened WalHistory
  import opened FrameTree
  import opened CheckpointMachine
  import opened CheckpointInvariant
  import opened CheckpointWriters
  import opened CheckpointPlanner
  import opened CheckpointWorker
  import opened CheckpointFrontier
  import opened CrashRecovery

  /** A step of a run, or a crash that keeps `upTo` log records and leaves `disk`, and the reopen
      that follows it. */
  datatype Event = Do(a: Action) | Crash(upTo: nat, disk: Disk)

  /** A flushed record survives; of the later ones some prefix does. */
  ghost predicate Survives(s: State, upTo: nat, disk: Disk) {
    s.flushed <= upTo <= |s.wal| && CrashDisk(s.durable, s.unsynced, disk)
  }

  ghost predicate CanHappen(s: State, e: Event) {
    match e
    case Do(a) => Enabled(s, a)
    case Crash(upTo, disk) => s.trunc <= upTo && Survives(s, upTo, disk)
  }

  /** The store after reopening: the surviving frames with the surviving log replayed over them. */
  ghost function Reopened(s: State, upTo: nat, disk: Disk): State
    requires s.trunc <= upTo <= |s.wal|
  {
    var live := Reached(s.births, disk, s.root);
    var r := Replay(Loaded(disk), s.root, |s.births|, s.wal, s.trunc, upTo);
    s.(wal := s.wal[..upTo], flushed := upTo, latched := false, live := live, rel := live,
       cache := r.frames, committed := r.frames, dirty := r.touched, pending := {}, planner := Idle, epochs := [],
       durable := disk, unsynced := [], dead := s.births.Keys - live)
  }

  ghost function After(s: State, e: Event): State
    requires CanHappen(s, e)
  {
    match e
    case Do(a) => Apply(s, a)
    case Crash(upTo, disk) => Reopened(s, upTo, disk)
  }

  ghost predicate CanRun(s: State, run: seq<Event>)
    decreases |run|
  {
    run == [] || (CanHappen(s, run[0]) && CanRun(After(s, run[0]), run[1..]))
  }

  ghost function Run(s: State, run: seq<Event>): State
    requires CanRun(s, run)
    decreases |run|
  {
    if run == [] then s else Run(After(s, run[0]), run[1..])
  }

  // ---------- the invariant holds in every reachable state ----------

  lemma {:induction false} InitHasInv(s: State)
    requires Init(s) && DeleteSafe(s.bound, s.userDeletes)
    ensures Inv(s)
  {
  }

  lemma {:induction false} StepKeepsInv(s: State, a: Action)
    requires Inv(s) && Enabled(s, a)
    ensures Inv(Apply(s, a))
  {
    if ByWriter(a) { WritersKeepInv(s, a); }
    else if ByPlanner(a) { PlannerKeepsInv(s, a); }
    else if ByWrite(a) { WritePhaseKeepsInv(s, a); }
    else if ByDelete(a) { DeletePhaseKeepsInv(s, a); }
    else if a.Truncate? { TruncateKeepsInv(s); }
    else { ReclaimKeepsInv(s, a.g); }
  }

  lemma {:induction false} WindowShrinks(base: Content, wal: seq<Batch>, lo: nat, hi: nat, j: nat, k: Key,
                                         v: Option<Value>)
    requires InWindow(base, wal, lo, hi, k, v) && hi <= j <= |wal|
    ensures InWindow(base, wal[..j], lo, j, k, v)
  {
    var i: nat :| lo <= i <= hi && i <= |wal| && v == ValueAt(base, wal, i, k);
    assert wal[..j][..i] == wal[..i];
    ValueAtPrefix(base, wal, wal[..j], i, k);
  }

  lemma {:induction false} ReopenKeepsDisk(births: Births, rel: set<Guid>, root: Guid, base: Content,
                                           wal: seq<Batch>, lo: nat, hi: nat, d: Disk, j: nat)
    requires GoodDisk(births, rel, root, base, wal, lo, hi, d) && lo <= hi <= j <= |wal|
    ensures DiskOk(births, Reached(births, d, root), root, base, wal[..j], lo, j, d, [])
  {
    var live := Reached(births, d, root);
    forall g | g in live
      ensures ImgOk(births, live, base, wal[..j], lo, j, g, d[g]) && ChildrenSure(births, d, [], g, d[g])
    {
      ReachedIsShaped(births, rel, root, base, wal, lo, hi, d, g);
      forall k | k in births[g].terr && d[g](k).Here?
        ensures InWindow(base, wal[..j], lo, j, k, d[g](k).val)
      {
        WindowShrinks(base, wal, lo, hi, j, k, d[g](k).val);
      }
    }
  }

  lemma {:induction false} CrashKeepsInv(s: State, upTo: nat, disk: Disk)
    requires Inv(s) && CanHappen(s, Crash(upTo, disk))
    ensures Inv(Reopened(s, upTo, disk))
  {
    var t := Reopened(s, upTo, disk);
    CrashLeavesGoodDisk(s.births, s.rel, s.root, s.base, s.wal, s.trunc, s.flushed, s.durable, s.unsynced, disk);
    ReplayRestoresContent(s.births, s.rel, s.root, s.base, s.wal, s.trunc, s.flushed, disk, upTo);
    SurvivorsFormTree(s.births, s.rel, s.root, s.base, s.wal, s.trunc, s.flushed, disk);
    ReplayKeepsTree(s.births, t.live, s.root, Loaded(disk), FoundContent(s.births, t.live, Loaded(disk)), s.wal,
      s.trunc, upTo);
    ReopenKeepsDisk(s.births, s.rel, s.root, s.base, s.wal, s.trunc, s.flushed, disk, upTo);
    forall g | g in t.rel && g in t.committed
      ensures ImgOk(t.births, t.rel, t.base, t.wal, t.trunc, |t.wal|, g, t.committed[g].img)
    {
      LiveImgOk(t.births, t.live, t.root, t.rel, t.base, t.wal, t.trunc, t.committed, g);
    }
  }

  /** Every state of every run, through any number of crashes and reopens, meets the invariant. */
  lemma {:induction false} RunKeepsInv(s: State, run: seq<Event>)
    requires Inv(s) && CanRun(s, run)
    ensures Inv(Run(s, run))
    decreases |run|
  {
    if run != [] {
      match run[0] {
        case Do(a) => StepKeepsInv(s, a);
        case Crash(upTo, disk) => CrashKeepsInv(s, upTo, disk);
      }
      RunKeepsInv(After(s, run[0]), run[1..]);
    }
  }

  // ---------- what it means ----------

  /** A search for `k` from the root ends at a frame that stores `v` for it. */
  ghost predicate Finds(s: State, c: Frames, k: Key, v: Option<Value>) {
    var hit := Locate(c, s.root, k, |s.births|);
    hit.Some? && hit.value in c && c[hit.value].img(k) == Here(v)
  }

  ghost function ReplayedFrames(s: State, upTo: nat, disk: Disk): Frames
    requires s.trunc <= upTo <= |s.wal|
  {
    Replay(Loaded(disk), s.root, |s.births|, s.wal, s.trunc, upTo).frames
  }

  lemma {:induction false} CrashFinds(s: State, upTo: nat, disk: Disk, k: Key) returns (v: Option<Value>)
    requires Inv(s) && Survives(s, upTo, disk)
    ensures Finds(s, Loaded(disk), k, v) && InWindow(s.base, s.wal, s.trunc, s.flushed, k, v)
  {
    var live, c := Reached(s.births, disk, s.root), Loaded(disk);
    CrashLeavesGoodDisk(s.births, s.rel, s.root, s.base, s.wal, s.trunc, s.flushed, s.durable, s.unsynced, disk);
    SurvivorsFormTree(s.births, s.rel, s.root, s.base, s.wal, s.trunc, s.flushed, disk);
    LocateFromRoot(s.births, live, s.root, c, FoundContent(s.births, live, c), k);
    SurvivorInWindow(s.births, s.rel, s.root, s.base, s.wal, s.trunc, s.flushed, disk, k);
    v := FoundContent(s.births, live, c)(k);
  }

  lemma {:induction false} ReplayFinds(s: State, upTo: nat, disk: Disk, k: Key)
    requires Inv(s) && Survives(s, upTo, disk)
    ensures Finds(s, ReplayedFrames(s, upTo, disk), k, ValueAt(s.base, s.wal, upTo, k))
  {
    var live := Reached(s.births, disk, s.root);
    CrashLeavesGoodDisk(s.births, s.rel, s.root, s.base, s.wal, s.trunc, s.flushed, s.durable, s.unsynced, disk);
    ReplayRestoresContent(s.births, s.rel, s.root, s.base, s.wal, s.trunc, s.flushed, disk, upTo);
    LocateFromRoot(s.births, live, s.root, ReplayedFrames(s, upTo, disk), Current(s.base, s.wal[..upTo]), k);
    assert s.wal[..upTo][..upTo] == s.wal[..upTo];
    ValueAtPrefix(s.base, s.wal[..upTo], s.wal, upTo, k);
  }

  lemma {:induction false} RunHasInv(s0: State, run: seq<Event>)
    requires Init(s0) && DeleteSafe(s0.bound, s0.userDeletes) && CanRun(s0, run)
    ensures Inv(Run(s0, run))
  {
    InitHasInv(s0);
    RunKeepsInv(s0, run);
  }

  /** Crash safety. From any state of any run, a crash at that point, with any prefix of the log
      that covers the flushed records and any mix of the unsynced blob operations, leaves a disk on
      which every search ends; what it finds lies between the truncation point and the flushed
      watermark; and after replay every search finds exactly the record after the surviving log. */
  lemma {:induction false} CrashConverges(s0: State, run: seq<Event>, upTo: nat, disk: Disk, k: Key)
    requires Init(s0) && DeleteSafe(s0.bound, s0.userDeletes) && CanRun(s0, run)
    requires Survives(Run(s0, run), upTo, disk)
    ensures var s := Run(s0, run);
      && s.trunc <= upTo
      && (exists v :: Finds(s, Loaded(disk), k, v) && InWindow(s.base, s.wal, s.trunc, s.flushed, k, v))
      && Finds(s, ReplayedFrames(s, upTo, disk), k, ValueAt(s.base, s.wal, upTo, k))
  {
    RunHasInv(s0, run);
    var v := CrashFinds(Run(s0, run), upTo, disk, k);
    ReplayFinds(Run(s0, run), upTo, disk, k);
  }

  /** Truncation drops only records whose effects are on disk: whenever it is enabled, a search on
      the synced disk finds the record after the whole log. */
  lemma {:induction false} TruncationLosesNothing(s0: State, run: seq<Event>, k: Key)
    requires Init(s0) && DeleteSafe(s0.bound, s0.userDeletes) && CanRun(s0, run)
    requires Enabled(Run(s0, run), Truncate)
    ensures var s := Run(s0, run);
      s.unsynced == [] && Finds(s, Loaded(s.durable), k, ValueAt(s.base, s.wal, |s.wal|, k))
  {
    var s := Run(s0, run);
    RunHasInv(s0, run);
    LocateFromRoot(s.births, s.live, s.root, s.committed, Current(s.base, s.wal), k);
    CleanSearch(s, s.root, k, |s.births|);
  }

  /** At a clean frontier a search on disk goes where a search in the committed tree goes. */
  lemma {:induction false} CleanSearch(s: State, g: Guid, k: Key, fuel: nat)
    requires Inv(s) && Clean(s) && Through(s.births, s.live, s.committed, g, k)
    ensures Locate(Loaded(s.durable), g, k, fuel) == Locate(s.committed, g, k, fuel)
    ensures Locate(s.committed, g, k, fuel).Some? ==>
      var h := Locate(s.committed, g, k, fuel).value;
      h in s.committed && h in s.durable && s.durable[h] == s.committed[h].img
    decreases fuel
  {
    CleanDiskIsTree(s, g);
    if s.committed[g].img(k).Below? && fuel > 0 {
      assert EdgeOk(s.births, s.live, g, s.committed[g].img, k, s.committed[g].img(k).child);
      CleanSearch(s, s.committed[g].img(k).child, k, fuel - 1);
    }
  }

  /** No crash leaves a surviving parent that names a missing child. */
  lemma {:induction false} NoMissingChild(s0: State, run: seq<Event>, upTo: nat, disk: Disk, g: Guid, k: Key)
    requires Init(s0) && DeleteSafe(s0.bound, s0.userDeletes) && CanRun(s0, run)
    requires Survives(Run(s0, run), upTo, disk)
    requires var s := Run(s0, run);
      g in Reached(s.births, disk, s.root) && g in s.births && k in s.births[g].terr && disk[g](k).Below?
    ensures disk[g](k).child in disk
  {
    var s := Run(s0, run);
    RunHasInv(s0, run);
    CrashLeavesGoodDisk(s.births, s.rel, s.root, s.base, s.wal, s.trunc, s.flushed, s.durable, s.unsynced, disk);
    ReachedIsShaped(s.births, s.rel, s.root, s.base, s.wal, s.trunc, s.flushed, disk, g);
  }
}
