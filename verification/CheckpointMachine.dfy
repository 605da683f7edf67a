/** The checkpoint pipeline as a machine whose steps interleave freely.

    Writers change cached frames and append whole batches to the log. The planner captures dirty
    and pending-delete intent, flushes the log to its watermark, clones the bytes whose content
    version is unchanged and queues the epoch. The I/O worker takes the oldest epoch, writes its
    images child first, and deletes only after every image of the epoch was written and synced.
    The log is truncated only at a clean frontier. A crash may happen between any two steps.

    `births`, `rel` and the `gone` sets are bookkeeping: no step looks at them, except that a fresh
    guid must be fresh. */
module CheckpointMachine {
  import opened Options
  import opened WalHistory
  import opened FrameTree
  import opened Reshape

  // ---------- the blob store ----------

  type Disk = map<Guid, Image>

  /** A store operation that is submitted but not yet synced. */
  datatype StoreOp = Put(g: Guid, img: Image) | Del(g: Guid)

  /** What the running process reads back for `g`: the last submitted operation decides. */
  function LastWrite(durable: Disk, unsynced: seq<StoreOp>, g: Guid): Option<Image> {
    if unsynced == [] then (if g in durable then Some(durable[g]) else None)
    else
      var op := unsynced[|unsynced| - 1];
      if op.g == g then (if op.Put? then Some(op.img) else None)
      else LastWrite(durable, unsynced[..|unsynced| - 1], g)
  }

  /** The store after a successful sync. */
  ghost function Synced(durable: Disk, unsynced: seq<StoreOp>): Disk
  {
    var all := durable.Keys + (set i | 0 <= i < |unsynced| :: unsynced[i].g);
    map g | g in all && LastWrite(durable, unsynced, g).Some? :: LastWrite(durable, unsynced, g).value
  }

  /** `g` is in the store whatever happens to the unsynced operations. */
  ghost predicate Sure(durable: Disk, unsynced: seq<StoreOp>, g: Guid) {
    g in durable && forall i :: 0 <= i < |unsynced| ==> unsynced[i] != Del(g)
  }

  /** `img` is one of the images that a crash may leave for `g`. */
  ghost predicate MayHold(durable: Disk, unsynced: seq<StoreOp>, g: Guid, img: Image) {
    (g in durable && img == durable[g]) || exists i :: 0 <= i < |unsynced| && unsynced[i] == Put(g, img)
  }

  /** A disk that a crash may leave: every unsynced operation, on its own, may or may not have
      reached it. */
  ghost predicate CrashDisk(durable: Disk, unsynced: seq<StoreOp>, disk: Disk) {
    && (forall g | g in disk :: MayHold(durable, unsynced, g, disk[g]))
    && (forall g :: Sure(durable, unsynced, g) ==> g in disk)
  }

  // ---------- the pipeline ----------

  /** The planner between capture and submission. `todo` holds what was captured and not yet
      cloned, `clones` the accepted clones, `stale` the blobs whose version had moved. */
  datatype Planner =
    | Idle
    | Round(upTo: nat, todo: Frames, clones: Frames, stale: set<Guid>, pend: set<Guid>, gone: set<Guid>)
  {
    predicate Flushing(g: Guid) { Round? && (g in todo || g in clones || g in stale) }
    predicate Claims(g: Guid) { Round? && g in pend }
  }

  /** An epoch in flight. `wave` was submitted to the store and is not yet retired, `done` was
      retired as written, `failed` was found stale. */
  datatype Epoch = Epoch(upTo: nat, todo: Frames, wave: Frames, done: Frames, failed: set<Guid>,
                         pend: set<Guid>, applied: set<Guid>, deleting: bool, gone: set<Guid>)
  {
    predicate Flushing(g: Guid) { g in todo || g in wave || g in failed }
    function Unwritten(): set<Guid> { todo.Keys + wave.Keys + failed }
  }

  datatype State = State(
    bound: nat, userDeletes: bool, root: Guid, base: Content,
    wal: seq<Batch>, trunc: nat, flushed: nat, latched: bool,
    births: Births, live: set<Guid>, cache: Frames, committed: Frames,
    dirty: set<Guid>, pending: set<Guid>, planner: Planner, epochs: seq<Epoch>,
    durable: Disk, unsynced: seq<StoreOp>, rel: set<Guid>, dead: set<Guid>)

  /** A captured, uncommitted image of `g` is still owned by the checkpoint. */
  ghost predicate Flushing(planner: Planner, epochs: seq<Epoch>, g: Guid) {
    planner.Flushing(g) || exists i :: 0 <= i < |epochs| && epochs[i].Flushing(g)
  }

  /** `g` is queued for deletion or claimed by an epoch for deletion. */
  ghost predicate Fenced(pending: set<Guid>, planner: Planner, epochs: seq<Epoch>, g: Guid) {
    g in pending || planner.Claims(g) || exists i :: 0 <= i < |epochs| && g in epochs[i].pend
  }

  /** Dirty entries put back after a failure; a blob fenced for deletion is dropped instead. */
  ghost function Restored(s: State, back: set<Guid>): set<Guid> {
    s.dirty + set g | g in back && !Fenced(s.pending, s.planner, s.epochs, g)
  }

  /** The clean frontier: no dirty, flushing or delete debt, and no deferred store flush. */
  ghost predicate Clean(s: State) {
    && s.dirty == {} && s.unsynced == []
    && (forall g :: !Flushing(s.planner, s.epochs, g))
    && (forall g :: !Fenced(s.pending, s.planner, s.epochs, g))
  }

  // ---------- steps ----------

  datatype Action =
    | Commit(batch: Batch)
    | FailPartWay(batch: Batch, applied: nat, marked: set<Guid>)
    | SpillOut(p: Guid, part: iset<Key>, rank: real, child: Guid)
    | MergeIn(p: Guid, child: Guid, k: Key, user: bool)
    | ForkOff(p: Guid, child: Guid, fork: Guid, k: Key)
    | FlushWal(upTo: nat)
    | Capture(dropped: set<Guid>)
    | CloneOne(g: Guid)
    | Enqueue
    | AbortRound
    | Submit(g: Guid)
    | SubmitStale(g: Guid)
    | Retire(g: Guid, keepDirty: bool)
    | SyncStore
    | BeginDeletes
    | DeleteOne(g: Guid)
    | FinishEpoch(restore: set<Guid>, redo: set<Guid>)
    | Truncate
    | Reclaim(g: Guid)

  /** Every child the image leads to is durable, so that the parent may follow. */
  ghost predicate ChildrenSure(births: Births, durable: Disk, unsynced: seq<StoreOp>, g: Guid, img: Image) {
    g in births && forall k :: k in births[g].terr && img(k).Below? ==> Sure(durable, unsynced, img(k).child)
  }

  ghost predicate Enabled(s: State, a: Action) {
    match a
    case Commit(batch) => !s.latched
    case FailPartWay(batch, n, marked) => !s.latched && n <= |batch|
    case SpillOut(p, part, rank, child) => !s.latched && CanSpill(s.births, s.live, s.cache, p, part, rank, child)
    case MergeIn(p, child, k, user) =>
      !s.latched && HasEdge(s.births, s.live, s.cache, p, child, k) && (user ==> s.userDeletes)
    case ForkOff(p, child, fork, k) =>
      !s.latched && HasEdge(s.births, s.live, s.cache, p, child, k) && fork !in s.births && fork !in s.cache
      && child in s.births
    case FlushWal(upTo) => s.flushed <= upTo <= |s.wal|
    case Capture(dropped) =>
      !s.latched && s.planner.Idle? && |s.epochs| < s.bound && dropped <= s.dirty && dropped !! s.live
      && s.dirty <= s.cache.Keys
    case CloneOne(g) => s.planner.Round? && s.planner.upTo <= s.flushed && g in s.planner.todo && g in s.cache
    case Enqueue => s.planner.Round? && s.planner.todo == map[] && s.planner.upTo <= s.flushed
    case AbortRound => s.planner.Round?
    case Submit(g) =>
      |s.epochs| > 0 && !s.epochs[0].deleting && g in s.epochs[0].todo && g in s.cache
      && s.cache[g].ver == s.epochs[0].todo[g].ver
      && ChildrenSure(s.births, s.durable, s.unsynced, g, s.epochs[0].todo[g].img)
    case SubmitStale(g) =>
      |s.epochs| > 0 && !s.epochs[0].deleting && g in s.epochs[0].todo && g in s.cache
      && s.cache[g].ver != s.epochs[0].todo[g].ver
    case Retire(g, keepDirty) => |s.epochs| > 0 && g in s.epochs[0].wave && g in s.cache
    case SyncStore => true
    case BeginDeletes =>
      |s.epochs| > 0 && !s.epochs[0].deleting && s.epochs[0].Unwritten() == {} && s.unsynced == []
    case DeleteOne(g) =>
      |s.epochs| > 0 && s.epochs[0].deleting && g in s.epochs[0].pend
      && g !in s.dirty && !Flushing(s.planner, s.epochs, g)
    case FinishEpoch(restore, redo) =>
      |s.epochs| > 0
      && s.epochs[0].Unwritten() <= restore <= s.epochs[0].Unwritten() + s.epochs[0].done.Keys
      && s.epochs[0].pend <= redo <= s.epochs[0].pend + s.epochs[0].applied
      && (s.unsynced == [] || s.epochs[0].applied <= redo)
    case Truncate => Clean(s)
    case Reclaim(g) => g in s.dead
  }

  ghost function Head(s: State, e: Epoch): seq<Epoch>
    requires |s.epochs| > 0
  {
    [e] + s.epochs[1..]
  }

  ghost function Apply(s: State, a: Action): State
    requires Enabled(s, a)
  {
    match a
    case Commit(batch) =>
      // Mutation, dirty marks and the log record are one step under the shared commit gate.
      var r := ApplyOps(s.cache, s.root, |s.births|, batch);
      s.(wal := s.wal + [batch], cache := r.frames, committed := r.frames, dirty := s.dirty + r.touched)
    case FailPartWay(batch, n, marked) =>
      // The first operations reached cached frames, no record was written: latch.
      var r := ApplyOps(s.cache, s.root, |s.births|, batch[..n]);
      s.(latched := true, cache := r.frames, dirty := s.dirty + (marked * r.touched))
    case SpillOut(p, part, rank, child) =>
      var c := Spill(s.cache, p, part, child);
      s.(births := s.births[child := Birth(part, rank)], live := s.live + {child}, rel := s.rel + {child},
         cache := c, committed := c, dirty := s.dirty + {p, child})
    case MergeIn(p, child, k, user) =>
      var c := Merge(s.cache, p, child);
      s.(live := s.live - {child}, cache := c, committed := c,
         dirty := (if user then s.dirty - {child} else s.dirty) + {p},
         pending := if user then s.pending + {child} else s.pending)
    case ForkOff(p, child, fork, k) =>
      var c := Fork(s.cache, p, child, fork);
      s.(births := s.births[fork := s.births[child]], live := s.live - {child} + {fork}, rel := s.rel + {fork},
         cache := c, committed := c, dirty := s.dirty + {p, fork})
    case FlushWal(upTo) => s.(flushed := upTo)
    case Capture(dropped) =>
      s.(planner := Round(|s.wal|, map g | g in s.dirty - dropped :: s.cache[g], map[], {}, s.pending,
                          s.births.Keys - s.live),
         dirty := {}, pending := {})
    case CloneOne(g) =>
      var r := s.planner;
      s.(planner := if s.cache[g].ver == r.todo[g].ver
                    then r.(todo := r.todo - {g}, clones := r.clones[g := s.cache[g]])
                    else r.(todo := r.todo - {g}, stale := r.stale + {g}))
    case Enqueue =>
      var r := s.planner;
      var kept := if r.stale == {} then r.pend else {};
      s.(planner := Idle, dirty := Restored(s, r.stale), pending := s.pending + (r.pend - kept),
         epochs := s.epochs + [Epoch(r.upTo, r.clones, map[], map[], {}, kept, {}, false, r.gone)])
    case AbortRound =>
      var r := s.planner;
      s.(planner := Idle, dirty := Restored(s, r.todo.Keys + r.clones.Keys + r.stale), pending := s.pending + r.pend)
    case Submit(g) =>
      var e := s.epochs[0];
      s.(epochs := Head(s, e.(todo := e.todo - {g}, wave := e.wave[g := e.todo[g]])),
         unsynced := s.unsynced + [Put(g, e.todo[g].img)])
    case SubmitStale(g) =>
      var e := s.epochs[0];
      s.(epochs := Head(s, e.(todo := e.todo - {g}, failed := e.failed + {g})))
    case Retire(g, keepDirty) =>
      var e := s.epochs[0];
      if s.cache[g].ver == e.wave[g].ver
      then s.(epochs := Head(s, e.(wave := e.wave - {g}, done := e.done[g := e.wave[g]])),
              dirty := if keepDirty then s.dirty else s.dirty - {g})
      else s.(epochs := Head(s, e.(wave := e.wave - {g}, failed := e.failed + {g})))
    case SyncStore => s.(durable := Synced(s.durable, s.unsynced), unsynced := [])
    case BeginDeletes =>
      var e := s.epochs[0];
      s.(epochs := Head(s, e.(deleting := true)), rel := if e.pend == {} then s.rel else s.rel - e.gone)
    case DeleteOne(g) =>
      var e := s.epochs[0];
      s.(epochs := Head(s, e.(pend := e.pend - {g}, applied := e.applied + {g})), unsynced := s.unsynced + [Del(g)])
    case FinishEpoch(restore, redo) =>
      s.(epochs := s.epochs[1..], dirty := Restored(s, restore), pending := s.pending + redo)
    case Truncate =>
      s.(trunc := |s.wal|, flushed := |s.wal|, rel := s.live, dead := s.dead + (s.births.Keys - s.live))
    case Reclaim(g) => s.(unsynced := s.unsynced + [Del(g)])
  }
}
