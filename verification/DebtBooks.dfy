/** Checkpoint bookkeeping as a value: which blobs still owe a write, and which a deletion.

    The crash machine keeps this as sets. Here it is as the code keeps it: minimum-sequence maps, a
    reference count of captured images, a delete fence, staged detachments, and a queue of epochs.
    This module has the steps; `DebtCover`, `DebtDeletes` and `DebtWatermark` have what they keep. */
module DebtBooks {
  import opened Options

  type Guid(==, !new)

  const STRUCTURAL_SEQ: nat := 0xffff_ffff_ffff_ffff

  type Seqs = map<Guid, nat>

  /** A captured entry: its sequence number and the content version it was captured at. */
  datatype Entry = Entry(seqNo: nat, version: nat)
  type Entries = map<Guid, Entry>

  datatype Status = Running | Reported(ok: bool) | Lost

  /** What the planner remembers of a queued epoch, with the worker's progress through it: the images
      it retired and the deletes it executed. */
  datatype Epoch = Epoch(snap: Entries, flushed: set<Guid>, pending: Seqs, executed: Seqs, status: Status)

  datatype Round = Round(snap: Entries, pending: Seqs)

  /** The children detached under a parent that is still to be marked dirty, and the oldest of their
      dirty sequences. */
  datatype Stage = Stage(children: set<Guid>, oldest: nat)

  /** The last five say what is the case, and no code reads them. `unwritten` is the oldest change of
      each blob of the live tree that no written image contains, `unmarked` the changes whose dirty mark
      is still to come, under the commit gate. `detached` blobs have left the live tree, `gone` blobs
      were deleted from the store. `owed` are the deletes that were asked for and not executed. */
  datatype Books = Books(
    dirty: Seqs, flushing: multiset<Guid>, pendingDeletes: Seqs, deleting: Seqs, version: map<Guid, nat>,
    staged: map<Guid, Stage>, orphans: set<Guid>, round: Option<Round>, epochs: seq<Epoch>,
    unwritten: Seqs, unmarked: set<(Guid, nat)>, detached: set<Guid>, gone: set<Guid>, owed: Seqs)
  {
    predicate Fenced(g: Guid) { g in pendingDeletes || g in deleting }

    /** The dirty sequence that a detachment carries on. */
    function DirtySeq(g: Guid): nat { if g in dirty then dirty[g] else STRUCTURAL_SEQ }
  }

  const EMPTY: Books :=
    Books(map[], multiset{}, map[], map[], map[], map[], {}, None, [], map[], {}, {}, {}, map[])

  function Min(a: nat, b: nat): nat { if a <= b then a else b }

  function Put(m: Seqs, g: Guid, s: nat): Seqs { m[g := if g in m then Min(m[g], s) else s] }

  /** As many epochs, and the same round. */
  predicate SameLoad(b: Books, c: Books) { |c.epochs| == |b.epochs| && c.round == b.round }

  // ---------- writers ----------

  /** A new frame enters the cache dirty. */
  function Installed(b: Books, g: Guid, s: nat): (c: Books)
    ensures SameLoad(b, c) && c.unwritten == Put(b.unwritten, g, s)
  {
    b.(version := b.version[g := 0], dirty := Put(b.dirty, g, s), unwritten := Put(b.unwritten, g, s))
  }

  /** A writer changes a cached frame under its latch. */
  function Mutated(b: Books, g: Guid, s: nat): (c: Books)
    requires g in b.version
    ensures SameLoad(b, c) && c.unwritten == Put(b.unwritten, g, s)
  {
    b.(version := b.version[g := b.version[g] + 1], unwritten := Put(b.unwritten, g, s),
      unmarked := b.unmarked + {(g, s)})
  }

  /** The writer's dirty mark: the lowest sequence wins. It also publishes what was detached under the
      blob, whose debt the blob takes over. A blob fenced for deletion drops the mark. */
  function Marked(b: Books, g: Guid, s: nat): (c: Books)
    ensures c.unwritten == b.unwritten && SameLoad(b, c)
  {
    var c := b.(unmarked := b.unmarked - {(g, s)});
    if b.Fenced(g) then c else Published(c.(dirty := Put(b.dirty, g, s)), g)
  }

  function Published(b: Books, g: Guid): Books {
    if g !in b.staged then b
    else b.(dirty := Put(b.dirty, g, b.staged[g].oldest), orphans := b.orphans + b.staged[g].children,
      staged := b.staged - {g})
  }

  /** The unwritten changes of `g` are from now on changes of `to`, which holds a copy of them. */
  function Passed(b: Books, g: Guid, to: Guid): Books {
    var u := b.unwritten - {g};
    b.(unwritten := if g in b.unwritten then Put(u, to, b.unwritten[g]) else u, detached := b.detached + {g})
  }

  /** The child waits under the parent with the dirty sequence it has now. */
  function StagedUnder(b: Books, p: Guid, g: Guid): Books {
    var now := if p in b.staged then b.staged[p] else Stage({}, STRUCTURAL_SEQ);
    b.(staged := b.staged[p := Stage(now.children + {g}, Min(now.oldest, b.DirtySeq(g)))])
  }

  /** Copy-on-write: the child `g` of `p` is copied to a new frame `f`, which takes its place. */
  function Forked(b: Books, g: Guid, f: Guid, p: Guid, s: nat): (c: Books)
    requires p in b.version && p != f
    ensures SameLoad(b, c)
  {
    Mutated(StagedUnder(Passed(Installed(b, f, b.DirtySeq(g)), g, f), p, g), p, s)
  }

  /** A merge: the contents of the child `g` move into `p`. */
  function FoldedInto(b: Books, g: Guid, p: Guid, s: nat): (c: Books)
    requires p in b.version
    ensures SameLoad(b, c)
  {
    Mutated(StagedUnder(Passed(b, g, p), p, g), p, s)
  }

  /** A released orphan that was never stored is dropped from the cache. */
  function Pruned(b: Books, g: Guid): (c: Books)
    ensures c.unwritten == b.unwritten && SameLoad(b, c)
  {
    b.(dirty := b.dirty - {g}, orphans := b.orphans - {g})
  }

  /** A user delete detaches the blob and voids its debt. */
  function MarkedForDelete(b: Books, g: Guid, s: nat): (c: Books)
    ensures c.unwritten == b.unwritten && SameLoad(b, c)
  {
    b.(dirty := b.dirty - {g}, owed := Put(b.owed, g, s),
       deleting := if g in b.deleting then Put(b.deleting, g, s) else b.deleting,
       pendingDeletes := if g in b.deleting then b.pendingDeletes else Put(b.pendingDeletes, g, s))
  }

  // ---------- putting entries back ----------

  /** The smaller entry of both maps, blob by blob. */
  function MinAll(m: Seqs, add: Seqs): Seqs {
    map g | g in m.Keys + add.Keys :: if g !in m then add[g] else if g !in add then m[g] else Min(m[g], add[g])
  }

  /** The sequences of entries whose blobs are not fenced for deletion. */
  function Unfenced(add: Entries, pendingDeletes: Seqs, deleting: Seqs): Seqs {
    map g | g in add && g !in pendingDeletes && g !in deleting :: add[g].seqNo
  }

  /** Captured entries return to the dirty map by minimum; a fenced blob takes no new debt. Each
      gives up one reference, if any is left. */
  function RestoredDirty(b: Books, add: Entries): Books {
    b.(dirty := MinAll(b.dirty, Unfenced(add, b.pendingDeletes, b.deleting)),
      flushing := b.flushing - multiset(add.Keys))
  }

  function Claimed(deleting: Seqs, add: Seqs): Seqs { map g | g in deleting && g in add :: deleting[g] }

  /** Claimed deletes return to the queue by minimum. */
  function RestoredPending(b: Books, add: Seqs): Books {
    b.(deleting := b.deleting - add.Keys, pendingDeletes := MinAll(MinAll(b.pendingDeletes, add),
      Claimed(b.deleting, add)))
  }

  function Released(b: Books, add: Entries, back: Seqs): (c: Books)
    ensures c.unwritten == b.unwritten && SameLoad(b, c)
  {
    RestoredDirty(RestoredPending(b, back), add)
  }

  /** Executed deletes that are put back are owed again. */
  function OwedAgain(owed: Seqs, back: Seqs): Seqs { owed + (back - owed.Keys) }

  function PutBack(b: Books, add: Entries, back: Seqs): (c: Books)
    ensures c.unwritten == b.unwritten && SameLoad(b, c)
  {
    Released(b, add, back).(owed := OwedAgain(b.owed, back))
  }

  // ---------- the planner ----------

  /** The blobs that a capture drops from the dirty map without writing them: no epoch is in flight, and
      they are orphans that no snapshot can read any more. */
  function Dropped(b: Books, retired: set<Guid>): set<Guid> { if b.flushing == multiset{} then retired else {} }

  function Captured(b: Books, retired: set<Guid>, gcDeleting: set<Guid>): (c: Books)
    ensures c.unwritten == b.unwritten && c.epochs == b.epochs && c.round.Some?
  {
    var gone := Dropped(b, retired);
    var keys := set g | g in b.dirty && g in b.version && !b.Fenced(g) && g !in gone && g !in gcDeleting;
    b.(dirty := map g | g in b.dirty && !b.Fenced(g) && g !in gone && g in gcDeleting :: b.dirty[g],
       flushing := b.flushing + multiset(keys),
       deleting := MinAll(b.deleting, b.pendingDeletes),
       pendingDeletes := map[],
       round := Some(Round(map g | g in keys :: Entry(b.dirty[g], b.version[g]), b.pendingDeletes)))
  }

  /** The round gives up: the log flush, a clone or the hand-over failed. */
  function Aborted(b: Books): (c: Books)
    requires b.round.Some?
    ensures c.unwritten == b.unwritten && c.epochs == b.epochs && c.round.None?
  {
    Released(b, b.round.value.snap, b.round.value.pending).(round := None)
  }

  function Only(snap: Entries, keys: set<Guid>): Entries { map g | g in snap && g in keys :: snap[g] }

  /** With a stale blob all deletes of the round go back. */
  function Returned(r: Round, stale: set<Guid>): Seqs { if stale == {} then map[] else r.pending }

  /** Clones are done: stale blobs go back to the dirty map, and with any of them all deletes. */
  function Cloned(b: Books, stale: set<Guid>): (c: Books)
    requires b.round.Some?
    ensures c.unwritten == b.unwritten && c.epochs == b.epochs && c.round.Some?
  {
    var r := b.round.value;
    Released(b, Only(r.snap, stale), Returned(r, stale))
    .(round := Some(Round(r.snap - stale, r.pending - Returned(r, stale).Keys)))
  }

  function QueuedEpoch(r: Round): Epoch { Epoch(r.snap, {}, r.pending, map[], Running) }

  /** The epoch is queued. */
  function Queued(b: Books): (c: Books)
    requires b.round.Some?
    ensures c.unwritten == b.unwritten && |c.epochs| == |b.epochs| + 1 && c.round.None?
  {
    b.(round := None, epochs := b.epochs + [QueuedEpoch(b.round.value)])
  }

  // ---------- the I/O worker ----------

  function WithEpoch(b: Books, i: nat, e: Epoch): Books
    requires i < |b.epochs|
  {
    b.(epochs := b.epochs[i := e])
  }

  /** An image is written and retired, unless its blob changed meanwhile. A dirty entry that it covers
      is retired with it. */
  function Retired(b: Books, i: nat, g: Guid): (c: Books)
    requires i < |b.epochs| && g in b.epochs[i].snap && g in b.version
    ensures SameLoad(b, c)
  {
    var e := b.epochs[i];
    var x := e.snap[g];
    var current := b.version[g] == x.version;
    var covers := x.seqNo != STRUCTURAL_SEQ && g in b.dirty && b.dirty[g] <= x.seqNo;
    b.(dirty := if current && covers then b.dirty - {g} else b.dirty,
       flushing := if current then b.flushing - multiset{g} else b.flushing,
       unwritten := if current then b.unwritten - {g} else b.unwritten,
       epochs := b.epochs[i := if current then e.(flushed := e.flushed + {g}) else e])
  }

  /** The epoch ends: it puts entries and deletes back and reports. */
  function Ended(b: Books, i: nat, add: Entries, back: Seqs, ok: bool): (c: Books)
    requires i < |b.epochs|
    ensures c.unwritten == b.unwritten && SameLoad(b, c)
  {
    WithEpoch(PutBack(b, add, back), i, b.epochs[i].(status := Reported(ok)))
  }

  /** A failed epoch puts back every entry, also those it had already retired, and every delete. */
  function Failed(b: Books, i: nat): (c: Books)
    requires i < |b.epochs|
    ensures c.unwritten == b.unwritten && SameLoad(b, c)
  {
    Ended(b, i, b.epochs[i].snap, b.epochs[i].pending, false)
  }

  /** An epoch with stale or deferred entries puts those back, and every delete. */
  function Deferred(b: Books, i: nat): (c: Books)
    requires i < |b.epochs|
    ensures c.unwritten == b.unwritten && SameLoad(b, c)
  {
    Ended(b, i, b.epochs[i].snap - b.epochs[i].flushed, b.epochs[i].pending, true)
  }

  /** All deletes of the epoch, executed or not. */
  function AllDeletes(e: Epoch): Seqs { e.pending + e.executed }

  /** All images are written: deletes that could not be executed go back, and with a failed final sync
      those that were. */
  function Finished(b: Books, i: nat, synced: bool, ok: bool): (c: Books)
    requires i < |b.epochs|
    ensures c.unwritten == b.unwritten && SameLoad(b, c)
  {
    var e := b.epochs[i];
    Ended(b, i, map[], if synced then e.pending else AllDeletes(e), ok)
  }

  /** A claimed delete is executed: the fence is lifted and nothing is owed for the blob. */
  function Deleted(b: Books, i: nat, g: Guid): (c: Books)
    requires i < |b.epochs| && g in b.epochs[i].pending
    ensures SameLoad(b, c)
  {
    var e := b.epochs[i];
    WithEpoch(b, i, e.(pending := e.pending - {g}, executed := e.executed[g := e.pending[g]]))
    .(deleting := b.deleting - {g}, unwritten := b.unwritten - {g}, gone := b.gone + {g}, owed := b.owed - {g})
  }

  /** The worker is gone before it reported the epoch. */
  function Abandoned(b: Books, i: nat): (c: Books)
    requires i < |b.epochs|
    ensures c.unwritten == b.unwritten && SameLoad(b, c)
  {
    WithEpoch(b, i, b.epochs[i].(status := Lost))
  }

  // ---------- the reaper ----------

  /** The oldest epoch leaves the queue; what a lost worker did not report is put back whole, as it was
      handed over. */
  function Reaped(b: Books): (c: Books)
    requires |b.epochs| > 0
    ensures c.unwritten == b.unwritten && c.epochs == b.epochs[1..] && c.round == b.round
  {
    var e := b.epochs[0];
    var lost, r := !e.status.Reported?, PutBack(b, e.snap, AllDeletes(e));
    b.(dirty := if lost then r.dirty else b.dirty, flushing := if lost then r.flushing else b.flushing,
       pendingDeletes := if lost then r.pendingDeletes else b.pendingDeletes,
       deleting := if lost then r.deleting else b.deleting, owed := if lost then r.owed else b.owed,
       epochs := b.epochs[1..])
  }

  // ---------- steps ----------

  datatype Step =
    | Install(g: Guid, s: nat)
    | Mutate(g: Guid, s: nat)
    | Mark(g: Guid, s: nat)
    | Fork(g: Guid, f: Guid, p: Guid, s: nat)
    | Fold(g: Guid, p: Guid, s: nat)
    | Prune(g: Guid)
    | MarkForDelete(g: Guid, s: nat)
    | Capture(retired: set<Guid>, gcDeleting: set<Guid>)
    | Abort
    | Clone(stale: set<Guid>)
    | Queue
    | Retire(i: nat, g: Guid)
    | Fail(i: nat)
    | Defer(i: nat)
    | Finish(i: nat, synced: bool, ok: bool)
    | Delete(i: nat, g: Guid)
    | Abandon(i: nat)
    | Reap

  /** The worker takes epochs in the order they were queued. */
  ghost predicate AtWork(b: Books, i: nat) {
    i < |b.epochs| && b.epochs[i].status.Running? && forall j | 0 <= j < i :: !b.epochs[j].status.Running?
  }

  /** A frame of the live tree that writers may change. */
  predicate Live(b: Books, g: Guid) { g in b.version && g !in b.detached }

  /** A frame that may be detached: it is not being deleted, and no writer of it is still to mark it. A
      merge holds the maintenance gate alone; a fork follows a capture that held the tree's gate alone. */
  ghost predicate Settled(b: Books, g: Guid) {
    Live(b, g) && !b.Fenced(g) && g !in b.staged && forall w | w in b.unmarked :: w.0 != g
  }

  ghost predicate Can(b: Books, bound: nat, step: Step) {
    match step
    case Install(g, s) => g !in b.version && !b.Fenced(g) && g !in b.detached
    case Mutate(g, s) => Live(b, g)
    case Mark(g, s) => (g, s) in b.unmarked
    case Fork(g, f, p, s) =>
      Settled(b, g) && Live(b, p) && g != p && f !in b.version && !b.Fenced(f) && f !in b.detached
    case Fold(g, p, s) => Settled(b, g) && Live(b, p) && g != p
    case Prune(g) => g in b.orphans && b.flushing == multiset{}
    case MarkForDelete(g, s) => g !in b.gone && s != STRUCTURAL_SEQ
    case Capture(retired, gcDeleting) =>
      b.unmarked == {} && b.round == None && |b.epochs| < bound && retired <= b.orphans
    case Abort => b.round.Some?
    case Clone(stale) => b.round.Some?
    case Queue => b.round.Some?
    case Retire(i, g) => AtWork(b, i) && g in b.epochs[i].snap && g in b.version
    case Fail(i) => AtWork(b, i) && b.epochs[i].executed == map[]
    case Defer(i) => AtWork(b, i) && b.epochs[i].executed == map[]
    case Finish(i, synced, ok) => AtWork(b, i) && b.epochs[i].snap.Keys <= b.epochs[i].flushed && (ok ==> synced)
    case Delete(i, g) =>
      && AtWork(b, i) && b.epochs[i].snap.Keys <= b.epochs[i].flushed
      && g in b.epochs[i].pending && g !in b.dirty && g !in b.flushing
    case Abandon(i) => i < |b.epochs| && b.epochs[i].status.Running?
    case Reap => |b.epochs| > 0 && !b.epochs[0].status.Running?
  }

  ghost function Do(b: Books, bound: nat, step: Step): Books
    requires Can(b, bound, step)
  {
    match step
    case Install(g, s) => Installed(b, g, s)
    case Mutate(g, s) => Mutated(b, g, s)
    case Mark(g, s) => Marked(b, g, s)
    case Fork(g, f, p, s) => Forked(b, g, f, p, s)
    case Fold(g, p, s) => FoldedInto(b, g, p, s)
    case Prune(g) => Pruned(b, g)
    case MarkForDelete(g, s) => MarkedForDelete(b, g, s)
    case Capture(retired, gcDeleting) => Captured(b, retired, gcDeleting)
    case Abort => Aborted(b)
    case Clone(stale) => Cloned(b, stale)
    case Queue => Queued(b)
    case Retire(i, g) => Retired(b, i, g)
    case Fail(i) => Failed(b, i)
    case Defer(i) => Deferred(b, i)
    case Finish(i, synced, ok) => Finished(b, i, synced, ok)
    case Delete(i, g) => Deleted(b, i, g)
    case Abandon(i) => Abandoned(b, i)
    case Reap => Reaped(b)
  }

  ghost predicate CanRun(b: Books, bound: nat, run: seq<Step>)
    decreases |run|
  {
    run == [] || (Can(b, bound, run[0]) && CanRun(Do(b, bound, run[0]), bound, run[1..]))
  }

  ghost function Run(b: Books, bound: nat, run: seq<Step>): Books
    requires CanRun(b, bound, run)
    decreases |run|
  {
    if run == [] then b else Run(Do(b, bound, run[0]), bound, run[1..])
  }

  /** The queue and the round being prepared stay within the bound. */
  predicate Bounded(b: Books, bound: nat) { |b.epochs| + (if b.round.Some? then 1 else 0) <= bound }
}
