/** The checkpoint planner's pipeline as the code runs it: one mutable object that writers, rounds,
    the I/O worker and the reaper change in place. Every method takes exactly the steps of `DebtBooks`
    that it stands for. */
module CheckpointDebt {
  import opened Options
  import opened DebtBooks
  import DebtCover
  import DebtDeletes
  import DebtRuns

  /** The first `n` epochs have left the queue. */
  ghost function ReapedAll(b: Books, n: nat): Books
    requires n <= |b.epochs|
    ensures ReapedAll(b, n).epochs == b.epochs[n..]
  {
    if n == 0 then b else Reaped(ReapedAll(b, n - 1))
  }

  lemma {:induction false} ReapedAllKeepsInv(b: Books, bound: nat, n: nat)
    requires DebtRuns.Inv(b) && Bounded(b, bound) && n <= |b.epochs| && forall i | 0 <= i < n ::
      !b.epochs[i].status.Running?
    ensures DebtRuns.Inv(ReapedAll(b, n)) && Bounded(ReapedAll(b, n), bound)
  {
    if n > 0 {
      ReapedAllKeepsInv(b, bound, n - 1);
      var c := ReapedAll(b, n - 1);
      assert c.epochs[0] == b.epochs[n - 1];
      StepKeepsValid(c, bound, Reap);
    }
  }

  /** An epoch that ended badly: its report carries an error, or there is none. */
  predicate Bad(e: Epoch) { e.status.Lost? || (e.status.Reported? && !e.status.ok) }

  /** The captured blobs whose version has moved since. */
  function Moved(snap: Entries, version: map<Guid, nat>): set<Guid> {
    set g | g in snap && !(g in version && version[g] == snap[g].version)
  }

  lemma {:induction false} StepKeepsValid(b: Books, bound: nat, step: Step)
    requires DebtRuns.Inv(b) && Bounded(b, bound) && Can(b, bound, step)
    ensures DebtRuns.Inv(Do(b, bound, step)) && Bounded(Do(b, bound, step), bound)
  {
    DebtRuns.StepKeepsInv(b, bound, step);
    DebtRuns.StepKeepsBound(b, bound, step);
  }

  // ---------- what a capture does with a dirty blob ----------

  datatype Fate = Drops | Keeps | Takes

  /** A fenced blob and, when no image is in flight, a released orphan are dropped; a blob under physical
      collection stays dirty; every other one is captured. */
  function FateOf(b: Books, retired: set<Guid>, gcDeleting: set<Guid>, g: Guid): Fate {
    if b.Fenced(g) || g in Dropped(b, retired) then Drops else if g in gcDeleting then Keeps else Takes
  }

  /** The blobs of `done` have met their fate: captured with their sequence and version, or still dirty. */
  ghost predicate Sorted(b: Books, retired: set<Guid>, gcDeleting: set<Guid>, done: set<Guid>, dirty: Seqs,
                         snap: Entries)
    requires done <= b.dirty.Keys <= b.version.Keys
  {
    forall g ::
      && (g in snap <==> g in done && FateOf(b, retired, gcDeleting, g) == Takes)
      && (g in dirty <==> g in done && FateOf(b, retired, gcDeleting, g) == Keeps)
      && (g in snap ==> snap[g] == Entry(b.dirty[g], b.version[g])) && (g in dirty ==> dirty[g] == b.dirty[g])
  }

  /** One more blob meets its fate. */
  lemma {:induction false} SortedNext(b: Books, retired: set<Guid>, gcDeleting: set<Guid>, done: set<Guid>,
                                      dirty: Seqs, snap: Entries, g: Guid)
    requires done <= b.dirty.Keys <= b.version.Keys && Sorted(b, retired, gcDeleting, done, dirty, snap)
    requires g in b.dirty && g !in done
    ensures match FateOf(b, retired, gcDeleting, g)
      case Drops => Sorted(b, retired, gcDeleting, done + {g}, dirty, snap)
      case Keeps => Sorted(b, retired, gcDeleting, done + {g}, dirty[g := b.dirty[g]], snap)
      case Takes =>
        && Sorted(b, retired, gcDeleting, done + {g}, dirty, snap[g := Entry(b.dirty[g], b.version[g])])
        && multiset(snap[g := Entry(b.dirty[g], b.version[g])].Keys) == multiset(snap.Keys) + multiset{g}
  {
    assert g !in snap;
    assert snap[g := Entry(b.dirty[g], b.version[g])].Keys == snap.Keys + {g};
  }

  lemma {:induction false} DirtyIsCached(b: Books)
    requires DebtCover.Inv(b)
    ensures b.dirty.Keys <= b.version.Keys
  {
    forall g | g in b.dirty ensures g in b.version { assert DebtCover.Ok(b, g); }
  }

  /** A blob that owes a write is never dropped. */
  lemma {:induction false} OwingIsNotDropped(b: Books, retired: set<Guid>, gcDeleting: set<Guid>, g: Guid)
    requires DebtCover.Ok(b, g) && b.unmarked == {} && retired <= b.orphans && g in b.unwritten && !b.Fenced(g)
    ensures (g in b.dirty && FateOf(b, retired, gcDeleting, g) != Drops) || g in b.flushing
  {
  }

  /** The deletes are claimed and the round begins. */
  function WithRound(b: Books, dirty: Seqs, flushing: multiset<Guid>, snap: Entries): Books {
    b.(dirty := dirty, flushing := flushing, deleting := MinAll(b.deleting, b.pendingDeletes),
       pendingDeletes := map[], round := Some(Round(snap, b.pendingDeletes)))
  }

  /** All fates together are the capture step. */
  lemma {:induction false} SortedIsCaptured(b: Books, retired: set<Guid>, gcDeleting: set<Guid>, dirty: Seqs,
                                            snap: Entries)
    requires b.dirty.Keys <= b.version.Keys && Sorted(b, retired, gcDeleting, b.dirty.Keys, dirty, snap)
    ensures Captured(b, retired, gcDeleting) == WithRound(b, dirty, b.flushing + multiset(snap.Keys), snap)
  {
    var c := Captured(b, retired, gcDeleting);
    assert c.dirty == dirty && c.round.value.snap == snap;
    var keys := set g | g in b.dirty && g in b.version && !b.Fenced(g) && g !in Dropped(b, retired) && g !in gcDeleting;
    assert snap.Keys == keys;
    assert c.flushing == b.flushing + multiset(keys);
  }

  class Checkpointer {
    var dirty: Seqs
    var flushing: multiset<Guid>
    var pendingDeletes: Seqs
    var deleting: Seqs
    var version: map<Guid, nat>
    var staged: map<Guid, Stage>
    var orphans: set<Guid>
    var round: Option<Round>
    var inFlight: seq<Epoch>
    const maxInFlight: nat
    ghost var unwritten: Seqs
    ghost var unmarked: set<(Guid, nat)>
    ghost var detached: set<Guid>
    ghost var gone: set<Guid>
    ghost var owed: Seqs

    ghost function View(): Books
      reads this
    {
      Books(dirty, flushing, pendingDeletes, deleting, version, staged, orphans, round, inFlight,
            unwritten, unmarked, detached, gone, owed)
    }

    ghost predicate Valid()
      reads this
    {
      DebtRuns.Inv(View()) && 1 <= maxInFlight && Bounded(View(), maxInFlight)
    }

    /** A bound of zero still lets one epoch fly. */
    constructor (bound: nat)
      ensures Valid() && View() == EMPTY && maxInFlight == if bound == 0 then 1 else bound
    {
      maxInFlight := if bound == 0 then 1 else bound;
      dirty, flushing, pendingDeletes, deleting, version := map[], multiset{}, map[], map[], map[];
      staged, orphans, round, inFlight := map[], {}, None, [];
      unwritten, unmarked, detached, gone, owed := map[], {}, {}, {}, map[];
      new;
      DebtRuns.EmptyHasInv();
    }

    predicate HasRoom() reads this { |inFlight| < maxInFlight }

    predicate Fenced(g: Guid) reads this { g in pendingDeletes || g in deleting }

    // ---------- writers ----------

    /** A writer's dirty mark, which also publishes what was detached under the blob. */
    method MarkDirty(g: Guid, s: nat)
      requires Valid() && (g, s) in unmarked
      modifies `dirty, `unmarked, `staged, `orphans
      ensures Valid() && View() == Marked(old(View()), g, s)
    {
      StepKeepsValid(View(), maxInFlight, Mark(g, s));
      PutMark(g, s);
    }

    method PutMark(g: Guid, s: nat)
      modifies `dirty, `unmarked, `staged, `orphans
      ensures View() == Marked(old(View()), g, s)
    {
      unmarked := unmarked - {(g, s)};
      if Fenced(g) { return; }
      dirty := Put(dirty, g, s);
      if g in staged {
        var stage := staged[g];
        dirty := Put(dirty, g, stage.oldest);
        orphans, staged := orphans + stage.children, staged - {g};
      }
    }

    // ---------- the round ----------

    /** Drain the dirty map entry by entry, each to its fate. So no debt is dropped: a blob with unwritten
        changes that is not being deleted is captured, stays dirty, or is in flight already. */
    method SnapshotDirty(retired: set<Guid>, gcDeleting: set<Guid>) returns (snap: Entries)
      requires dirty.Keys <= version.Keys
      modifies `dirty, `flushing
      ensures Sorted(old(View()), retired, gcDeleting, old(dirty).Keys, dirty, snap)
      ensures flushing == old(flushing) + multiset(snap.Keys)
      ensures forall g | DebtCover.Ok(old(View()), g) && unmarked == {} && retired <= orphans && g in unwritten
        && !Fenced(g) ::
        g in snap || g in dirty || g in old(flushing)
    {
      ghost var b := View();
      snap := SortDirty(b, retired, gcDeleting);
      forall g | DebtCover.Ok(b, g) && unmarked == {} && retired <= orphans && g in unwritten && !Fenced(g)
        ensures g in snap || g in dirty || g in b.flushing
      {
        OwingIsNotDropped(b, retired, gcDeleting, g);
      }
    }

    /** The parts of the books that a capture of dirty blobs looks at and does not change. */
    ghost predicate Same(b: Books)
      reads this
    {
      version == b.version && pendingDeletes == b.pendingDeletes && deleting == b.deleting
    }

    /** One dirty blob meets its fate. */
    method SortOne(ghost b: Books, retired: set<Guid>, gcDeleting: set<Guid>, todo: set<Guid>, drained: Seqs,
                   gone: set<Guid>, taken: Entries)
      returns (snap: Entries, rest: set<Guid>)
      requires Same(b) && drained == b.dirty && gone == Dropped(b, retired)
        && {} != todo <= b.dirty.Keys <= b.version.Keys
      requires Sorted(b, retired, gcDeleting, b.dirty.Keys - todo, dirty, taken)
        && flushing == b.flushing + multiset(taken.Keys)
      modifies `dirty, `flushing
      ensures Same(b) && rest < todo
      ensures Sorted(b, retired, gcDeleting, b.dirty.Keys - rest, dirty, snap)
        && flushing == b.flushing + multiset(snap.Keys)
    {
      var g :| g in todo;
      SortedNext(b, retired, gcDeleting, b.dirty.Keys - todo, dirty, taken, g);
      snap, rest := taken, todo - {g};
      assert b.dirty.Keys - rest == b.dirty.Keys - todo + {g};
      if Fenced(g) || g in gone {
      } else if g in gcDeleting {
        dirty := dirty[g := drained[g]];
      } else {
        snap, flushing := snap[g := Entry(drained[g], version[g])], flushing + multiset{g};
      }
    }

    method SortDirty(ghost b: Books, retired: set<Guid>, gcDeleting: set<Guid>) returns (snap: Entries)
      requires Same(b) && dirty == b.dirty && flushing == b.flushing && dirty.Keys <= version.Keys
      modifies `dirty, `flushing
      ensures Sorted(b, retired, gcDeleting, b.dirty.Keys, dirty, snap)
      ensures flushing == b.flushing + multiset(snap.Keys)
    {
      var gone := if flushing == multiset{} then retired else {};
      var drained, todo := dirty, dirty.Keys;
      dirty, snap := map[], map[];
      while todo != {}
        invariant Same(b) && todo <= b.dirty.Keys && Sorted(b, retired, gcDeleting, b.dirty.Keys - todo, dirty, snap)
        invariant flushing == b.flushing + multiset(snap.Keys)
        decreases todo
      {
        snap, todo := SortOne(b, retired, gcDeleting, todo, drained, gone, snap);
      }
      assert b.dirty.Keys - {} == b.dirty.Keys;
    }

    /** The capture itself: dirty blobs first, then the deletes. */
    method CaptureIntent(retired: set<Guid>, gcDeleting: set<Guid>)
      requires dirty.Keys <= version.Keys
      modifies this
      ensures View() == Captured(old(View()), retired, gcDeleting)
    {
      ghost var b := View();
      var snap := SnapshotDirty(retired, gcDeleting);
      ClaimDeletes(b, snap);
      SortedIsCaptured(b, retired, gcDeleting, dirty, snap);
    }

    method ClaimDeletes(ghost b: Books, snap: Entries)
      requires View() == b.(dirty := dirty, flushing := flushing)
      modifies `round, `deleting, `pendingDeletes
      ensures View() == WithRound(b, dirty, flushing, snap)
    {
      round := Some(Round(snap, pendingDeletes));
      deleting, pendingDeletes := MinAll(deleting, pendingDeletes), map[];
    }

    /** The dirty and delete intent, captured under the exclusive commit gate. */
    method BeginRound(retired: set<Guid>, gcDeleting: set<Guid>)
      requires Valid() && unmarked == {} && round == None && HasRoom() && retired <= orphans
      modifies this
      ensures Valid() && View() == Captured(old(View()), retired, gcDeleting)
    {
      StepKeepsValid(View(), maxInFlight, Capture(retired, gcDeleting));
      DirtyIsCached(View());
      CaptureIntent(retired, gcDeleting);
    }

    /** The log flush, a clone or the hand-over failed: everything captured goes back. */
    method AbortRound()
      requires Valid() && round.Some?
      modifies this
      ensures Valid() && View() == Aborted(old(View()))
    {
      StepKeepsValid(View(), maxInFlight, Abort);
      var r := round.value;
      RestorePendingDeletes(r.pending);
      RestoreDirty(r.snap);
      round := None;
    }

    method RestorePendingDeletes(add: Seqs)
      modifies `pendingDeletes, `deleting
      ensures View() == RestoredPending(old(View()), add)
    {
      pendingDeletes, deleting := MinAll(MinAll(pendingDeletes, add), Claimed(deleting, add)), deleting - add.Keys;
    }

    method RestoreDirty(add: Entries)
      modifies `dirty, `flushing
      ensures View() == RestoredDirty(old(View()), add)
    {
      dirty, flushing := MinAll(dirty, Unfenced(add, pendingDeletes, deleting)), flushing - multiset(add.Keys);
    }

    /** Clone the captured blobs one by one; those whose version moved are stale. */
    method CloneVersioned(snap: Entries) returns (stale: set<Guid>)
      ensures stale == Moved(snap, version)
    {
      stale := {};
      var todo := snap.Keys;
      while todo != {}
        invariant todo <= snap.Keys
        invariant stale == set g | g in snap && g !in todo && !(g in version && version[g] == snap[g].version)
      {
        var g :| g in todo;
        if !(g in version && version[g] == snap[g].version) { stale := stale + {g}; }
        todo := todo - {g};
      }
    }

    /** The accepted clones become an epoch at the back of the queue. Stale blobs go back, and with any
        of them all the round's deletes. */
    method Submit(sent: bool) returns (ok: bool)
      requires Valid() && round.Some?
      modifies this
      ensures Valid() && ok == sent && round == None
      ensures var c := Cloned(old(View()), Moved(old(round).value.snap, old(version)));
        View() == if sent then Queued(c) else Aborted(c)
    {
      var r := round.value;
      var stale := CloneVersioned(r.snap);
      Settle(stale);
      if sent { Push(); } else { AbortRound(); }
      ok := sent;
    }

    method Settle(stale: set<Guid>)
      requires Valid() && round.Some?
      modifies this
      ensures Valid() && View() == Cloned(old(View()), stale)
    {
      StepKeepsValid(View(), maxInFlight, Clone(stale));
      var r := round.value;
      var back := Returned(r, stale);
      RestorePendingDeletes(back);
      RestoreDirty(Only(r.snap, stale));
      round := Some(Round(r.snap - stale, r.pending - back.Keys));
    }

    method Push()
      requires Valid() && round.Some?
      modifies this
      ensures Valid() && View() == Queued(old(View()))
    {
      StepKeepsValid(View(), maxInFlight, Queue);
      inFlight := inFlight + [QueuedEpoch(round.value)];
      round := None;
    }

    // ---------- the reaper ----------

    /** The oldest epoch leaves the queue. One that reported has put back what it had to; a lost one is
        put back whole, as it was handed over. */
    method ReapOne() returns (failed: bool)
      requires |inFlight| > 0 && !inFlight[0].status.Running?
      modifies this
      ensures View() == Reaped(old(View())) && failed == Bad(old(inFlight[0]))
    {
      var e := inFlight[0];
      inFlight := inFlight[1..];
      failed := Bad(e);
      if e.status.Lost? {
        owed := OwedAgain(owed, AllDeletes(e));
        RestorePendingDeletes(AllDeletes(e));
        RestoreDirty(e.snap);
      }
    }

    /** Reap from the front as long as the front has ended; an epoch that ended badly leaves too, but stops
        the reaping with an error. Epochs leave in the order they were queued. */
    method ReapReady() returns (failed: bool, ghost n: nat)
      requires Valid()
      modifies this
      ensures Valid() && n <= |old(inFlight)| && View() == ReapedAll(old(View()), n)
      ensures forall i | 0 <= i < n - 1 :: !Bad(old(inFlight)[i])
      ensures forall i | 0 <= i < n :: !old(inFlight)[i].status.Running?
      ensures failed <==> n > 0 && Bad(old(inFlight)[n - 1])
      ensures !failed ==> n == |old(inFlight)| || old(inFlight)[n].status.Running?
    {
      n := 0;
      failed := false;
      ghost var b := View();
      while |inFlight| > 0 && !inFlight[0].status.Running? && !failed
        invariant n <= |b.epochs| && inFlight == b.epochs[n..] && View() == ReapedAll(b, n)
        invariant forall i | 0 <= i < n :: !b.epochs[i].status.Running?
        invariant forall i | 0 <= i < n - 1 :: !Bad(b.epochs[i])
        invariant failed <==> n > 0 && Bad(b.epochs[n - 1])
        decreases |inFlight|
      {
        assert inFlight[0] == b.epochs[n];
        failed := ReapOne();
        n := n + 1;
      }
      ReapedAllKeepsInv(b, maxInFlight, n);
    }

    /** Wait for every epoch; errors are remembered and the draining goes on. */
    method Drain() returns (failed: bool)
      requires Valid() && forall i | 0 <= i < |inFlight| :: !inFlight[i].status.Running?
      modifies this
      ensures Valid() && inFlight == [] && View() == ReapedAll(old(View()), |old(inFlight)|)
      ensures failed <==> exists i :: 0 <= i < |old(inFlight)| && Bad(old(inFlight)[i])
    {
      ghost var b, n := View(), 0;
      failed := false;
      while inFlight != []
        invariant n <= |b.epochs| && inFlight == b.epochs[n..] && View() == ReapedAll(b, n)
        invariant failed <==> exists i :: 0 <= i < n && Bad(b.epochs[i])
        decreases |inFlight|
      {
        assert inFlight[0] == b.epochs[n];
        var bad := ReapOne();
        failed, n := failed || bad, n + 1;
      }
      ReapedAllKeepsInv(b, maxInFlight, n);
    }

    /** Truncation is allowed exactly with an empty queue, no debt, nothing staged, and nothing left to
        flush elsewhere: buffered deltas, an epoch not yet staged, or the store's own flush. Then every
        change is in a written image and no delete is owed. */
    method MaybeTruncate(writeDeltas: nat, unstagedEpoch: bool, needsFlush: bool) returns (truncate: bool)
      requires Valid() && unmarked == {} && round == None
      ensures truncate <==>
        && inFlight == [] && dirty == map[] && flushing == multiset{} && pendingDeletes == map[] && deleting == map[]
        && staged == map[] && writeDeltas == 0 && !unstagedEpoch && !needsFlush
      ensures truncate ==> unwritten == map[] && owed == map[]
    {
      truncate := inFlight == [] && dirty == map[] && flushing == multiset{} && pendingDeletes == map[]
        && deleting == map[]
               && staged == map[] && writeDeltas == 0 && !unstagedEpoch && !needsFlush;
      if truncate {
        DebtCover.CleanMeansWritten(View());
        forall h ensures h !in owed { assert DebtDeletes.Ok(View(), h); }
      }
    }
  }
}
