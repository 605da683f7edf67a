/** The sequence numbers of the entries as a trim watermark: the oldest entry of all is no later than
    any unwritten change. A fork or a merge carries on the dirty sequence of the detached blob, but not
    the sequence it was captured with; so the watermark is sound exactly when no captured blob is
    detached. Truncation does not depend on it: it waits until there are no entries at all. */
module DebtWatermark {
  import opened Options
  import opened DebtBooks
  import DebtCover

  // ---------- entries ----------

  /** The epoch still owns an unwritten image of `g`. */
  predicate Owns(e: Epoch, g: Guid) { !e.status.Reported? && g in e.snap && g !in e.flushed }

  predicate Holds(e: Epoch, g: Guid, s: nat) { Owns(e, g) && e.snap[g].seqNo <= s }

  ghost predicate HeldInEpochs(epochs: seq<Epoch>, g: Guid, s: nat) {
    exists i :: 0 <= i < |epochs| && Holds(epochs[i], g, s)
  }

  predicate HeldInRound(round: Option<Round>, g: Guid, s: nat) {
    round.Some? && g in round.value.snap && round.value.snap[g].seqNo <= s
  }

  ghost predicate HeldByWriter(unmarked: set<(Guid, nat)>, g: Guid, s: nat) {
    exists w :: w in unmarked && w.0 == g && w.1 <= s
  }

  predicate HeldInStage(staged: map<Guid, Stage>, g: Guid, s: nat) { g in staged && staged[g].oldest <= s }

  /** An entry of `g`, or one that its writer is about to make, is no later than `s`. */
  ghost predicate EntryBy(b: Books, g: Guid, s: nat) {
    || (g in b.dirty && b.dirty[g] <= s) || HeldInRound(b.round, g, s) || HeldInEpochs(b.epochs, g, s)
    || HeldByWriter(b.unmarked, g, s) || HeldInStage(b.staged, g, s)
  }

  /** Every unwritten change is at or after some entry. */
  ghost predicate Watermark(b: Books) {
    forall g | g in b.unwritten && !b.Fenced(g) :: exists h :: EntryBy(b, h, b.unwritten[g])
  }

  /** The blob's own entry is no later than its oldest unwritten change. */
  ghost predicate Sequenced(b: Books, g: Guid) { g in b.unwritten && !b.Fenced(g) ==> EntryBy(b, g, b.unwritten[g]) }

  /** The round or an epoch holds an image of `g`. */
  ghost predicate InFlight(b: Books, g: Guid) {
    (b.round.Some? && g in b.round.value.snap) || exists i :: 0 <= i < |b.epochs| && Owns(b.epochs[i], g)
  }

  ghost predicate CarefulStep(b: Books, step: Step) {
    match step
    case Fork(g, _, _, _) => !InFlight(b, g)
    case Fold(g, _, _) => !InFlight(b, g)
    case _ => true
  }

  ghost predicate Careful(b: Books, bound: nat, run: seq<Step>)
    requires CanRun(b, bound, run)
    decreases |run|
  {
    run == [] || (CarefulStep(b, run[0]) && Careful(Do(b, bound, run[0]), bound, run[1..]))
  }

  // ---------- careful steps ----------

  lemma {:induction false} MutateKeeps(b: Books, g: Guid, s: nat, h: Guid)
    requires Sequenced(b, h) && g in b.version
    ensures Sequenced(Mutated(b, g, s), h)
  {
    var c := Mutated(b, g, s);
    assert (g, s) in c.unmarked;
    forall t: nat | HeldByWriter(b.unmarked, h, t) ensures HeldByWriter(c.unmarked, h, t) {
      var w :| w in b.unmarked && w.0 == h && w.1 <= t;
      assert w in c.unmarked;
    }
  }

  lemma {:induction false} MarkKeeps(b: Books, g: Guid, s: nat, h: Guid)
    requires Sequenced(b, h)
    ensures Sequenced(Marked(b, g, s), h)
  {
    var c := Marked(b, g, s);
    forall t: nat | HeldByWriter(b.unmarked, h, t)
      ensures HeldByWriter(c.unmarked, h, t) || (h == g && s <= t)
    {
      var w :| w in b.unmarked && w.0 == h && w.1 <= t;
      assert w == (g, s) || w in c.unmarked;
    }
  }

  /** A detached blob that nobody holds has its sequence in the dirty map, and there it is passed on. */
  lemma {:induction false} OwnSequenceIsDirty(b: Books, g: Guid)
    requires Sequenced(b, g) && Settled(b, g) && !InFlight(b, g) && g in b.unwritten
    ensures g in b.dirty && b.dirty[g] <= b.unwritten[g]
  {
  }

  lemma {:induction false} PassKeeps(b: Books, g: Guid, to: Guid, h: Guid)
    requires Sequenced(b, h) && (h == to && g in b.unwritten ==> EntryBy(b, to, b.unwritten[g])) && g != to
    ensures Sequenced(Passed(b, g, to), h)
  {
  }

  lemma {:induction false} StageKeeps(b: Books, p: Guid, g: Guid, h: Guid)
    requires Sequenced(b, h)
    ensures Sequenced(StagedUnder(b, p, g), h)
  {
  }

  lemma {:induction false} ForkKeeps(b: Books, g: Guid, f: Guid, p: Guid, s: nat, h: Guid)
    requires Sequenced(b, h) && Sequenced(b, g) && Settled(b, g) && !InFlight(b, g)
    requires p in b.version && p != f && g != f && f !in b.unwritten
    ensures Sequenced(Forked(b, g, f, p, s), h)
  {
    if g in b.unwritten { OwnSequenceIsDirty(b, g); }
    var c := Installed(b, f, b.DirtySeq(g));
    assert Sequenced(c, h);
    PassKeeps(c, g, f, h);
    StageKeeps(Passed(c, g, f), p, g, h);
    MutateKeeps(StagedUnder(Passed(c, g, f), p, g), p, s, h);
  }

  lemma {:induction false} FoldKeeps(b: Books, g: Guid, p: Guid, s: nat, h: Guid)
    requires Sequenced(b, h) && Sequenced(b, g) && Settled(b, g) && !InFlight(b, g) && p in b.version && g != p
    ensures Sequenced(FoldedInto(b, g, p, s), h)
  {
    if g in b.unwritten { OwnSequenceIsDirty(b, g); }
    var c := StagedUnder(b, p, g);
    StageKeeps(b, p, g, h);
    PassKeeps(c, g, p, h);
    assert Passed(c, g, p) == StagedUnder(Passed(b, g, p), p, g);
    MutateKeeps(Passed(c, g, p), p, s, h);
  }

  lemma {:induction false} CaptureKeeps(b: Books, retired: set<Guid>, gcDeleting: set<Guid>, h: Guid)
    requires Sequenced(b, h) && DebtCover.Ok(b, h) && b.round == None && retired <= b.orphans
    ensures Sequenced(Captured(b, retired, gcDeleting), h)
  {
  }

  // ---------- putting back ----------

  /** `c` is `b` with `add` put back; an entry of the round or the queue stays or is among `add`. */
  lemma {:induction false} ReleaseKeeps(b: Books, add: Entries, back: Seqs, c: Books, h: Guid)
    requires Sequenced(b, h) && c == Released(b, add, back).(round := c.round, epochs := c.epochs, owed := c.owed)
    requires forall s: nat :: HeldInRound(b.round, h, s) ==>
      HeldInRound(c.round, h, s) || (h in add && add[h].seqNo <= s)
    requires forall s: nat :: HeldInEpochs(b.epochs, h, s) ==>
      HeldInEpochs(c.epochs, h, s) || (h in add && add[h].seqNo <= s)
    ensures Sequenced(c, h)
  {
    DebtCover.ReleasedAt(b, add, back, h);
  }

  lemma {:induction false} AbortKeeps(b: Books, h: Guid)
    requires Sequenced(b, h) && b.round.Some?
    ensures Sequenced(Aborted(b), h)
  {
    ReleaseKeeps(b, b.round.value.snap, b.round.value.pending, Aborted(b), h);
  }

  lemma {:induction false} CloneKeeps(b: Books, stale: set<Guid>, h: Guid)
    requires Sequenced(b, h) && b.round.Some?
    ensures Sequenced(Cloned(b, stale), h)
  {
    ReleaseKeeps(b, Only(b.round.value.snap, stale), Returned(b.round.value, stale), Cloned(b, stale), h);
  }

  lemma {:induction false} QueueKeeps(b: Books, h: Guid)
    requires Sequenced(b, h) && b.round.Some?
    ensures Sequenced(Queued(b), h)
  {
    var c, n := Queued(b), |b.epochs|;
    if h in b.unwritten && !b.Fenced(h) {
      var s := b.unwritten[h];
      if HeldInRound(b.round, h, s) { assert Holds(c.epochs[n], h, s); }
      if HeldInEpochs(b.epochs, h, s) {
        var i :| 0 <= i < n && Holds(b.epochs[i], h, s);
        assert Holds(c.epochs[i], h, s);
      }
    }
  }

  lemma {:induction false} OtherEpochsHold(epochs: seq<Epoch>, i: nat, e: Epoch, h: Guid, s: nat)
    requires i < |epochs| && HeldInEpochs(epochs, h, s)
    ensures HeldInEpochs(epochs[i := e], h, s) || Holds(epochs[i], h, s)
  {
    var j :| 0 <= j < |epochs| && Holds(epochs[j], h, s);
    if j != i { assert Holds(epochs[i := e][j], h, s); }
  }

  lemma {:induction false} RetireKeeps(b: Books, i: nat, g: Guid, h: Guid)
    requires Sequenced(b, h) && i < |b.epochs| && g in b.epochs[i].snap && g in b.version
    ensures Sequenced(Retired(b, i, g), h)
  {
    var c := Retired(b, i, g);
    if h in c.unwritten && HeldInEpochs(b.epochs, h, b.unwritten[h]) {
      var j :| 0 <= j < |b.epochs| && Holds(b.epochs[j], h, b.unwritten[h]);
      assert Holds(c.epochs[j], h, b.unwritten[h]);
    }
  }

  /** An epoch may end once it puts back all that it still owns. */
  lemma {:induction false} EndKeeps(b: Books, i: nat, add: Entries, back: Seqs, ok: bool, h: Guid)
    requires Sequenced(b, h) && i < |b.epochs|
    requires h in b.epochs[i].snap && h !in b.epochs[i].flushed ==> h in add && add[h] == b.epochs[i].snap[h]
    ensures Sequenced(Ended(b, i, add, back, ok), h)
  {
    var c := Ended(b, i, add, back, ok);
    forall s: nat | HeldInEpochs(b.epochs, h, s)
      ensures HeldInEpochs(c.epochs, h, s) || (h in add && add[h].seqNo <= s)
    {
      OtherEpochsHold(b.epochs, i, c.epochs[i], h, s);
    }
    ReleaseKeeps(b, add, back, c, h);
  }

  lemma {:induction false} SwapKeeps(b: Books, i: nat, e: Epoch, c: Books, h: Guid)
    requires Sequenced(b, h) && i < |b.epochs| && c.epochs == b.epochs[i := e]
    requires forall s: nat :: Holds(b.epochs[i], h, s) ==> Holds(e, h, s)
    requires h in c.unwritten && !c.Fenced(h) ==> h in b.unwritten && !b.Fenced(h) && c.unwritten[h] == b.unwritten[h]
    requires c.dirty == b.dirty && c.round == b.round && c.unmarked == b.unmarked && c.staged == b.staged
    ensures Sequenced(c, h)
  {
    if h in b.unwritten && HeldInEpochs(b.epochs, h, b.unwritten[h]) {
      OtherEpochsHold(b.epochs, i, e, h, b.unwritten[h]);
      if Holds(b.epochs[i], h, b.unwritten[h]) { assert Holds(c.epochs[i], h, b.unwritten[h]); }
    }
  }

  lemma {:induction false} ReapKeeps(b: Books, h: Guid)
    requires Sequenced(b, h) && |b.epochs| > 0
    ensures Sequenced(Reaped(b), h)
  {
    var c, e := Reaped(b), b.epochs[0];
    forall s: nat | HeldInEpochs(b.epochs, h, s) ensures HeldInEpochs(c.epochs, h, s) || Holds(e, h, s) {
      var i :| 0 <= i < |b.epochs| && Holds(b.epochs[i], h, s);
      if i > 0 { assert Holds(c.epochs[i - 1], h, s); }
    }
    if !e.status.Reported? { ReleaseKeeps(b, e.snap, AllDeletes(e), c, h); }
  }

  lemma {:induction false} StepKeeps(b: Books, bound: nat, step: Step, h: Guid)
    requires Can(b, bound, step) && CarefulStep(b, step) && DebtCover.Inv(b)
    requires forall x :: Sequenced(b, x)
    ensures Sequenced(Do(b, bound, step), h)
  {
    assert DebtCover.Ok(b, h) && Sequenced(b, h);
    match step
    case Install(g, s) =>
    case Mutate(g, s) => MutateKeeps(b, g, s, h);
    case Mark(g, s) => MarkKeeps(b, g, s, h);
    case Fork(g, f, p, s) =>
      assert Sequenced(b, g) && DebtCover.Ok(b, f);
      ForkKeeps(b, g, f, p, s, h);
    case Fold(g, p, s) =>
      assert Sequenced(b, g);
      FoldKeeps(b, g, p, s, h);
    case Prune(g) =>
    case MarkForDelete(g, s) =>
    case Capture(retired, gcDeleting) => CaptureKeeps(b, retired, gcDeleting, h);
    case Abort => AbortKeeps(b, h);
    case Clone(stale) => CloneKeeps(b, stale, h);
    case Queue => QueueKeeps(b, h);
    case Retire(i, g) => RetireKeeps(b, i, g, h);
    case Fail(i) => EndKeeps(b, i, b.epochs[i].snap, b.epochs[i].pending, false, h);
    case Defer(i) => EndKeeps(b, i, b.epochs[i].snap - b.epochs[i].flushed, b.epochs[i].pending, true, h);
    case Finish(i, synced, ok) =>
      EndKeeps(b, i, map[], if synced then b.epochs[i].pending else AllDeletes(b.epochs[i]), ok, h);
    case Delete(i, g) => DeleteKeeps(b, i, g, h);
    case Abandon(i) => SwapKeeps(b, i, b.epochs[i].(status := Lost), Abandoned(b, i), h);
    case Reap => ReapKeeps(b, h);
  }

  lemma {:induction false} DeleteKeeps(b: Books, i: nat, g: Guid, h: Guid)
    requires Sequenced(b, h) && i < |b.epochs| && g in b.epochs[i].pending
    ensures Sequenced(Deleted(b, i, g), h)
  {
    var c := Deleted(b, i, g);
    SwapKeeps(b, i, c.epochs[i], c, h);
  }

  // ---------- runs ----------

  ghost predicate Inv(b: Books) { DebtCover.Inv(b) && forall g :: Sequenced(b, g) }

  lemma {:induction false} CarefulRunKeeps(b: Books, bound: nat, run: seq<Step>)
    requires Inv(b) && CanRun(b, bound, run) && Careful(b, bound, run)
    ensures Inv(Run(b, bound, run))
    decreases |run|
  {
    if run != [] {
      var c := Do(b, bound, run[0]);
      DebtCover.StepKeepsInv(b, bound, run[0]);
      forall h ensures Sequenced(c, h) { StepKeeps(b, bound, run[0], h); }
      CarefulRunKeeps(c, bound, run[1..]);
    }
  }

  /** With every blob's own entry in place the watermark is sound. */
  lemma {:induction false} SequencedMeansWatermark(b: Books)
    requires forall g :: Sequenced(b, g)
    ensures Watermark(b)
  {
    forall g | g in b.unwritten && !b.Fenced(g) ensures exists h :: EntryBy(b, h, b.unwritten[g]) {
      assert Sequenced(b, g);
    }
  }

  lemma {:induction false} RunCons(b: Books, bound: nat, step: Step, rest: seq<Step>)
    requires Can(b, bound, step) && CanRun(Do(b, bound, step), bound, rest)
    ensures CanRun(b, bound, [step] + rest) && Run(b, bound, [step] + rest) == Run(Do(b, bound, step), bound, rest)
  {
    assert ([step] + rest)[1..] == rest;
  }

  // ---------- a captured blob is forked ----------

  /** Two frames are installed and captured: the parent `p`, and its child `g` with change 5. */
  ghost function BeforeFork(p: Guid, g: Guid): Books {
    EMPTY.(flushing := multiset{p, g}, version := map[p := 0, g := 0], unwritten := map[p := STRUCTURAL_SEQ, g := 5],
           round := Some(Round(map[p := Entry(STRUCTURAL_SEQ, 0), g := Entry(5, 0)], map[])))
  }

  /** The child is forked to `f` and the parent marked, while the round holds the child. */
  ghost function AfterFork(p: Guid, g: Guid, f: Guid): Books {
    BeforeFork(p, g).(version := map[p := 1, g := 0, f := 0], unwritten := map[p := STRUCTURAL_SEQ, f := 5],
                      dirty := map[p := STRUCTURAL_SEQ, f := STRUCTURAL_SEQ], detached := {g}, orphans := {g})
  }

  lemma {:induction false} ReachesBeforeFork(bound: nat, p: Guid, g: Guid)
    requires bound > 0 && p != g
    ensures var b := Installed(Installed(EMPTY, p, STRUCTURAL_SEQ), g, 5);
      && Can(EMPTY, bound, Install(p, STRUCTURAL_SEQ))
      && Can(Installed(EMPTY, p, STRUCTURAL_SEQ), bound, Install(g, 5))
      && Can(b, bound, Capture({}, {})) && Captured(b, {}, {}) == BeforeFork(p, g)
  {
    var b := Installed(Installed(EMPTY, p, STRUCTURAL_SEQ), g, 5);
    var c := Captured(b, {}, {});
    assert b.dirty == map[p := STRUCTURAL_SEQ, g := 5] && b.version == map[p := 0, g := 0];
    assert c.dirty == map[] && c.deleting == map[];
    assert (set x | x in b.dirty && x in b.version && !b.Fenced(x) && x !in Dropped(b, {}) && x !in {}) == {p, g};
    assert c.round.value.snap == map[p := Entry(STRUCTURAL_SEQ, 0), g := Entry(5, 0)];
  }

  lemma {:induction false} ReachesAfterFork(bound: nat, p: Guid, g: Guid, f: Guid)
    requires p != g && p != f && g != f
    ensures var b := BeforeFork(p, g);
      && Can(b, bound, Fork(g, f, p, STRUCTURAL_SEQ))
      && Can(Forked(b, g, f, p, STRUCTURAL_SEQ), bound, Mark(p, STRUCTURAL_SEQ))
      && Marked(Forked(b, g, f, p, STRUCTURAL_SEQ), p, STRUCTURAL_SEQ) == AfterFork(p, g, f)
  {
    var b := BeforeFork(p, g);
    var c := Forked(b, g, f, p, STRUCTURAL_SEQ);
    assert b.unwritten - {g} == map[p := STRUCTURAL_SEQ];
    assert c.staged[p].children == {g};
    assert c.staged == map[p := Stage({g}, STRUCTURAL_SEQ)] && c.unmarked == {(p, STRUCTURAL_SEQ)};
    assert c.version == map[p := 1, g := 0, f := 0] && c.dirty == map[f := STRUCTURAL_SEQ];
    assert c.unwritten == map[p := STRUCTURAL_SEQ, f := 5];
    var d := Marked(c, p, STRUCTURAL_SEQ);
    assert d.dirty == map[p := STRUCTURAL_SEQ, f := STRUCTURAL_SEQ] && d.staged == map[] && d.unmarked == {};
  }

  /** The round fails, so the child is dirty again at 5. */
  ghost function AfterAbort(p: Guid, g: Guid, f: Guid): Books {
    AfterFork(p, g, f).(dirty := map[p := STRUCTURAL_SEQ, f := STRUCTURAL_SEQ, g := 5], flushing := multiset{},
      round := None)
  }

  lemma {:induction false} NoDeletesBack(b: Books)
    requires b.pendingDeletes == map[] && b.deleting == map[]
    ensures RestoredPending(b, map[]) == b
  {
    var r := RestoredPending(b, map[]);
    assert r.pendingDeletes == map[] && r.deleting == map[];
  }

  lemma {:induction false} ChildIsDirtyAgain(p: Guid, g: Guid, f: Guid, snap: Entries)
    requires p != g && p != f && g != f && snap == map[p := Entry(STRUCTURAL_SEQ, 0), g := Entry(5, 0)]
    ensures multiset{p, g} - multiset(snap.Keys) == multiset{}
    ensures MinAll(map[p := STRUCTURAL_SEQ, f := STRUCTURAL_SEQ], Unfenced(snap, map[], map[]))
         == map[p := STRUCTURAL_SEQ, f := STRUCTURAL_SEQ, g := 5]
  {
    assert multiset(snap.Keys) == multiset{p, g};
    assert Unfenced(snap, map[], map[]) == map[p := STRUCTURAL_SEQ, g := 5];
  }

  lemma {:induction false} ReachesAfterAbort(p: Guid, g: Guid, f: Guid)
    requires p != g && p != f && g != f
    ensures Aborted(AfterFork(p, g, f)) == AfterAbort(p, g, f)
  {
    NoDeletesBack(AfterFork(p, g, f));
    ChildIsDirtyAgain(p, g, f, AfterFork(p, g, f).round.value.snap);
  }

  /** The child is an orphan, so the next capture drops it. */
  lemma {:induction false} NextCaptureDrops(bound: nat, p: Guid, g: Guid, f: Guid)
    requires bound > 0 && p != g && p != f && g != f
    ensures var b := AfterAbort(p, g, f); Can(b, bound, Capture({g}, {})) && !Watermark(Captured(b, {g}, {}))
  {
    var b := AfterAbort(p, g, f);
    var d := Captured(b, {g}, {});
    assert d.dirty == map[] && d.deleting == map[];
    assert forall x | x in d.round.value.snap :: d.round.value.snap[x].seqNo == STRUCTURAL_SEQ;
    assert f in d.unwritten && d.unwritten[f] == 5 && !d.Fenced(f);
    forall h ensures !EntryBy(d, h, 5) { }
  }

  /** A run after which every entry is later than an unwritten change. */
  lemma {:induction false} ForkOfCapturedLosesSequence(bound: nat, p: Guid, g: Guid, f: Guid) returns (run: seq<Step>)
    requires bound > 0 && p != g && p != f && g != f
    ensures CanRun(EMPTY, bound, run) && !Watermark(Run(EMPTY, bound, run))
  {
    ReachesBeforeFork(bound, p, g);
    ReachesAfterFork(bound, p, g, f);
    ReachesAfterAbort(p, g, f);
    NextCaptureDrops(bound, p, g, f);
    run := [];
    run := Prepend(AfterAbort(p, g, f), bound, Capture({g}, {}), run);
    run := Prepend(AfterFork(p, g, f), bound, Abort, run);
    run := Prepend(Forked(BeforeFork(p, g), g, f, p, STRUCTURAL_SEQ), bound, Mark(p, STRUCTURAL_SEQ), run);
    run := Prepend(BeforeFork(p, g), bound, Fork(g, f, p, STRUCTURAL_SEQ), run);
    run := Prepend(Installed(Installed(EMPTY, p, STRUCTURAL_SEQ), g, 5), bound, Capture({}, {}), run);
    run := Prepend(Installed(EMPTY, p, STRUCTURAL_SEQ), bound, Install(g, 5), run);
    run := Prepend(EMPTY, bound, Install(p, STRUCTURAL_SEQ), run);
  }

  lemma {:induction false} Prepend(b: Books, bound: nat, step: Step, rest: seq<Step>) returns (run: seq<Step>)
    requires Can(b, bound, step) && CanRun(Do(b, bound, step), bound, rest)
    requires !Watermark(Run(Do(b, bound, step), bound, rest))
    ensures CanRun(b, bound, run) && !Watermark(Run(b, bound, run))
  {
    run := [step] + rest;
    RunCons(b, bound, step, rest);
  }

  lemma {:induction false} EmptyIsSequenced()
    ensures Inv(EMPTY)
  {
  }

  /** For every depth of the pipeline: the watermark is sound after all runs if and only if captured blobs
      are not forked or merged away. */
  lemma {:induction false} WatermarkIffCareful(bound: nat, careful: bool, p: Guid, g: Guid, f: Guid)
    requires bound > 0 && p != g && p != f && g != f
    ensures (forall run | CanRun(EMPTY, bound, run) && (careful ==> Careful(EMPTY, bound, run)) ::
              Watermark(Run(EMPTY, bound, run))) <==> careful
  {
    if careful {
      forall run | CanRun(EMPTY, bound, run) && Careful(EMPTY, bound, run) ensures Watermark(Run(EMPTY, bound, run)) {
        EmptyIsSequenced();
        CarefulRunKeeps(EMPTY, bound, run);
        SequencedMeansWatermark(Run(EMPTY, bound, run));
      }
    } else {
      var run := ForkOfCapturedLosesSequence(bound, p, g, f);
    }
  }
}
