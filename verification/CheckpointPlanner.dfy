/** The planner's steps keep the invariant: log flush, capture, clone, submission, abort. */
module CheckpointPlanner {
  import opened Options
  import opened WalHistory
  import opened FrameTree
  import opened CheckpointMachine
  import opened CheckpointInvariant

  lemma {:induction false} FlushWalKeepsInv(s: State, upTo: nat)
    requires Inv(s) && Enabled(s, FlushWal(upTo))
    ensures Inv(Apply(s, FlushWal(upTo)))
  {
    var t := Apply(s, FlushWal(upTo));
    DiskGrows(s.births, s.births, s.rel, s.rel, s.root, s.base, s.wal, s.wal, s.trunc, s.flushed, upTo, s.durable,
      s.unsynced);
    forall i | 0 <= i < |s.epochs|
      ensures EpochOk(t.births, t.rel, t.base, t.wal, t.trunc, t.flushed, t.cache, t.committed, t.epochs[i])
    {
      assert EpochOk(s.births, s.rel, s.base, s.wal, s.trunc, s.flushed, s.cache, s.committed, s.epochs[i]);
    }
  }

  /** With deletes the pipeline is empty at a capture, so the captured images together with what
      the store was already given are exactly the live tree. */
  lemma {:induction false} CaptureDetaches(s: State, dropped: set<Guid>)
    requires Inv(s) && Enabled(s, Capture(dropped)) && s.pending != {}
    ensures var r := Apply(s, Capture(dropped)).planner;
      Detaches(s.births, s.rel, s.live, s.root, s.durable, s.unsynced, s.committed, r.gone, r.pend, r.todo + r.clones)
  {
    var r := Apply(s, Capture(dropped)).planner;
    forall g | g in s.pending ensures s.userDeletes && g in s.births && g !in s.live {
      assert Fenced(s.pending, s.planner, s.epochs, g);
    }
    assert s.epochs == [];
    forall g | g in s.rel && g !in r.gone
      ensures g in s.committed && Avoids(s.births, r.gone, g, s.committed[g].img)
      ensures g in r.todo + r.clones ==> (r.todo + r.clones)[g] == s.committed[g]
      ensures g !in r.todo + r.clones ==> LastWrite(s.durable, s.unsynced, g) == Some(s.committed[g].img)
    {
      assert g in s.live;
      assert Shaped(s.births, s.live, g, s.committed[g].img);
      LiveAvoids(s.births, s.live, r.gone, g, s.committed[g].img);
    }
  }

  lemma {:induction false} CaptureKeepsInv(s: State, dropped: set<Guid>)
    requires Inv(s) && Enabled(s, Capture(dropped))
    ensures Inv(Apply(s, Capture(dropped)))
  {
    var t := Apply(s, Capture(dropped));
    if s.pending != {} { CaptureDetaches(s, dropped); }
    forall g | Fenced(t.pending, t.planner, t.epochs, g) ensures t.userDeletes && g in t.births && g !in t.live {
      assert Fenced(s.pending, s.planner, s.epochs, g);
    }
    forall g | g in t.live && g in t.committed && !Flushing(t.planner, t.epochs, g)
      ensures LastWrite(t.durable, t.unsynced, g) == Some(t.committed[g].img)
    {
      assert !t.planner.Flushing(g);
      assert !Flushing(s.planner, s.epochs, g);
    }
  }

  /** A clone whose version is unchanged is the captured image, so the round holds what it held. */
  lemma {:induction false} CloneKeepsPlanner(s: State, g: Guid)
    requires CacheOk(s.latched, s.cache, s.committed) && Enabled(s, CloneOne(g))
    requires PlannerOk(s.births, s.rel, s.base, s.wal, s.trunc, s.cache, s.committed, s.planner)
    ensures var r' := Apply(s, CloneOne(g)).planner;
      && PlannerOk(s.births, s.rel, s.base, s.wal, s.trunc, s.cache, s.committed, r')
      && (r'.stale == {} ==> r'.todo + r'.clones == s.planner.todo + s.planner.clones)
      && (forall h :: r'.Flushing(h) == s.planner.Flushing(h))
      && (forall h :: r'.Claims(h) == s.planner.Claims(h))
      && (r'.stale == {} ==> s.planner.stale == {})
  {
    var r, r' := s.planner, Apply(s, CloneOne(g)).planner;
    if s.cache[g].ver == r.todo[g].ver {
      assert s.cache[g] == r.todo[g];
      assert r'.todo + r'.clones == r.todo + r.clones;
    }
  }

  lemma {:induction false} CloneKeepsInv(s: State, g: Guid)
    requires Inv(s) && Enabled(s, CloneOne(g))
    ensures Inv(Apply(s, CloneOne(g)))
  {
    var t := Apply(s, CloneOne(g));
    CloneKeepsPlanner(s, g);
    forall h ensures Flushing(t.planner, t.epochs, h) == Flushing(s.planner, s.epochs, h) {
      assert t.planner.Flushing(h) == s.planner.Flushing(h);
    }
    forall h ensures Fenced(t.pending, t.planner, t.epochs, h) == Fenced(s.pending, s.planner, s.epochs, h) {
      assert t.planner.Claims(h) == s.planner.Claims(h);
    }
  }

  lemma {:induction false} EnqueueKeepsEpochs(s: State)
    requires Inv(s) && Enabled(s, Enqueue)
    ensures var t := Apply(s, Enqueue);
      EpochsOk(t.births, t.rel, t.base, t.wal, t.trunc, t.flushed, t.cache, t.committed, t.epochs)
  {
    var t := Apply(s, Enqueue);
    forall i | 0 <= i < |t.epochs|
      ensures EpochOk(t.births, t.rel, t.base, t.wal, t.trunc, t.flushed, t.cache, t.committed, t.epochs[i])
    {
      if i < |s.epochs| { assert t.epochs[i] == s.epochs[i]; }
    }
  }

  /** Submission moves ownership: what the round owned is now owned by the new epoch or dirty. */
  lemma {:induction false} EnqueueMovesOwnership(s: State, g: Guid)
    requires Enabled(s, Enqueue)
    ensures var t := Apply(s, Enqueue);
      && (Fenced(t.pending, t.planner, t.epochs, g) ==> Fenced(s.pending, s.planner, s.epochs, g))
      && (Flushing(s.planner, s.epochs, g) ==>
            Flushing(t.planner, t.epochs, g) || g in t.dirty || Fenced(s.pending, s.planner, s.epochs, g))
  {
    var t := Apply(s, Enqueue);
    var n := |s.epochs|;
    if g in s.planner.clones { assert t.epochs[n].Flushing(g); }
    if i :| 0 <= i < n && s.epochs[i].Flushing(g) { assert t.epochs[i].Flushing(g); }
    if i :| 0 <= i < |t.epochs| && g in t.epochs[i].pend { if i < n { assert g in s.epochs[i].pend; } }
  }

  lemma {:induction false} EnqueueKeepsInv(s: State)
    requires Inv(s) && Enabled(s, Enqueue)
    ensures Inv(Apply(s, Enqueue))
  {
    var t := Apply(s, Enqueue);
    EnqueueKeepsEpochs(s);
    forall g ensures Fenced(t.pending, t.planner, t.epochs, g) ==> Fenced(s.pending, s.planner, s.epochs, g) {
      EnqueueMovesOwnership(s, g);
    }
    forall g | g in t.live && g in t.committed && g !in t.dirty && !Flushing(t.planner, t.epochs, g)
      ensures LastWrite(t.durable, t.unsynced, g) == Some(t.committed[g].img)
    {
      EnqueueMovesOwnership(s, g);
    }
    assert s.planner.clones + map[] + map[] == s.planner.todo + s.planner.clones;
    if |s.epochs| > 0 { assert t.epochs[0] == s.epochs[0]; }
  }

  lemma {:induction false} AbortKeepsInv(s: State)
    requires Inv(s) && Enabled(s, AbortRound)
    ensures Inv(Apply(s, AbortRound))
  {
    var t := Apply(s, AbortRound);
    forall g | g in t.live && g in t.committed && g !in t.dirty && !Flushing(t.planner, t.epochs, g)
      ensures LastWrite(t.durable, t.unsynced, g) == Some(t.committed[g].img)
    {
      assert !Flushing(s.planner, s.epochs, g);
    }
    forall g | Fenced(t.pending, t.planner, t.epochs, g) ensures t.userDeletes && g in t.births && g !in t.live {
      assert Fenced(s.pending, s.planner, s.epochs, g);
    }
  }

  predicate ByPlanner(a: Action) { a.FlushWal? || a.Capture? || a.CloneOne? || a.Enqueue? || a.AbortRound? }

  lemma {:induction false} PlannerKeepsInv(s: State, a: Action)
    requires Inv(s) && Enabled(s, a) && ByPlanner(a)
    ensures Inv(Apply(s, a))
  {
    match a
    case FlushWal(upTo) => FlushWalKeepsInv(s, upTo);
    case Capture(dropped) => CaptureKeepsInv(s, dropped);
    case CloneOne(g) => CloneKeepsInv(s, g);
    case Enqueue => EnqueueKeepsInv(s);
    case AbortRound => AbortKeepsInv(s);
  }
}
