/** The I/O worker's steps keep the invariant: child-first writes, retirement, sync, the delete
    phase, and the end of an epoch by success, deferral, error or lost completion. */
module CheckpointWorker {
  import opened Options
  import opened WalHistory
  import opened FrameTree
  import opened CheckpointMachine
  import opened CheckpointInvariant
  import opened CheckpointStore

  // ---------- replacing the head epoch ----------

  lemma {:induction false} HeadOwns(s: State, e: Epoch, g: Guid)
    requires |s.epochs| > 0
    ensures (e.Flushing(g) <==> s.epochs[0].Flushing(g)) ==>
              (Flushing(s.planner, Head(s, e), g) <==> Flushing(s.planner, s.epochs, g))
    ensures (g in e.pend ==> g in s.epochs[0].pend) ==>
              (Fenced(s.pending, s.planner, Head(s, e), g) ==> Fenced(s.pending, s.planner, s.epochs, g))
    ensures !Flushing(s.planner, Head(s, e), g) && !s.epochs[0].Flushing(g) ==> !Flushing(s.planner, s.epochs, g)
    ensures g in s.epochs[0].pend ==> Fenced(s.pending, s.planner, s.epochs, g)
  {
    var es := Head(s, e);
    assert es[0] == e;
    assert forall i :: 1 <= i < |es| ==> es[i] == s.epochs[i];
    assert |es| == |s.epochs|;
  }

  lemma {:induction false} HeadKeepsEpochs(s: State, e: Epoch)
    requires |s.epochs| > 0
    requires EpochsOk(s.births, s.rel, s.base, s.wal, s.trunc, s.flushed, s.cache, s.committed, s.epochs)
    requires EpochOk(s.births, s.rel, s.base, s.wal, s.trunc, s.flushed, s.cache, s.committed, e)
    ensures EpochsOk(s.births, s.rel, s.base, s.wal, s.trunc, s.flushed, s.cache, s.committed, Head(s, e))
  {
  }

  /** With an epoch in flight, a round that holds deletes cannot exist. */
  lemma {:induction false} NoRivalRound(s: State)
    requires BoundOk(s.bound, s.userDeletes, s.planner, s.epochs) && |s.epochs| > 0
    requires FenceOk(s.userDeletes, s.births, s.live, s.pending, s.planner, s.epochs)
    ensures s.planner.Round? ==> s.planner.pend == {}
    ensures |s.epochs| > 1 ==> s.epochs[0].pend == {} && s.epochs[1].pend == {}
  {
    forall g | Fenced(s.pending, s.planner, s.epochs, g) ensures s.userDeletes {}
    if s.planner.Round? && s.planner.pend != {} {
      var g :| g in s.planner.pend;
      assert Fenced(s.pending, s.planner, s.epochs, g);
    }
    if |s.epochs| > 1 {
      if g :| g in s.epochs[0].pend { assert Fenced(s.pending, s.planner, s.epochs, g); }
      if g :| g in s.epochs[1].pend { assert Fenced(s.pending, s.planner, s.epochs, g); }
    }
  }

  /** What a step on the head epoch has to show: ownership only shrinks where debt is settled. */
  lemma {:induction false} HeadStepKeepsInv(s: State, t: State, e: Epoch)
    requires Inv(s) && |s.epochs| > 0
    requires t == s.(epochs := Head(s, e), dirty := t.dirty, unsynced := t.unsynced)
    requires EpochOk(s.births, s.rel, s.base, s.wal, s.trunc, s.flushed, s.cache, s.committed, e)
    requires t.dirty <= s.committed.Keys && e.pend <= s.epochs[0].pend
      && e.applied <= s.epochs[0].applied + s.epochs[0].pend
    requires DiskOk(t.births, t.rel, t.root, t.base, t.wal, t.trunc, t.flushed, t.durable, t.unsynced)
    requires WaveOk(t.rel, t.durable, t.unsynced, t.epochs)
    requires DebtOk(t.live, t.dirty, t.planner, t.epochs, t.durable, t.unsynced, t.committed)
    requires EpochDeletes(t.births, t.rel, t.live, t.root, t.durable, t.unsynced, t.committed, e)
    ensures Inv(t)
  {
    NoRivalRound(s);
    HeadKeepsEpochs(s, e);
    forall g | Fenced(t.pending, t.planner, t.epochs, g) ensures t.userDeletes && g in t.births && g !in t.live {
      HeadOwns(s, e, g);
    }
    forall g | g in e.applied ensures t.userDeletes && g in t.births && g !in t.live {
      HeadOwns(s, e, g);
    }
  }

  // ---------- writes ----------

  ghost function Submitted(e: Epoch, g: Guid): Epoch
    requires g in e.todo
  {
    e.(todo := e.todo - {g}, wave := e.wave[g := e.todo[g]])
  }

  lemma {:induction false} SubmitKeepsDeletes(births: Births, rel: set<Guid>, live: set<Guid>, root: Guid,
                                              durable: Disk, unsynced: seq<StoreOp>, committed: Frames, e: Epoch,
                                              g: Guid)
    requires EpochDeletes(births, rel, live, root, durable, unsynced, committed, e)
    requires g in e.todo && e.todo.Keys !! e.wave.Keys !! e.done.Keys
    ensures EpochDeletes(births, rel, live, root, durable, unsynced + [Put(g, e.todo[g].img)], committed,
      Submitted(e, g))
  {
    var e' := Submitted(e, g);
    assert e'.todo + e'.wave + e'.done == e.todo + e.wave + e.done;
    forall h | h != g
      ensures LastWrite(durable, unsynced + [Put(g, e.todo[g].img)], h) == LastWrite(durable, unsynced, h)
    {
      LastWriteAppend(durable, unsynced, Put(g, e.todo[g].img), h);
    }
  }

  /** A new image for `g` disturbs neither other submitted images nor settled debt. */
  lemma {:induction false} SubmitKeepsReads(s: State, g: Guid)
    requires |s.epochs| > 0 && g in s.epochs[0].todo && s.epochs[0].todo.Keys !! s.epochs[0].wave.Keys
    requires WaveOk(s.rel, s.durable, s.unsynced, s.epochs)
    requires DebtOk(s.live, s.dirty, s.planner, s.epochs, s.durable, s.unsynced, s.committed)
    ensures var es, u := Head(s, Submitted(s.epochs[0], g)), s.unsynced + [Put(g, s.epochs[0].todo[g].img)];
      WaveOk(s.rel, s.durable, u, es) && DebtOk(s.live, s.dirty, s.planner, es, s.durable, u, s.committed)
  {
    var e := s.epochs[0];
    forall h ensures LastWrite(s.durable, s.unsynced + [Put(g, e.todo[g].img)], h) ==
                     if h == g then Some(e.todo[g].img) else LastWrite(s.durable, s.unsynced, h) {
      LastWriteAppend(s.durable, s.unsynced, Put(g, e.todo[g].img), h);
    }
    forall h ensures Flushing(s.planner, Head(s, Submitted(e, g)), h) == Flushing(s.planner, s.epochs, h) {
      HeadOwns(s, Submitted(e, g), h);
    }
    assert Flushing(s.planner, s.epochs, g) by { assert e.Flushing(g); }
  }

  /** The image is good up to the epoch's watermark, which the log has been flushed to. */
  lemma {:induction false} SubmitKeepsDisk(s: State, g: Guid)
    requires |s.epochs| > 0 && g in s.epochs[0].todo
    requires EpochOk(s.births, s.rel, s.base, s.wal, s.trunc, s.flushed, s.cache, s.committed, s.epochs[0])
    requires DiskOk(s.births, s.rel, s.root, s.base, s.wal, s.trunc, s.flushed, s.durable, s.unsynced)
    requires ChildrenSure(s.births, s.durable, s.unsynced, g, s.epochs[0].todo[g].img)
    ensures DiskOk(s.births, s.rel, s.root, s.base, s.wal, s.trunc, s.flushed, s.durable,
      s.unsynced + [Put(g, s.epochs[0].todo[g].img)])
    ensures EpochOk(s.births, s.rel, s.base, s.wal, s.trunc, s.flushed, s.cache, s.committed, Submitted(s.epochs[0], g))
  {
  }

  lemma {:induction false} SubmitKeepsInv(s: State, g: Guid)
    requires Inv(s) && Enabled(s, Submit(g))
    ensures Inv(Apply(s, Submit(g)))
  {
    assert EpochOk(s.births, s.rel, s.base, s.wal, s.trunc, s.flushed, s.cache, s.committed, s.epochs[0]);
    SubmitKeepsDisk(s, g);
    SubmitKeepsReads(s, g);
    SubmitKeepsDeletes(s.births, s.rel, s.live, s.root, s.durable, s.unsynced, s.committed, s.epochs[0], g);
    HeadStepKeepsInv(s, Apply(s, Submit(g)), Submitted(s.epochs[0], g));
  }

  lemma {:induction false} SubmitStaleKeepsInv(s: State, g: Guid)
    requires Inv(s) && Enabled(s, SubmitStale(g))
    ensures Inv(Apply(s, SubmitStale(g)))
  {
    var t := Apply(s, SubmitStale(g));
    var e := s.epochs[0];
    assert EpochOk(s.births, s.rel, s.base, s.wal, s.trunc, s.flushed, s.cache, s.committed, e);
    forall h ensures Flushing(t.planner, t.epochs, h) == Flushing(s.planner, s.epochs, h) {
      HeadOwns(s, t.epochs[0], h);
    }
    HeadStepKeepsInv(s, t, t.epochs[0]);
  }

  ghost function Retired(e: Epoch, g: Guid): Epoch
    requires g in e.wave
  {
    e.(wave := e.wave - {g}, done := e.done[g := e.wave[g]])
  }

  /** Retirement settles debt only for a frame whose written image is still the committed one. */
  lemma {:induction false} RetireKeepsDebt(s: State, g: Guid, dirty: set<Guid>)
    requires |s.epochs| > 0 && g in s.epochs[0].wave && g in s.committed && s.dirty - {g} <= dirty
    requires s.epochs[0].wave[g] == s.committed[g] && s.live <= s.rel
    requires WaveOk(s.rel, s.durable, s.unsynced, s.epochs)
    requires DebtOk(s.live, s.dirty, s.planner, s.epochs, s.durable, s.unsynced, s.committed)
    ensures DebtOk(s.live, dirty, s.planner, Head(s, Retired(s.epochs[0], g)), s.durable, s.unsynced, s.committed)
  {
    var es := Head(s, Retired(s.epochs[0], g));
    forall h | h in s.live && h in s.committed && h !in dirty && !Flushing(s.planner, es, h)
      ensures LastWrite(s.durable, s.unsynced, h) == Some(s.committed[h].img)
    {
      if h != g { HeadOwns(s, Retired(s.epochs[0], g), h); }
    }
  }

  lemma {:induction false} RetireKeepsDeletes(births: Births, rel: set<Guid>, live: set<Guid>, root: Guid,
                                              durable: Disk, unsynced: seq<StoreOp>, committed: Frames, e: Epoch,
                                              g: Guid)
    requires EpochDeletes(births, rel, live, root, durable, unsynced, committed, e)
    requires g in e.wave && e.todo.Keys !! e.wave.Keys !! e.done.Keys
    requires g in rel ==> LastWrite(durable, unsynced, g) == Some(e.wave[g].img)
    ensures EpochDeletes(births, rel, live, root, durable, unsynced, committed, Retired(e, g))
  {
    var e' := Retired(e, g);
    assert e'.todo + e'.wave + e'.done == e.todo + e.wave + e.done;
  }

  lemma {:induction false} RetireWrittenKeepsInv(s: State, g: Guid, keepDirty: bool)
    requires Inv(s) && Enabled(s, Retire(g, keepDirty)) && s.cache[g].ver == s.epochs[0].wave[g].ver
    ensures Inv(Apply(s, Retire(g, keepDirty)))
  {
    var t := Apply(s, Retire(g, keepDirty));
    var e := s.epochs[0];
    assert EpochOk(s.births, s.rel, s.base, s.wal, s.trunc, s.flushed, s.cache, s.committed, e);
    RetireKeepsDebt(s, g, t.dirty);
    RetireKeepsDeletes(s.births, s.rel, s.live, s.root, s.durable, s.unsynced, s.committed, e, g);
    HeadStepKeepsInv(s, t, Retired(e, g));
  }

  lemma {:induction false} RetireStaleKeepsInv(s: State, g: Guid, keepDirty: bool)
    requires Inv(s) && Enabled(s, Retire(g, keepDirty)) && s.cache[g].ver != s.epochs[0].wave[g].ver
    ensures Inv(Apply(s, Retire(g, keepDirty)))
  {
    var t := Apply(s, Retire(g, keepDirty));
    assert EpochOk(s.births, s.rel, s.base, s.wal, s.trunc, s.flushed, s.cache, s.committed, s.epochs[0]);
    forall h ensures Flushing(t.planner, t.epochs, h) == Flushing(s.planner, s.epochs, h) {
      HeadOwns(s, t.epochs[0], h);
    }
    HeadStepKeepsInv(s, t, t.epochs[0]);
  }

  lemma {:induction false} RetireKeepsInv(s: State, g: Guid, keepDirty: bool)
    requires Inv(s) && Enabled(s, Retire(g, keepDirty))
    ensures Inv(Apply(s, Retire(g, keepDirty)))
  {
    if s.cache[g].ver == s.epochs[0].wave[g].ver { RetireWrittenKeepsInv(s, g, keepDirty); }
    else { RetireStaleKeepsInv(s, g, keepDirty); }
  }

  // ---------- sync ----------

  /** The parts of the invariant that see the store only through what the process reads back. */
  lemma {:induction false} SameReads(s: State, durable: Disk, unsynced: seq<StoreOp>)
    requires WaveOk(s.rel, s.durable, s.unsynced, s.epochs)
    requires DebtOk(s.live, s.dirty, s.planner, s.epochs, s.durable, s.unsynced, s.committed)
    requires DeletesOk(s.births, s.rel, s.live, s.root, s.durable, s.unsynced, s.committed, s.planner, s.epochs)
    requires forall g :: LastWrite(durable, unsynced, g) == LastWrite(s.durable, s.unsynced, g)
    ensures WaveOk(s.rel, durable, unsynced, s.epochs)
    ensures DebtOk(s.live, s.dirty, s.planner, s.epochs, durable, unsynced, s.committed)
    ensures DeletesOk(s.births, s.rel, s.live, s.root, durable, unsynced, s.committed, s.planner, s.epochs)
  {
  }

  lemma {:induction false} SyncKeepsInv(s: State)
    requires Inv(s)
    ensures Inv(Apply(s, SyncStore))
  {
    var t := Apply(s, SyncStore);
    SyncKeepsDisk(s.births, s.rel, s.root, s.base, s.wal, s.trunc, s.flushed, s.durable, s.unsynced);
    forall g ensures LastWrite(t.durable, t.unsynced, g) == LastWrite(s.durable, s.unsynced, g) {
      SyncedReads(s.durable, s.unsynced, g);
    }
    SameReads(s, t.durable, t.unsynced);
  }

  // ---------- the delete phase ----------

  /** When every image of the epoch is written and synced, the store is the captured tree: what
      was detached before the capture is no longer led to. */
  lemma {:induction false} DetachedIsIrrelevant(s: State)
    requires |s.epochs| > 0 && s.unsynced == [] && s.epochs[0].todo == map[] && s.epochs[0].wave == map[]
    requires var e := s.epochs[0]; e.pend != {} && e.failed == {} && !e.deleting
    requires EpochDeletes(s.births, s.rel, s.live, s.root, s.durable, s.unsynced, s.committed, s.epochs[0])
    requires RelOk(s.births, s.rel, s.base, s.wal, s.trunc, s.committed)
    requires DiskOk(s.births, s.rel, s.root, s.base, s.wal, s.trunc, s.flushed, s.durable, s.unsynced)
    ensures RelOk(s.births, s.rel - s.epochs[0].gone, s.base, s.wal, s.trunc, s.committed)
    ensures DiskOk(s.births, s.rel - s.epochs[0].gone, s.root, s.base, s.wal, s.trunc, s.flushed, s.durable, s.unsynced)
  {
  }

  lemma {:induction false} EpochDeletesShrinks(births: Births, rel: set<Guid>, rel': set<Guid>, live: set<Guid>,
                                               root: Guid, durable: Disk, unsynced: seq<StoreOp>, committed: Frames,
                                               e: Epoch)
    requires EpochDeletes(births, rel, live, root, durable, unsynced, committed, e) && rel' <= rel
    ensures EpochDeletes(births, rel', live, root, durable, unsynced, committed, e)
  {
  }

  lemma {:induction false} IdleEpochShrinks(s: State, rel: set<Guid>)
    requires EpochsOk(s.births, s.rel, s.base, s.wal, s.trunc, s.flushed, s.cache, s.committed, s.epochs)
    requires |s.epochs| == 1 && s.epochs[0].todo == map[] && s.epochs[0].wave == map[]
    ensures EpochsOk(s.births, rel, s.base, s.wal, s.trunc, s.flushed, s.cache, s.committed, s.epochs)
    ensures WaveOk(rel, s.durable, s.unsynced, s.epochs)
  {
  }

  /** Frames may stop being relevant when nothing relevant leads to them. */
  lemma {:induction false} ShrinkKeepsInv(s: State, rel: set<Guid>)
    requires Inv(s) && s.planner.Idle? && |s.epochs| == 1 && s.epochs[0].todo == map[] && s.epochs[0].wave == map[]
    requires s.live <= rel <= s.rel
    requires RelOk(s.births, rel, s.base, s.wal, s.trunc, s.committed)
    requires DiskOk(s.births, rel, s.root, s.base, s.wal, s.trunc, s.flushed, s.durable, s.unsynced)
    ensures Inv(s.(rel := rel))
  {
    IdleEpochShrinks(s, rel);
    EpochDeletesShrinks(s.births, s.rel, rel, s.live, s.root, s.durable, s.unsynced, s.committed, s.epochs[0]);
  }

  lemma {:induction false} BeginDeletesKeepsInv(s: State)
    requires Inv(s) && Enabled(s, BeginDeletes)
    ensures Inv(Apply(s, BeginDeletes))
  {
    var e := s.epochs[0];
    if e.pend == {} {
      BeginKeepsInv(s, Apply(s, BeginDeletes));
    } else {
      assert e.todo == map[] && e.wave == map[] && e.failed == {} by { assert e.Unwritten() == {}; }
      var g :| g in e.pend;
      HeadOwns(s, e, g);
      DetachedIsIrrelevant(s);
      ShrinkKeepsInv(s, s.rel - e.gone);
      BeginKeepsInv(s.(rel := s.rel - e.gone), Apply(s, BeginDeletes));
    }
  }

  lemma {:induction false} BeginKeepsInv(s: State, t: State)
    requires Inv(s) && |s.epochs| > 0 && s.epochs[0].Unwritten() == {} && s.epochs[0].pend !! s.rel
    requires t == s.(epochs := Head(s, s.epochs[0].(deleting := true)))
    ensures Inv(t)
  {
    var e := s.epochs[0].(deleting := true);
    assert EpochOk(s.births, s.rel, s.base, s.wal, s.trunc, s.flushed, s.cache, s.committed, s.epochs[0]);
    forall h ensures Flushing(t.planner, t.epochs, h) == Flushing(s.planner, s.epochs, h) { HeadOwns(s, e, h); }
    HeadStepKeepsInv(s, t, e);
  }

  lemma {:induction false} DeleteOneKeepsInv(s: State, g: Guid)
    requires Inv(s) && Enabled(s, DeleteOne(g))
    ensures Inv(Apply(s, DeleteOne(g)))
  {
    var t := Apply(s, DeleteOne(g));
    var e := s.epochs[0];
    assert EpochOk(s.births, s.rel, s.base, s.wal, s.trunc, s.flushed, s.cache, s.committed, e);
    HeadOwns(s, e, g);
    DelKeepsDisk(s.births, s.rel, s.root, s.base, s.wal, s.trunc, s.flushed, s.durable, s.unsynced, g);
    forall h ensures h != g ==> LastWrite(t.durable, t.unsynced, h) == LastWrite(s.durable, s.unsynced, h) {
      LastWriteAppend(s.durable, s.unsynced, Del(g), h);
    }
    forall h ensures Flushing(t.planner, t.epochs, h) == Flushing(s.planner, s.epochs,
      h) { HeadOwns(s, t.epochs[0], h); }
    assert e.todo == map[] && e.wave == map[] by { assert e.Unwritten() == {}; }
    HeadStepKeepsInv(s, t, t.epochs[0]);
  }

  // ---------- the end of an epoch ----------

  lemma {:induction false} FinishMovesOwnership(s: State, restore: set<Guid>, redo: set<Guid>, g: Guid)
    requires Enabled(s, FinishEpoch(restore, redo))
    ensures var t := Apply(s, FinishEpoch(restore, redo));
      && (Fenced(t.pending, t.planner, t.epochs, g) ==>
        Fenced(s.pending, s.planner, s.epochs, g) || g in s.epochs[0].applied)
      && (Flushing(s.planner, s.epochs, g) ==>
            Flushing(t.planner, t.epochs, g) || g in t.dirty || Fenced(s.pending, s.planner, s.epochs, g))
  {
  }

  lemma {:induction false} FinishKeepsEpochs(s: State)
    requires |s.epochs| > 0
    requires EpochsOk(s.births, s.rel, s.base, s.wal, s.trunc, s.flushed, s.cache, s.committed, s.epochs)
    ensures EpochsOk(s.births, s.rel, s.base, s.wal, s.trunc, s.flushed, s.cache, s.committed, s.epochs[1..])
    ensures WaveOk(s.rel, s.durable, s.unsynced, s.epochs[1..])
    ensures AppliedOk(s.userDeletes, s.births, s.live, s.epochs[1..])
  {
  }

  lemma {:induction false} FinishKeepsInv(s: State, restore: set<Guid>, redo: set<Guid>)
    requires Inv(s) && Enabled(s, FinishEpoch(restore, redo))
    ensures Inv(Apply(s, FinishEpoch(restore, redo)))
  {
    var t := Apply(s, FinishEpoch(restore, redo));
    var e := s.epochs[0];
    assert EpochOk(s.births, s.rel, s.base, s.wal, s.trunc, s.flushed, s.cache, s.committed, e);
    FinishKeepsEpochs(s);
    NoRivalRound(s);
    forall g ensures Fenced(t.pending, t.planner, t.epochs, g) ==> t.userDeletes && g in t.births && g !in t.live {
      FinishMovesOwnership(s, restore, redo, g);
    }
    forall g | g in t.live && g in t.committed && g !in t.dirty && !Flushing(t.planner, t.epochs, g)
      ensures LastWrite(t.durable, t.unsynced, g) == Some(t.committed[g].img)
    {
      FinishMovesOwnership(s, restore, redo, g);
    }
    if |t.epochs| > 0 { assert t.epochs[0] == s.epochs[1]; }
  }

  predicate ByWrite(a: Action) { a.Submit? || a.SubmitStale? || a.Retire? || a.SyncStore? }

  predicate ByDelete(a: Action) { a.BeginDeletes? || a.DeleteOne? || a.FinishEpoch? }

  lemma {:induction false} WritePhaseKeepsInv(s: State, a: Action)
    requires Inv(s) && Enabled(s, a) && ByWrite(a)
    ensures Inv(Apply(s, a))
  {
    match a
    case Submit(g) => SubmitKeepsInv(s, g);
    case SubmitStale(g) => SubmitStaleKeepsInv(s, g);
    case Retire(g, keep) => RetireKeepsInv(s, g, keep);
    case SyncStore => SyncKeepsInv(s);
  }

  lemma {:induction false} DeletePhaseKeepsInv(s: State, a: Action)
    requires Inv(s) && Enabled(s, a) && ByDelete(a)
    ensures Inv(Apply(s, a))
  {
    match a
    case BeginDeletes => BeginDeletesKeepsInv(s);
    case DeleteOne(g) => DeleteOneKeepsInv(s, g);
    case FinishEpoch(restore, redo) => FinishKeepsInv(s, restore, redo);
  }
}
