/** The clean frontier: truncation, reclamation, and the invariant over whole runs. */
module CheckpointFrontier {
  import opened FrameTree
  import opened CheckpointMachine
  import opened CheckpointInvariant
  import opened CheckpointStore

  /** At a clean frontier the disk is the committed tree, frame by frame, whatever the cache of a
      latched store holds. */
  lemma {:induction false} CleanDiskIsTree(s: State, g: Guid)
    requires Inv(s) && Clean(s) && g in s.live
    ensures g in s.durable && g in s.committed && s.durable[g] == s.committed[g].img
  {
  }

  lemma {:induction false} TruncateKeepsDisk(s: State)
    requires Inv(s) && Clean(s)
    ensures DiskOk(s.births, s.live, s.root, s.base, s.wal, |s.wal|, |s.wal|, s.durable, s.unsynced)
    ensures RelOk(s.births, s.live, s.base, s.wal, |s.wal|, s.committed)
  {
    CleanDiskIsTree(s, s.root);
    forall g | g in s.live
      ensures g in s.durable && g in s.committed
      ensures ImgOk(s.births, s.live, s.base, s.wal, |s.wal|, |s.wal|, g, s.durable[g])
      ensures s.committed[g].img == s.durable[g]
      ensures ChildrenSure(s.births, s.durable, s.unsynced, g, s.durable[g])
    {
      CleanDiskIsTree(s, g);
      LiveImgOk(s.births, s.live, s.root, s.live, s.base, s.wal, |s.wal|, s.committed, g);
      forall k | k in s.births[g].terr && s.durable[g](k).Below?
        ensures Sure(s.durable, s.unsynced, s.durable[g](k).child)
      {
        assert EdgeOk(s.births, s.live, g, s.durable[g], k, s.durable[g](k).child);
        CleanDiskIsTree(s, s.durable[g](k).child);
      }
    }
  }

  /** Nothing is in flight at a clean frontier. */
  lemma {:induction false} CleanHoldsNothing(s: State)
    requires Clean(s)
    ensures s.planner.Round? ==>
      s.planner.todo == map[] && s.planner.clones == map[] && s.planner.stale == {} && s.planner.pend == {}
    ensures forall i :: 0 <= i < |s.epochs| ==>
      s.epochs[i].todo == map[] && s.epochs[i].wave == map[] && s.epochs[i].failed == {} && s.epochs[i].pend == {}
  {
    if s.planner.Round? {
      forall g ensures g !in s.planner.todo && g !in s.planner.clones && g !in s.planner.stale && g !in s.planner.pend {
        assert !Flushing(s.planner, s.epochs, g) && !Fenced(s.pending, s.planner, s.epochs, g);
      }
    }
    forall i | 0 <= i < |s.epochs|
      ensures s.epochs[i].todo == map[] && s.epochs[i].wave == map[] && s.epochs[i].failed == {}
        && s.epochs[i].pend == {}
    {
      forall g ensures !s.epochs[i].Flushing(g) && g !in s.epochs[i].pend {
        assert !Flushing(s.planner, s.epochs, g) && !Fenced(s.pending, s.planner, s.epochs, g);
      }
      assert forall g :: g in s.epochs[i].todo || g in s.epochs[i].wave || g in s.epochs[i].failed ==>
        s.epochs[i].Flushing(g);
    }
  }

  lemma {:induction false} TruncateKeepsInv(s: State)
    requires Inv(s) && Enabled(s, Truncate)
    ensures Inv(Apply(s, Truncate))
  {
    var t := Apply(s, Truncate);
    TruncateKeepsDisk(s);
    CleanHoldsNothing(s);
    forall i | 0 <= i < |t.epochs|
      ensures EpochOk(t.births, t.rel, t.base, t.wal, t.trunc, t.flushed, t.cache, t.committed, t.epochs[i])
    {
      assert EpochOk(s.births, s.rel, s.base, s.wal, s.trunc, s.flushed, s.cache, s.committed, s.epochs[i]);
    }
  }

  lemma {:induction false} ReclaimKeepsInv(s: State, c: Guid)
    requires Inv(s) && Enabled(s, Reclaim(c))
    ensures Inv(Apply(s, Reclaim(c)))
  {
    var t := Apply(s, Reclaim(c));
    DelKeepsDisk(s.births, s.rel, s.root, s.base, s.wal, s.trunc, s.flushed, s.durable, s.unsynced, c);
    forall h ensures h != c ==> LastWrite(t.durable, t.unsynced, h) == LastWrite(s.durable, s.unsynced, h) {
      LastWriteAppend(s.durable, s.unsynced, Del(c), h);
    }
  }
}
