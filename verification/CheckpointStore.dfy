/** Facts about submitted and synced store operations. */
module CheckpointStore {
  import opened Options
  import opened WalHistory
  import opened FrameTree
  import opened CheckpointMachine
  import opened CheckpointInvariant

  lemma {:induction false} LastWriteAppend(durable: Disk, unsynced: seq<StoreOp>, op: StoreOp, g: Guid)
    ensures LastWrite(durable, unsynced + [op], g) ==
            if op.g == g then (if op.Put? then Some(op.img) else None) else LastWrite(durable, unsynced, g)
  {
  }

  /** What the process reads back is one of the images a crash may leave. */
  lemma {:induction false} LastWriteMayHold(durable: Disk, unsynced: seq<StoreOp>, g: Guid)
    ensures LastWrite(durable, unsynced, g).Some? ==>
      MayHold(durable, unsynced, g, LastWrite(durable, unsynced, g).value)
    ensures LastWrite(durable, unsynced, g).Some? ==>
      g in durable || exists i :: 0 <= i < |unsynced| && unsynced[i].g == g
    ensures Sure(durable, unsynced, g) ==> LastWrite(durable, unsynced, g).Some?
    decreases |unsynced|
  {
    if unsynced != [] {
      var n := |unsynced| - 1;
      LastWriteMayHold(durable, unsynced[..n], g);
      assert forall i :: 0 <= i < n ==> unsynced[..n][i] == unsynced[i];
      if Sure(durable, unsynced, g) { assert unsynced[n] != Del(g); assert Sure(durable, unsynced[..n], g); }
    }
  }

  /** A sync makes durable exactly what the process reads back. */
  lemma {:induction false} SyncedReads(durable: Disk, unsynced: seq<StoreOp>, g: Guid)
    ensures LastWrite(Synced(durable, unsynced), [], g) == LastWrite(durable, unsynced, g)
  {
    LastWriteMayHold(durable, unsynced, g);
    assert forall i :: 0 <= i < |unsynced| ==> unsynced[i].g in (set j | 0 <= j < |unsynced| :: unsynced[j].g);
  }

  lemma {:induction false} SyncKeepsDisk(births: Births, rel: set<Guid>, root: Guid, base: Content, wal: seq<Batch>,
                                         lo: nat, hi: nat, durable: Disk, unsynced: seq<StoreOp>)
    requires DiskOk(births, rel, root, base, wal, lo, hi, durable, unsynced)
    ensures DiskOk(births, rel, root, base, wal, lo, hi, Synced(durable, unsynced), [])
  {
    var d := Synced(durable, unsynced);
    forall g ensures (g in d <==> LastWrite(durable, unsynced, g).Some?)
      && (g in d ==> MayHold(durable, unsynced, g, d[g]))
      ensures Sure(durable, unsynced, g) ==> Sure(d, [], g)
    {
      SyncedReads(durable, unsynced, g);
      LastWriteMayHold(durable, unsynced, g);
    }
  }

  /** Deleting a frame that is not relevant keeps the disk good: nothing relevant leads to it. */
  lemma {:induction false} DelKeepsDisk(births: Births, rel: set<Guid>, root: Guid, base: Content, wal: seq<Batch>,
                                        lo: nat, hi: nat, durable: Disk, unsynced: seq<StoreOp>, c: Guid)
    requires DiskOk(births, rel, root, base, wal, lo, hi, durable, unsynced) && c in births && c !in rel && root in rel
    ensures DiskOk(births, rel, root, base, wal, lo, hi, durable, unsynced + [Del(c)])
  {
  }
}
