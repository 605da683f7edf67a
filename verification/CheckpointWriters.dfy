/** The steps of writers and of structural maintenance keep the invariant. */
module CheckpointWriters {
  import opened WalHistory
  import opened FrameTree
  import opened Reshape
  import opened CheckpointMachine
  import opened CheckpointInvariant

  /** What all these steps have in common: they touch neither the store nor the pipeline, every
      frame they change gets a newer version and becomes dirty, and a frame they delete for a
      user is no longer live. */
  ghost predicate WriterFrame(s: State, t: State) {
    && t == s.(wal := t.wal, births := t.births, live := t.live, rel := t.rel, cache := t.cache,
               committed := t.committed, dirty := t.dirty, pending := t.pending, latched := t.latched)
    && s.wal <= t.wal
    && Extends(s.births, t.births) && Grows(s.births, s.rel, t.rel)
    && t.live <= t.rel <= t.births.Keys
    && (forall g :: g in t.live ==> g in s.live || g !in s.births)
    && s.committed.Keys <= t.committed.Keys <= t.births.Keys && t.dirty <= t.committed.Keys
    && Moves(s.cache, t.cache, s.committed, t.committed)
    && (forall g :: g in t.live && g !in t.dirty ==>
         g in s.live && g !in s.dirty && g in s.committed && t.committed[g].img == s.committed[g].img)
    && (forall g :: g in t.committed && g !in t.live ==> g in s.committed && t.committed[g] == s.committed[g])
    && (forall g :: g in t.pending ==> g in s.pending || (s.userDeletes && g in s.births && g !in t.live))
    && CacheOk(t.latched, t.cache, t.committed)
  }

  ghost predicate WriterStep(s: State, t: State) {
    WriterFrame(s, t) && TreeOk(t.births, t.live, t.root, t.committed, Current(t.base, t.wal))
  }

  lemma {:induction false} WriterStepKeepsDeletes(s: State, t: State)
    requires Inv(s) && WriterStep(s, t)
    ensures DeletesOk(t.births, t.rel, t.live, t.root, t.durable, t.unsynced, t.committed, t.planner, t.epochs)
  {
    if s.planner.Round? && s.planner.pend != {} && s.planner.stale == {} {
      DetachesGrows(s.births, t.births, s.rel, t.rel, s.live, t.live, s.root, s.durable, s.unsynced, s.committed,
        t.committed,
                    s.planner.gone, s.planner.pend, s.planner.todo + s.planner.clones);
    }
    if |s.epochs| > 0 {
      var e := s.epochs[0];
      assert EpochOk(s.births, s.rel, s.base, s.wal, s.trunc, s.flushed, s.cache, s.committed, e);
      if e.pend != {} && e.failed == {} && !e.deleting {
        DetachesGrows(s.births, t.births, s.rel, t.rel, s.live, t.live, s.root, s.durable, s.unsynced, s.committed,
          t.committed,
                      e.gone, e.pend, e.todo + e.wave + e.done);
      }
      forall g | g in e.pend ensures g in s.births { assert Fenced(s.pending, s.planner, s.epochs, g); }
    }
  }

  lemma {:induction false} WriterStepKeepsInv(s: State, t: State)
    requires Inv(s) && WriterStep(s, t)
    ensures Inv(t)
  {
    WriterStepKeepsDeletes(s, t);
    RelGrows(s.births, t.births, s.rel, t.rel, t.live, s.root, s.base, s.wal, t.wal, s.trunc, s.committed, t.committed);
    DiskGrows(s.births, t.births, s.rel, t.rel, s.root, s.base, s.wal, t.wal, s.trunc, s.flushed, s.flushed,
      s.durable, s.unsynced);
    PlannerMoves(s.births, t.births, s.rel, t.rel, s.base, s.wal, t.wal, s.trunc, s.cache, t.cache, s.committed,
      t.committed, s.planner);
    EpochsMove(s.births, t.births, s.rel, t.rel, s.base, s.wal, t.wal, s.trunc, s.flushed, s.cache, t.cache,
      s.committed, t.committed, s.epochs);
    forall g | Fenced(t.pending, t.planner, t.epochs, g)
      ensures t.userDeletes && g in t.births && g !in t.live
    {
      if g !in t.pending || g in s.pending { assert Fenced(s.pending, s.planner, s.epochs, g); }
    }
    if |s.epochs| > 0 {
      assert EpochOk(s.births, s.rel, s.base, s.wal, s.trunc, s.flushed, s.cache, s.committed, s.epochs[0]);
    }
  }

  lemma {:induction false} CurrentAfter(base: Content, wal: seq<Batch>, b: Batch, k: Key)
    ensures Current(base, wal + [b])(k) == AfterOps(Current(base, wal), b)(k)
  {
    assert (wal + [b])[..|wal|] == wal[..|wal|];
    ValueAtPrefix(base, wal + [b], wal, |wal|, k);
  }

  /** The part of the invariant that the writer steps themselves rely on. */
  ghost predicate Core(s: State) {
    && SetsOk(s) && CacheOk(s.latched, s.cache, s.committed)
    && TreeOk(s.births, s.live, s.root, s.committed, Current(s.base, s.wal))
  }

  lemma {:induction false} CommitKeepsTree(births: Births, live: set<Guid>, root: Guid, committed: Frames,
                                           base: Content, wal: seq<Batch>, batch: Batch)
    requires TreeOk(births, live, root, committed, Current(base, wal))
    ensures TreeOk(births, live, root, ApplyOps(committed, root, |births|, batch).frames, Current(base, wal + [batch]))
  {
    BatchKeepsTree(births, live, root, committed, Current(base, wal), batch);
    forall k ensures Current(base, wal + [batch])(k) == AfterOps(Current(base, wal), batch)(k) {
      CurrentAfter(base, wal, batch, k);
    }
    SameContent(births, live, root, ApplyOps(committed, root, |births|, batch).frames,
                AfterOps(Current(base, wal), batch), Current(base, wal + [batch]));
  }

  /** What a batch does to the frames, whatever their content. */
  ghost predicate Advances(live: set<Guid>, c: Frames, r: Applied) {
    && r.frames.Keys == c.Keys && r.touched <= live
    && (forall g :: g in c && g !in r.touched ==> r.frames[g] == c[g])
    && (forall g :: g in r.touched ==> g in c && c[g].ver < r.frames[g].ver)
  }

  lemma {:induction false} BatchAdvances(births: Births, live: set<Guid>, root: Guid, c: Frames, cur: Content,
                                         ops: Batch)
    requires TreeOk(births, live, root, c, cur)
    ensures Advances(live, c, ApplyOps(c, root, |births|, ops))
  {
    BatchKeepsTree(births, live, root, c, cur, ops);
  }

  lemma {:induction false} CommitIsWriterFrame(s: State, batch: Batch)
    requires SetsOk(s) && s.live <= s.committed.Keys && CacheOk(s.latched, s.cache, s.committed)
    requires Enabled(s, Commit(batch)) && Advances(s.live, s.cache, ApplyOps(s.cache, s.root, |s.births|, batch))
    ensures WriterFrame(s, Apply(s, Commit(batch)))
  {
  }

  lemma {:induction false} CommitIsWriterStep(s: State, batch: Batch)
    requires Core(s) && Enabled(s, Commit(batch))
    ensures WriterStep(s, Apply(s, Commit(batch)))
  {
    BatchAdvances(s.births, s.live, s.root, s.committed, Current(s.base, s.wal), batch);
    CommitIsWriterFrame(s, batch);
    CommitKeepsTree(s.births, s.live, s.root, s.committed, s.base, s.wal, batch);
  }

  /** A part-way failure leaves the committed tree, and so everything a capture may still use. */
  lemma {:induction false} FailIsWriterFrame(s: State, batch: Batch, n: nat, marked: set<Guid>)
    requires SetsOk(s) && s.live <= s.committed.Keys && CacheOk(s.latched, s.cache, s.committed)
    requires Enabled(s, FailPartWay(batch, n, marked))
    requires Advances(s.live, s.cache, ApplyOps(s.cache, s.root, |s.births|, batch[..n]))
    ensures WriterFrame(s, Apply(s, FailPartWay(batch, n, marked)))
  {
  }

  lemma {:induction false} FailIsWriterStep(s: State, batch: Batch, n: nat, marked: set<Guid>)
    requires Core(s) && Enabled(s, FailPartWay(batch, n, marked))
    ensures WriterStep(s, Apply(s, FailPartWay(batch, n, marked)))
  {
    BatchAdvances(s.births, s.live, s.root, s.committed, Current(s.base, s.wal), batch[..n]);
    FailIsWriterFrame(s, batch, n, marked);
  }

  lemma {:induction false} SpillIsWriterFrame(s: State, p: Guid, part: iset<Key>, rank: real, child: Guid)
    requires SetsOk(s) && s.live <= s.committed.Keys && CacheOk(s.latched, s.cache, s.committed)
    requires Enabled(s, SpillOut(p, part, rank, child))
    ensures WriterFrame(s, Apply(s, SpillOut(p, part, rank, child)))
  {
  }

  lemma {:induction false} SpillIsWriterStep(s: State, p: Guid, part: iset<Key>, rank: real, child: Guid)
    requires Core(s) && Enabled(s, SpillOut(p, part, rank, child))
    ensures WriterStep(s, Apply(s, SpillOut(p, part, rank, child)))
  {
    SpillIsWriterFrame(s, p, part, rank, child);
    SpillKeepsTree(s.births, s.live, s.root, s.committed, Current(s.base, s.wal), p, part, rank, child);
  }

  lemma {:induction false} MergeIsWriterFrame(s: State, p: Guid, child: Guid, k: Key, user: bool)
    requires SetsOk(s) && s.live <= s.committed.Keys && CacheOk(s.latched, s.cache, s.committed)
    requires Enabled(s, MergeIn(p, child, k, user))
    ensures WriterFrame(s, Apply(s, MergeIn(p, child, k, user)))
  {
  }

  lemma {:induction false} MergeIsWriterStep(s: State, p: Guid, child: Guid, k: Key, user: bool)
    requires Core(s) && Enabled(s, MergeIn(p, child, k, user))
    ensures WriterStep(s, Apply(s, MergeIn(p, child, k, user)))
  {
    MergeIsWriterFrame(s, p, child, k, user);
    MergeKeepsTree(s.births, s.live, s.root, s.committed, Current(s.base, s.wal), p, child, k);
  }

  lemma {:induction false} ForkIsWriterFrame(s: State, p: Guid, child: Guid, fork: Guid, k: Key)
    requires SetsOk(s) && s.live <= s.committed.Keys && CacheOk(s.latched, s.cache, s.committed)
    requires Enabled(s, ForkOff(p, child, fork, k))
    ensures WriterFrame(s, Apply(s, ForkOff(p, child, fork, k)))
  {
  }

  lemma {:induction false} ForkIsWriterStep(s: State, p: Guid, child: Guid, fork: Guid, k: Key)
    requires Core(s) && Enabled(s, ForkOff(p, child, fork, k))
    ensures WriterStep(s, Apply(s, ForkOff(p, child, fork, k)))
  {
    ForkIsWriterFrame(s, p, child, fork, k);
    ForkKeepsTree(s.births, s.live, s.root, s.committed, Current(s.base, s.wal), p, child, fork, k);
  }

  predicate ByWriter(a: Action) { a.Commit? || a.FailPartWay? || a.SpillOut? || a.MergeIn? || a.ForkOff? }

  lemma {:induction false} WritersStep(s: State, a: Action)
    requires Core(s) && Enabled(s, a)
    requires ByWriter(a)
    ensures WriterStep(s, Apply(s, a))
  {
    match a
    case Commit(batch) => CommitIsWriterStep(s, batch);
    case FailPartWay(batch, n, marked) => FailIsWriterStep(s, batch, n, marked);
    case SpillOut(p, part, rank, child) => SpillIsWriterStep(s, p, part, rank, child);
    case MergeIn(p, child, k, user) => MergeIsWriterStep(s, p, child, k, user);
    case ForkOff(p, child, fork, k) => ForkIsWriterStep(s, p, child, fork, k);
  }

  /** Commits, part-way failures, spills, merges and forks keep the invariant. */
  lemma {:induction false} WritersKeepInv(s: State, a: Action)
    requires Inv(s) && Enabled(s, a)
    requires ByWriter(a)
    ensures Inv(Apply(s, a))
  {
    WritersStep(s, a);
    WriterStepKeepsInv(s, Apply(s, a));
  }
}
