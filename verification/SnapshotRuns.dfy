/** Snapshot isolation over whole runs: what a snapshot reads never changes while it lives. */
module SnapshotRuns {
  import opened Options
  import opened WalHistory
  import opened FrameTree
  import opened SnapshotMachine

  ghost predicate CanRun(s: State, run: seq<Action>)
    decreases |run|
  {
    run == [] || (Enabled(s, run[0]) && CanRun(Apply(s, run[0]), run[1..]))
  }

  ghost function Run(s: State, run: seq<Action>): State
    requires CanRun(s, run)
    decreases |run|
  {
    if run == [] then s else Run(Apply(s, run[0]), run[1..])
  }

  /** Empty trees, no snapshot, the first epoch. */
  ghost predicate Init(s: State) {
    && s.live == s.roots == s.pool.Keys && s.home == (map g | g in s.roots :: g)
      && (forall g, k | g in s.pool :: s.pool[g].img(k) == Here(None))
    && (forall g | g in s.pool :: s.pool[g].created == 0) && s.current == 1 && s.barrier == 0
    && s.snaps == map[] && s.waiting == map[] && s.retired == {}
  }

  lemma {:induction false} RunKeepsInv(s: State, run: seq<Action>)
    requires Inv(s) && CanRun(s, run)
    ensures Inv(Run(s, run))
    decreases |run|
  {
    if run != [] {
      StepKeepsInv(s, run[0]);
      RunKeepsInv(Apply(s, run[0]), run[1..]);
    }
  }

  lemma {:induction false} InitHasInv(s: State)
    requires Init(s)
    ensures Inv(s)
  {
  }

  // ---------- capture ----------

  /** Below the root the snapshot's images are the live ones. */
  lemma {:induction false} SharesBelow(s: State, root: Guid, copy: Guid, g: Guid, k: Key, d: nat)
    requires Inv(s) && CanTakeOne(s, root, copy) && g in s.live && g !in s.roots && s.home[g] == root
    ensures Lookup(Taken(s, root, copy).view, g, k, d) == Lookup(Images(s.pool), g, k, d)
    decreases d
  {
    if d > 0 && s.pool[g].img(k).Below? {
      assert DownOk(s.pool, s.roots, s.live, s.home, g, s.pool[g].img(k).child);
      SharesBelow(s, root, copy, s.pool[g].img(k).child, k, d - 1);
    }
  }

  /** At capture the snapshot reads what the live tree reads. */
  lemma {:induction false} CopyReadsRoot(s: State, root: Guid, copy: Guid, k: Key, d: nat)
    requires Inv(s) && CanTakeOne(s, root, copy)
    ensures Lookup(Taken(s, root, copy).view, copy, k, d) == Lookup(Images(s.pool), root, k, d)
  {
    if d > 0 && s.pool[root].img(k).Below? {
      assert DownOk(s.pool, s.roots, s.live, s.home, root, s.pool[root].img(k).child);
      SharesBelow(s, root, copy, s.pool[root].img(k).child, k, d - 1);
    }
  }

  /** Installing a root copy changes no read of the live tree. */
  lemma {:induction false} CopyIsInvisible(s: State, root: Guid, copy: Guid, g: Guid, k: Key, d: nat)
    requires Inv(s) && CanTakeOne(s, root, copy) && g in s.live
    ensures Lookup(Images(TakeOne(s, root, copy).pool), g, k, d) == Lookup(Images(s.pool), g, k, d)
    decreases d
  {
    if d > 0 && s.pool[g].img(k).Below? {
      assert DownOk(s.pool, s.roots, s.live, s.home, g, s.pool[g].img(k).child);
      CopyIsInvisible(s, root, copy, s.pool[g].img(k).child, k, d - 1);
    }
  }

  lemma {:induction false} TakeShape(s: State, picks: seq<Guid>, copies: seq<Guid>, n: nat)
    requires n <= |picks| == |copies| && CanTake(s, picks, copies, n)
    ensures var t := Take(s, picks, copies, n);
      t.current == s.current + n && t.roots == s.roots && t.live == s.live && t.home == s.home
  {
    if n > 0 { TakeShape(s, picks, copies, n - 1); }
  }

  lemma {:induction false} TakeIsInvisible(s: State, picks: seq<Guid>, copies: seq<Guid>, n: nat, g: Guid, k: Key,
                                           d: nat)
    requires Inv(s) && n <= |picks| == |copies| && CanTake(s, picks, copies, n) && g in s.live
    ensures Lookup(Images(Take(s, picks, copies, n).pool), g, k, d) == Lookup(Images(s.pool), g, k, d)
  {
    if n > 0 {
      TakeIsInvisible(s, picks, copies, n - 1, g, k, d);
      TakeKeepsInv(s, picks, copies, n - 1);
      TakeShape(s, picks, copies, n - 1);
      CopyIsInvisible(Take(s, picks, copies, n - 1), picks[n - 1], copies[n - 1], g, k, d);
    }
  }

  /** The snapshot that was taken last reads what its tree read before the capture began. */
  lemma {:induction false} LastReads(s: State, picks: seq<Guid>, copies: seq<Guid>, i: nat, t: State, k: Key, d: nat)
    requires Inv(s) && i < |picks| == |copies| && CanTake(s, picks, copies, i) && t == Take(s, picks, copies, i)
    requires CanTakeOne(t, picks[i], copies[i])
    ensures Lookup(Taken(t, picks[i], copies[i]).view, copies[i], k, d) == Lookup(Images(s.pool), picks[i], k, d)
  {
    assert Inv(t) by { TakeKeepsInv(s, picks, copies, i); }
    assert t.roots == s.roots && t.live == s.live by { TakeShape(s, picks, copies, i); }
    CopyReadsRoot(t, picks[i], copies[i], k, d);
    TakeIsInvisible(s, picks, copies, i, picks[i], k, d);
  }

  /** Every root of a coordinated capture is read as of the same moment, the one before the capture. */
  lemma {:induction false} CaptureReads(s: State, picks: seq<Guid>, copies: seq<Guid>, n: nat, i: nat, k: Key, d: nat)
    requires Inv(s) && i < n <= |picks| == |copies| && CanTake(s, picks, copies, n)
    ensures var t, e := Take(s, picks, copies, n), s.current + i;
      e in t.snaps && t.snaps[e].root == copies[i]
        && Lookup(t.snaps[e].view, copies[i], k, d) == Lookup(Images(s.pool), picks[i], k, d)
  {
    TakeShape(s, picks, copies, n - 1);
    if i < n - 1 {
      CaptureReads(s, picks, copies, n - 1, i, k, d);
    } else {
      LastReads(s, picks, copies, i, Take(s, picks, copies, i), k, d);
    }
  }

  // ---------- isolation ----------

  lemma {:induction false} TakeKeepsSnap(s: State, picks: seq<Guid>, copies: seq<Guid>, n: nat, e: nat)
    requires n <= |picks| == |copies| && CanTake(s, picks, copies, n) && e < s.current
    ensures var t := Take(s, picks, copies, n);
      (e in t.snaps <==> e in s.snaps) && (e in t.snaps ==> t.snaps[e] == s.snaps[e])
  {
    TakeShape(s, picks, copies, n);
    if n > 0 {
      TakeKeepsSnap(s, picks, copies, n - 1, e);
      TakeShape(s, picks, copies, n - 1);
    }
  }

  /** An epoch is never handed out again while the process runs: a snapshot stays itself until retired. */
  lemma {:induction false} SnapStaysItself(s: State, a: Action, e: nat)
    requires Inv(s) && Enabled(s, a) && !a.Reopen? && e < s.current
    ensures var t := Apply(s, a);
      e < t.current && (e in t.snaps ==> e in s.snaps && t.snaps[e] == s.snaps[e])
  {
    if a.Capture? {
      TakeShape(s, a.picks, a.copies, |a.picks|);
      TakeKeepsSnap(s, a.picks, a.copies, |a.picks|, e);
    }
  }

  lemma {:induction false} SnapStaysItselfInRun(s: State, run: seq<Action>, e: nat)
    requires Inv(s) && CanRun(s, run) && e < s.current && forall a | a in run :: !a.Reopen?
    ensures e in Run(s, run).snaps ==> e in s.snaps && Run(s, run).snaps[e] == s.snaps[e]
    decreases |run|
  {
    if run != [] {
      assert run[0] in run;
      StepKeepsInv(s, run[0]);
      SnapStaysItself(s, run[0], e);
      SnapStaysItselfInRun(Apply(s, run[0]), run[1..], e);
    }
  }

  /** A live snapshot reads its images of the moment of capture, however long ago that was. */
  lemma {:induction false} ReadsView(t: State, later: seq<Action>, u: State, e: nat, k: Key, d: nat)
    requires Inv(t) && CanRun(t, later) && u == Run(t, later) && e < t.current && (forall a | a in later :: !a.Reopen?)
    requires e in u.snaps
    ensures e in t.snaps && u.snaps[e] == t.snaps[e]
    ensures Lookup(Images(u.pool), u.snaps[e].root, k, d) == Lookup(t.snaps[e].view, t.snaps[e].root, k, d)
  {
    SnapStaysItselfInRun(t, later, e);
    RunKeepsInv(t, later);
    ReadsOwn(u.pool, u.roots, u.live, u.home, e, u.snaps[e], u.snaps[e].root, k, d);
  }

  /** Root `i` of a capture is picked from the live roots. */
  lemma {:induction false} PicksAreRoots(s: State, picks: seq<Guid>, copies: seq<Guid>, n: nat, i: nat)
    requires Inv(s) && i < n <= |picks| == |copies| && CanTake(s, picks, copies, n)
    ensures picks[i] in s.live
  {
    TakeShape(s, picks, copies, n - 1);
    if i < n - 1 { PicksAreRoots(s, picks, copies, n - 1, i); }
  }

  /** At capture a snapshot reads what its tree reads, and such a read ends. */
  lemma {:induction false} CapturedReadEnds(s: State, picks: seq<Guid>, copies: seq<Guid>, i: nat, t: State, k: Key,
                                            d: nat)
    requires Inv(s) && i < |picks| == |copies| && CanTake(s, picks, copies, |picks|)
      && t == Take(s, picks, copies, |picks|)
    ensures Inv(t) && s.current + i < t.current && (s.current + i) in t.snaps
    ensures var n := t.snaps[s.current + i];
      Lookup(n.view, n.root, k, d) == Lookup(Images(s.pool), picks[i], k, d)
        && (d >= |s.pool| ==> Lookup(n.view, n.root, k, d).Some?)
  {
    CaptureReads(s, picks, copies, |picks|, i, k, d);
    TakeKeepsInv(s, picks, copies, |picks|);
    TakeShape(s, picks, copies, |picks|);
    if d >= |s.pool| {
      PicksAreRoots(s, picks, copies, |picks|, i);
      LiveReadEnds(s, picks[i], k, d);
    }
  }

  lemma {:induction false} IsolationFrom(s: State, picks: seq<Guid>, copies: seq<Guid>, i: nat, t: State,
                                         later: seq<Action>,
                                         u: State, k: Key, d: nat)
    requires Inv(s) && i < |picks| == |copies| && CanTake(s, picks, copies, |picks|)
      && t == Take(s, picks, copies, |picks|)
    requires CanRun(t, later) && u == Run(t, later) && (s.current + i) in u.snaps && forall a | a in later :: !a.Reopen?
    ensures var read := Lookup(Images(u.pool), u.snaps[s.current + i].root, k, d);
      read == Lookup(Images(s.pool), picks[i], k, d) && (d >= |s.pool| ==> read.Some?)
  {
    CapturedReadEnds(s, picks, copies, i, t, k, d);
    ReadsView(t, later, u, s.current + i, k, d);
  }

  /** Snapshot isolation. After any history, which ends at `s`, capture any set of trees; then, over any
      later run of writes, forks, spills, merges, captures, retirements and reclaims, which ends at `u`, a
      snapshot that is still live reads for every key exactly what its tree read before the capture; and
      given as many steps as there were frames, the read ends at a record. */
  lemma {:induction false} SnapshotIsolation(s0: State, before: seq<Action>, s: State, picks: seq<Guid>,
                                             copies: seq<Guid>,
                                             i: nat, later: seq<Action>, u: State, k: Key, d: nat)
    requires Init(s0) && CanRun(s0, before) && s == Run(s0, before)
    requires i < |picks| == |copies| && Enabled(s, Capture(picks, copies))
    requires CanRun(Apply(s, Capture(picks, copies)), later) && u == Run(Apply(s, Capture(picks, copies)), later)
    requires (s.current + i) in u.snaps && forall a | a in later :: !a.Reopen?
    ensures var read := Lookup(Images(u.pool), u.snaps[s.current + i].root, k, d);
      read == Lookup(Images(s.pool), picks[i], k, d) && (d >= |s.pool| ==> read.Some?)
  {
    assert Inv(s) by {
      InitHasInv(s0);
      RunKeepsInv(s0, before);
    }
    IsolationFrom(s, picks, copies, i, Apply(s, Capture(picks, copies)), later, u, k, d);
  }

  // ---------- the clock after reopen ----------

  datatype Stamp = Stamp(created: nat, highWater: nat)

  /** The stamps are those of the live frames. */
  ghost predicate Stamped(s: State, stamps: seq<Stamp>) {
    forall g | g in s.live && g in s.pool :: exists i :: 0 <= i < |stamps| && stamps[i].created == s.pool[g].created
  }

  /** Reopen walks the frames of every live tree and takes the highest stamp, at least one; an exhausted
      stamp is corruption. So every state with those frames may go on from that clock. */
  method RestoreClock(stamps: seq<Stamp>) returns (clock: Option<nat>)
    ensures clock.None? <==>
      exists i :: 0 <= i < |stamps| && (stamps[i].created == U64_MAX || stamps[i].highWater == U64_MAX)
    ensures clock.Some? ==> clock.value >= 1
    ensures clock.Some? ==>
      forall i | 0 <= i < |stamps| :: stamps[i].created <= clock.value && stamps[i].highWater <= clock.value
    ensures clock.Some? ==> forall s: State | Stamped(s, stamps) :: Enabled(s, Reopen(clock.value))
    ensures clock.Some? && clock.value != 1 ==>
      exists i :: 0 <= i < |stamps| && (stamps[i].created == clock.value || stamps[i].highWater == clock.value)
  {
    var high := 1;
    for i := 0 to |stamps|
      invariant high >= 1
      invariant forall j | 0 <= j < i :: stamps[j].created <= high && stamps[j].highWater <= high
      invariant forall j | 0 <= j < i :: stamps[j].created != U64_MAX && stamps[j].highWater != U64_MAX
      invariant high == 1 || exists j :: 0 <= j < i && (stamps[j].created == high || stamps[j].highWater == high)
    {
      if stamps[i].highWater == U64_MAX || stamps[i].created == U64_MAX { return None; }
      if stamps[i].highWater > high { high := stamps[i].highWater; }
      if stamps[i].created > high { high := stamps[i].created; }
    }
    return Some(high);
  }
}
