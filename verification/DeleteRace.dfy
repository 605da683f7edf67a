/** Deferred user deletes and pipelining do not mix.

    With two or more epochs in flight a frame can be deleted while a frame that still leads to it is
    on disk and reachable: its parent went stale in one epoch and is itself fenced for deletion, so
    restoring it to the dirty set drops it; the deletion of the child moves on to a later epoch
    without it; and the epoch that would have detached the parent is deferred in between. */
module DeleteRace {
  import opened Options
  import opened WalHistory
  import opened FrameTree
  import opened Reshape
  import opened CheckpointMachine
  import opened CheckpointInvariant
  import opened CrashRecovery
  import opened CheckpointRuns

  ghost const All: iset<Key> := iset k: Key | true

  function To(g: Guid): Image { (k: Key) => Below(g) }
  function Empty(): Image { (k: Key) => Here(None) }

  function Chain(): Disk { map[0 := To(1), 1 := To(2), 2 := Empty()] }

  ghost function Births3(): Births {
    map[0 := Birth(All, 0.0), 1 := Birth(All, 1.0), 2 := Birth(All, 2.0)]
  }

  // The cache as the run changes it: the grandchild folded into the child, a write to the child,
  // the child folded into the root, a write to the root.
  function C0(): Frames { map[0 := Frame(To(1), 0), 1 := Frame(To(2), 0), 2 := Frame(Empty(), 0)] }
  function C1(): Frames { Merge(C0(), 1, 2) }
  function C2(k: Key): Frames { WriteSlot(C1(), 1, k, None) }
  function C3(k: Key): Frames { Merge(C2(k), 0, 1) }
  function C4(k: Key): Frames { WriteSlot(C3(k), 0, k, None) }

  // The three epochs: fold of the grandchild, fold of the child, and the deferred deletion.
  function E1(): Epoch { Epoch(0, map[1 := C1()[1]], map[], map[], {}, {2}, {}, false, {2}) }
  function E2(k: Key): Epoch { Epoch(1, map[0 := C3(k)[0]], map[], map[], {}, {1}, {}, false, {1, 2}) }
  function E3(): Epoch { Epoch(1, map[], map[], map[], {}, {2}, {}, false, {1, 2}) }

  function Ops(k: Key): Batch { [Op(k, None)] }

  /** A store with room for `n` epochs, always on the same disk. */
  ghost function St(n: nat, wal: seq<Batch>, flushed: nat, live: set<Guid>, c: Frames, dirty: set<Guid>,
                    pending: set<Guid>,
                    planner: Planner, epochs: seq<Epoch>, unsynced: seq<StoreOp>, rel: set<Guid>): State {
    State(n, true, 0, (k: Key) => None, wal, 0, flushed, false, Births3(), live, c, c,
          dirty, pending, planner, epochs, Chain(), unsynced, rel, {})
  }

  /** The states of the run, from a clean store holding a root, its child and its grandchild. */
  ghost function S(n: nat, k: Key, i: nat): State
    requires i <= 19
  {
    var w1, w2, all, r1 := [Ops(k)], [Ops(k), Ops(k)], {0, 1, 2}, map[1 := C1()[1]];
    var r2 := map[0 := C3(k)[0]];
    if i == 0 then St(n, [], 0, all, C0(), {}, {}, Idle, [], [], all)
    else if i == 1 then St(n, [], 0, {0, 1}, C1(), {1}, {2}, Idle, [], [], all)
    else if i == 2 then St(n, [], 0, {0, 1}, C1(), {}, {}, Round(0, r1, map[], {}, {2}, {2}), [], [], all)
    else if i == 3 then St(n, [], 0, {0, 1}, C1(), {}, {}, Round(0, map[], r1, {}, {2}, {2}), [], [], all)
    else if i == 4 then St(n, [], 0, {0, 1}, C1(), {}, {}, Idle, [E1()], [], all)
    else if i == 5 then St(n, w1, 0, {0, 1}, C2(k), {1}, {}, Idle, [E1()], [], all)
    else if i == 6 then St(n, w1, 0, {0}, C3(k), {0}, {1}, Idle, [E1()], [], all)
    else if i == 7 then St(n, w1, 1, {0}, C3(k), {0}, {1}, Idle, [E1()], [], all)
    else if i == 8 then St(n, w1, 1, {0}, C3(k), {}, {}, Round(1, r2, map[], {}, {1}, {1, 2}), [E1()], [], all)
    else if i == 9 then St(n, w1, 1, {0}, C3(k), {}, {}, Round(1, map[], r2, {}, {1}, {1, 2}), [E1()], [], all)
    else if i == 10 then St(n, w1, 1, {0}, C3(k), {}, {}, Idle, [E1(), E2(k)], [], all)
    else if i == 11 then St(n, w1, 1, {0}, C3(k), {}, {}, Idle, [E1().(todo := map[], failed := {1}), E2(k)], [], all)
    else if i == 12 then St(n, w1, 1, {0}, C3(k), {}, {2}, Idle, [E2(k)], [], all)
    else if i == 13 then St(n, w1, 1, {0}, C3(k), {}, {}, Round(1, map[], map[], {}, {2}, {1, 2}), [E2(k)], [], all)
    else if i == 14 then St(n, w1, 1, {0}, C3(k), {}, {}, Idle, [E2(k), E3()], [], all)
    else if i == 15 then St(n, w2, 1, {0}, C4(k), {0}, {}, Idle, [E2(k), E3()], [], all)
    else if i == 16 then St(n, w2, 1, {0}, C4(k), {0}, {}, Idle, [E2(k).(todo := map[], failed := {0}), E3()], [], all)
    else if i == 17 then St(n, w2, 1, {0}, C4(k), {0}, {1}, Idle, [E3()], [], all)
    else if i == 18 then St(n, w2, 1, {0}, C4(k), {0}, {1}, Idle, [E3().(deleting := true)], [], {0})
    else St(n, w2, 1, {0}, C4(k), {0}, {1}, Idle, [E3().(deleting := true, pend := {}, applied := {2})], [Del(2)], {0})
  }

  function Act(k: Key, i: nat): Action
    requires i < 19
  {
    if i == 0 then MergeIn(1, 2, k, true) else if i == 1 then Capture({}) else if i == 2 then CloneOne(1)
    else if i == 3 then Enqueue else if i == 4 then Commit(Ops(k)) else if i == 5 then MergeIn(0, 1, k, true)
    else if i == 6 then FlushWal(1) else if i == 7 then Capture({}) else if i == 8 then CloneOne(0)
    else if i == 9 then Enqueue else if i == 10 then SubmitStale(1) else if i == 11 then FinishEpoch({1}, {2})
    else if i == 12 then Capture({}) else if i == 13 then Enqueue else if i == 14 then Commit(Ops(k))
    else if i == 15 then SubmitStale(0) else if i == 16 then FinishEpoch({0}, {1})
    else if i == 17 then BeginDeletes else DeleteOne(2)
  }

  // ---------- each step of the run is a step of the machine ----------

  ghost predicate IsStep(n: nat, k: Key, i: nat) {
    i < 19 && Enabled(S(n, k, i), Act(k, i)) && Apply(S(n, k, i), Act(k, i)) == S(n, k, i + 1)
  }

  lemma {:induction false} Folds(n: nat, k: Key)
    ensures IsStep(n, k, 0)
  {
  }

  lemma {:induction false} FoldsAgain(n: nat, k: Key)
    ensures IsStep(n, k, 5)
  {
  }

  lemma {:induction false} Captures(n: nat, k: Key)
    requires n >= 2
    ensures IsStep(n, k, 1)
  {
    assert Apply(S(n, k, 1), Act(k, 1)).planner.todo == map[1 := C1()[1]];
    assert Births3().Keys - {0, 1} == {2};
  }

  lemma {:induction false} CapturesAgain(n: nat, k: Key)
    requires n >= 2
    ensures IsStep(n, k, 7) && IsStep(n, k, 12)
  {
    assert Apply(S(n, k, 7), Act(k, 7)).planner.todo == map[0 := C3(k)[0]];
    assert Apply(S(n, k, 12), Act(k, 12)).planner.todo == map[];
    assert Births3().Keys - {0} == {1, 2};
  }

  lemma {:induction false} Clones(n: nat, k: Key)
    ensures IsStep(n, k, 2) && IsStep(n, k, 6)
  {
  }

  lemma {:induction false} ClonesAgain(n: nat, k: Key)
    ensures IsStep(n, k, 8)
  {
  }

  lemma {:induction false} Enqueues(n: nat, k: Key)
    ensures IsStep(n, k, 3)
  {
  }

  lemma {:induction false} EnqueuesAgain(n: nat, k: Key)
    ensures IsStep(n, k, 9) && IsStep(n, k, 13)
  {
    assert Restored(S(n, k, 9), {}) == {};
    assert Restored(S(n, k, 13), {}) == {};
  }

  lemma {:induction false} OneOp(c: Frames, k: Key, g: Guid)
    requires Locate(c, 0, k, 3) == Some(g) && g in c
    ensures ApplyOps(c, 0, 3, Ops(k)) == Applied(WriteSlot(c, g, k, None), {g})
  {
  }

  lemma {:induction false} Writes(n: nat, k: Key)
    ensures IsStep(n, k, 4)
  {
    assert Locate(C1(), 1, k, 2) == Some(1);
    OneOp(C1(), k, 1);
    assert |Births3()| == 3;
  }

  lemma {:induction false} RootStores(k: Key)
    ensures Locate(C3(k), 0, k, 3) == Some(0)
  {
  }

  lemma {:induction false} WritesAgain(n: nat, k: Key)
    ensures IsStep(n, k, 14)
  {
    RootStores(k);
    OneOp(C3(k), k, 0);
    assert |Births3()| == 3;
    var s := S(n, k, 14);
    assert s.wal + [Ops(k)] == [Ops(k), Ops(k)];
    assert s.dirty + {0} == {0};
    assert Apply(s, Act(k, 14)) == s.(wal := [Ops(k), Ops(k)], cache := C4(k), committed := C4(k), dirty := {0});
  }

  lemma {:induction false} ChildGoesStale(n: nat, k: Key)
    ensures IsStep(n, k, 10)
  {
    var s := S(n, k, 10);
    assert s.epochs[1..] == [E2(k)];
    assert E1().todo - {1} == map[] && E1().failed + {1} == {1};
  }

  lemma {:induction false} RootGoesStale(n: nat, k: Key)
    ensures IsStep(n, k, 15)
  {
    var s := S(n, k, 15);
    assert s.epochs[1..] == [E3()];
    assert E2(k).todo - {0} == map[] && E2(k).failed + {0} == {0};
  }

  /** The stale child is fenced by the second epoch, so restoring it leaves nothing dirty. */
  lemma {:induction false} DropsFencedChild(n: nat, k: Key)
    ensures IsStep(n, k, 11)
  {
    var s := S(n, k, 11);
    assert 1 in s.epochs[1].pend;
    assert Fenced(s.pending, s.planner, s.epochs, 1);
    assert Restored(s, {1}) == {};
    assert s.epochs[1..] == [E2(k)];
  }

  lemma {:induction false} RestoresRoot(n: nat, k: Key)
    ensures IsStep(n, k, 16)
  {
    var s := S(n, k, 16);
    assert s.epochs[1..] == [E3()];
    assert forall i :: 0 <= i < |s.epochs| ==> 0 !in s.epochs[i].pend;
    assert !Fenced(s.pending, s.planner, s.epochs, 0);
    assert Restored(s, {0}) == {0};
  }

  lemma {:induction false} BeginsDeletes(n: nat, k: Key)
    ensures IsStep(n, k, 17)
  {
    assert S(n, k, 17).epochs[1..] == [];
    assert {0, 1, 2} - {1, 2} == {0};
  }

  lemma {:induction false} Deletes(n: nat, k: Key)
    ensures IsStep(n, k, 18)
  {
    var s := S(n, k, 18);
    assert s.epochs[1..] == [] && |s.epochs| == 1;
    assert !s.epochs[0].Flushing(2);
    assert s.epochs[0].pend - {2} == {} && s.epochs[0].applied + {2} == {2};
    assert [] + [Del(2)] == [Del(2)];
  }

  // ---------- the run ----------

  lemma {:induction false} EachIsStep(n: nat, k: Key, i: nat)
    requires n >= 2 && i < 19
    ensures IsStep(n, k, i)
  {
    if i == 0 { Folds(n, k); } else if i == 1 { Captures(n, k); } else if i == 3 { Enqueues(n, k); }
    else if i == 4 { Writes(n, k); } else if i == 5 { FoldsAgain(n, k); } else if i == 10 { ChildGoesStale(n, k); }
    else if i == 11 { DropsFencedChild(n, k); } else if i == 14 { WritesAgain(n, k); }
    else if i == 15 { RootGoesStale(n, k); } else if i == 16 { RestoresRoot(n, k); }
    else if i == 17 { BeginsDeletes(n, k); } else if i == 18 { Deletes(n, k); }
    else { CapturesAgain(n, k); Clones(n, k); ClonesAgain(n, k); EnqueuesAgain(n, k); }
  }

  ghost function Rest(k: Key, i: nat): seq<Event>
    requires i <= 19
    decreases 19 - i
  {
    if i == 19 then [] else [Do(Act(k, i))] + Rest(k, i + 1)
  }

  lemma {:induction false} RunsToTheEnd(n: nat, k: Key, i: nat)
    requires n >= 2 && i <= 19
    ensures CanRun(S(n, k, i), Rest(k, i)) && Run(S(n, k, i), Rest(k, i)) == S(n, k, 19)
    decreases 19 - i
  {
    if i < 19 {
      EachIsStep(n, k, i);
      RunsToTheEnd(n, k, i + 1);
      assert Rest(k, i)[1..] == Rest(k, i + 1);
    }
  }

  lemma {:induction false} StartSlots(g: Guid, k: Key)
    requires g in {0, 1, 2}
    ensures C0()[g].img(k) == if g == 2 then Here(None) else Below(g + 1)
  {
  }

  lemma {:induction false} StartIsTree()
    ensures TreeOk(Births3(), {0, 1, 2}, 0, C0(), (k: Key) => None)
  {
    var births, live, c := Births3(), {0, 1, 2}, C0();
    forall g, k | g in live ensures c[g].img(k) == if g == 2 then Here(None) else Below(g + 1) {
      StartSlots(g, k);
    }
    assert forall g :: g in live ==> births[g].terr == All && births[g].rank == g as real;
    forall g | g in live ensures Shaped(births, live, g, c[g].img) {
      assert forall k :: k in All && c[g].img(k).Below? ==> EdgeOk(births, live, g, c[g].img, k, g + 1);
    }
  }

  lemma {:induction false} StartIsInit(n: nat, k: Key)
    requires n >= 1
    ensures Init(S(n, k, 0))
  {
    StartIsTree();
    assert Chain() == (map g | g in C0() :: C0()[g].img);
  }

  /** Some search on `disk` for `k` ends at a frame that is there. */
  ghost predicate Searchable(s: State, disk: Disk, k: Key) {
    exists v :: Finds(s, Loaded(disk), k, v)
  }

  lemma {:induction false} GrandchildIsMissing(n: nat, k: Key)
    ensures var s, disk := S(n, k, 19), map[0 := To(1), 1 := To(2)];
      Survives(s, 2, disk) && !Searchable(s, disk, k)
  {
    var s := S(n, k, 19);
    var disk: Disk := map[0 := To(1), 1 := To(2)];
    assert s.unsynced[0] == Del(2);
    assert !Sure(s.durable, s.unsynced, 2);
    var c := Loaded(disk);
    assert |Births3()| == 3;
    assert Locate(c, 2, k, 1) == None;
    assert Locate(c, 1, k, 2) == None;
  }

  /** Whatever crashes, reopening finds every key. */
  ghost predicate AlwaysSearchable(bound: nat, userDeletes: bool) {
    forall s0: State, run: seq<Event>, upTo: nat, disk: Disk, k: Key ::
      Init(s0) && s0.bound == bound && s0.userDeletes == userDeletes && CanRun(s0, run)
        && Survives(Run(s0, run), upTo, disk)
      ==> Searchable(Run(s0, run), disk, k)
  }

  /** The exact condition, for every pipeline depth: all crashes leave searchable disks just when
      epochs do not overlap or no deferred user delete is ever queued. */
  lemma {:induction false} SearchableIffDeleteSafe(bound: nat, userDeletes: bool, k: Key)
    requires bound >= 1
    ensures AlwaysSearchable(bound, userDeletes) <==> DeleteSafe(bound, userDeletes)
  {
    if DeleteSafe(bound, userDeletes) {
      forall s0: State, run: seq<Event>, upTo: nat, disk: Disk, x: Key
        | Init(s0) && s0.bound == bound && s0.userDeletes == userDeletes && CanRun(s0, run)
          && Survives(Run(s0, run), upTo, disk)
        ensures Searchable(Run(s0, run), disk, x)
      {
        RunHasInv(s0, run);
        var v := CrashFinds(Run(s0, run), upTo, disk, x);
      }
    } else {
      StartIsInit(bound, k);
      RunsToTheEnd(bound, k, 0);
      GrandchildIsMissing(bound, k);
    }
  }
}
