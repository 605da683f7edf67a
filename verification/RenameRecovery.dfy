/** Renames and crashes. Logs of puts and deletes always recover; this module settles which renames
    do, on runs of the checkpoint machine, by replaying the logical records over the crashed disk. */
module RenameRecovery {
  import opened Options
  import opened WalHistory
  import opened FrameTree
  import opened CheckpointMachine
  import opened CheckpointInvariant
  import opened CrashRecovery
  import opened CheckpointRuns
  import opened LogicalReplay

  /** What a search on the crashed disk finds, before replay. */
  ghost function OnDisk(s: State, disk: Disk): Content {
    (k: Key) =>
      var hit := Locate(Loaded(disk), s.root, k, |s.births|);
      if hit.Some? && hit.value in disk && disk[hit.value](k).Here? then disk[hit.value](k).val else None
  }

  /** Replaying the retained records over what `disk` holds gives `k` its record after the log. */
  ghost predicate Recovers(s: State, recs: seq<seq<Record>>, upTo: nat, disk: Disk, k: Key) {
    s.trunc <= upTo <= |s.wal| && upTo <= |recs|
    && ReplayFrom(OnDisk(s, disk), recs, s.trunc, upTo)(k) == ValueAt(s.base, s.wal, upTo, k)
  }

  /** A crash of `s` whose retained log is `recs` and keeps to policy `p`. */
  ghost predicate CrashUnder(p: Policy, s: State, recs: seq<seq<Record>>, upTo: nat, disk: Disk) {
    && Survives(s, upTo, disk) && s.trunc <= upTo && Logs(s.base, s.wal, recs)
    && Obeys(p, s.base, s.wal, recs, s.trunc, upTo)
  }

  /** Every crash of every run recovers, as long as logged renames keep to policy `p`. */
  ghost predicate AlwaysRecovers(bound: nat, p: Policy) {
    forall s0: State, run: seq<Event>, recs: seq<seq<Record>>, upTo: nat, disk: Disk, k: Key ::
      Init(s0) && s0.bound == bound && !s0.userDeletes && CanRun(s0, run)
        && CrashUnder(p, Run(s0, run), recs, upTo, disk)
      ==> Recovers(Run(s0, run), recs, upTo, disk, k)
  }

  lemma {:induction false} StrictRecovers(s0: State, run: seq<Event>, recs: seq<seq<Record>>, upTo: nat, disk: Disk,
                                          k: Key)
    requires Init(s0) && DeleteSafe(s0.bound, s0.userDeletes) && CanRun(s0, run)
    requires CrashUnder(STRICT, Run(s0, run), recs, upTo, disk)
    ensures Recovers(Run(s0, run), recs, upTo, disk, k)
  {
    var s := Run(s0, run);
    RunHasInv(s0, run);
    var v := CrashFinds(s, upTo, disk, k);
    assert v == OnDisk(s, disk)(k);
    StrictLogsConverge(s.base, s.wal, recs, OnDisk(s, disk), s.trunc, s.flushed, upTo, k);
  }

  // ---------- a store with one key in a child frame ----------

  ghost const All: iset<Key> := iset k: Key | true

  ghost function Births2(a: Key): Births { map[0 := Birth(All, 0.0), 1 := Birth(iset{a}, 1.0)] }

  function RootImg(a: Key): Image { (k: Key) => if k == a then Below(1) else Here(None) }
  function LeafImg(va: Option<Value>): Image { (k: Key) => Here(va) }
  function Base(a: Key, va: Option<Value>): Content { (k: Key) => if k == a then va else None }

  function C0(a: Key, va: Option<Value>): Frames { map[0 := Frame(RootImg(a), 0), 1 := Frame(LeafImg(va), 0)] }
  function D0(a: Key, va: Option<Value>): Disk { map[0 := RootImg(a), 1 := LeafImg(va)] }

  ghost function St(n: nat, a: Key, va: Option<Value>, wal: seq<Batch>, flushed: nat, c: Frames, dirty: set<Guid>,
                    planner: Planner, epochs: seq<Epoch>, unsynced: seq<StoreOp>): State {
    State(n, false, 0, Base(a, va), wal, 0, flushed, false, Births2(a), {0, 1}, c, c,
          dirty, {}, planner, epochs, D0(a, va), unsynced, {0, 1}, {})
  }

  function Ep(todo: Frames, wave: Frames): Epoch { Epoch(1, todo, wave, map[], {}, {}, {}, false, {}) }

  /** One batch is committed, checkpointed, and its two images are handed to the store. */
  ghost function S(n: nat, a: Key, va: Option<Value>, b: Batch, c: Frames, i: nat): State
    requires c.Keys == {0, 1} && i <= 8
  {
    var c0, w := C0(a, va), [b];
    var f0, f1, all := map[0 := c[0]], map[1 := c[1]], map[0 := c[0], 1 := c[1]];
    if i == 0 then St(n, a, va, [], 0, c0, {}, Idle, [], [])
    else if i == 1 then St(n, a, va, w, 0, c, {0, 1}, Idle, [], [])
    else if i == 2 then St(n, a, va, w, 1, c, {0, 1}, Idle, [], [])
    else if i == 3 then St(n, a, va, w, 1, c, {}, Round(1, all, map[], {}, {}, {}), [], [])
    else if i == 4 then St(n, a, va, w, 1, c, {}, Round(1, f0, f1, {}, {}, {}), [], [])
    else if i == 5 then St(n, a, va, w, 1, c, {}, Round(1, map[], all, {}, {}, {}), [], [])
    else if i == 6 then St(n, a, va, w, 1, c, {}, Idle, [Ep(all, map[])], [])
    else if i == 7 then St(n, a, va, w, 1, c, {}, Idle, [Ep(f0, f1)], [Put(1, c[1].img)])
    else St(n, a, va, w, 1, c, {}, Idle, [Ep(map[], all)], [Put(1, c[1].img), Put(0, c[0].img)])
  }

  function Act(b: Batch, i: nat): Action
    requires i < 8
  {
    if i == 0 then Commit(b) else if i == 1 then FlushWal(1) else if i == 2 then Capture({})
    else if i == 3 then CloneOne(1) else if i == 4 then CloneOne(0) else if i == 5 then Enqueue
    else if i == 6 then Submit(1) else Submit(0)
  }

  ghost predicate IsStep(n: nat, a: Key, va: Option<Value>, b: Batch, c: Frames, i: nat) {
    c.Keys == {0, 1} && i < 8
    && Enabled(S(n, a, va, b, c, i), Act(b, i)) && Apply(S(n, a, va, b, c, i), Act(b, i)) == S(n, a, va, b, c, i + 1)
  }

  /** The batch writes both frames and leaves frames `c`. */
  ghost predicate Commits(a: Key, va: Option<Value>, b: Batch, c: Frames) {
    && c.Keys == {0, 1} && ApplyOps(C0(a, va), 0, 2, b) == Applied(c, {0, 1})
    && forall k :: c[0].img(k).Below? ==> c[0].img(k).child == 1
  }

  lemma {:induction false} CommitsAndFlushes(n: nat, a: Key, va: Option<Value>, b: Batch, c: Frames)
    requires Commits(a, va, b, c)
    ensures IsStep(n, a, va, b, c, 0) && IsStep(n, a, va, b, c, 1)
  {
    assert |Births2(a)| == 2;
    assert [] + [b] == [b];
  }

  lemma {:induction false} Captures(n: nat, a: Key, va: Option<Value>, b: Batch, c: Frames)
    requires n >= 1 && c.Keys == {0, 1}
    ensures IsStep(n, a, va, b, c, 2)
  {
    assert Apply(S(n, a, va, b, c, 2), Act(b, 2)).planner.todo == map[0 := c[0], 1 := c[1]];
    assert Births2(a).Keys - {0, 1} == {};
  }

  lemma {:induction false} Clones(n: nat, a: Key, va: Option<Value>, b: Batch, c: Frames)
    requires c.Keys == {0, 1}
    ensures IsStep(n, a, va, b, c, 3) && IsStep(n, a, va, b, c, 4)
  {
    assert map[0 := c[0], 1 := c[1]] - {1} == map[0 := c[0]];
    assert map[0 := c[0]] - {0} == map[];
    assert map[1 := c[1]][0 := c[0]] == map[0 := c[0], 1 := c[1]];
  }

  lemma {:induction false} Enqueues(n: nat, a: Key, va: Option<Value>, b: Batch, c: Frames)
    requires c.Keys == {0, 1}
    ensures IsStep(n, a, va, b, c, 5)
  {
  }

  lemma {:induction false} SubmitsChild(n: nat, a: Key, va: Option<Value>, b: Batch, c: Frames)
    requires Commits(a, va, b, c) && c[1].img(a).Here?
    ensures IsStep(n, a, va, b, c, 6)
  {
    var s := S(n, a, va, b, c, 6);
    assert s.epochs[1..] == [];
    assert map[0 := c[0], 1 := c[1]] - {1} == map[0 := c[0]];
    assert ChildrenSure(s.births, s.durable, s.unsynced, 1, c[1].img);
  }

  lemma {:induction false} SubmitsRoot(n: nat, a: Key, va: Option<Value>, b: Batch, c: Frames)
    requires Commits(a, va, b, c)
    ensures IsStep(n, a, va, b, c, 7)
  {
    var s := S(n, a, va, b, c, 7);
    assert s.epochs[1..] == [];
    assert map[0 := c[0]] - {0} == map[];
    assert map[1 := c[1]][0 := c[0]] == map[0 := c[0], 1 := c[1]];
    assert Sure(s.durable, s.unsynced, 1);
    assert ChildrenSure(s.births, s.durable, s.unsynced, 0, c[0].img);
  }

  ghost function Rest(b: Batch, i: nat): seq<Event>
    requires i <= 8
    decreases 8 - i
  {
    if i == 8 then [] else [Do(Act(b, i))] + Rest(b, i + 1)
  }

  lemma {:induction false} RunsToTheEnd(n: nat, a: Key, va: Option<Value>, b: Batch, c: Frames, i: nat)
    requires n >= 1 && Commits(a, va, b, c) && c[1].img(a).Here? && i <= 8
    ensures CanRun(S(n, a, va, b, c, i), Rest(b, i)) && Run(S(n, a, va, b, c, i), Rest(b, i)) == S(n, a, va, b, c, 8)
    decreases 8 - i
  {
    if i < 8 {
      if i < 2 { CommitsAndFlushes(n, a, va, b, c); } else if i == 2 { Captures(n, a, va, b, c); }
      else if i < 5 { Clones(n, a, va, b, c); } else if i == 5 { Enqueues(n, a, va, b, c); }
      else if i == 6 { SubmitsChild(n, a, va, b, c); } else { SubmitsRoot(n, a, va, b, c); }
      RunsToTheEnd(n, a, va, b, c, i + 1);
      assert Rest(b, i)[1..] == Rest(b, i + 1);
    }
  }

  lemma {:induction false} StartIsTree(a: Key, va: Option<Value>)
    ensures TreeOk(Births2(a), {0, 1}, 0, C0(a, va), Base(a, va))
  {
  }

  lemma {:induction false} StartIsInit(n: nat, a: Key, va: Option<Value>, b: Batch, c: Frames)
    requires n >= 1 && c.Keys == {0, 1}
    ensures Init(S(n, a, va, b, c, 0))
  {
    StartIsTree(a, va);
    assert D0(a, va) == (map g | g in C0(a, va) :: C0(a, va)[g].img);
  }

  // ---------- the two ways a rename is lost ----------

  function Moved(a: Key, b: Key, v: Value): Batch { [Op(a, None), Op(b, Some(v))] }
  function PutAndMoved(a: Key, b: Key, v: Value): Batch { [Op(a, Some(v)), Op(a, None), Op(b, Some(v))] }

  function C1(a: Key, b: Key, v: Value): Frames { WriteSlot(WriteSlot(C0(a, Some(v)), 1, a, None), 0, b, Some(v)) }
  function C2(a: Key, b: Key, v: Value): Frames {
    WriteSlot(WriteSlot(WriteSlot(C0(a, None), 1, a, Some(v)), 1, a, None), 0, b, Some(v))
  }

  lemma {:induction false} OneMore(c: Frames, ops: Batch, r: Applied, op: Op, g: Guid)
    requires ApplyOps(c, 0, 2, ops) == r && Locate(r.frames, 0, op.key, 2) == Some(g) && g in r.frames
    ensures ApplyOps(c, 0, 2, ops + [op]) == Applied(WriteSlot(r.frames, g, op.key, op.val), r.touched + {g})
  {
  }

  /** Moving the key out of the child frame and into the root writes both. */
  lemma {:induction false} MoveCommits(a: Key, b: Key, v: Value)
    requires a != b
    ensures Commits(a, Some(v), Moved(a, b, v), C1(a, b, v))
    ensures C1(a, b, v)[1].img(a) == Here(None) && C1(a, b, v)[0].img(a) == Below(1)
      && C1(a, b, v)[0].img(b) == Here(Some(v))
  {
    var c := C0(a, Some(v));
    var d := WriteSlot(c, 1, a, None);
    assert c[0].img(a) == Below(1) && d[0].img(b) == Here(None);
    assert Locate(c, 1, a, 1) == Some(1);
    OneMore(c, [], Applied(c, {}), Op(a, None), 1);
    OneMore(c, [] + [Op(a, None)], Applied(d, {} + {1}), Op(b, Some(v)), 0);
    assert [] + [Op(a, None)] + [Op(b, Some(v))] == Moved(a, b, v);
    assert {} + {1} + {0} == {0, 1};
  }

  lemma {:induction false} PutAndMoveCommits(a: Key, b: Key, v: Value)
    requires a != b
    ensures Commits(a, None, PutAndMoved(a, b, v), C2(a, b, v))
    ensures C2(a, b, v)[1].img(a) == Here(None) && C2(a, b, v)[0].img(a) == Below(1)
      && C2(a, b, v)[0].img(b) == Here(Some(v))
  {
    var c := C0(a, None);
    var d := WriteSlot(c, 1, a, Some(v));
    var e := WriteSlot(d, 1, a, None);
    assert c[0].img(a) == Below(1) && e[0].img(b) == Here(None);
    assert Locate(c, 1, a, 1) == Some(1) && Locate(d, 1, a, 1) == Some(1);
    OneMore(c, [], Applied(c, {}), Op(a, Some(v)), 1);
    OneMore(c, [] + [Op(a, Some(v))], Applied(d, {} + {1}), Op(a, None), 1);
    OneMore(c, [] + [Op(a, Some(v))] + [Op(a, None)], Applied(e, {} + {1} + {1}), Op(b, Some(v)), 0);
    assert [] + [Op(a, Some(v))] + [Op(a, None)] + [Op(b, Some(v))] == PutAndMoved(a, b, v);
    assert {} + {1} + {1} + {0} == {0, 1};
  }

  ghost predicate FailsAtEnd(n: nat, p: Policy, a: Key, va: Option<Value>, b: Batch, c: Frames, rs: seq<Record>,
                             disk: Disk, k: Key)
    requires c.Keys == {0, 1}
  {
    var s := S(n, a, va, b, c, 8);
    CrashUnder(p, s, [rs], 1, disk) && !Recovers(s, [rs], 1, disk, k)
  }

  lemma {:induction false} EitherImageSurvives(n: nat, a: Key, va: Option<Value>, b: Batch, c: Frames, disk: Disk)
    requires c.Keys == {0, 1} && disk.Keys == {0, 1} && disk[1] == c[1].img
    requires disk[0] == RootImg(a) || disk[0] == c[0].img
    ensures Survives(S(n, a, va, b, c, 8), 1, disk)
  {
    var s := S(n, a, va, b, c, 8);
    assert s.unsynced[0] == Put(1, c[1].img) && s.unsynced[1] == Put(0, c[0].img);
  }

  lemma {:induction false} DiskHolds(s: State, disk: Disk, k: Key)
    requires s.root == 0 && |s.births| == 2 && disk.Keys == {0, 1}
    ensures disk[0](k).Here? ==> OnDisk(s, disk)(k) == disk[0](k).val
    ensures disk[0](k) == Below(1) && disk[1](k).Here? ==> OnDisk(s, disk)(k) == disk[1](k).val
  {
  }

  /** Replaying a rename whose source is gone moves nothing. */
  lemma {:induction false} StaleRename(p: Policy, a: Key, b: Key, v: Value, force: bool, d: Content)
    requires a != b && p.Permits(force, false) && d(a) == None && d(b) == None
    ensures var base, wal, recs := Base(a, Some(v)), [Moved(a, b, v)], [[RenameObject(a, b, force)]];
      && Logs(base, wal, recs) && Obeys(p, base, wal, recs, 0, 1)
      && ReplayFrom(d, recs, 0, 1)(b) == None && ValueAt(base, wal, 1, b) == Some(v)
  {
    var base, wal, rs := Base(a, Some(v)), [Moved(a, b, v)], [RenameObject(a, b, force)];
    var t := ContentAt(base, wal, 0);
    assert rs[..0] == [] && t(a) == Some(v) && t(b) == None;
    assert Effects(t, rs) == [] + Effect(t, rs[0]) == Moved(a, b, v);
    assert a !in WrittenIn(wal, 0, 0) + Written(Effects(t, rs[..0]));
    assert ReplayFrom(d, [rs], 0, 0) == d;
    assert RedoAll(d, rs) == Redo(d, rs[0]);
    assert Moved(a, b, v)[1] == Op(b, Some(v));
  }

  /** Replaying a put and a plain rename whose destination is taken moves nothing either. */
  lemma {:induction false} SkippedRename(p: Policy, a: Key, b: Key, v: Value, d: Content)
    requires a != b && p.Permits(false, true) && d(b) == Some(v)
    ensures var base, wal, recs := Base(a, None), [PutAndMoved(a, b, v)], [[Insert(a, v), RenameObject(a, b, false)]];
      && Logs(base, wal, recs) && Obeys(p, base, wal, recs, 0, 1)
      && ReplayFrom(d, recs, 0, 1)(a) == Some(v) && ValueAt(base, wal, 1, a) == None
  {
    var base, wal, rs := Base(a, None), [PutAndMoved(a, b, v)], [Insert(a, v), RenameObject(a, b, false)];
    var t := ContentAt(base, wal, 0);
    assert t(b) == None;
    PutThenRename(t, a, b, v);
    PutThenRename(d, a, b, v);
    assert rs[..1] == [Insert(a, v)] && Effects(t, rs[..1])[0].key == a;
    assert Allowed(p, rs[1], WrittenIn(wal, 0, 0) + Written(Effects(t, rs[..1])));
    assert BatchObeys(p, t, WrittenIn(wal, 0, 0), rs);
    assert ReplayFrom(d, [rs], 0, 0) == d;
    var m := PutAndMoved(a, b, v);
    assert m[..2][1] == Op(a, None);
    assert KeyAfter(None, m, a) == None;
  }

  lemma {:induction false} RedoInsert(c: Content, a: Key, v: Value, k: Key)
    ensures Redo(c, Insert(a, v))(k) == if k == a then Some(v) else c(k)
  {
    assert KeyAfter(c(k), [Op(a, Some(v))][..0], k) == c(k);
  }

  lemma {:induction false} PutThenRename(c: Content, a: Key, b: Key, v: Value)
    requires a != b
    ensures Effects(c, [Insert(a, v)]) == [Op(a, Some(v))]
    ensures var rs := [Insert(a, v), RenameObject(a, b, false)];
      && (c(b).None? ==> Effects(c, rs) == PutAndMoved(a, b, v))
      && (c(b).Some? ==> RedoAll(c, rs)(a) == Some(v))
  {
    var rs, one := [Insert(a, v), RenameObject(a, b, false)], [Insert(a, v)];
    assert rs[..1] == one && one[..0] == [];
    assert RedoAll(c, one) == Redo(c, one[0]);
    RedoInsert(c, a, v, a);
    RedoInsert(c, a, v, b);
    assert Effects(c, one) == [Op(a, Some(v))];
  }

  /** The source was checkpointed away before the rename: its frame reaches the disk, the frame of
      the destination does not, and replay finds no source to move. */
  lemma {:induction false} StaleRenameIsLost(n: nat, p: Policy, a: Key, b: Key, v: Value, force: bool)
    requires a != b && p.Permits(force, false)
    ensures FailsAtEnd(n, p, a, Some(v), Moved(a, b, v), C1(a, b, v), [RenameObject(a, b, force)],
                       map[0 := RootImg(a), 1 := C1(a, b, v)[1].img], b)
  {
    MoveCommits(a, b, v);
    var c, disk := C1(a, b, v), map[0 := RootImg(a), 1 := C1(a, b, v)[1].img];
    var s := S(n, a, Some(v), Moved(a, b, v), c, 8);
    EitherImageSurvives(n, a, Some(v), Moved(a, b, v), c, disk);
    assert |Births2(a)| == 2;
    DiskHolds(s, disk, a);
    DiskHolds(s, disk, b);
    StaleRename(p, a, b, v, force, OnDisk(s, disk));
  }

  /** Source and destination are both on disk, as the rename left them. Replay puts the source
      back, and the rename finds its destination taken. */
  lemma {:induction false} PlainRenameIsSkipped(n: nat, p: Policy, a: Key, b: Key, v: Value)
    requires a != b && p.Permits(false, true)
    ensures FailsAtEnd(n, p, a, None, PutAndMoved(a, b, v), C2(a, b, v), [Insert(a, v), RenameObject(a, b, false)],
                       map[0 := C2(a, b, v)[0].img, 1 := C2(a, b, v)[1].img], a)
  {
    PutAndMoveCommits(a, b, v);
    var c, disk := C2(a, b, v), map[0 := C2(a, b, v)[0].img, 1 := C2(a, b, v)[1].img];
    var s := S(n, a, None, PutAndMoved(a, b, v), c, 8);
    EitherImageSurvives(n, a, None, PutAndMoved(a, b, v), c, disk);
    assert |Births2(a)| == 2;
    DiskHolds(s, disk, b);
    SkippedRename(p, a, b, v, OnDisk(s, disk));
  }

  lemma {:induction false} NotAlways(bound: nat, p: Policy, a: Key, va: Option<Value>, b: Batch, c: Frames,
                                     rs: seq<Record>, disk: Disk, k: Key)
    requires bound >= 1 && Commits(a, va, b, c) && c[1].img(a).Here?
    requires FailsAtEnd(bound, p, a, va, b, c, rs, disk, k)
    ensures !AlwaysRecovers(bound, p)
  {
    StartIsInit(bound, a, va, b, c);
    RunsToTheEnd(bound, a, va, b, c, 0);
  }

  lemma {:induction false} PlainFreshFails(bound: nat, p: Policy, a: Key, b: Key, v: Value)
    requires bound >= 1 && a != b && p.plainFresh
    ensures !AlwaysRecovers(bound, p)
  {
    PutAndMoveCommits(a, b, v);
    PlainRenameIsSkipped(bound, p, a, b, v);
    NotAlways(bound, p, a, None, PutAndMoved(a, b, v), C2(a, b, v), [Insert(a, v), RenameObject(a, b, false)],
              map[0 := C2(a, b, v)[0].img, 1 := C2(a, b, v)[1].img], a);
  }

  lemma {:induction false} StaleFails(bound: nat, p: Policy, a: Key, b: Key, v: Value, force: bool)
    requires bound >= 1 && a != b && p.Permits(force, false)
    ensures !AlwaysRecovers(bound, p)
  {
    MoveCommits(a, b, v);
    StaleRenameIsLost(bound, p, a, b, v, force);
    NotAlways(bound, p, a, Some(v), Moved(a, b, v), C1(a, b, v), [RenameObject(a, b, force)],
              map[0 := RootImg(a), 1 := C1(a, b, v)[1].img], b);
  }

  lemma {:induction false} StrictAlwaysRecovers(bound: nat)
    requires bound >= 1
    ensures AlwaysRecovers(bound, STRICT)
  {
    forall s0: State, run: seq<Event>, recs: seq<seq<Record>>, upTo: nat, disk: Disk, k: Key
      | Init(s0) && s0.bound == bound && !s0.userDeletes && CanRun(s0, run)
        && CrashUnder(STRICT, Run(s0, run), recs, upTo, disk)
      ensures Recovers(Run(s0, run), recs, upTo, disk, k)
    {
      StrictRecovers(s0, run, recs, upTo, disk, k);
    }
  }

  /** The exact condition, for every pipeline depth: every crash of every run recovers just when no
      rename is logged other than a forced one whose source was written since truncation. */
  lemma {:induction false} RecoversIffStrict(bound: nat, p: Policy, a: Key, b: Key, v: Value)
    requires bound >= 1 && a != b
    ensures AlwaysRecovers(bound, p) <==> p == STRICT
  {
    if p == STRICT { StrictAlwaysRecovers(bound); }
    else if p.plainFresh { PlainFreshFails(bound, p, a, b, v); }
    else { StaleFails(bound, p, a, b, v, p.forcedStale); }
  }
}
