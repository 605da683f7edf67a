/** Gates and endpoint locks: every thread takes them in one order, so no wait is cyclic.

    A gate admits many shared holders or one exclusive holder. An exclusive entrant first claims the
    gate's write bit, which already keeps new entrants out, and is admitted once the shared holders
    have left. An endpoint shard is a lock that is only taken exclusively. */
module LockOrder {
  import opened Options

  type Tid(==, !new)

  const TWO64: nat := 0x1_0000_0000_0000_0000

  datatype Lock = Maintenance | Gate(id: nat) | Shard(index: nat) | Commit | JournalTail

  datatype Mode = Shared | Exclusive

  /** The one order: maintenance, tree gates by id, endpoint shards by index, commit gate, journal tail. */
  function Rank(l: Lock): nat {
    match l
    case Maintenance => 0
    case Gate(id) => 1 + id % TWO64
    case Shard(i) => 1 + TWO64 + i % 256
    case Commit => 257 + TWO64
    case JournalTail => 258 + TWO64
  }

  predicate Proper(l: Lock) {
    match l
    case Gate(id) => id < TWO64
    case Shard(i) => i < 256
    case _ => true
  }

  datatype Want = Want(lock: Lock, mode: Mode, claimed: bool)
  datatype Thread = Thread(held: map<Lock, Mode>, want: Option<Want>)
  type Threads = map<Tid, Thread>

  /** The thread owns the lock's write bit: admitted, or claimed and waiting for readers to leave. */
  predicate Writes(t: Thread, l: Lock) {
    (l in t.held && t.held[l].Exclusive?) || (t.want.Some? && t.want.value == Want(l, Exclusive, true))
  }

  /** `u` keeps `t` from going on. */
  predicate Blocks(ts: Threads, u: Tid, t: Tid)
    requires u in ts && t in ts
  {
    t != u && ts[t].want.Some? &&
    var w := ts[t].want.value;
    if w.claimed then w.lock in ts[u].held else Writes(ts[u], w.lock)
  }

  datatype Action =
    | Ask(t: Tid, l: Lock, m: Mode)
    | Claim(t: Tid)
    | Admit(t: Tid)
    | Release(t: Tid, l: Lock)

  ghost predicate Free(ts: Threads, t: Tid)
    requires t in ts
  {
    forall u | u in ts :: !Blocks(ts, u, t)
  }

  ghost predicate Enabled(ts: Threads, a: Action) {
    match a
    case Ask(t, l, m) => t in ts && ts[t].want.None? && Proper(l) && forall h | h in ts[t].held :: Rank(h) < Rank(l)
    case Claim(t) => t in ts && ts[t].want.Some? && ts[t].want.value.mode.Exclusive? && !ts[t].want.value.claimed
      && Free(ts, t)
    case Admit(t) => t in ts && ts[t].want.Some? && (ts[t].want.value.mode.Exclusive? ==> ts[t].want.value.claimed)
      && Free(ts, t)
    case Release(t, l) => t in ts && l in ts[t].held
  }

  ghost function Apply(ts: Threads, a: Action): Threads
    requires Enabled(ts, a)
  {
    match a
    case Ask(t, l, m) => ts[t := ts[t].(want := Some(Want(l, m, false)))]
    case Claim(t) => ts[t := ts[t].(want := Some(ts[t].want.value.(claimed := true)))]
    case Admit(t) => ts[t := Thread(ts[t].held[ts[t].want.value.lock := ts[t].want.value.mode], None)]
    case Release(t, l) => ts[t := ts[t].(held := ts[t].held - {l})]
  }

  // ---------- the invariant ----------

  /** What a thread waits for ranks above everything it holds; only exclusive entrants claim. */
  ghost predicate Ordered(t: Thread) {
    && (forall l | l in t.held :: Proper(l))
    && (t.want.Some? ==> Proper(t.want.value.lock) && (t.want.value.claimed ==> t.want.value.mode.Exclusive?))
    && (t.want.Some? ==> forall l | l in t.held :: Rank(l) < Rank(t.want.value.lock))
  }

  /** Two threads never own the same write bit, and a holder excludes an exclusive holder. */
  ghost predicate Apart(t: Thread, u: Thread) {
    && (forall l | Writes(t, l) :: !Writes(u, l))
    && (forall l | l in t.held && t.held[l].Exclusive? :: l !in u.held)
  }

  ghost predicate Inv(ts: Threads) {
    && (forall t | t in ts :: Ordered(ts[t]))
    && (forall t, u | t in ts && u in ts && t != u :: Apart(ts[t], ts[u]))
  }

  lemma {:induction false} StepKeepsApart(ts: Threads, a: Action, t: Tid, u: Tid)
    requires Inv(ts) && Enabled(ts, a) && t in ts && u in ts && t != u
    ensures Apart(Apply(ts, a)[t], Apply(ts, a)[u])
  {
  }

  lemma {:induction false} StepKeepsInv(ts: Threads, a: Action)
    requires Inv(ts) && Enabled(ts, a)
    ensures Inv(Apply(ts, a))
  {
    var ts' := Apply(ts, a);
    forall t | t in ts' ensures Ordered(ts'[t]) { assert Ordered(ts[t]); }
    forall t, u | t in ts' && u in ts' && t != u ensures Apart(ts'[t], ts'[u]) { StepKeepsApart(ts, a, t, u); }
  }

  ghost predicate CanRun(ts: Threads, run: seq<Action>)
    decreases |run|
  {
    run == [] || (Enabled(ts, run[0]) && CanRun(Apply(ts, run[0]), run[1..]))
  }

  ghost function Run(ts: Threads, run: seq<Action>): Threads
    requires CanRun(ts, run)
    decreases |run|
  {
    if run == [] then ts else Run(Apply(ts, run[0]), run[1..])
  }

  lemma {:induction false} RunKeepsInv(ts: Threads, run: seq<Action>)
    requires Inv(ts) && CanRun(ts, run)
    ensures Inv(Run(ts, run))
    decreases |run|
  {
    if run != [] {
      StepKeepsInv(ts, run[0]);
      RunKeepsInv(Apply(ts, run[0]), run[1..]);
    }
  }

  // ---------- no cyclic wait ----------

  /** How far a waiting thread has come: the rank it waits for, and whether it has claimed it. */
  function Height(t: Thread): nat
    requires t.want.Some?
  {
    2 * Rank(t.want.value.lock) + if t.want.value.claimed then 1 else 0
  }

  /** A thread that blocks another and waits itself is further ahead. */
  lemma {:induction false} BlockerIsAhead(ts: Threads, u: Tid, t: Tid)
    requires Inv(ts) && u in ts && t in ts && Blocks(ts, u, t) && ts[u].want.Some?
    ensures Height(ts[t]) < Height(ts[u])
  {
  }

  /** Each thread of the path is blocked by the next one. */
  ghost predicate WaitPath(ts: Threads, path: seq<Tid>) {
    (forall i | 0 <= i < |path| :: path[i] in ts) && forall i | 0 <= i < |path| - 1 :: Blocks(ts, path[i + 1], path[i])
  }

  lemma {:induction false} PathClimbs(ts: Threads, path: seq<Tid>, n: nat)
    requires Inv(ts) && WaitPath(ts, path) && 0 < n < |path| && ts[path[n]].want.Some?
    ensures ts[path[0]].want.Some? && Height(ts[path[0]]) < Height(ts[path[n]])
    decreases n
  {
    assert Blocks(ts, path[n - 1 + 1], path[n - 1]);
    BlockerIsAhead(ts, path[n], path[n - 1]);
    if n > 1 { PathClimbs(ts, path, n - 1); }
  }

  /** In every state of every run, no thread waits, directly or through others, for itself. */
  lemma {:induction false} NoCyclicWait(ts: Threads, run: seq<Action>, path: seq<Tid>)
    requires Inv(ts) && CanRun(ts, run) && |path| > 1 && WaitPath(Run(ts, run), path)
    ensures path[0] != path[|path| - 1]
  {
    RunKeepsInv(ts, run);
    var s := Run(ts, run);
    if path[0] == path[|path| - 1] {
      assert Blocks(s, path[0 + 1], path[0]);
      PathClimbs(s, path, |path| - 1);
    }
  }

  /** Mutual exclusion: while a thread holds a lock exclusively no other holds it at all. */
  lemma {:induction false} MutualExclusion(ts: Threads, run: seq<Action>, t: Tid, u: Tid, l: Lock)
    requires Inv(ts) && CanRun(ts, run) && t in Run(ts, run) && u in Run(ts, run) && t != u
    requires l in Run(ts, run)[t].held && Run(ts, run)[t].held[l].Exclusive?
    ensures l !in Run(ts, run)[u].held
  {
    RunKeepsInv(ts, run);
    assert Apart(Run(ts, run)[t], Run(ts, run)[u]);
  }

  // ---------- progress ----------

  /** Among waiting threads one is furthest ahead. */
  lemma {:induction false} Furthest(ts: Threads, some: set<Tid>) returns (t: Tid)
    requires some != {} && forall x | x in some :: x in ts && ts[x].want.Some?
    ensures t in some && forall x | x in some :: Height(ts[x]) <= Height(ts[t])
    decreases |some|
  {
    t :| t in some;
    var rest := some - {t};
    assert forall x | x in some :: x == t || x in rest;
    if rest != {} {
      var r := Furthest(ts, rest);
      if Height(ts[t]) < Height(ts[r]) { t := r; }
    }
  }

  /** As long as there are threads, one of them is not waiting or can take its next step. */
  lemma {:induction false} SomeoneRuns(ts: Threads) returns (t: Tid)
    requires Inv(ts) && ts != map[]
    ensures t in ts && (ts[t].want.None? || Enabled(ts, Claim(t)) || Enabled(ts, Admit(t)))
  {
    if exists x :: x in ts && ts[x].want.None? {
      t :| t in ts && ts[t].want.None?;
    } else {
      t := Furthest(ts, ts.Keys);
      forall u | u in ts ensures !Blocks(ts, u, t) {
        if Blocks(ts, u, t) { BlockerIsAhead(ts, u, t); }
      }
    }
  }

  // ---------- the orders that the code asks in ----------

  ghost predicate Ascending(ls: seq<Lock>) {
    (forall i | 0 <= i < |ls| :: Proper(ls[i])) && forall i, j | 0 <= i < j < |ls| :: Rank(ls[i]) < Rank(ls[j])
  }

  /** A rename locks the shards of its two keys in index order, and one shard only once. */
  function PairLocks(src: nat, dst: nat): (ls: seq<Lock>)
    requires src < 256 && dst < 256
    ensures Ascending(ls) && Shard(src) in ls && Shard(dst) in ls && (src == dst ==> |ls| == 1)
  {
    if src == dst then [Shard(src)] else if src < dst then [Shard(src), Shard(dst)] else [Shard(dst), Shard(src)]
  }

  ghost predicate AscendingIds(ids: seq<nat>) { forall i, j | 0 <= i < j < |ids| :: ids[i] < ids[j] }

  /** The touched trees' ids, sorted and without repetition. */
  method GateOrder(ids: seq<nat>) returns (order: seq<nat>)
    ensures AscendingIds(order) && forall x :: x in order <==> x in ids
  {
    order := [];
    for i := 0 to |ids|
      invariant AscendingIds(order) && forall x :: x in order <==> x in ids[..i]
    {
      var at := 0;
      while at < |order| && order[at] < ids[i]
        invariant at <= |order| && forall j | 0 <= j < at :: order[j] < ids[i]
      {
        at := at + 1;
      }
      assert ids[..i + 1] == ids[..i] + [ids[i]];
      if at == |order| || order[at] != ids[i] {
        ghost var was := order;
        order := order[..at] + [ids[i]] + order[at..];
        assert forall x :: x in order <==> x in was || x == ids[i];
      } else {
        assert ids[i] == order[at];
      }
    }
    assert ids[..|ids|] == ids;
  }

  /** A batch over several trees asks for maintenance, the gates in order, the commit gate and the tail. */
  function BatchLocks(order: seq<nat>): seq<Lock> {
    [Maintenance] + seq(|order|, i requires 0 <= i < |order| => Gate(order[i])) + [Commit, JournalTail]
  }

  lemma {:induction false} BatchLocksAscend(order: seq<nat>)
    requires AscendingIds(order) && forall i | 0 <= i < |order| :: order[i] < TWO64
    ensures Ascending(BatchLocks(order))
  {
  }

  /** A write of one key, as the other batches on its tree see it. */
  function WriteLocks(tree: nat, shard: nat): (ls: seq<Lock>)
    requires tree < TWO64 && shard < 256
    ensures Ascending(ls) && Gate(tree) in ls && Shard(shard) in ls && Commit in ls
  {
    [Maintenance, Gate(tree), Shard(shard), Commit]
  }

  /** A rename locks both endpoints between its tree's gate and the commit gate. */
  function RenameLocks(tree: nat, src: nat, dst: nat): seq<Lock>
    requires src < 256 && dst < 256
  {
    [Maintenance, Gate(tree)] + PairLocks(src, dst) + [Commit]
  }

  lemma {:induction false} RenameLocksAscend(tree: nat, src: nat, dst: nat)
    requires tree < TWO64 && src < 256 && dst < 256
    ensures var ls := RenameLocks(tree, src, dst); Ascending(ls) && Shard(src) in ls && Shard(dst) in ls
  {
    var ls, pair := RenameLocks(tree, src, dst), PairLocks(src, dst);
    assert ls == if |pair| == 1 then [Maintenance, Gate(tree), pair[0], Commit]
                 else [Maintenance, Gate(tree), pair[0], pair[1], Commit];
  }

  /** The planner captures and truncates under the maintenance gate and the commit gate, and at a clean
      frontier also moves the stream's tail. */
  function PlannerLocks(): (ls: seq<Lock>)
    ensures Ascending(ls)
  {
    [Maintenance, Commit, JournalTail]
  }

  /** A thread that follows an ascending list may always ask for the next lock, whatever it has released
      on the way: every thread of the code takes the steps of this machine. */
  lemma {:induction false} NextLockMayBeAsked(ts: Threads, t: Tid, ls: seq<Lock>, i: nat, m: Mode)
    requires Ascending(ls) && i < |ls| && t in ts && ts[t].want.None?
    requires forall l | l in ts[t].held :: l in ls[..i]
    ensures Enabled(ts, Ask(t, ls[i], m))
  {
    forall h | h in ts[t].held ensures Rank(h) < Rank(ls[i]) {
      var j :| 0 <= j < i && ls[j] == h;
    }
  }
}
