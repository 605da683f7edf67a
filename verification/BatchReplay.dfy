/** The log record of a batch and its replay. Replay has its own rules: guards were resolved when the
    batch committed, a rename whose source is gone or whose destination is in the way is skipped, and
    a rename of a key to itself, which changed nothing when it committed, writes the key again. */
module BatchReplay {
  import opened BatchSemantics

  datatype LogOp =
    | Store(key: Bytes, value: Bytes)
    | Erase(key: Bytes)
    | Move(src: Bytes, dst: Bytes, force: bool)

  // ---------- the record ----------

  /** What the log keeps of an operation: assertions leave nothing. */
  function LogOf(op: BatchOp): seq<LogOp> {
    match op
    case Put(k, v) => [Store(k, v)]
    case PutIfAbsent(k, v) => [Store(k, v)]
    case CompareAndPut(k, _, v) => [Store(k, v)]
    case Delete(k) => [Erase(k)]
    case DeleteIfVersion(k, _) => [Erase(k)]
    case Rename(src, dst, force) => [Move(src, dst, force)]
    case _ => []
  }

  function LoggedTo(ops: seq<BatchOp>, n: nat): seq<LogOp>
    requires n <= |ops|
  {
    if n == 0 then [] else LoggedTo(ops, n - 1) + LogOf(ops[n - 1])
  }

  function Logged(ops: seq<BatchOp>): seq<LogOp> { LoggedTo(ops, |ops|) }

  /** The record has one inner operation for each sequence number of the batch. */
  lemma {:induction false} LoggedCount(ops: seq<BatchOp>, n: nat)
    requires n <= |ops|
    ensures |LoggedTo(ops, n)| == CountTo(ops, n)
  {
    if n > 0 { LoggedCount(ops, n - 1); }
  }

  // ---------- replay ----------

  function ReplayStep(t: Tree, l: LogOp, seqNo: nat): Tree {
    match l
    case Store(key, value) => Insert(t, key, value, seqNo)
    case Erase(key) => t - {key}
    case Move(src, dst, force) =>
      if src !in t || (!force && dst in t) then t else Insert(t - {src}, dst, t[src].value, seqNo)
  }

  /** The first `n` inner operations; each takes its sequence number from its index. */
  function ReplayTo(t: Tree, log: seq<LogOp>, base: nat, n: nat): Tree
    requires n <= |log|
  {
    if n == 0 then t else ReplayStep(ReplayTo(t, log, base, n - 1), log[n - 1], base + n - 1)
  }

  function Replay(t: Tree, log: seq<LogOp>, base: nat): Tree { ReplayTo(t, log, base, |log|) }

  lemma {:induction false} ReplayPrefix(t: Tree, log: seq<LogOp>, log': seq<LogOp>, base: nat, n: nat)
    requires n <= |log| && n <= |log'| && forall i | 0 <= i < n :: log[i] == log'[i]
    ensures ReplayTo(t, log, base, n) == ReplayTo(t, log', base, n)
  {
    if n > 0 { ReplayPrefix(t, log, log', base, n - 1); }
  }

  /** One operation's part of a record. */
  function ReplayOp(t: Tree, op: BatchOp, seqNo: nat): Tree {
    if LogOf(op) == [] then t else ReplayStep(t, LogOf(op)[0], seqNo)
  }

  lemma {:induction false} ReplayNext(t: Tree, ops: seq<BatchOp>, base: nat, n: nat)
    requires n < |ops|
    ensures Replay(t, LoggedTo(ops, n + 1), base) == ReplayOp(Replay(t, LoggedTo(ops, n), base), ops[n],
      base + CountTo(ops, n))
  {
    var log, next := LoggedTo(ops, n), LoggedTo(ops, n + 1);
    LoggedCount(ops, n);
    ReplayPrefix(t, log, next, base, |log|);
    if LogOf(ops[n]) == [] { assert next == log; }
  }

  // ---------- values ----------

  ghost predicate SameValues(u: Tree, w: Tree) { u.Keys == w.Keys && forall k | k in u :: u[k].value == w[k].value }

  lemma {:induction false} StepKeepsValues(u: Tree, w: Tree, op: BatchOp, s: nat, s': nat)
    requires SameValues(u, w) && Step(u, op, s).Ok?
    ensures SameValues(Step(u, op, s).value, ReplayOp(w, op, s'))
  {
  }

  /** After `n` operations, if they run, replay has the values that the batch has. */
  ghost predicate ValuesAt(t: Tree, w: Tree, ops: seq<BatchOp>, base: nat, base': nat, n: nat)
    requires n <= |ops|
  {
    var o := RunTo(t, ops, base, n);
    o.Ok? ==> SameValues(o.value, Replay(w, LoggedTo(ops, n), base'))
  }

  lemma {:induction false} ValuesNext(t: Tree, w: Tree, ops: seq<BatchOp>, base: nat, base': nat, i: nat)
    requires i < |ops| && ValuesAt(t, w, ops, base, base', i)
    ensures ValuesAt(t, w, ops, base, base', i + 1)
  {
    if RunTo(t, ops, base, i).Ok? {
      var u, v := RunTo(t, ops, base, i).value, Replay(w, LoggedTo(ops, i), base');
      var s, s' := base + CountTo(ops, i), base' + CountTo(ops, i);
      assert RunTo(t, ops, base, i + 1) == Step(u, ops[i], s) by { RunNext(t, ops, base, i, u); }
      assert Replay(w, LoggedTo(ops, i + 1), base') == ReplayOp(v, ops[i], s') by { ReplayNext(w, ops, base', i); }
      if Step(u, ops[i], s).Ok? { StepKeepsValues(u, v, ops[i], s, s'); }
    }
  }

  lemma {:induction false} ReplayTracksValues(t: Tree, w: Tree, ops: seq<BatchOp>, base: nat, base': nat, n: nat)
    requires n <= |ops| && SameValues(t, w)
    ensures ValuesAt(t, w, ops, base, base', n)
  {
    if n > 0 {
      ReplayTracksValues(t, w, ops, base, base', n - 1);
      ValuesNext(t, w, ops, base, base', n - 1);
    }
  }

  /** Replaying the record of any accepted batch, over any tree with the contents that the batch ran
      on, rebuilds the contents that the batch left. */
  lemma {:induction false} ReplayRebuildsValues(t: Tree, w: Tree, ops: seq<BatchOp>, base: nat, base': nat)
    requires Run(t, ops, base).Ok? && Values(t) == Values(w)
    ensures Values(Replay(w, Logged(ops), base')) == Values(Run(t, ops, base).value)
  {
    assert t.Keys == Values(t).Keys && w.Keys == Values(w).Keys;
    assert forall k | k in t :: t[k].value == Values(t)[k] && w[k].value == Values(w)[k];
    ReplayTracksValues(t, w, ops, base, base', |ops|);
  }

  // ---------- versions ----------

  function RestampedBy(keys: set<Bytes>, op: BatchOp): set<Bytes> {
    match op
    case Put(k, _) => keys - {k}
    case PutIfAbsent(k, _) => keys - {k}
    case CompareAndPut(k, _, _) => keys - {k}
    case Delete(k) => keys - {k}
    case DeleteIfVersion(k, _) => keys - {k}
    case Rename(src, dst, force) => if src != dst then keys - {src, dst} else if force then keys + {src} else keys
    case _ => keys
  }

  /** The keys whose last write among the first `n` operations is a forced rename to themselves. */
  function RestampedTo(ops: seq<BatchOp>, n: nat): set<Bytes>
    requires n <= |ops|
  {
    if n == 0 then {} else RestampedBy(RestampedTo(ops, n - 1), ops[n - 1])
  }

  function Restamped(ops: seq<BatchOp>): set<Bytes> { RestampedTo(ops, |ops|) }

  /** `w` is `u` with a later version at exactly the given keys. */
  ghost predicate Restamps(u: Tree, w: Tree, keys: set<Bytes>, hi: nat) {
    && SameValues(u, w) && keys <= u.Keys && VersionsBelow(w, hi)
    && forall k | k in u :: if k in keys then u[k].version < w[k].version else u[k].version == w[k].version
  }

  lemma {:induction false} StepRestamps(u: Tree, w: Tree, keys: set<Bytes>, op: BatchOp, hi: nat)
    requires Restamps(u, w, keys, hi) && Step(u, op, hi).Ok?
    ensures Restamps(Step(u, op, hi).value, ReplayOp(w, op, hi), RestampedBy(keys, op), hi + op.Cost())
  {
  }

  /** After `n` operations, if they run, replay differs from the batch by the restamped keys. */
  ghost predicate RestampsAt(t: Tree, ops: seq<BatchOp>, base: nat, n: nat)
    requires n <= |ops|
  {
    var o := RunTo(t, ops, base, n);
    o.Ok? ==> Restamps(o.value, Replay(t, LoggedTo(ops, n), base), RestampedTo(ops, n), base + CountTo(ops, n))
  }

  lemma {:induction false} RestampsNext(t: Tree, ops: seq<BatchOp>, base: nat, i: nat)
    requires i < |ops| && RestampsAt(t, ops, base, i)
    ensures RestampsAt(t, ops, base, i + 1)
  {
    if RunTo(t, ops, base, i).Ok? {
      var u, w := RunTo(t, ops, base, i).value, Replay(t, LoggedTo(ops, i), base);
      var hi, keys := base + CountTo(ops, i), RestampedTo(ops, i);
      assert RunTo(t, ops, base, i + 1) == Step(u, ops[i], hi) by { RunNext(t, ops, base, i, u); }
      assert Replay(t, LoggedTo(ops, i + 1), base) == ReplayOp(w, ops[i], hi) by { ReplayNext(t, ops, base, i); }
      if Step(u, ops[i], hi).Ok? { StepRestamps(u, w, keys, ops[i], hi); }
    }
  }

  lemma {:induction false} ReplayRestamps(t: Tree, ops: seq<BatchOp>, base: nat, n: nat)
    requires n <= |ops| && VersionsBelow(t, base)
    ensures RestampsAt(t, ops, base, n)
  {
    if n > 0 {
      ReplayRestamps(t, ops, base, n - 1);
      RestampsNext(t, ops, base, n - 1);
    }
  }

  /** Replay gives a key of an accepted batch another version than the batch did exactly when the last
      write of that key in the batch is a forced rename to itself, and then a later one. */
  lemma {:induction false} VersionMovesIffRestamped(t: Tree, ops: seq<BatchOp>, base: nat, k: Bytes)
    requires VersionsBelow(t, base) && Run(t, ops, base).Ok? && k in Run(t, ops, base).value
    ensures var u, w := Run(t, ops, base).value, Replay(t, Logged(ops), base);
      k in w && u[k].version <= w[k].version && (u[k] != w[k] <==> k in Restamped(ops))
  {
    ReplayRestamps(t, ops, base, |ops|);
  }

  /** So the record of an accepted batch rebuilds the tree, versions included, if and only if no key of
      the batch is written last by a forced rename to itself. */
  lemma {:induction false} LogReplaysBatch(t: Tree, ops: seq<BatchOp>, base: nat)
    requires VersionsBelow(t, base) && Run(t, ops, base).Ok?
    ensures Replay(t, Logged(ops), base) == Run(t, ops, base).value <==> Restamped(ops) == {}
  {
    ReplayRestamps(t, ops, base, |ops|);
    var u, w, keys := Run(t, ops, base).value, Replay(t, Logged(ops), base), Restamped(ops);
    if u == w {
      forall k ensures k !in keys { assert k in keys ==> k in u; }
    }
    if keys == {} {
      forall k | k in u ensures u[k] == w[k] { assert k !in keys; }
    }
  }

  /** A put and a forced rename to itself: the batch leaves version `base`, replay `base + 1`. */
  lemma {:induction false} SelfRenameMovesVersion(base: nat)
    ensures var ops := [Put([], []), Rename([], [], true)];
      && Run(map[], ops, base) == Ok(map[[] := Record([], base)])
      && Replay(map[], Logged(ops), base) == map[[] := Record([], base + 1)]
  {
    var ops: seq<BatchOp> := [Put([], []), Rename([], [], true)];
    var t: Tree := map[];
    assert RunTo(t, ops, base, 1) == Ok(map[[] := Record([], base)]) by { RunNext(t, ops, base, 0, t); }
    RunNext(t, ops, base, 1, map[[] := Record([], base)]);
    ReplayNext(t, ops, base, 0);
    ReplayNext(t, ops, base, 1);
  }
}
