/** The records as the log really stores them. Puts and deletes are absolute, but a rename is logged
    by its two keys only: replay reads the source from whatever tree it finds.

    `WalHistory` replays absolute operations. This module says for which logs the replay of logical
    records comes to the same thing. */
module LogicalReplay {
  import opened Options
  import opened WalHistory

  datatype Record =
    | Insert(key: Key, val: Value)
    | Erase(key: Key)
    | RenameObject(src: Key, dst: Key, force: bool)

  /** What one record does to content `c`; at commit and at replay alike. */
  function Effect(c: Content, r: Record): Batch {
    match r
    case Insert(k, v) => [Op(k, Some(v))]
    case Erase(k) => [Op(k, None)]
    case RenameObject(src, dst, force) =>
      if c(src).None? || src == dst || (!force && c(dst).Some?) then []
      else [Op(src, None), Op(dst, c(src))]
  }

  function Redo(c: Content, r: Record): Content {
    var ops := Effect(c, r);
    (k: Key) => KeyAfter(c(k), ops, k)
  }

  /** The records of one batch in order. */
  function RedoAll(c: Content, rs: seq<Record>): Content {
    if rs == [] then c else Redo(RedoAll(c, rs[..|rs| - 1]), rs[|rs| - 1])
  }

  /** The absolute operations that a batch amounts to on content `c`. */
  function Effects(c: Content, rs: seq<Record>): Batch {
    if rs == [] then []
    else Effects(c, rs[..|rs| - 1]) + Effect(RedoAll(c, rs[..|rs| - 1]), rs[|rs| - 1])
  }

  /** Replay of the batches in `[a, j)` over recovered content `c`. */
  function ReplayFrom(c: Content, recs: seq<seq<Record>>, a: nat, j: nat): Content
    requires a <= j <= |recs|
  {
    if j == a then c else RedoAll(ReplayFrom(c, recs, a, j - 1), recs[j - 1])
  }

  function ContentAt(base: Content, wal: seq<Batch>, j: nat): Content
    requires j <= |wal|
  {
    (k: Key) => ValueAt(base, wal, j, k)
  }

  /** `wal` is what the logged batches `recs` did when they were committed. */
  ghost predicate Logs(base: Content, wal: seq<Batch>, recs: seq<seq<Record>>) {
    |wal| == |recs| && forall i :: 0 <= i < |recs| ==> wal[i] == Effects(ContentAt(base, wal, i), recs[i])
  }

  // ---------- which renames are logged ----------

  /** Which kinds of rename may be logged besides a forced one whose source was written since the
      log was last truncated. */
  datatype Policy = Policy(forcedStale: bool, plainFresh: bool, plainStale: bool)
  {
    predicate Permits(force: bool, recent: bool) {
      if force then recent || forcedStale else if recent then plainFresh else plainStale
    }
  }

  const STRICT := Policy(false, false, false)

  ghost function Written(b: Batch): iset<Key> { iset k | Touches(b, k) }

  /** The keys that the batches in `[lo, j)` wrote. */
  ghost function WrittenIn(wal: seq<Batch>, lo: nat, j: nat): iset<Key>
    requires lo <= j <= |wal|
  {
    iset k, i: nat | lo <= i < j && k in Written(wal[i]) :: k
  }

  /** The record is permitted where `recent` are the keys written since truncation. */
  ghost predicate Allowed(p: Policy, r: Record, recent: iset<Key>) {
    r.RenameObject? ==> p.Permits(r.force, r.src in recent)
  }

  ghost predicate BatchObeys(p: Policy, c: Content, recent: iset<Key>, rs: seq<Record>) {
    forall m | 0 <= m < |rs| :: Allowed(p, rs[m], recent + Written(Effects(c, rs[..m])))
  }

  ghost predicate Obeys(p: Policy, base: Content, wal: seq<Batch>, recs: seq<seq<Record>>, lo: nat, j: nat)
    requires lo <= j <= |wal| && j <= |recs|
  {
    forall i | lo <= i < j :: BatchObeys(p, ContentAt(base, wal, i), WrittenIn(wal, lo, i), recs[i])
  }

  // ---------- replay agrees with the commit on every key written so far ----------

  ghost predicate Agree(r: Content, t: Content, on: iset<Key>) { forall k | k in on :: r(k) == t(k) }

  /** `r` became `r'` without changing a key outside `on`. */
  ghost predicate Keeps(r: Content, r': Content, on: iset<Key>) { forall k | k !in on :: r'(k) == r(k) }

  lemma {:induction false} RecordAgrees(r: Content, t: Content, recent: iset<Key>, rec: Record)
    requires Agree(r, t, recent) && Allowed(STRICT, rec, recent)
    ensures var w := Written(Effect(t, rec));
      && Agree(Redo(r, rec), Redo(t, rec), recent + w)
      && Keeps(r, Redo(r, rec), w) && Keeps(t, Redo(t, rec), w)
  {
    assert Effect(r, rec) == Effect(t, rec);
    forall k
      ensures Touches(Effect(t, rec), k) ==> Redo(r, rec)(k) == Redo(t, rec)(k)
      ensures !Touches(Effect(t, rec), k) ==> Redo(r, rec)(k) == r(k) && Redo(t, rec)(k) == t(k)
    {
      KeyAfterIsConstantOrIdentity(r(k), t(k), Effect(t, rec), k);
      KeyAfterIsConstantOrIdentity(t(k), r(k), Effect(t, rec), k);
    }
  }

  lemma {:induction false} WrittenConcat(a: Batch, b: Batch)
    ensures Written(a + b) == Written(a) + Written(b)
  {
    forall k ensures Touches(a + b, k) <==> Touches(a, k) || Touches(b, k) {
      if Touches(a, k) { var i :| 0 <= i < |a| && a[i].key == k; assert (a + b)[i].key == k; }
      if Touches(b, k) { var i :| 0 <= i < |b| && b[i].key == k; assert (a + b)[|a| + i].key == k; }
      if Touches(a + b, k) {
        var i :| 0 <= i < |a + b| && (a + b)[i].key == k;
        if i < |a| { assert a[i].key == k; } else { assert b[i - |a|].key == k; }
      }
    }
  }

  lemma {:induction false} BatchAgrees(r: Content, t: Content, recent: iset<Key>, rs: seq<Record>)
    requires Agree(r, t, recent) && BatchObeys(STRICT, t, recent, rs)
    ensures var w := Written(Effects(t, rs));
      && Agree(RedoAll(r, rs), RedoAll(t, rs), recent + w)
      && Keeps(r, RedoAll(r, rs), w) && Keeps(t, RedoAll(t, rs), w)
    decreases |rs|
  {
    if rs != [] {
      var init, last := rs[..|rs| - 1], rs[|rs| - 1];
      forall m | 0 <= m < |init| ensures Allowed(STRICT, init[m], recent + Written(Effects(t, init[..m]))) {
        assert init[..m] == rs[..m];
      }
      BatchAgrees(r, t, recent, init);
      RecordAgrees(RedoAll(r, init), RedoAll(t, init), recent + Written(Effects(t, init)), last);
      WrittenConcat(Effects(t, init), Effect(RedoAll(t, init), last));
    }
  }

  /** A batch acts on every key as its absolute operations do. */
  lemma {:induction false} EffectsAreRedo(c: Content, rs: seq<Record>, k: Key)
    ensures KeyAfter(c(k), Effects(c, rs), k) == RedoAll(c, rs)(k)
    decreases |rs|
  {
    if rs != [] {
      var init := rs[..|rs| - 1];
      EffectsAreRedo(c, init, k);
      KeyAfterConcat(c(k), Effects(c, init), Effect(RedoAll(c, init), rs[|rs| - 1]), k);
    }
  }

  lemma {:induction false} KeyAfterConcat(v: Option<Value>, a: Batch, b: Batch, k: Key)
    ensures KeyAfter(v, a + b, k) == KeyAfter(KeyAfter(v, a, k), b, k)
    decreases |b|
  {
    if b == [] {
      assert a + b == a;
    } else {
      assert (a + b)[..|a + b| - 1] == a + b[..|b| - 1];
      KeyAfterConcat(v, a, b[..|b| - 1], k);
    }
  }

  lemma {:induction false} WrittenGrows(wal: seq<Batch>, lo: nat, j: nat)
    requires lo <= j < |wal|
    ensures WrittenIn(wal, lo, j + 1) == WrittenIn(wal, lo, j) + Written(wal[j])
  {
  }

  /** Replay from `lo` agrees with the history on every key written since `lo`, and has not touched
      any other key. */
  lemma {:induction false} LogAgrees(base: Content, wal: seq<Batch>, recs: seq<seq<Record>>, c: Content, lo: nat,
                                     j: nat)
    requires Logs(base, wal, recs) && lo <= j <= |wal| && Obeys(STRICT, base, wal, recs, lo, j)
    ensures var w := WrittenIn(wal, lo, j);
      && Agree(ReplayFrom(c, recs, lo, j), ContentAt(base, wal, j), w)
      && Keeps(c, ReplayFrom(c, recs, lo, j), w)
      && Keeps(ContentAt(base, wal, lo), ContentAt(base, wal, j), w)
    decreases j
  {
    if j > lo {
      LogAgrees(base, wal, recs, c, lo, j - 1);
      var t := ContentAt(base, wal, j - 1);
      BatchAgrees(ReplayFrom(c, recs, lo, j - 1), t, WrittenIn(wal, lo, j - 1), recs[j - 1]);
      WrittenGrows(wal, lo, j - 1);
      forall k ensures ContentAt(base, wal, j)(k) == RedoAll(t, recs[j - 1])(k) {
        EffectsAreRedo(t, recs[j - 1], k);
      }
    }
  }

  /** Replaying logical records converges when every logged rename is forced and its source was
      written since truncation: any mix of values from the window replays to the value at the end. */
  lemma {:induction false} StrictLogsConverge(base: Content, wal: seq<Batch>, recs: seq<seq<Record>>, c: Content,
                                              lo: nat, hi: nat, j: nat, k: Key)
    requires Logs(base, wal, recs) && lo <= hi <= j <= |wal| && Obeys(STRICT, base, wal, recs, lo, j)
    requires InWindow(base, wal, lo, hi, k, c(k))
    ensures ReplayFrom(c, recs, lo, j)(k) == ValueAt(base, wal, j, k)
  {
    LogAgrees(base, wal, recs, c, lo, j);
    var i: nat :| lo <= i <= hi && i <= |wal| && c(k) == ValueAt(base, wal, i, k);
    LogAgrees(base, wal, recs, c, lo, i);
    if k !in WrittenIn(wal, lo, j) {
      assert k !in WrittenIn(wal, lo, i);
      assert ContentAt(base, wal, i)(k) == ContentAt(base, wal, lo)(k) == ContentAt(base, wal, j)(k);
    } else {
      assert ReplayFrom(c, recs, lo, j)(k) == ContentAt(base, wal, j)(k);
    }
  }
}
