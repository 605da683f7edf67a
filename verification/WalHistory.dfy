/** The write-ahead log as a history of whole batches, and what replaying a suffix of it does.

    A record is one atomic batch of absolute operations (put, or delete as `None`), the unit
    that a torn tail keeps or drops as a whole. `ValueAt` is the meaning of the log; `Fold` is
    what replay computes over whatever value a recovered blob happens to hold. */
module WalHistory {
  import opened Options

  type Key(==, !new)
  type Value(==, !new)

  /** One absolute operation: `Some(v)` puts, `None` deletes. */
  datatype Op = Op(key: Key, val: Option<Value>)

  type Batch = seq<Op>
  type Content = Key -> Option<Value>

  /** The value of `k` after a batch that starts from `v`: the last operation on `k` wins. */
  function KeyAfter(v: Option<Value>, b: Batch, k: Key): Option<Value> {
    if b == [] then v
    else if b[|b| - 1].key == k then b[|b| - 1].val
    else KeyAfter(v, b[..|b| - 1], k)
  }

  /** The value of `k` after the first `j` records of the log, starting from `base`. */
  function ValueAt(base: Content, wal: seq<Batch>, j: nat, k: Key): Option<Value>
    requires j <= |wal|
  {
    if j == 0 then base(k) else KeyAfter(ValueAt(base, wal, j - 1, k), wal[j - 1], k)
  }

  /** The content after the whole log. */
  function Current(base: Content, wal: seq<Batch>): Content {
    (k: Key) => ValueAt(base, wal, |wal|, k)
  }

  /** Replay of the records in `[a, j)` over a recovered value `v` of `k`. */
  function Fold(v: Option<Value>, wal: seq<Batch>, a: nat, j: nat, k: Key): Option<Value>
    requires a <= j <= |wal|
  {
    if j == a then v else KeyAfter(Fold(v, wal, a, j - 1, k), wal[j - 1], k)
  }

  /** `v` is the value of `k` after some prefix of the log whose length is in `[lo, hi]`. */
  ghost predicate InWindow(base: Content, wal: seq<Batch>, lo: nat, hi: nat, k: Key, v: Option<Value>) {
    exists i: nat :: lo <= i <= hi && i <= |wal| && v == ValueAt(base, wal, i, k)
  }

  ghost predicate Touches(b: Batch, k: Key) {
    exists i :: 0 <= i < |b| && b[i].key == k
  }

  /** A batch of absolute operations acts on a key as a constant or not at all. */
  lemma {:induction false} KeyAfterIsConstantOrIdentity(v: Option<Value>, w: Option<Value>, b: Batch, k: Key)
    ensures Touches(b, k) ==> KeyAfter(v, b, k) == KeyAfter(w, b, k)
    ensures !Touches(b, k) ==> KeyAfter(v, b, k) == v
  {
    if b != [] {
      var c := b[..|b| - 1];
      KeyAfterIsConstantOrIdentity(v, w, c, k);
      if Touches(c, k) {
        var i :| 0 <= i < |c| && c[i].key == k;
        assert b[i].key == k;
      }
      if b[|b| - 1].key != k && Touches(b, k) {
        var i :| 0 <= i < |b| && b[i].key == k;
        assert c[i].key == k;
      }
    }
  }

  /** So does a whole range of the log. */
  lemma {:induction false} FoldIsConstantOrIdentity(v: Option<Value>, w: Option<Value>, wal: seq<Batch>, a: nat,
                                                    j: nat, k: Key)
    requires a <= j <= |wal|
    ensures Fold(v, wal, a, j, k) == Fold(w, wal, a, j, k)
         || (Fold(v, wal, a, j, k) == v && Fold(w, wal, a, j, k) == w)
  {
    if j != a {
      FoldIsConstantOrIdentity(v, w, wal, a, j - 1, k);
      var v', w' := Fold(v, wal, a, j - 1, k), Fold(w, wal, a, j - 1, k);
      KeyAfterIsConstantOrIdentity(v', w', wal[j - 1], k);
      KeyAfterIsConstantOrIdentity(w', v', wal[j - 1], k);
    }
  }

  lemma {:induction false} ValueAtIsFold(base: Content, wal: seq<Batch>, a: nat, j: nat, k: Key)
    requires a <= j <= |wal|
    ensures ValueAt(base, wal, j, k) == Fold(ValueAt(base, wal, a, k), wal, a, j, k)
  {
    if j != a { ValueAtIsFold(base, wal, a, j - 1, k); }
  }

  lemma {:induction false} FoldSplits(v: Option<Value>, wal: seq<Batch>, a: nat, i: nat, j: nat, k: Key)
    requires a <= i <= j <= |wal|
    ensures Fold(v, wal, a, j, k) == Fold(Fold(v, wal, a, i, k), wal, i, j, k)
  {
    if j != i { FoldSplits(v, wal, a, i, j - 1, k); }
  }

  /** Replay converges: a blob value taken from any point between the truncation point `a` and
      the end `j` of the surviving log replays to exactly the value at `j`. */
  lemma {:induction false} ReplayConverges(base: Content, wal: seq<Batch>, a: nat, hi: nat, j: nat, k: Key,
                                           v: Option<Value>)
    requires a <= hi <= j <= |wal|
    requires InWindow(base, wal, a, hi, k, v)
    ensures Fold(v, wal, a, j, k) == ValueAt(base, wal, j, k)
  {
    var i: nat :| a <= i <= hi && i <= |wal| && v == ValueAt(base, wal, i, k);
    ValueAtIsFold(base, wal, a, i, k);
    FoldIsConstantOrIdentity(v, ValueAt(base, wal, a, k), wal, a, i, k);
    FoldSplits(v, wal, a, i, j, k);
    ValueAtIsFold(base, wal, i, j, k);
  }

  /** The meaning of a prefix does not depend on what follows it. */
  lemma {:induction false} ValueAtPrefix(base: Content, wal: seq<Batch>, wal': seq<Batch>, j: nat, k: Key)
    requires j <= |wal| && j <= |wal'| && wal[..j] == wal'[..j]
    ensures ValueAt(base, wal, j, k) == ValueAt(base, wal', j, k)
  {
    if j != 0 {
      assert wal[..j][j - 1] == wal'[..j][j - 1];
      assert wal[..j - 1] == wal[..j][..j - 1] == wal'[..j][..j - 1] == wal'[..j - 1];
      ValueAtPrefix(base, wal, wal', j - 1, k);
    }
  }
}
