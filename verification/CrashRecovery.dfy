/** Crash and reopen: the frames that a crash leaves on disk, taken at different times, still form
    one tree, and replaying the surviving log over it gives the content after that log. */
module CrashRecovery {
  import opened Options
  import opened WalHistory
  import opened FrameTree
  import opened CheckpointMachine
  import opened CheckpointInvariant

  // ---------- the surviving frames ----------

  /** What the invariant guarantees of any disk that a crash may leave. */
  ghost predicate GoodDisk(births: Births, rel: set<Guid>, root: Guid, base: Content, wal: seq<Batch>, lo: nat,
                           hi: nat, d: Disk)
  {
    && root in d && root in rel && (forall g :: g in d ==> g in births)
    && (forall k :: k in births[root].terr)
    && forall g :: g in rel && g in d ==>
         && ImgOk(births, rel, base, wal, lo, hi, g, d[g])
         && forall k :: k in births[g].terr && d[g](k).Below? ==> d[g](k).child in d
  }

  lemma {:induction false} CrashLeavesGoodDisk(births: Births, rel: set<Guid>, root: Guid, base: Content,
                                               wal: seq<Batch>, lo: nat, hi: nat, durable: Disk,
                                               unsynced: seq<StoreOp>, d: Disk)
    requires DiskOk(births, rel, root, base, wal, lo, hi, durable, unsynced) && CrashDisk(durable, unsynced, d)
    requires root in rel && forall k :: k in births[root].terr
    ensures GoodDisk(births, rel, root, base, wal, lo, hi, d)
  {
  }

  /** The frame a search for `k` reaches after `n` edges, if any. */
  ghost function Hop(d: Disk, root: Guid, k: Key, n: nat): Option<Guid> {
    if n == 0 then Some(root)
    else match Hop(d, root, k, n - 1)
      case None => None
      case Some(g) => if g in d && d[g](k).Below? then Some(d[g](k).child) else None
  }

  /** A search stays among relevant surviving frames, and searches for all keys of a frame's
      territory arrive there together. */
  lemma {:induction false} HopStays(births: Births, rel: set<Guid>, root: Guid, base: Content, wal: seq<Batch>,
                                    lo: nat, hi: nat, d: Disk, k: Key, n: nat)
    requires GoodDisk(births, rel, root, base, wal, lo, hi, d) && Hop(d, root, k, n).Some?
    ensures var g := Hop(d, root, k, n).value;
      g in rel && g in d && k in births[g].terr && forall x :: x in births[g].terr ==> Hop(d, root, x, n) == Some(g)
  {
    if n > 0 {
      HopStays(births, rel, root, base, wal, lo, hi, d, k, n - 1);
      var y, g := Hop(d, root, k, n - 1).value, Hop(d, root, k, n).value;
      assert EdgeOk(births, rel, y, d[y], k, g);
      forall x | x in births[g].terr ensures Hop(d, root, x, n) == Some(g) {
        assert Hop(d, root, x, n - 1) == Some(y);
      }
    }
  }

  /** Along a search every earlier frame exists and has a smaller rank. */
  lemma {:induction false} HopDescends(births: Births, rel: set<Guid>, root: Guid, base: Content, wal: seq<Batch>,
                                       lo: nat, hi: nat, d: Disk, k: Key, m: nat, n: nat)
    requires GoodDisk(births, rel, root, base, wal, lo, hi, d) && Hop(d, root, k, n).Some? && m < n
    ensures Hop(d, root, k, m).Some?
    ensures var g, h := Hop(d, root, k, m).value, Hop(d, root, k, n).value;
      g in births && h in births && births[g].rank < births[h].rank && g in d && d[g](k).Below?
  {
    HopStays(births, rel, root, base, wal, lo, hi, d, k, n - 1);
    var y := Hop(d, root, k, n - 1).value;
    assert EdgeOk(births, rel, y, d[y], k, d[y](k).child);
    if m < n - 1 { HopDescends(births, rel, root, base, wal, lo, hi, d, k, m, n - 1); }
  }

  ghost predicate OnPath(births: Births, d: Disk, root: Guid, g: Guid) {
    g == root || exists k, n: nat :: g in births && k in births[g].terr && Hop(d, root, k, n) == Some(g)
  }

  /** The frames that some search on this disk passes. */
  ghost function Reached(births: Births, d: Disk, root: Guid): set<Guid> {
    set g | g in d && OnPath(births, d, root, g)
  }

  ghost function Loaded(d: Disk): Frames {
    map g | g in d :: Frame(d[g], 0)
  }

  lemma {:induction false} ReachedTogether(births: Births, rel: set<Guid>, root: Guid, base: Content,
                                           wal: seq<Batch>, lo: nat, hi: nat, d: Disk, g: Guid, k: Key) returns (n: nat)
    requires GoodDisk(births, rel, root, base, wal, lo, hi, d) && g in Reached(births, d, root) && k in births[g].terr
    ensures Hop(d, root, k, n) == Some(g) && g in rel
  {
    if g == root {
      n := 0;
    } else {
      var k0, m: nat :| g in births && k0 in births[g].terr && Hop(d, root, k0, m) == Some(g);
      HopStays(births, rel, root, base, wal, lo, hi, d, k0, m);
      n := m;
    }
  }

  lemma {:induction false} ReachedIsShaped(births: Births, rel: set<Guid>, root: Guid, base: Content,
                                           wal: seq<Batch>, lo: nat, hi: nat, d: Disk, g: Guid)
    requires GoodDisk(births, rel, root, base, wal, lo, hi, d) && g in Reached(births, d, root)
    ensures g in rel && Shaped(births, Reached(births, d, root), g, d[g])
  {
    if g != root {
      var k0, m: nat :| g in births && k0 in births[g].terr && Hop(d, root, k0, m) == Some(g);
      HopStays(births, rel, root, base, wal, lo, hi, d, k0, m);
    }
    forall k | k in births[g].terr && d[g](k).Below?
      ensures EdgeOk(births, Reached(births, d, root), g, d[g], k, d[g](k).child)
    {
      var n := ReachedTogether(births, rel, root, base, wal, lo, hi, d, g, k);
      assert EdgeOk(births, rel, g, d[g], k, d[g](k).child);
      assert Hop(d, root, k, n + 1) == Some(d[g](k).child);
      assert OnPath(births, d, root, d[g](k).child);
    }
  }

  /** Two surviving frames never send a key to the same place, nor both store it. */
  lemma {:induction false} ReachedIsUnique(births: Births, rel: set<Guid>, root: Guid, base: Content,
                                           wal: seq<Batch>, lo: nat, hi: nat, d: Disk, g: Guid, h: Guid, k: Key)
    requires GoodDisk(births, rel, root, base, wal, lo, hi, d)
    requires g in Reached(births, d, root) && h in Reached(births, d, root)
    requires k in births[g].terr && k in births[h].terr && d[g](k).Next() == d[h](k).Next()
    ensures g == h
  {
    var m := ReachedTogether(births, rel, root, base, wal, lo, hi, d, g, k);
    var n := ReachedTogether(births, rel, root, base, wal, lo, hi, d, h, k);
    if m != n {
      var a, b := if m < n then m else n, if m < n then n else m;
      HopDescends(births, rel, root, base, wal, lo, hi, d, k, a, b);
      assert Hop(d, root, k, a + 1).Some?;
      assert Hop(d, root, k, b + 1) == Hop(d, root, k, a + 1);
      HopDescends(births, rel, root, base, wal, lo, hi, d, k, a + 1, b + 1);
    }
  }

  /** The record that the reached frame storing `k` holds. */
  ghost function Found(births: Births, live: set<Guid>, c: Frames, k: Key): Option<Value> {
    if exists g :: Through(births, live, c, g, k) && c[g].img(k).Here?
    then var g :| Through(births, live, c, g, k) && c[g].img(k).Here?; c[g].img(k).val
    else None
  }

  ghost function FoundContent(births: Births, live: set<Guid>, c: Frames): Content {
    (k: Key) => Found(births, live, c, k)
  }

  /** The mix of images that survived is one well-formed tree. */
  lemma {:induction false} SurvivorsFormTree(births: Births, rel: set<Guid>, root: Guid, base: Content,
                                             wal: seq<Batch>, lo: nat, hi: nat, d: Disk)
    requires GoodDisk(births, rel, root, base, wal, lo, hi, d)
    requires forall g :: g in births ==> births[root].rank <= births[g].rank
    ensures var live := Reached(births, d, root);
      TreeOk(births, live, root, Loaded(d), FoundContent(births, live, Loaded(d))) && live <= rel
  {
    var live, c := Reached(births, d, root), Loaded(d);
    forall g | g in live ensures g in rel && Shaped(births, live, g, c[g].img) {
      ReachedIsShaped(births, rel, root, base, wal, lo, hi, d, g);
    }
    forall g, h, k | Through(births, live, c, g, k) && Through(births, live, c, h, k)
      ensures c[g].img(k).Next() == c[h].img(k).Next() ==> g == h
    {
      if c[g].img(k).Next() == c[h].img(k).Next() {
        ReachedIsUnique(births, rel, root, base, wal, lo, hi, d, g, h, k);
      }
    }
  }

  // ---------- replay ----------

  /** Replay of the records in `[a, j)` through the tree, record by record. */
  ghost function Replay(c: Frames, root: Guid, fuel: nat, wal: seq<Batch>, a: nat, j: nat): Applied
    requires a <= j <= |wal|
    decreases j
  {
    if j == a then Applied(c, {})
    else
      var r := Replay(c, root, fuel, wal, a, j - 1);
      var q := ApplyOps(r.frames, root, fuel, wal[j - 1]);
      Applied(q.frames, r.touched + q.touched)
  }

  function FoldContent(cur: Content, wal: seq<Batch>, a: nat, j: nat): Content
    requires a <= j <= |wal|
  {
    (k: Key) => Fold(cur(k), wal, a, j, k)
  }

  lemma {:induction false} ReplayKeepsTree(births: Births, live: set<Guid>, root: Guid, c: Frames, cur: Content,
                                           wal: seq<Batch>, a: nat, j: nat)
    requires TreeOk(births, live, root, c, cur) && a <= j <= |wal|
    ensures var r := Replay(c, root, |births|, wal, a, j);
      && TreeOk(births, live, root, r.frames, FoldContent(cur, wal, a, j))
      && r.frames.Keys == c.Keys && r.touched <= live
      && forall g :: g in c && g !in r.touched ==> r.frames[g] == c[g]
    decreases j
  {
    if j == a {
      SameContent(births, live, root, c, cur, FoldContent(cur, wal, a, j));
    } else {
      ReplayKeepsTree(births, live, root, c, cur, wal, a, j - 1);
      var r := Replay(c, root, |births|, wal, a, j - 1);
      BatchKeepsTree(births, live, root, r.frames, FoldContent(cur, wal, a, j - 1), wal[j - 1]);
      SameContent(births, live, root, ApplyOps(r.frames, root, |births|, wal[j - 1]).frames,
                  AfterOps(FoldContent(cur, wal, a, j - 1), wal[j - 1]), FoldContent(cur, wal, a, j));
    }
  }

  /** A search on the surviving disk ends, and what it finds is the record after some log prefix
      between the truncation point and the flushed watermark. */
  lemma {:induction false} SurvivorInWindow(births: Births, rel: set<Guid>, root: Guid, base: Content,
                                            wal: seq<Batch>, lo: nat, hi: nat, d: Disk, k: Key)
    requires GoodDisk(births, rel, root, base, wal, lo, hi, d)
    requires forall g :: g in births ==> births[root].rank <= births[g].rank
    ensures var live := Reached(births, d, root);
      InWindow(base, wal, lo, hi, k, FoundContent(births, live, Loaded(d))(k))
  {
    var live, c := Reached(births, d, root), Loaded(d);
    SurvivorsFormTree(births, rel, root, base, wal, lo, hi, d);
    LocateFromRoot(births, live, root, c, FoundContent(births, live, c), k);
    var g := Locate(c, root, k, |births|).value;
    assert ImgOk(births, rel, base, wal, lo, hi, g, d[g]);
  }

  /** Reopening: the surviving tree with the surviving log replayed over it has exactly the content
      after that log. */
  lemma {:induction false} ReplayRestoresContent(births: Births, rel: set<Guid>, root: Guid, base: Content,
                                                 wal: seq<Batch>, lo: nat, hi: nat, d: Disk, j: nat)
    requires GoodDisk(births, rel, root, base, wal, lo, hi, d) && lo <= hi <= j <= |wal|
    requires forall g :: g in births ==> births[root].rank <= births[g].rank
    ensures TreeOk(births, Reached(births, d, root), root, Replay(Loaded(d), root, |births|, wal, lo, j).frames,
      Current(base, wal[..j]))
  {
    var live, c := Reached(births, d, root), Loaded(d);
    var cur := FoundContent(births, live, c);
    SurvivorsFormTree(births, rel, root, base, wal, lo, hi, d);
    ReplayKeepsTree(births, live, root, c, cur, wal, lo, j);
    forall k ensures FoldContent(cur, wal, lo, j)(k) == Current(base, wal[..j])(k) {
      SurvivorInWindow(births, rel, root, base, wal, lo, hi, d, k);
      ReplayConverges(base, wal, lo, hi, j, k, cur(k));
      assert wal[..j][..j] == wal[..j];
      ValueAtPrefix(base, wal, wal[..j], j, k);
    }
    SameContent(births, live, root, Replay(c, root, |births|, wal, lo, j).frames, FoldContent(cur, wal, lo, j),
      Current(base, wal[..j]));
  }
}
