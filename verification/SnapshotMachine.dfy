/** Copy-on-write snapshots over one pool of frames shared by all trees.

    A snapshot copies the root frame and takes the next epoch; everything below is shared. A write
    walks down from a live root and forks each child frame that a live snapshot may see, which it
    tells from the frame's creation epoch alone. A frame that leaves the live tree waits until no
    snapshot of the epochs that could see it is left.

    `live`, `home` and the `own` and `view` parts of a snapshot are bookkeeping: no step looks at them,
    except that a step is taken on frames of the live tree. */
module SnapshotMachine {
  import opened Options
  import opened WalHistory
  import opened FrameTree

  const U64_MAX: nat := 0xffff_ffff_ffff_ffff

  /** `rank` grows along every edge; it is bookkeeping, as `births` is in the crash machine. */
  datatype CowFrame = CowFrame(img: Image, created: nat, rank: real)
  type Pool = map<Guid, CowFrame>

  /** A live snapshot: the tree it is of, its private root copy, the frames it may reach, and their images
      at capture. */
  datatype Snap = Snap(tree: Guid, root: Guid, own: set<Guid>, view: map<Guid, Image>)

  /** The epochs whose snapshots may see a detached frame. */
  datatype Span = Span(first: nat, last: nat)

  datatype State = State(
    pool: Pool, roots: set<Guid>, live: set<Guid>, home: map<Guid, Guid>, snaps: map<nat, Snap>, barrier: nat,
      current: nat,
    waiting: map<Guid, Span>, retired: set<Guid>)

  /** No live snapshot can see the frame: its root is never shared, and a frame below is private when it
      was created after every live snapshot. */
  predicate Private(s: State, g: Guid) {
    g in s.roots || (g in s.pool && (s.barrier == 0 || s.barrier < s.pool[g].created))
  }

  /** No live snapshot of the frame's own tree can see it. A writer holds its tree's gate from the test
      `Private` on, so this still holds when it writes, though a capture of other trees may have raised
      the barrier in between. */
  ghost predicate Unseen(s: State, g: Guid) {
    g in s.roots ||
    (g in s.pool && g in s.home && forall e | e in s.snaps && s.snaps[e].tree == s.home[g] :: e < s.pool[g].created)
  }

  /** The frame `g` of the live tree leads to `c`. */
  ghost predicate Edge(pool: Pool, live: set<Guid>, g: Guid, c: Guid) {
    g in live && g in pool && exists k :: pool[g].img(k) == Below(c)
  }

  ghost function Repoint(img: Image, c: Guid,
                         f: Guid): Image { (k: Key) => if img(k) == Below(c) then Below(f) else img(k) }
  ghost function Folded(img: Image, c: Guid,
                        below: Image): Image { (k: Key) => if img(k) == Below(c) then below(k) else img(k) }
  ghost function Cut(img: Image, part: iset<Key>, f: Guid): Image { (k: Key) => if k in part then Below(f) else img(k) }
  ghost function Kept(img: Image, part: iset<Key>): Image { (k: Key) => if k in part then img(k) else Here(None) }

  /** The part can move to a frame of this rank: a child below it moves as a whole and ranks higher. */
  ghost predicate CanCut(pool: Pool, p: Guid, part: iset<Key>, rank: real)
    requires p in pool
  {
    && pool[p].rank < rank
    && (forall k | k in part && pool[p].img(k).Below? ::
          pool[p].img(k).child in pool && rank < pool[pool[p].img(k).child].rank)
    && (forall k, j | k in part && pool[p].img(k).Below? && pool[p].img(j) == pool[p].img(k) :: j in part)
  }

  datatype Action =
    | Write(g: Guid, k: Key, v: Option<Value>)
    | ForkOff(p: Guid, c: Guid, f: Guid)
    | SpillOut(p: Guid, part: iset<Key>, rank: real, f: Guid)
    | MergeIn(p: Guid, c: Guid)
    | Capture(picks: seq<Guid>, copies: seq<Guid>)
    | Retire(e: nat, barrier: nat)
    | Promote(g: Guid)
    | Reclaim(g: Guid)
    | Reopen(clock: nat)

  /** The highest epoch a live snapshot holds, or zero. */
  ghost predicate IsBarrier(snaps: map<nat, Snap>, b: nat) {
    (forall e | e in snaps :: e <= b) && (b == 0 || b in snaps)
  }

  /** The snapshot of one root, sharing every frame of its tree. */
  ghost function Taken(s: State, root: Guid, copy: Guid): Snap
    requires root in s.pool
  {
    var own := {copy} + (set g | g in s.live - s.roots && g in s.home && s.home[g] == root);
    Snap(root, copy, own, map g | g in own && (g == copy || g in s.pool) :: if g == copy then s.pool[root].img
      else s.pool[g].img)
  }

  ghost predicate CanTakeOne(s: State, root: Guid, copy: Guid) { root in s.roots && root in s.pool && copy !in s.pool }

  /** The root copy is installed and registered at the current epoch. */
  ghost function TakeOne(s: State, root: Guid, copy: Guid): State
    requires CanTakeOne(s, root, copy)
  {
    s.(pool := s.pool[copy := s.pool[root]], snaps := s.snaps[s.current := Taken(s, root, copy)],
       barrier := s.current, current := s.current + 1)
  }

  /** A coordinated capture: the roots in order, at consecutive epochs, with nothing in between. */
  ghost predicate CanTake(s: State, picks: seq<Guid>, copies: seq<Guid>, n: nat)
    requires n <= |picks| == |copies|
    decreases n, 0
  {
    n == 0 || (CanTake(s, picks, copies, n - 1)
      && CanTakeOne(Take(s, picks, copies, n - 1), picks[n - 1], copies[n - 1]))
  }

  ghost function Take(s: State, picks: seq<Guid>, copies: seq<Guid>, n: nat): State
    requires n <= |picks| == |copies| && CanTake(s, picks, copies, n)
    decreases n, 1
  {
    if n == 0 then s else TakeOne(Take(s, picks, copies, n - 1), picks[n - 1], copies[n - 1])
  }

  ghost predicate Enabled(s: State, a: Action) {
    match a
    case Write(g, k, v) => g in s.live && g in s.pool && Unseen(s, g) && s.pool[g].img(k).Here?
    case ForkOff(p, c, f) =>
      p in s.pool && Unseen(s, p) && Edge(s.pool, s.live, p, c) && c in s.pool && !Private(s, c) && f !in s.pool
        && f !in s.home
    case SpillOut(p, part, rank, f) => p in s.live && p in s.pool && Unseen(s, p) && f !in s.pool && f !in s.home
      && CanCut(s.pool, p, part, rank)
    case MergeIn(p, c) => p in s.pool && Unseen(s, p) && Edge(s.pool, s.live, p, c) && c in s.pool
    case Capture(picks, copies) =>
      && |picks| == |copies| > 0 && s.current + |picks| < U64_MAX
      && CanTake(s, picks, copies, |picks|)
    case Retire(e, b) => e in s.snaps && IsBarrier(s.snaps - {e}, b)
    case Promote(g) => g in s.waiting && forall e | e in s.snaps :: !(s.waiting[g].first <= e <= s.waiting[g].last)
    case Reclaim(g) => g in s.retired
    case Reopen(clock) => clock >= 1 && forall g | g in s.live && g in s.pool :: s.pool[g].created <= clock
  }

  /** The tree that a frame belongs to. */
  ghost function Home(s: State, g: Guid): Guid { if g in s.home then s.home[g] else g }

  ghost function Detached(s: State, c: Guid, first: nat): map<Guid, Span> { s.waiting[c := Span(first, s.barrier)] }

  ghost function Apply(s: State, a: Action): State
    requires Enabled(s, a)
  {
    match a
    case Write(g, k, v) => s.(pool := s.pool[g := s.pool[g].(img := SetSlot(s.pool[g].img, k, Here(v)))])
    case ForkOff(p, c, f) =>
      s.(pool := s.pool[f := CowFrame(s.pool[c].img, s.current,
        s.pool[c].rank)][p := s.pool[p].(img := Repoint(s.pool[p].img, c, f))],
         live := s.live - {c} + {f}, home := s.home[f := Home(s, c)], waiting := Detached(s, c, s.pool[c].created))
    case SpillOut(p, part, rank, f) =>
      s.(pool := s.pool[f := CowFrame(Kept(s.pool[p].img, part), s.current,
        rank)][p := s.pool[p].(img := Cut(s.pool[p].img, part, f))],
         live := s.live + {f}, home := s.home[f := Home(s, p)])
    case MergeIn(p, c) =>
      s.(pool := s.pool[p := s.pool[p].(img := Folded(s.pool[p].img, c, s.pool[c].img))],
         live := s.live - {c}, waiting := Detached(s, c, 0))
    case Capture(picks, copies) => Take(s, picks, copies, |picks|)
    case Retire(e, b) => s.(snaps := s.snaps - {e}, barrier := b)
    case Promote(g) => s.(waiting := s.waiting - {g}, retired := s.retired + {g})
    case Reclaim(g) => s.(pool := s.pool - {g}, retired := s.retired - {g})
    case Reopen(clock) => s.(snaps := map[], barrier := 0, current := clock, waiting := map[], retired := {})
  }

  // ---------- the invariant ----------

  /** An edge of the live tree goes down to a live frame that is no root. */
  ghost predicate DownOk(pool: Pool, roots: set<Guid>, live: set<Guid>, home: map<Guid, Guid>, g: Guid, c: Guid) {
    && c in live && c !in roots && g in pool && c in pool && pool[g].rank < pool[c].rank
    && g in home && c in home && home[c] == home[g]
  }

  /** The live tree: closed under edges, with one parent for each child and none for a root. */
  ghost predicate LiveOk(pool: Pool, roots: set<Guid>, live: set<Guid>, home: map<Guid, Guid>, current: nat) {
    && roots <= live && live <= pool.Keys && live <= home.Keys && current >= 1
      && (forall r | r in roots :: home[r] == r)
    && (forall g, k | g in live && pool[g].img(k).Below? :: DownOk(pool, roots, live, home, g, pool[g].img(k).child))
    && (forall g, h, k, j | g in live && h in live && pool[g].img(k).Below? && pool[h].img(j) == pool[g].img(k) ::
      g == h)
    && (forall g | g in live :: pool[g].created <= current)
  }

  /** A snapshot's frames still have the images they had at capture, lead only to each other, are older
      than the snapshot, and are no roots; the live ones are of its tree,
        and its own root copy is outside the live tree. */
  ghost predicate SnapOk(pool: Pool, roots: set<Guid>, live: set<Guid>, home: map<Guid, Guid>, e: nat, n: Snap) {
    && n.root in n.own && n.own == n.view.Keys && n.own <= pool.Keys && n.own !! roots && n.root !in live
    && (forall g | g in n.own :: pool[g].img == n.view[g] && (g != n.root ==> pool[g].created <= e))
    && (forall g | g in n.own && g in live :: g in home && home[g] == n.tree)
    && (forall g, k | g in n.own && n.view[g](k).Below? :: n.view[g](k).child in n.own)
  }

  ghost predicate SnapsOk(s: State) {
    && IsBarrier(s.snaps, s.barrier)
    && (forall e | e in s.snaps :: 0 < e < s.current && SnapOk(s.pool, s.roots, s.live, s.home, e, s.snaps[e]))
  }

  /** A detached frame that some live snapshot owns waits for that snapshot's epoch. */
  ghost predicate WaitOk(s: State, g: Guid) {
    && g in s.pool && g !in s.live && g !in s.roots
    && (g in s.waiting ==> s.waiting[g].last < s.current)
    && (g in s.waiting ==> forall e | e in s.snaps && g in s.snaps[e].own ::
      s.waiting[g].first <= e <= s.waiting[g].last)
    && (g in s.retired ==> forall e | e in s.snaps :: g !in s.snaps[e].own)
  }

  ghost predicate Inv(s: State) {
    && LiveOk(s.pool, s.roots, s.live, s.home, s.current) && SnapsOk(s)
    && s.waiting.Keys !! s.retired && (forall g | g in s.waiting || g in s.retired :: WaitOk(s, g))
  }

  // ---------- reads ----------

  /** What a search for `k` from `g` finds within `n` frames. */
  ghost function Lookup(img: map<Guid, Image>, g: Guid, k: Key, n: nat): Option<Option<Value>>
    decreases n
  {
    if g !in img || n == 0 then None
    else match img[g](k)
      case Here(v) => Some(v)
      case Below(c) => Lookup(img, c, k, n - 1)
  }

  ghost function Images(pool: Pool): map<Guid, Image> { map g | g in pool :: pool[g].img }

  /** The frames that rank above `g`: the measure of a read that has reached `g`. */
  ghost function Above(pool: Pool, g: Guid): set<Guid>
    requires g in pool
  {
    set h | h in pool && pool[g].rank < pool[h].rank
  }

  lemma {:induction false} AboveShrinks(pool: Pool, g: Guid, h: Guid)
    requires g in pool && h in pool && pool[g].rank < pool[h].rank
    ensures |Above(pool, h)| < |Above(pool, g)|
  {
    assert h in Above(pool, g) && h !in Above(pool, h);
    SubsetSize(Above(pool, h) + {h}, Above(pool, g));
  }

  /** A read of the live tree ends at a record. */
  lemma {:induction false} ReadEnds(pool: Pool, roots: set<Guid>, live: set<Guid>, home: map<Guid, Guid>,
                                    current: nat, g: Guid, k: Key, n: nat)
    requires LiveOk(pool, roots, live, home, current) && g in live && |Above(pool, g)| < n
    ensures Lookup(Images(pool), g, k, n).Some?
    decreases n
  {
    if pool[g].img(k).Below? {
      var c := pool[g].img(k).child;
      assert DownOk(pool, roots, live, home, g, c);
      AboveShrinks(pool, g, c);
      ReadEnds(pool, roots, live, home, current, c, k, n - 1);
    }
  }

  /** The number of frames bounds every read. */
  lemma {:induction false} LiveReadEnds(s: State, g: Guid, k: Key, n: nat)
    requires Inv(s) && g in s.live && n >= |s.pool|
    ensures Lookup(Images(s.pool), g, k, n).Some?
  {
    assert g !in Above(s.pool, g);
    SubsetSize(Above(s.pool, g) + {g}, s.pool.Keys);
    assert |s.pool.Keys| == |s.pool|;
    ReadEnds(s.pool, s.roots, s.live, s.home, s.current, g, k, n);
  }

  /** The images of a snapshot's own frames decide its reads. */
  lemma {:induction false} ReadsOwn(pool: Pool, roots: set<Guid>, live: set<Guid>, home: map<Guid, Guid>, e: nat,
                                    n: Snap, g: Guid, k: Key, d: nat)
    requires SnapOk(pool, roots, live, home, e, n) && g in n.own
    ensures Lookup(Images(pool), g, k, d) == Lookup(n.view, g, k, d)
    decreases d
  {
    if d > 0 && n.view[g](k).Below? { ReadsOwn(pool, roots, live, home, e, n, n.view[g](k).child, k, d - 1); }
  }

  // ---------- every step keeps the invariant ----------

  /** What the code tests implies what the steps need. */
  lemma {:induction false} PrivateIsUnseen(s: State, g: Guid)
    requires Inv(s) && g in s.live && Private(s, g)
    ensures Unseen(s, g)
  {
  }

  /** And it still does after a capture of other trees: the writer's own gate kept its tree out of it. */
  lemma {:induction false} OtherCaptureKeepsUnseen(s: State, root: Guid, copy: Guid, g: Guid)
    requires Unseen(s, g) && CanTakeOne(s, root, copy) && g in s.home && s.home[g] != root && g in s.pool
    ensures Unseen(TakeOne(s, root, copy), g)
  {
  }

  /** A step that changes only unseen live frames, and adds new ones, leaves a snapshot alone. */
  lemma {:induction false} SnapStays(s: State, pool: Pool, live: set<Guid>, home: map<Guid, Guid>, e: nat)
    requires Inv(s) && e in s.snaps
    requires forall g | g in s.pool && !(g in s.live && Unseen(s, g)) :: g in pool && pool[g] == s.pool[g]
    requires forall g | g in s.home :: g in home && home[g] == s.home[g]
    requires forall g | g in live :: g in s.live || g !in s.pool
    ensures SnapOk(pool, s.roots, live, home, e, s.snaps[e])
  {
  }

  ghost predicate Leaves(s: State, t: State, c: Guid, first: nat) {
    c in s.live && c !in t.live && c !in s.roots && c in s.pool && (first == 0 || first == s.pool[c].created)
  }

  /** `t` is `s` after a step on unseen live frames that detaches at most `c`. */
  ghost predicate Changes(s: State, t: State, c: Option<Guid>, first: nat) {
    && t == s.(pool := t.pool, live := t.live, home := t.home, waiting := t.waiting)
    && (forall g | g in s.home :: g in t.home && t.home[g] == s.home[g])
    && (forall g | g in s.pool && !(g in s.live && Unseen(s, g)) :: g in t.pool && t.pool[g] == s.pool[g])
    && (forall g | g in s.pool :: g in t.pool) && (forall g | g in t.live :: g in s.live || g !in s.pool)
    && (c.None? ==> t.waiting == s.waiting)
    && (c.Some? ==> t.waiting == s.waiting[c.value := Span(first, s.barrier)] && Leaves(s, t, c.value, first))
  }

  lemma {:induction false} ChangeKeepsWait(s: State, t: State, c: Option<Guid>, first: nat, g: Guid)
    requires Inv(s) && Changes(s, t, c, first) && (g in t.waiting || g in t.retired)
    ensures WaitOk(t, g)
  {
  }

  lemma {:induction false} ChangeKeepsSnaps(s: State, t: State, c: Option<Guid>, first: nat)
    requires Inv(s) && Changes(s, t, c, first)
    ensures SnapsOk(t)
  {
    forall e | e in s.snaps ensures SnapOk(t.pool, t.roots, t.live, t.home, e, t.snaps[e]) {
      SnapStays(s, t.pool, t.live, t.home, e);
    }
  }

  lemma {:induction false} ChangeKeepsInv(s: State, t: State, c: Option<Guid>, first: nat)
    requires Inv(s) && Changes(s, t, c, first) && LiveOk(t.pool, t.roots, t.live, t.home, t.current)
    ensures Inv(t)
  {
    assert SnapsOk(t) by { ChangeKeepsSnaps(s, t, c, first); }
    assert t.waiting.Keys !! t.retired by {
      if c.Some? && c.value in s.retired { assert WaitOk(s, c.value); }
    }
    forall g | g in t.waiting || g in t.retired ensures WaitOk(t, g) { ChangeKeepsWait(s, t, c, first, g); }
  }

  // ---------- the live tree ----------

  lemma {:induction false} WriteKeepsLive(pool: Pool, roots: set<Guid>, live: set<Guid>, home: map<Guid, Guid>,
                                          current: nat, g: Guid, k: Key, v: Option<Value>)
    requires LiveOk(pool, roots, live, home, current) && g in live && pool[g].img(k).Here?
    ensures LiveOk(pool[g := pool[g].(img := SetSlot(pool[g].img, k, Here(v)))], roots, live, home, current)
  {
  }

  /** Replacing the child `c` of `p` by its copy `f` keeps the tree. */
  lemma {:induction false} ForkKeepsLive(pool: Pool, roots: set<Guid>, live: set<Guid>, home: map<Guid, Guid>,
                                         current: nat, p: Guid, c: Guid, f: Guid)
    requires LiveOk(pool, roots, live, home, current) && Edge(pool, live, p, c) && c in pool && f !in pool && f !in home
    ensures c in live && c !in roots && p != c
    ensures LiveOk(pool[f := CowFrame(pool[c].img, current,
      pool[c].rank)][p := pool[p].(img := Repoint(pool[p].img, c, f))],
                   roots, live - {c} + {f}, home[f := home[c]], current)
  {
  }

  lemma {:induction false} SpillKeepsLive(pool: Pool, roots: set<Guid>, live: set<Guid>, home: map<Guid, Guid>,
                                          current: nat, p: Guid, part: iset<Key>, rank: real, f: Guid)
    requires LiveOk(pool, roots, live, home, current) && p in live && f !in pool && f !in home
      && CanCut(pool, p, part, rank)
    ensures LiveOk(pool[f := CowFrame(Kept(pool[p].img, part), current,
      rank)][p := pool[p].(img := Cut(pool[p].img, part, f))],
                   roots, live + {f}, home[f := home[p]], current)
  {
  }

  lemma {:induction false} MergeKeepsLive(pool: Pool, roots: set<Guid>, live: set<Guid>, home: map<Guid, Guid>,
                                          current: nat, p: Guid, c: Guid)
    requires LiveOk(pool, roots, live, home, current) && Edge(pool, live, p, c) && c in pool
    ensures c in live && c !in roots && p != c
    ensures LiveOk(pool[p := pool[p].(img := Folded(pool[p].img, c, pool[c].img))], roots, live - {c}, home, current)
  {
  }

  // ---------- the steps ----------

  lemma {:induction false} WriteKeepsInv(s: State, g: Guid, k: Key, v: Option<Value>)
    requires Inv(s) && Enabled(s, Write(g, k, v))
    ensures Inv(Apply(s, Write(g, k, v)))
  {
    WriteKeepsLive(s.pool, s.roots, s.live, s.home, s.current, g, k, v);
    ChangeKeepsInv(s, Apply(s, Write(g, k, v)), None, 0);
  }

  lemma {:induction false} ForkKeepsInv(s: State, p: Guid, c: Guid, f: Guid)
    requires Inv(s) && Enabled(s, ForkOff(p, c, f))
    ensures Inv(Apply(s, ForkOff(p, c, f)))
  {
    ForkKeepsLive(s.pool, s.roots, s.live, s.home, s.current, p, c, f);
    ChangeKeepsInv(s, Apply(s, ForkOff(p, c, f)), Some(c), s.pool[c].created);
  }

  lemma {:induction false} SpillKeepsInv(s: State, p: Guid, part: iset<Key>, rank: real, f: Guid)
    requires Inv(s) && Enabled(s, SpillOut(p, part, rank, f))
    ensures Inv(Apply(s, SpillOut(p, part, rank, f)))
  {
    SpillKeepsLive(s.pool, s.roots, s.live, s.home, s.current, p, part, rank, f);
    ChangeKeepsInv(s, Apply(s, SpillOut(p, part, rank, f)), None, 0);
  }

  lemma {:induction false} MergeKeepsInv(s: State, p: Guid, c: Guid)
    requires Inv(s) && Enabled(s, MergeIn(p, c))
    ensures Inv(Apply(s, MergeIn(p, c)))
  {
    MergeKeepsLive(s.pool, s.roots, s.live, s.home, s.current, p, c);
    ChangeKeepsInv(s, Apply(s, MergeIn(p, c)), Some(c), 0);
  }

  /** A snapshot owns its root copy and every shared frame, all of them older than itself. */
  lemma {:induction false} TakenIsOk(s: State, root: Guid, copy: Guid)
    requires Inv(s) && CanTakeOne(s, root, copy)
    ensures SnapOk(TakeOne(s, root, copy).pool, s.roots, s.live, s.home, s.current, Taken(s, root, copy))
  {
  }

  lemma {:induction false} TakeOneKeepsLive(pool: Pool, roots: set<Guid>, live: set<Guid>, home: map<Guid, Guid>,
                                            current: nat, copy: Guid, f: CowFrame)
    requires LiveOk(pool, roots, live, home, current) && copy !in pool
    ensures LiveOk(pool[copy := f], roots, live, home, current + 1)
  {
  }

  lemma {:induction false} TakeOneKeepsSnaps(s: State, root: Guid, copy: Guid)
    requires Inv(s) && CanTakeOne(s, root, copy)
    ensures SnapsOk(TakeOne(s, root, copy))
  {
    var t := TakeOne(s, root, copy);
    TakenIsOk(s, root, copy);
    forall e | e in s.snaps ensures SnapOk(t.pool, t.roots, t.live, t.home, e, s.snaps[e]) {
      assert SnapOk(s.pool, s.roots, s.live, s.home, e, s.snaps[e]);
    }
  }

  lemma {:induction false} TakeOneKeepsInv(s: State, root: Guid, copy: Guid)
    requires Inv(s) && CanTakeOne(s, root, copy)
    ensures Inv(TakeOne(s, root, copy))
  {
    var t := TakeOne(s, root, copy);
    assert LiveOk(t.pool, t.roots, t.live, t.home, t.current) by {
      TakeOneKeepsLive(s.pool, s.roots, s.live, s.home, s.current, copy, s.pool[root]);
    }
    assert SnapsOk(t) by { TakeOneKeepsSnaps(s, root, copy); }
    forall g | g in t.waiting || g in t.retired ensures WaitOk(t, g) { TakeOneKeepsWait(s, root, copy, g); }
  }

  lemma {:induction false} TakeOneKeepsWait(s: State, root: Guid, copy: Guid, g: Guid)
    requires Inv(s) && CanTakeOne(s, root, copy) && (g in s.waiting || g in s.retired)
    ensures WaitOk(TakeOne(s, root, copy), g)
  {
    assert WaitOk(s, g);
  }

  lemma {:induction false} TakeKeepsInv(s: State, picks: seq<Guid>, copies: seq<Guid>, n: nat)
    requires Inv(s) && n <= |picks| == |copies| && CanTake(s, picks, copies, n)
    ensures Inv(Take(s, picks, copies, n))
  {
    if n > 0 {
      TakeKeepsInv(s, picks, copies, n - 1);
      TakeOneKeepsInv(Take(s, picks, copies, n - 1), picks[n - 1], copies[n - 1]);
    }
  }

  lemma {:induction false} RetireKeepsInv(s: State, e: nat, b: nat)
    requires Inv(s) && Enabled(s, Retire(e, b))
    ensures Inv(Apply(s, Retire(e, b)))
  {
  }

  lemma {:induction false} PromoteKeepsInv(s: State, g: Guid)
    requires Inv(s) && Enabled(s, Promote(g))
    ensures Inv(Apply(s, Promote(g)))
  {
  }

  /** Only a frame that no live snapshot owns is reclaimed. */
  lemma {:induction false} ReclaimKeepsInv(s: State, g: Guid)
    requires Inv(s) && Enabled(s, Reclaim(g))
    ensures Inv(Apply(s, Reclaim(g)))
  {
    var t := Apply(s, Reclaim(g));
    assert WaitOk(s, g);
    forall x, k | x in s.live && s.pool[x].img(k).Below?
      ensures DownOk(t.pool, t.roots, t.live, t.home, x, s.pool[x].img(k).child) {
      assert DownOk(s.pool, s.roots, s.live, s.home, x, s.pool[x].img(k).child);
    }
    forall e | e in s.snaps ensures SnapOk(t.pool, t.roots, t.live, t.home, e, s.snaps[e]) {
      assert SnapOk(s.pool, s.roots, s.live, s.home, e, s.snaps[e]);
    }
    forall h | h in t.waiting || h in t.retired ensures WaitOk(t, h) { assert WaitOk(s, h); }
  }

  lemma {:induction false} StepKeepsInv(s: State, a: Action)
    requires Inv(s) && Enabled(s, a)
    ensures Inv(Apply(s, a))
  {
    match a
    case Write(g, k, v) => WriteKeepsInv(s, g, k, v);
    case ForkOff(p, c, f) => ForkKeepsInv(s, p, c, f);
    case SpillOut(p, part, rank, f) => SpillKeepsInv(s, p, part, rank, f);
    case MergeIn(p, c) => MergeKeepsInv(s, p, c);
    case Capture(picks, copies) => TakeKeepsInv(s, picks, copies, |picks|);
    case Retire(e, b) => RetireKeepsInv(s, e, b);
    case Promote(g) => PromoteKeepsInv(s, g);
    case Reclaim(g) => ReclaimKeepsInv(s, g);
    case Reopen(clock) => ReopenKeepsInv(s, clock);
  }

  lemma {:induction false} ReopenKeepsInv(s: State, clock: nat)
    requires Inv(s) && Enabled(s, Reopen(clock))
    ensures Inv(Apply(s, Reopen(clock)))
  {
  }
}
