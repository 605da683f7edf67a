/** Trees of blob frames.

    A frame image says, for every key, whether the key's record is stored in this frame (`Here`)
    or which child frame the search continues in (`Below`). A tree is a set of live frames whose
    images route every key from the root to exactly one frame that stores it.

    Every frame is born with a territory, the keys that are searched through it, and a rank that
    grows along every edge. Both never change for a guid; they are what makes images taken at
    different times of the same frames fit together after a crash. */
module FrameTree {
  import opened Options
  import opened WalHistory

  type Guid = nat

  datatype Slot = Here(val: Option<Value>) | Below(child: Guid) {
    function Next(): Option<Guid> { if Here? then None else Some(child) }
  }

  type Image = Key -> Slot

  /** A cached frame: its image and the content version that every change increases. */
  datatype Frame = Frame(img: Image, ver: nat)
  type Frames = map<Guid, Frame>

  datatype Birth = Birth(terr: iset<Key>, rank: real)
  type Births = map<Guid, Birth>

  // ---------- well-formed trees ----------

  /** The edge to `h` that `img`, an image of frame `g`, takes for key `k`: it leads to a frame of
      `among`, down in rank order, and it is taken for the whole territory of `h`. */
  ghost predicate EdgeOk(births: Births, among: set<Guid>, g: Guid, img: Image, k: Key, h: Guid) {
    && g in births && h in births && h in among
    && k in births[h].terr
    && births[g].rank < births[h].rank
    && births[h].terr <= births[g].terr
    && forall x :: x in births[h].terr ==> img(x) == Below(h)
  }

  /** Every edge of `img` inside the territory of `g` is well-formed. */
  ghost predicate Shaped(births: Births, among: set<Guid>, g: Guid, img: Image) {
    && g in births
    && forall k :: k in births[g].terr && img(k).Below? ==> EdgeOk(births, among, g, img, k, img(k).child)
  }

  /** Key `k` is searched through the live frame `g`. */
  ghost predicate Through(births: Births, live: set<Guid>, c: Frames, g: Guid, k: Key) {
    g in live && g in births && g in c && k in births[g].terr
  }

  /** The live frames of `c` form a tree with content `cur`. */
  ghost predicate TreeOk(births: Births, live: set<Guid>, root: Guid, c: Frames, cur: Content) {
    && root in live && live <= c.Keys && live <= births.Keys
    && (forall k :: k in births[root].terr)
    && (forall g :: g in births ==> births[root].rank <= births[g].rank)
    && (forall g :: g in live ==> Shaped(births, live, g, c[g].img))
    && (forall g, k :: Through(births, live, c, g, k) && c[g].img(k).Here? ==> c[g].img(k).val == cur(k))
    && (forall g, h, k | Through(births, live, c, g, k) && Through(births, live, c, h, k)
          :: c[g].img(k).Next() == c[h].img(k).Next() ==> g == h)
  }

  // ---------- search ----------

  /** The frames that rank above `g`: the measure of a search that has reached `g`. */
  ghost function Deeper(births: Births, g: Guid): set<Guid>
    requires g in births
  {
    set h | h in births && births[g].rank < births[h].rank
  }

  /** Follow `k` from `g` for at most `fuel` edges to the frame that stores it. */
  ghost function Locate(c: Frames, g: Guid, k: Key, fuel: nat): Option<Guid>
    decreases fuel
  {
    if g !in c then None
    else if c[g].img(k).Here? then Some(g)
    else if fuel == 0 then None
    else Locate(c, c[g].img(k).child, k, fuel - 1)
  }

  lemma {:induction false} DeeperShrinks(births: Births, g: Guid, h: Guid)
    requires g in births && h in births && births[g].rank < births[h].rank
    ensures |Deeper(births, h)| < |Deeper(births, g)|
  {
    assert h in Deeper(births, g) && h !in Deeper(births, h);
    SubsetSize(Deeper(births, h) + {h}, Deeper(births, g));
  }

  lemma {:induction false} SubsetSize<T>(a: set<T>, b: set<T>)
    requires a <= b
    ensures |a| <= |b|
  {
    assert b == a + (b - a);
  }

  lemma {:induction false} DeeperBound(births: Births, g: Guid)
    requires g in births
    ensures |Deeper(births, g)| < |births|
  {
    assert g !in Deeper(births, g);
    SubsetSize(Deeper(births, g) + {g}, births.Keys);
    assert |births.Keys| == |births|;
  }

  /** In a well-formed tree a search ends, with fuel to spare, at a frame that stores the key. */
  lemma {:induction false} LocateFinds(births: Births, live: set<Guid>, root: Guid, c: Frames, cur: Content, g: Guid,
                                       k: Key, fuel: nat)
    requires TreeOk(births, live, root, c, cur)
    requires Through(births, live, c, g, k) && |Deeper(births, g)| <= fuel
    ensures Locate(c, g, k, fuel).Some?
    ensures Through(births, live, c, Locate(c, g, k, fuel).value, k)
    ensures c[Locate(c, g, k, fuel).value].img(k) == Here(cur(k))
    decreases fuel
  {
    var slot := c[g].img(k);
    if slot.Below? {
      assert EdgeOk(births, live, g, c[g].img, k, slot.child);
      DeeperShrinks(births, g, slot.child);
      LocateFinds(births, live, root, c, cur, slot.child, k, fuel - 1);
    }
  }

  lemma {:induction false} LocateFromRoot(births: Births, live: set<Guid>, root: Guid, c: Frames, cur: Content, k: Key)
    requires TreeOk(births, live, root, c, cur)
    ensures Locate(c, root, k, |births|).Some?
    ensures Through(births, live, c, Locate(c, root, k, |births|).value, k)
    ensures c[Locate(c, root, k, |births|).value].img(k) == Here(cur(k))
  {
    DeeperBound(births, root);
    LocateFinds(births, live, root, c, cur, root, k, |births|);
  }

  // ---------- one record ----------

  function SetSlot(img: Image, k: Key, s: Slot): Image {
    (x: Key) => if x == k then s else img(x)
  }

  function WriteSlot(c: Frames, g: Guid, k: Key, v: Option<Value>): Frames
    requires g in c
  {
    c[g := Frame(SetSlot(c[g].img, k, Here(v)), c[g].ver + 1)]
  }

  lemma {:induction false} ShapedAfterWrite(births: Births, among: set<Guid>, g: Guid, img: Image, k: Key,
                                            v: Option<Value>)
    requires Shaped(births, among, g, img) && img(k).Here?
    ensures Shaped(births, among, g, SetSlot(img, k, Here(v)))
  {
  }

  /** Overwriting the slot that stores `k` changes the content at `k` and nowhere else. */
  lemma {:induction false} WriteKeepsTree(births: Births, live: set<Guid>, root: Guid, c: Frames, cur: Content,
                                          cur': Content, g: Guid, k: Key, v: Option<Value>)
    requires TreeOk(births, live, root, c, cur)
    requires Through(births, live, c, g, k) && c[g].img(k).Here?
    requires cur'(k) == v && forall x :: x != k ==> cur'(x) == cur(x)
    ensures TreeOk(births, live, root, WriteSlot(c, g, k, v), cur')
  {
    var c' := WriteSlot(c, g, k, v);
    ShapedAfterWrite(births, live, g, c[g].img, k, v);
    forall h, x | Through(births, live, c', h, x) && c'[h].img(x).Here?
      ensures c'[h].img(x).val == cur'(x)
    {
      assert Through(births, live, c, h, x);
    }
    forall a, b, x | Through(births, live, c', a, x) && Through(births, live, c', b, x)
                  && c'[a].img(x).Next() == c'[b].img(x).Next()
      ensures a == b
    {
      assert Through(births, live, c, a, x) && Through(births, live, c, b, x);
    }
  }

  // ---------- whole batches ----------

  /** The frames after a batch, and the frames it changed. */
  datatype Applied = Applied(frames: Frames, touched: set<Guid>)

  /** Apply each operation at the frame a search from the root finds for its key. */
  ghost function ApplyOps(c: Frames, root: Guid, fuel: nat, ops: Batch): Applied
    decreases |ops|
  {
    if ops == [] then Applied(c, {})
    else
      var r := ApplyOps(c, root, fuel, ops[..|ops| - 1]);
      var op := ops[|ops| - 1];
      match Locate(r.frames, root, op.key, fuel)
      case Some(g) =>
        if g in r.frames
        then Applied(WriteSlot(r.frames, g, op.key, op.val), r.touched + {g})
        else r
      case None => r
  }

  function AfterOps(cur: Content, ops: Batch): Content {
    (k: Key) => KeyAfter(cur(k), ops, k)
  }

  /** A batch takes a tree with content `cur` to a tree whose content is the batch applied to
      `cur`. Frames outside `touched` keep image and version; a touched frame gets a new version. */
  lemma {:induction false} BatchKeepsTree(births: Births, live: set<Guid>, root: Guid, c: Frames, cur: Content,
                                          ops: Batch)
    requires TreeOk(births, live, root, c, cur)
    ensures var r := ApplyOps(c, root, |births|, ops);
      && TreeOk(births, live, root, r.frames, AfterOps(cur, ops))
      && r.frames.Keys == c.Keys && r.touched <= live
      && (forall g :: g in c && g !in r.touched ==> r.frames[g] == c[g])
      && (forall g :: g in r.touched ==> c[g].ver < r.frames[g].ver)
    decreases |ops|
  {
    if ops == [] {
      assert forall k :: AfterOps(cur, ops)(k) == cur(k);
    } else {
      var init, op := ops[..|ops| - 1], ops[|ops| - 1];
      BatchKeepsTree(births, live, root, c, cur, init);
      var r := ApplyOps(c, root, |births|, init);
      LocateFromRoot(births, live, root, r.frames, AfterOps(cur, init), op.key);
      var g := Locate(r.frames, root, op.key, |births|).value;
      WriteKeepsTree(births, live, root, r.frames, AfterOps(cur, init), AfterOps(cur, ops), g, op.key, op.val);
    }
  }

  /** A tree stays a tree when the birth records of other guids are added, as long as its content
      is the same function of the keys. */
  lemma {:induction false} SameContent(births: Births, live: set<Guid>, root: Guid, c: Frames, cur: Content,
                                       cur': Content)
    requires TreeOk(births, live, root, c, cur)
    requires forall k :: cur(k) == cur'(k)
    ensures TreeOk(births, live, root, c, cur')
  {
  }
}
