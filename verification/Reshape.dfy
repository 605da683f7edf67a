/** Changes of shape that leave the content of a tree alone: spilling a subtree into a fresh
    child frame, folding a child back into its parent, and forking a child copy-on-write. */
module Reshape {
  import opened Options
  import opened WalHistory
  import opened FrameTree

  // ---------- spill ----------

  /** `part` of frame `p` may move to a new child of rank `rank`: it cuts no child's territory
      and the new frame fits between `p` and the children it takes along. */
  ghost predicate CanSpill(births: Births, live: set<Guid>, c: Frames, p: Guid, part: iset<Key>, rank: real,
                           child: Guid)
  {
    && p in live && p in c && p in births && child !in births && child !in c
    && part <= births[p].terr && births[p].rank < rank
    && forall k :: k in part && c[p].img(k).Below? ==>
         var h := c[p].img(k).child; h in births && births[h].terr <= part && rank < births[h].rank
  }

  ghost function Redirect(img: Image, part: iset<Key>, child: Guid): Image {
    (k: Key) => if k in part then Below(child) else img(k)
  }

  ghost function Spill(c: Frames, p: Guid, part: iset<Key>, child: Guid): Frames
    requires p in c
  {
    c[child := Frame(c[p].img, 0)][p := Frame(Redirect(c[p].img, part, child), c[p].ver + 1)]
  }

  /** Well-formedness survives new births and new frames to point at. */
  lemma {:induction false} ShapedGrows(births: Births, births': Births, among: set<Guid>, among': set<Guid>, g: Guid,
                                       img: Image)
    requires Shaped(births, among, g, img) && among <= among'
    requires forall h :: h in births ==> h in births' && births'[h] == births[h]
    ensures Shaped(births', among', g, img)
  {
  }

  lemma {:induction false} SpillShapes(births: Births, births': Births, live: set<Guid>, c: Frames, p: Guid,
                                       part: iset<Key>, rank: real, child: Guid)
    requires CanSpill(births, live, c, p, part, rank, child) && Shaped(births, live, p, c[p].img)
    requires births' == births[child := Birth(part, rank)]
    ensures Shaped(births', live + {child}, child, c[p].img)
    ensures Shaped(births', live + {child}, p, Redirect(c[p].img, part, child))
  {
  }

  lemma {:induction false} SpillKeepsTree(births: Births, live: set<Guid>, root: Guid, c: Frames, cur: Content,
                                          p: Guid, part: iset<Key>, rank: real, child: Guid)
    requires TreeOk(births, live, root, c, cur) && CanSpill(births, live, c, p, part, rank, child)
    ensures TreeOk(births[child := Birth(part, rank)], live + {child}, root, Spill(c, p, part, child), cur)
  {
    var births', live', c' := births[child := Birth(part, rank)], live + {child}, Spill(c, p, part, child);
    SpillShapes(births, births', live, c, p, part, rank, child);
    forall g | g in live' ensures Shaped(births', live', g, c'[g].img) {
      if g != p && g != child { ShapedGrows(births, births', live, live', g, c[g].img); }
    }
    forall g, k | Through(births', live', c', g, k) && c'[g].img(k).Here?
      ensures c'[g].img(k).val == cur(k)
    {
      assert Through(births, live, c, if g == child then p else g, k);
    }
    forall g, h, k | Through(births', live', c', g, k) && Through(births', live', c', h, k)
      ensures c'[g].img(k).Next() == c'[h].img(k).Next() ==> g == h
    {
      SpillNext(births, live, root, c, cur, p, part, rank, child, g, k);
      SpillNext(births, live, root, c, cur, p, part, rank, child, h, k);
      assert Through(births, live, c, if g == child then p else g, k);
      assert Through(births, live, c, if h == child then p else h, k);
    }
  }

  /** After a spill only `p` leads to the new child, and the child took over the slots of `p`. */
  lemma {:induction false} SpillNext(births: Births, live: set<Guid>, root: Guid, c: Frames, cur: Content, p: Guid,
                                     part: iset<Key>, rank: real, child: Guid, g: Guid, k: Key)
    requires TreeOk(births, live, root, c, cur) && CanSpill(births, live, c, p, part, rank, child)
    requires Through(births[child := Birth(part, rank)], live + {child}, Spill(c, p, part, child), g, k)
    ensures var next := Spill(c, p, part, child)[g].img(k).Next();
      && (next == Some(child) <==> g == p && k in part)
      && (next != Some(child) ==> next == c[if g == child then p else g].img(k).Next() && (g == p ==> k !in part))
  {
  }

  // ---------- merge and fork ----------

  /** `p` is the parent of `child`. */
  ghost predicate HasEdge(births: Births, live: set<Guid>, c: Frames, p: Guid, child: Guid, k: Key) {
    p != child && child in live && child in c && Through(births, live, c, p, k) && c[p].img(k) == Below(child)
  }

  function Inline(img: Image, child: Guid, sub: Image): Image {
    (k: Key) => if img(k) == Below(child) then sub(k) else img(k)
  }

  function Merge(c: Frames, p: Guid, child: Guid): Frames
    requires p in c && child in c
  {
    c[p := Frame(Inline(c[p].img, child, c[child].img), c[p].ver + 1)]
  }

  function Repoint(img: Image, child: Guid, fork: Guid): Image {
    (k: Key) => if img(k) == Below(child) then Below(fork) else img(k)
  }

  function Fork(c: Frames, p: Guid, child: Guid, fork: Guid): Frames
    requires p in c && child in c
  {
    c[fork := Frame(c[child].img, 0)][p := Frame(Repoint(c[p].img, child, fork), c[p].ver + 1)]
  }

  /** Only its parent leads to a child, and it leads there for the child's whole territory. */
  lemma {:induction false} OnlyParent(births: Births, live: set<Guid>, root: Guid, c: Frames, cur: Content, p: Guid,
                                      child: Guid, k0: Key, g: Guid, k: Key)
    requires TreeOk(births, live, root, c, cur) && HasEdge(births, live, c, p, child, k0)
    requires Through(births, live, c, g, k)
    ensures c[g].img(k) == Below(child) ==> g == p && k in births[child].terr
    ensures k in births[child].terr ==> c[p].img(k) == Below(child) && k in births[p].terr
  {
  }

  lemma {:induction false} MergeShapes(births: Births, live: set<Guid>, root: Guid, c: Frames, cur: Content, p: Guid,
                                       child: Guid, k0: Key)
    requires TreeOk(births, live, root, c, cur) && HasEdge(births, live, c, p, child, k0)
    ensures Shaped(births, live - {child}, p, Inline(c[p].img, child, c[child].img))
  {
  }

  /** A live frame other than the parent keeps well-formed edges when the child is detached. */
  lemma {:induction false} OthersDetach(births: Births, live: set<Guid>, root: Guid, c: Frames, cur: Content,
                                        p: Guid, child: Guid, k0: Key, g: Guid)
    requires TreeOk(births, live, root, c, cur) && HasEdge(births, live, c, p, child, k0)
    requires g in live && g != p
    ensures Shaped(births, live - {child}, g, c[g].img)
  {
  }

  lemma {:induction false} MergeKeepsTree(births: Births, live: set<Guid>, root: Guid, c: Frames, cur: Content,
                                          p: Guid, child: Guid, k0: Key)
    requires TreeOk(births, live, root, c, cur) && HasEdge(births, live, c, p, child, k0)
    ensures TreeOk(births, live - {child}, root, Merge(c, p, child), cur)
  {
    var live', c' := live - {child}, Merge(c, p, child);
    assert EdgeOk(births, live, p, c[p].img, k0, child);
    MergeShapes(births, live, root, c, cur, p, child, k0);
    forall g | g in live' ensures Shaped(births, live', g, c'[g].img) {
      if g != p { OthersDetach(births, live, root, c, cur, p, child, k0, g); }
    }
    forall g, k | Through(births, live', c', g, k)
      ensures c'[g].img(k).Here? ==> c'[g].img(k).val == cur(k)
      ensures Through(births, live, c, Origin(c, p, child, g, k), k)
      ensures c'[g].img(k) == c[Origin(c, p, child, g, k)].img(k)
    {
      assert Through(births, live, c, g, k);
      OnlyParent(births, live, root, c, cur, p, child, k0, g, k);
    }
    forall g, h, k | Through(births, live', c', g, k) && Through(births, live', c', h, k)
      ensures c'[g].img(k).Next() == c'[h].img(k).Next() ==> g == h
    {
      assert Through(births, live, c, Origin(c, p, child, g, k), k);
      assert Through(births, live, c, Origin(c, p, child, h, k), k);
    }
  }

  /** Where the slot that `g` has for `k` after the merge came from. */
  function Origin(c: Frames, p: Guid, child: Guid, g: Guid, k: Key): Guid {
    if g == p && p in c && c[p].img(k) == Below(child) then child else g
  }

  lemma {:induction false} ForkShapes(births: Births, births': Births, live: set<Guid>, root: Guid, c: Frames,
                                      cur: Content, p: Guid, child: Guid, fork: Guid, k0: Key)
    requires TreeOk(births, live, root, c, cur) && HasEdge(births, live, c, p, child, k0)
    requires fork !in births && fork !in c && births' == births[fork := births[child]]
    ensures Shaped(births', live - {child} + {fork}, p, Repoint(c[p].img, child, fork))
    ensures Shaped(births', live - {child} + {fork}, fork, c[child].img)
  {
    var img, sub, live' := c[p].img, c[child].img, live - {child} + {fork};
    var img' := Repoint(img, child, fork);
    assert EdgeOk(births, live, p, img, k0, child);
    forall k | k in births'[p].terr && img'(k).Below?
      ensures EdgeOk(births', live', p, img', k, img'(k).child)
    {
      assert EdgeOk(births, live, p, img, k, img(k).child);
    }
    forall k | k in births'[fork].terr && sub(k).Below?
      ensures EdgeOk(births', live', fork, sub, k, sub(k).child)
    {
      assert EdgeOk(births, live, child, sub, k, sub(k).child);
    }
  }

  lemma {:induction false} ForkKeepsTree(births: Births, live: set<Guid>, root: Guid, c: Frames, cur: Content,
                                         p: Guid, child: Guid, fork: Guid, k0: Key)
    requires TreeOk(births, live, root, c, cur) && HasEdge(births, live, c, p, child, k0)
    requires fork !in births && fork !in c
    ensures child in births
    ensures TreeOk(births[fork := births[child]], live - {child} + {fork}, root, Fork(c, p, child, fork), cur)
  {
    var births', live', c' := births[fork := births[child]], live - {child} + {fork}, Fork(c, p, child, fork);
    assert EdgeOk(births, live, p, c[p].img, k0, child);
    ForkShapes(births, births', live, root, c, cur, p, child, fork, k0);
    forall g | g in live' ensures Shaped(births', live', g, c'[g].img) {
      if g != p && g != fork {
        OthersDetach(births, live, root, c, cur, p, child, k0, g);
        ShapedGrows(births, births', live - {child}, live', g, c[g].img);
      }
    }
    forall g, k | Through(births', live', c', g, k)
      ensures c'[g].img(k).Here? ==> c'[g].img(k).val == cur(k)
      ensures Through(births, live, c, if g == fork then child else g, k)
      ensures c'[g].img(k).Next() == if g == p && c[p].img(k) == Below(child) then Some(fork)
        else c[if g == fork then child else g].img(k).Next()
      ensures c'[g].img(k).Next() == Some(fork) ==> g == p
    {
      var o := if g == fork then child else g;
      assert Through(births, live, c, o, k);
      if c[o].img(k).Below? { assert EdgeOk(births, live, o, c[o].img, k, c[o].img(k).child); }
    }
    forall g, h, k | Through(births', live', c', g, k) && Through(births', live', c', h, k)
      ensures c'[g].img(k).Next() == c'[h].img(k).Next() ==> g == h
    {
      assert Through(births, live, c, if g == fork then child else g, k);
      assert Through(births, live, c, if h == fork then child else h, k);
    }
  }
}
