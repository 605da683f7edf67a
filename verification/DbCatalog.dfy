/** The catalog of named trees: allocation of tree ids, create, drop, bounded collection of what a
    dropped tree leaves, and reopening after a crash between any two of these steps.

    The catalog is itself a logged tree, so a crash takes it back to some earlier version, but not
    behind the last one made durable. */
module DbCatalog {
  import opened Options

  type Name = string
  type Guid(==, !new)

  const U64_MAX: nat := 0xffff_ffff_ffff_ffff
  const CATALOG_ID: nat := 0x686f_6c74_6462_0001
  const FIRST_USER_TREE_ID: nat := 1

  datatype Status = Live | Dropping
  datatype Entry = Entry(id: nat, status: Status)
  datatype Cat = Cat(entries: map<Name, Entry>, next: nat)

  /** A tree's root frame has a name derived from its id; the frames below have fresh ones. */
  datatype Frame = Root(id: nat) | Inner(guid: Guid)

  datatype Error = InvalidName | TreeExists | TreeNotFound | IdsExhausted

  predicate ValidName(n: Name) { n != "" && n[0] != '\0' }

  const COUNTER_KEY: Name := "\0next-tree-id"

  /** The key of the id counter is no valid name. */
  lemma {:induction false} CounterIsNoName(n: Name)
    requires ValidName(n)
    ensures n != COUNTER_KEY
  {
  }

  /** The id after `id`: the catalog's own id is skipped, and 64 bits may run out. */
  function NextId(id: nat): Option<nat> {
    var next := if id + 1 == CATALOG_ID then id + 2 else id + 1;
    if next > U64_MAX then None else Some(next)
  }

  predicate UserId(id: nat) { 0 < id && id != CATALOG_ID }

  // ---------- one version of the catalog ----------

  /** Names are valid, ids are user ids below the counter, and no two names share one. */
  ghost predicate CatOk(c: Cat) {
    && UserId(c.next)
    && (forall n | n in c.entries :: ValidName(n) && UserId(c.entries[n].id) && c.entries[n].id < c.next)
    && (forall n, m | n in c.entries && m in c.entries && c.entries[n].id == c.entries[m].id :: n == m)
  }

  /** The whole closure of every Live tree of this version is stored. */
  ghost predicate Stored(c: Cat, closure: map<nat, set<Frame>>, store: set<Frame>) {
    forall n | n in c.entries && c.entries[n].status.Live? :: ClosureStored(c.entries[n].id, closure, store)
  }

  predicate ClosureStored(id: nat, closure: map<nat, set<Frame>>, store: set<Frame>) {
    id in closure && Root(id) in closure[id] && closure[id] <= store
  }

  function Created(c: Cat, n: Name, next: nat): Cat { Cat(c.entries[n := Entry(c.next, Live)], next) }

  function Dropped(c: Cat, n: Name): Cat
    requires n in c.entries
  {
    c.(entries := c.entries[n := Entry(c.entries[n].id, Dropping)])
  }

  function Removed(c: Cat, gone: set<Name>): Cat { c.(entries := c.entries - gone) }

  lemma {:induction false} CreatedOk(c: Cat, n: Name)
    requires CatOk(c) && ValidName(n) && n !in c.entries && NextId(c.next).Some?
    ensures CatOk(Created(c, n, NextId(c.next).value)) && c.next < NextId(c.next).value
  {
  }

  lemma {:induction false} CreatedStored(c: Cat, n: Name, next: nat, closure: map<nat, set<Frame>>, store: set<Frame>)
    requires Stored(c, closure, store) && ClosureStored(c.next, closure, store)
    ensures Stored(Created(c, n, next), closure, store)
  {
  }

  lemma {:induction false} DroppedStored(c: Cat, n: Name, closure: map<nat, set<Frame>>, store: set<Frame>)
    requires Stored(c, closure, store) && n in c.entries
    ensures Stored(Dropped(c, n), closure, store)
  {
  }

  lemma {:induction false} DroppedOk(c: Cat, n: Name)
    requires CatOk(c) && n in c.entries
    ensures CatOk(Dropped(c, n))
  {
  }

  lemma {:induction false} RemovedOk(c: Cat, gone: set<Name>, closure: map<nat, set<Frame>>, store: set<Frame>)
    requires CatOk(c) && Stored(c, closure, store)
    ensures CatOk(Removed(c, gone)) && Stored(Removed(c, gone), closure, store)
  {
  }

  /** No tree leads to another tree's root. */
  ghost predicate OwnRoots(closure: map<nat, set<Frame>>) {
    forall i, j | i in closure && Root(j) in closure[i] :: i == j
  }

  /** A tree's frames are kept while it is Live, or pinned by a handle that outlived the drop. */
  predicate Retained(e: Entry, pins: set<nat>) { e.status.Live? || e.id in pins }

  /** What a collection must keep: the catalog, the retained trees and what snapshots share. */
  function Reach(c: Cat, pins: set<nat>, closure: map<nat, set<Frame>>, shared: set<Frame>): set<Frame> {
    (if CATALOG_ID in closure then closure[CATALOG_ID] else {}) + shared
    + set n, f | n in c.entries && Retained(c.entries[n], pins) && c.entries[n].id in closure
      && f in closure[c.entries[n].id] :: f
  }

  lemma {:induction false} SweepKeepsStored(c: Cat, pins: set<nat>, closure: map<nat, set<Frame>>,
                                            shared: set<Frame>, store: set<Frame>, f: Frame)
    requires Stored(c, closure, store) && ClosureStored(CATALOG_ID, closure, store) && shared <= store
    requires f !in Reach(c, pins, closure, shared)
    ensures Stored(c, closure, store - {f}) && ClosureStored(CATALOG_ID, closure, store - {f}) && shared <= store - {f}
  {
  }

  /** The root of a dropped tree that nothing pins is collected. */
  lemma {:induction false} DroppedIsUnreachable(c: Cat, pins: set<nat>, closure: map<nat, set<Frame>>,
                                                shared: set<Frame>, n: Name)
    requires CatOk(c) && OwnRoots(closure) && (forall f | f in shared :: f.Inner?)
    requires n in c.entries && !Retained(c.entries[n], pins)
    ensures Root(c.entries[n].id) !in Reach(c, pins, closure, shared)
  {
  }

  /** Every cached entry is the stored one. */
  ghost predicate CacheOk(cache: map<Name, Entry>,
                          c: Cat) { forall n | n in cache :: n in c.entries && cache[n] == c.entries[n] }

  // ---------- the versions of the catalog ----------

  /** The counter never goes back, so ids only grow from version to version. */
  ghost predicate IdsOk(hist: seq<Cat>) {
    && |hist| > 0 && (forall i | 0 <= i < |hist| :: CatOk(hist[i]))
    && (forall i, j | 0 <= i < j < |hist| :: hist[i].next <= hist[j].next)
  }

  lemma {:induction false} IdsGrow(hist: seq<Cat>, c: Cat)
    requires IdsOk(hist) && CatOk(c) && hist[|hist| - 1].next <= c.next
    ensures IdsOk(hist + [c])
  {
  }

  /** Whatever version a crash goes back to, the closures of its Live trees are stored. */
  ghost predicate SafeOk(hist: seq<Cat>, durable: nat, closure: map<nat, set<Frame>>, store: set<Frame>) {
    forall i | durable <= i < |hist| :: Stored(hist[i], closure, store)
  }

  lemma {:induction false} SafeGrow(hist: seq<Cat>, durable: nat, closure: map<nat, set<Frame>>, store: set<Frame>,
                                    c: Cat)
    requires SafeOk(hist, durable, closure, store) && Stored(c, closure, store)
    ensures SafeOk(hist + [c], durable, closure, store)
  {
  }

  lemma {:induction false} OlderIsOk(hist: seq<Cat>, durable: nat, closure: map<nat, set<Frame>>, store: set<Frame>,
                                     k: nat)
    requires IdsOk(hist) && SafeOk(hist, durable, closure, store) && k < |hist|
    ensures IdsOk(hist[..k + 1]) && SafeOk(hist[..k + 1], durable, closure, store)
  {
  }

  /** A root prepared for the next id disturbs no version: none has that id yet. */
  lemma {:induction false} SafePrepare(hist: seq<Cat>, durable: nat, closure: map<nat, set<Frame>>,
                                       store: set<Frame>, id: nat, i: nat)
    requires IdsOk(hist) && SafeOk(hist, durable, closure, store) && id == hist[|hist| - 1].next
      && durable <= i < |hist|
    ensures Stored(hist[i], closure[id := {Root(id)}], store + {Root(id)})
  {
  }

  /** An id at the counter was never used in any version. */
  lemma {:induction false} NextIsFresh(hist: seq<Cat>, i: nat, m: Name)
    requires IdsOk(hist) && i < |hist| && m in hist[i].entries
    ensures hist[i].entries[m].id < hist[|hist| - 1].next
  {
  }

  /** The tombstones whose root frame is gone. */
  function Finished(c: Cat, store: set<Frame>): set<Name> {
    set n | n in c.entries && c.entries[n].status.Dropping? && Root(c.entries[n].id) !in store
  }

  /** The catalog without its tombstones. */
  function OnlyLive(c: Cat): Cat { Cat(map n | n in c.entries && c.entries[n].status.Live? :: c.entries[n], c.next) }

  /** Once only reachable frames are stored, every tombstone is finished, and only tombstones are. */
  lemma {:induction false} FinishesDropped(c: Cat, closure: map<nat, set<Frame>>, shared: set<Frame>, store: set<Frame>)
    requires CatOk(c) && OwnRoots(closure) && (forall f | f in shared :: f.Inner?)
      && store <= Reach(c, {}, closure, shared)
    ensures Removed(c, Finished(c, store)) == OnlyLive(c)
  {
    forall n | n in c.entries && c.entries[n].status.Dropping? ensures n in Finished(c, store) {
      DroppedIsUnreachable(c, {}, closure, shared, n);
    }
  }

  // ---------- the database ----------

  class Database {
    var cat: Cat
    var cache: map<Name, Entry>
    var store: set<Frame>
    var pins: set<nat>
    /** The frames that live snapshots protect. */
    var shared: set<Frame>
    /** The frames that a walk from each tree's root finds; the catalog's own among them. */
    var closure: map<nat, set<Frame>>
    /** Every version of the catalog so far, and the last one known durable. */
    ghost var hist: seq<Cat>
    ghost var durable: nat

    ghost predicate Valid()
      reads this
    {
      && IdsOk(hist) && durable < |hist| && hist[|hist| - 1] == cat
      && SafeOk(hist, durable, closure, store) && ClosureStored(CATALOG_ID, closure, store) && shared <= store
      && CacheOk(cache, cat) && OwnRoots(closure) && (forall f | f in shared :: f.Inner?)
    }

    constructor ()
      ensures Valid() && cat == Cat(map[], FIRST_USER_TREE_ID) && shared == {} && pins == {}
    {
      cat, cache, store, pins, shared := Cat(map[], FIRST_USER_TREE_ID), map[], {Root(CATALOG_ID)}, {}, {};
      hist, durable, closure := [Cat(map[], FIRST_USER_TREE_ID)], 0, map[CATALOG_ID := {Root(CATALOG_ID)}];
    }

    /** Look a name up through the cache, which it fills. */
    method Lookup(n: Name) returns (e: Option<Entry>)
      requires Valid()
      modifies `cache
      ensures Valid()
      ensures e == if n in cat.entries then Some(cat.entries[n]) else None
    {
      if n in cache { return Some(cache[n]); }
      if n !in cat.entries { return None; }
      cache := cache[n := cat.entries[n]];
      return Some(cat.entries[n]);
    }

    /** A batch on the catalog tree commits, and the cache follows. */
    method Advance(c: Cat, entries: map<Name, Entry>)
      requires Valid() && CatOk(c) && cat.next <= c.next && Stored(c, closure, store) && CacheOk(entries, c)
      modifies `cat, `cache, `hist
      ensures Valid() && cat == c && hist == old(hist) + [c]
    {
      IdsGrow(hist, c);
      SafeGrow(hist, durable, closure, store, c);
      cat, cache := c, entries;
      hist := hist + [c];
    }

    /** The next id gets its root frame, durably, before any name leads to it. */
    method PrepareRoot() returns (id: nat)
      requires Valid()
      modifies `store, `closure
      ensures Valid() && cat == old(cat) && id == cat.next && store == old(store) + {Root(id)}
      ensures closure == old(closure)[id := {Root(id)}]
    {
      id := cat.next;
      forall i | durable <= i < |hist| ensures Stored(hist[i], closure[id := {Root(id)}], store + {Root(id)}) {
        SafePrepare(hist, durable, closure, store, id, i);
      }
      store := store + {Root(id)};
      closure := closure[id := {Root(id)}];
    }

    /** The name and the advanced counter enter the catalog in one batch. */
    method Publish(n: Name) returns (e: Option<Error>)
      requires Valid() && ValidName(n) && n !in cat.entries && ClosureStored(cat.next, closure, store)
      modifies `cat, `cache, `hist
      ensures Valid()
      ensures NextId(old(cat).next).None? ==> e == Some(IdsExhausted) && cat == old(cat) && hist == old(hist)
      ensures NextId(old(cat).next).Some? ==> e == None && hist == old(hist) + [cat]
      ensures NextId(old(cat).next).Some? ==> cat == Created(old(cat), n, NextId(old(cat).next).value)
    {
      var next := NextId(cat.next);
      if next.None? { return Some(IdsExhausted); }
      CreatedOk(cat, n);
      CreatedStored(cat, n, next.value, closure, store);
      Advance(Created(cat, n, next.value), cache[n := Entry(cat.next, Live)]);
      e := None;
    }

    /** Create a tree. Any entry of that name, also one being dropped, is in the way. No version of the
        history used the new tree's id; a version that a crash undid is no longer part of the history, and
        its id may come again. */
    method CreateTree(n: Name) returns (e: Option<Error>)
      requires Valid()
      modifies `cat, `cache, `store, `hist, `closure
      ensures Valid()
      ensures e.None? <==> ValidName(n) && n !in old(cat).entries && NextId(old(cat).next).Some?
      ensures e.None? ==> cat.entries == old(cat).entries[n := Entry(old(cat).next, Live)]
      ensures e.None? ==> forall i, m | 0 <= i < |old(hist)| && m in old(hist)[i].entries ::
        old(hist)[i].entries[m].id != cat.entries[n].id
      ensures e.Some? ==> cat == old(cat)
    {
      if !ValidName(n) { return Some(InvalidName); }
      var known := Lookup(n);
      if known.Some? { return Some(TreeExists); }
      var id := PrepareRoot();
      forall i, m | 0 <= i < |hist| && m in hist[i].entries
        ensures hist[i].entries[m].id < id { NextIsFresh(hist, i, m); }
      e := Publish(n);
    }

    /** Drop a tree: its entry stays, as a tombstone. */
    method DropTree(n: Name) returns (e: Option<Error>)
      requires Valid()
      modifies `cat, `cache, `hist
      ensures Valid()
      ensures e.None? <==> ValidName(n) && n in old(cat).entries && old(cat).entries[n].status.Live?
      ensures e.None? ==> cat == Dropped(old(cat), n) && hist == old(hist) + [cat]
      ensures e.Some? ==> cat == old(cat) && hist == old(hist)
    {
      if !ValidName(n) { return Some(InvalidName); }
      var known := Lookup(n);
      if known.None? || known.value.status.Dropping? { return Some(TreeNotFound); }
      DroppedOk(cat, n);
      DroppedStored(cat, n, closure, store);
      Advance(Dropped(cat, n), cache[n := Entry(known.value.id, Dropping)]);
      return None;
    }

    // ---------- the trees below the catalog ----------

    /** A checkpoint of a tree stores the frames of its new shape; those it no longer needs stay until
        they are collected. */
    method Reshape(id: nat, frames: set<Frame>)
      requires Valid() && id in closure && Root(id) in frames && (forall j | Root(j) in frames :: j == id)
      modifies `store, `closure
      ensures Valid() && store == old(store) + frames && closure == old(closure)[id := frames]
    {
      forall i, n | durable <= i < |hist| && n in hist[i].entries && hist[i].entries[n].status.Live?
        ensures ClosureStored(hist[i].entries[n].id, closure[id := frames], store + frames)
      {
        assert Stored(hist[i], closure, store);
        assert ClosureStored(hist[i].entries[n].id, closure, store);
      }
      store, closure := store + frames, closure[id := frames];
    }

    /** Snapshots share frames that are stored; a root copy is not a tree's root. */
    method Share(frames: set<Frame>)
      requires Valid() && frames <= store && forall f | f in frames :: f.Inner?
      modifies `shared
      ensures Valid() && shared == frames
    {
      shared := frames;
    }

    method Pin(ids: set<nat>)
      requires Valid()
      modifies `pins
      ensures Valid() && pins == ids
    {
      pins := ids;
    }

    // ---------- collection ----------

    /** A checkpoint makes the present catalog durable. */
    method MakeDurable()
      requires Valid()
      modifies `durable
      ensures Valid() && durable == |hist| - 1
    {
      durable := |hist| - 1;
    }

    /** One unreachable frame is deleted from the store. */
    method SweepOne(f: Frame)
      requires Valid() && durable == |hist| - 1 && f !in Reach(cat, pins, closure, shared)
      modifies `store
      ensures Valid() && store == old(store) - {f}
    {
      assert Stored(hist[durable], closure, store);
      SweepKeepsStored(cat, pins, closure, shared, store, f);
      store := store - {f};
    }

    /** A bounded pass: the catalog is made durable, then at most `limit` unreachable frames are deleted.
        A crash may fall between any two deletions. */
    method SweepPass(limit: nat) returns (freed: nat, complete: bool)
      requires Valid()
      modifies `durable, `store
      ensures Valid() && durable == |hist| - 1 && freed <= limit
      ensures var reach := Reach(cat, pins, closure, shared);
        && old(store) * reach <= store <= old(store) && |store| + freed == |old(store)|
        && (complete <==> store <= reach) && (!complete ==> freed == limit)
    {
      MakeDurable();
      var reach := Reach(cat, pins, closure, shared);
      freed := 0;
      while freed < limit && !(store <= reach)
        invariant Valid() && durable == |hist| - 1 && freed <= limit
        invariant old(store) * reach <= store <= old(store) && |store| + freed == |old(store)|
        decreases limit - freed
      {
        var f :| f in store && f !in reach;
        SweepOne(f);
        freed := freed + 1;
      }
      complete := store <= reach;
    }

    /** Tombstones whose root is gone from the store leave the catalog. */
    method Finalize() returns (any: bool)
      requires Valid()
      modifies `cat, `cache, `hist
      ensures Valid()
      ensures cat == Removed(old(cat), Finished(old(cat), store)) && (any <==> Finished(old(cat), store) != {})
    {
      var gone: set<Name> := {};
      var todo := cat.entries.Keys;
      while todo != {}
        invariant todo <= cat.entries.Keys
        invariant gone == set n | n in cat.entries && n !in todo && n in Finished(cat, store)
      {
        var n :| n in todo;
        if cat.entries[n].status.Dropping? && Root(cat.entries[n].id) !in store { gone := gone + {n}; }
        todo := todo - {n};
      }
      assert gone == Finished(cat, store);
      any := gone != {};
      if any {
        assert Stored(hist[|hist| - 1], closure, store);
        RemovedOk(cat, gone, closure, store);
        Advance(Removed(cat, gone), cache - gone);
      }
    }

    /** Repeated passes of any positive size delete every unreachable frame and no other. */
    method SweepAll(limit: nat)
      requires Valid() && limit > 0
      modifies `store, `durable
      ensures Valid() && store == old(store) * Reach(cat, pins, closure, shared)
    {
      var complete := false;
      ghost var reach := Reach(cat, pins, closure, shared);
      while !complete
        invariant Valid() && old(store) * reach <= store <= old(store)
        invariant complete ==> store <= reach
        decreases |store|, if complete then 0 else 1
      {
        var freed;
        freed, complete := SweepPass(limit);
      }
    }

    /** Without pins, repeated passes finish every dropped tree and nothing else: the Live entries, the
        counter and every reachable frame stay, and no unreachable frame is left. */
    method CollectAll(limit: nat)
      requires Valid() && limit > 0 && pins == {}
      modifies `cat, `cache, `store, `hist, `durable
      ensures Valid() && cat == OnlyLive(old(cat))
      ensures store == old(store) * Reach(old(cat), {}, closure, shared)
    {
      SweepAll(limit);
      FinishesDropped(cat, closure, shared, store);
      var any := Finalize();
    }

    // ---------- crash and reopen ----------

    /** A crash takes the catalog back to some version not behind the durable one; handles, snapshots
        and the cache are gone. */
    method Crash(ghost k: nat, version: Cat)
      requires Valid() && durable <= k < |hist| && version == hist[k]
      modifies this
      ensures Valid() && cat == version && hist == old(hist)[..k + 1] && store == old(store)
    {
      OlderIsOk(hist, durable, closure, store, k);
      cat, cache, pins, shared := version, map[], {}, {};
      hist := hist[..k + 1];
    }

    /** Reopening walks the catalog and every Live tree, and never finds a frame missing. */
    method Reopen() returns (ok: bool)
      requires Valid()
      ensures ok
    {
      assert Stored(hist[|hist| - 1], closure, store);
      ok := Root(CATALOG_ID) in store;
      var todo := cat.entries.Keys;
      while todo != {}
        invariant todo <= cat.entries.Keys && ok
      {
        var n :| n in todo;
        var e := cat.entries[n];
        if e.status.Live? { ok := ok && Root(e.id) in store && e.id in closure && closure[e.id] <= store; }
        todo := todo - {n};
      }
    }
  }
}
