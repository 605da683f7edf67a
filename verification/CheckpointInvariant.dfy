/** The invariant of the checkpoint machine, stated over the parts of the state it depends on. */
module CheckpointInvariant {
  import opened Options
  import opened WalHistory
  import opened FrameTree
  import opened Reshape
  import opened CheckpointMachine

  /** An image of `g` that may come back after a crash: its edges stay among the relevant frames
      and every record in it is the record after some log prefix in `[lo, hi]`. */
  ghost predicate ImgOk(births: Births, rel: set<Guid>, base: Content, wal: seq<Batch>, lo: nat, hi: nat, g: Guid,
                        img: Image)
  {
    && Shaped(births, rel, g, img)
    && forall k :: k in births[g].terr && img(k).Here? ==> InWindow(base, wal, lo, hi, k, img(k).val)
  }

  /** Whatever subset of the unsynced operations survives, the relevant frames on disk hold good
      images that lead only to frames that are on disk. */
  ghost predicate DiskOk(births: Births, rel: set<Guid>, root: Guid, base: Content, wal: seq<Batch>, lo: nat,
                         hi: nat, durable: Disk, unsynced: seq<StoreOp>)
  {
    && Sure(durable, unsynced, root)
    && (forall g :: g in durable ==> g in births)
    && (forall i :: 0 <= i < |unsynced| ==> unsynced[i].g in births)
    && (forall g :: g in rel && g in durable ==>
         ImgOk(births, rel, base, wal, lo, hi, g, durable[g]) && ChildrenSure(births, durable, unsynced, g, durable[g]))
    && (forall i :: 0 <= i < |unsynced| && unsynced[i].Put? && unsynced[i].g in rel ==>
         ImgOk(births, rel, base, wal, lo, hi, unsynced[i].g, unsynced[i].img)
         && ChildrenSure(births, durable, unsynced, unsynced[i].g, unsynced[i].img))
  }

  /** Clones held by a round or an epoch with watermark `hi`. A clone whose version is still
      current is the committed image. */
  ghost predicate HeldOk(births: Births, rel: set<Guid>, base: Content, wal: seq<Batch>, lo: nat, hi: nat,
                         cache: Frames, committed: Frames, held: Frames)
  {
    forall g :: g in held ==>
      && g in cache && g in committed
      && held[g].ver <= cache[g].ver
      && (held[g].ver == cache[g].ver ==> held[g] == committed[g])
      && (g in rel ==> ImgOk(births, rel, base, wal, lo, hi, g, held[g].img))
  }

  /** The cache is the committed tree, except that a part-way failure may have moved it on; a
      frame it changed has a newer version. */
  ghost predicate CacheOk(latched: bool, cache: Frames, committed: Frames) {
    && cache.Keys == committed.Keys
    && (!latched ==> cache == committed)
    && forall g :: g in committed ==>
         committed[g].ver <= cache[g].ver && (committed[g].ver == cache[g].ver ==> cache[g] == committed[g])
  }

  /** Every committed frame that is still relevant, live or detached, holds a good image. */
  ghost predicate RelOk(births: Births, rel: set<Guid>, base: Content, wal: seq<Batch>, lo: nat, committed: Frames) {
    forall g :: g in rel && g in committed ==> ImgOk(births, rel, base, wal, lo, |wal|, g, committed[g].img)
  }

  ghost predicate PlannerOk(births: Births, rel: set<Guid>, base: Content, wal: seq<Batch>, lo: nat, cache: Frames,
                            committed: Frames, planner: Planner)
  {
    planner.Round? ==>
      && planner.upTo <= |wal|
      && HeldOk(births, rel, base, wal, lo, planner.upTo, cache, committed, planner.todo)
      && HeldOk(births, rel, base, wal, lo, planner.upTo, cache, committed, planner.clones)
      && planner.stale <= committed.Keys && planner.todo.Keys !! planner.clones.Keys
  }

  ghost predicate EpochOk(births: Births, rel: set<Guid>, base: Content, wal: seq<Batch>, lo: nat, flushed: nat,
                          cache: Frames, committed: Frames, e: Epoch)
  {
    && e.upTo <= flushed
    && HeldOk(births, rel, base, wal, lo, e.upTo, cache, committed, e.todo)
    && HeldOk(births, rel, base, wal, lo, e.upTo, cache, committed, e.wave)
    && e.failed <= committed.Keys && e.done.Keys <= committed.Keys
    && e.todo.Keys !! e.wave.Keys !! e.done.Keys
  }

  ghost predicate EpochsOk(births: Births, rel: set<Guid>, base: Content, wal: seq<Batch>, lo: nat, flushed: nat,
                           cache: Frames, committed: Frames, epochs: seq<Epoch>)
  {
    && (forall i :: 0 <= i < |epochs| ==> EpochOk(births, rel, base, wal, lo, flushed, cache, committed, epochs[i]))
    && (forall i :: 1 <= i < |epochs| ==>
         epochs[i].wave == map[] && epochs[i].done == map[] && epochs[i].failed == {} && epochs[i].applied == {}
           && !epochs[i].deleting)
  }

  /** A submitted image is the last one the store was given for its guid. */
  ghost predicate WaveOk(rel: set<Guid>, durable: Disk, unsynced: seq<StoreOp>, epochs: seq<Epoch>) {
    |epochs| > 0 ==> forall g :: g in epochs[0].wave && g in rel ==>
      LastWrite(durable, unsynced, g) == Some(epochs[0].wave[g].img)
  }

  /** No debt is lost: a live frame that is neither dirty nor owned by the checkpoint has been
      handed to the store as it is now. */
  ghost predicate DebtOk(live: set<Guid>, dirty: set<Guid>, planner: Planner, epochs: seq<Epoch>, durable: Disk,
                         unsynced: seq<StoreOp>, committed: Frames)
  {
    forall g :: g in live && g in committed && g !in dirty && !Flushing(planner, epochs, g) ==>
      LastWrite(durable, unsynced, g) == Some(committed[g].img)
  }

  ghost predicate FenceOk(userDeletes: bool, births: Births, live: set<Guid>, pending: set<Guid>, planner: Planner,
                          epochs: seq<Epoch>)
  {
    forall g :: Fenced(pending, planner, epochs, g) ==> userDeletes && g in births && g !in live
  }

  ghost predicate AppliedOk(userDeletes: bool, births: Births, live: set<Guid>, epochs: seq<Epoch>) {
    |epochs| > 0 ==> forall g :: g in epochs[0].applied ==> userDeletes && g in births && g !in live
  }

  /** `img` leads to no frame of `gone`. */
  ghost predicate Avoids(births: Births, gone: set<Guid>, g: Guid, img: Image) {
    g in births && forall k :: k in births[g].terr && img(k).Below? ==> img(k).child !in gone
  }

  /** Once every frame of `held` is written, the store holds exactly the tree as captured: nothing
      that is still relevant leads to a frame that was detached before the capture. */
  ghost predicate Detaches(births: Births, rel: set<Guid>, live: set<Guid>, root: Guid, durable: Disk,
                           unsynced: seq<StoreOp>, committed: Frames, gone: set<Guid>, pend: set<Guid>, held: Frames)
  {
    && pend <= gone && gone <= births.Keys && gone !! live && root !in gone
    && forall g :: g in rel && g !in gone ==>
         && (g in committed ==> Avoids(births, gone, g, committed[g].img))
         && (g in held ==> Avoids(births, gone, g, held[g].img))
         && (g !in held && LastWrite(durable, unsynced, g).Some? ==>
           Avoids(births, gone, g, LastWrite(durable, unsynced, g).value))
  }

  /** A round with deletes and no stale blob detaches what it will delete. */
  ghost predicate RoundDeletes(births: Births, rel: set<Guid>, live: set<Guid>, root: Guid, durable: Disk,
                               unsynced: seq<StoreOp>, committed: Frames, planner: Planner)
  {
    planner.Round? && planner.pend != {} && planner.stale == {} ==>
      Detaches(births, rel, live, root, durable, unsynced, committed, planner.gone, planner.pend,
        planner.todo + planner.clones)
  }

  /** So does an epoch with deletes until it turns to its delete phase; from then on the frames it
      deletes are no longer relevant. */
  ghost predicate EpochDeletes(births: Births, rel: set<Guid>, live: set<Guid>, root: Guid, durable: Disk,
                               unsynced: seq<StoreOp>, committed: Frames, e: Epoch)
  {
    && (e.pend != {} && e.failed == {} && !e.deleting ==>
         && Detaches(births, rel, live, root, durable, unsynced, committed, e.gone, e.pend, e.todo + e.wave + e.done)
         && forall g :: g in e.done && g in rel && g !in e.gone ==>
           LastWrite(durable, unsynced, g) == Some(e.done[g].img))
    && (e.deleting ==> e.pend !! rel && e.Unwritten() == {})
  }

  ghost predicate DeletesOk(births: Births, rel: set<Guid>, live: set<Guid>, root: Guid, durable: Disk,
                            unsynced: seq<StoreOp>, committed: Frames, planner: Planner, epochs: seq<Epoch>)
  {
    && RoundDeletes(births, rel, live, root, durable, unsynced, committed, planner)
    && (|epochs| > 0 ==> EpochDeletes(births, rel, live, root, durable, unsynced, committed, epochs[0]))
  }

  ghost predicate BoundOk(bound: nat, userDeletes: bool, planner: Planner, epochs: seq<Epoch>) {
    && |epochs| + (if planner.Round? then 1 else 0) <= bound
    && DeleteSafe(bound, userDeletes)
  }

  /** The configurations in which deferred user deletes cannot race another epoch. */
  predicate DeleteSafe(bound: nat, userDeletes: bool) { bound == 1 || !userDeletes }

  ghost predicate SetsOk(s: State) {
    && s.live <= s.rel <= s.births.Keys && s.committed.Keys <= s.births.Keys
    && s.dead !! s.rel && s.dead <= s.births.Keys && s.dirty <= s.committed.Keys
    && s.trunc <= s.flushed <= |s.wal|
  }

  ghost predicate Inv(s: State) {
    && SetsOk(s)
    && TreeOk(s.births, s.live, s.root, s.committed, Current(s.base, s.wal))
    && CacheOk(s.latched, s.cache, s.committed)
    && RelOk(s.births, s.rel, s.base, s.wal, s.trunc, s.committed)
    && DiskOk(s.births, s.rel, s.root, s.base, s.wal, s.trunc, s.flushed, s.durable, s.unsynced)
    && PlannerOk(s.births, s.rel, s.base, s.wal, s.trunc, s.cache, s.committed, s.planner)
    && EpochsOk(s.births, s.rel, s.base, s.wal, s.trunc, s.flushed, s.cache, s.committed, s.epochs)
    && WaveOk(s.rel, s.durable, s.unsynced, s.epochs)
    && DebtOk(s.live, s.dirty, s.planner, s.epochs, s.durable, s.unsynced, s.committed)
    && FenceOk(s.userDeletes, s.births, s.live, s.pending, s.planner, s.epochs)
    && AppliedOk(s.userDeletes, s.births, s.live, s.epochs)
    && DeletesOk(s.births, s.rel, s.live, s.root, s.durable, s.unsynced, s.committed, s.planner, s.epochs)
    && BoundOk(s.bound, s.userDeletes, s.planner, s.epochs)
  }

  /** A store that was just opened on a clean image of a well-formed tree. */
  ghost predicate Init(s: State) {
    && s.bound >= 1
    && s.wal == [] && s.trunc == 0 && s.flushed == 0 && !s.latched
    && s.planner == Idle && s.epochs == [] && s.dirty == {} && s.pending == {} && s.unsynced == []
    && s.rel == s.live && s.live == s.cache.Keys && s.cache == s.committed && s.cache.Keys <= s.births.Keys
    && s.dead == {}
    && s.durable == (map g | g in s.cache :: s.cache[g].img)
    && TreeOk(s.births, s.live, s.root, s.cache, s.base)
  }

  // ---------- framing ----------

  ghost predicate Extends(births: Births, births': Births) {
    forall h :: h in births ==> h in births' && births'[h] == births[h]
  }

  /** Frames that became relevant are new. */
  ghost predicate Grows(births: Births, rel: set<Guid>, rel': set<Guid>) {
    rel <= rel' && forall g :: g in rel' && g in births ==> g in rel
  }

  lemma {:induction false} WindowGrows(base: Content, wal: seq<Batch>, wal': seq<Batch>, lo: nat, hi: nat, hi': nat,
                                       k: Key, v: Option<Value>)
    requires InWindow(base, wal, lo, hi, k, v) && hi <= hi' && wal <= wal'
    ensures InWindow(base, wal', lo, hi', k, v)
  {
    var i: nat :| lo <= i <= hi && i <= |wal| && v == ValueAt(base, wal, i, k);
    assert wal[..i] == wal'[..i];
    ValueAtPrefix(base, wal, wal', i, k);
  }

  lemma {:induction false} ImgGrows(births: Births, births': Births, rel: set<Guid>, rel': set<Guid>, base: Content,
                                    wal: seq<Batch>, wal': seq<Batch>, lo: nat, hi: nat, hi': nat, g: Guid, img: Image)
    requires ImgOk(births, rel, base, wal, lo, hi, g, img)
    requires Extends(births, births') && rel <= rel' && hi <= hi' && wal <= wal'
    ensures ImgOk(births', rel', base, wal', lo, hi', g, img)
  {
    ShapedGrows(births, births', rel, rel', g, img);
    forall k | k in births'[g].terr && img(k).Here?
      ensures InWindow(base, wal', lo, hi', k, img(k).val)
    {
      WindowGrows(base, wal, wal', lo, hi, hi', k, img(k).val);
    }
  }

  lemma {:induction false} DiskGrows(births: Births, births': Births, rel: set<Guid>, rel': set<Guid>, root: Guid,
                                     base: Content, wal: seq<Batch>, wal': seq<Batch>, lo: nat, hi: nat, hi': nat,
                                     durable: Disk, unsynced: seq<StoreOp>)
    requires DiskOk(births, rel, root, base, wal, lo, hi, durable, unsynced)
    requires Extends(births, births') && Grows(births, rel, rel') && hi <= hi' && wal <= wal'
    ensures DiskOk(births', rel', root, base, wal', lo, hi', durable, unsynced)
  {
    forall g | g in rel' && g in durable
      ensures ImgOk(births', rel', base, wal', lo, hi', g, durable[g])
        && ChildrenSure(births', durable, unsynced, g, durable[g])
    {
      ImgGrows(births, births', rel, rel', base, wal, wal', lo, hi, hi', g, durable[g]);
    }
    forall i | 0 <= i < |unsynced| && unsynced[i].Put? && unsynced[i].g in rel'
      ensures ImgOk(births', rel', base, wal', lo, hi', unsynced[i].g, unsynced[i].img)
      ensures ChildrenSure(births', durable, unsynced, unsynced[i].g, unsynced[i].img)
    {
      ImgGrows(births, births', rel, rel', base, wal, wal', lo, hi, hi', unsynced[i].g, unsynced[i].img);
    }
  }

  /** Each frame either stays as it is, in cache and committed tree alike, or gets a newer version. */
  ghost predicate Moves(cache: Frames, cache': Frames, committed: Frames, committed': Frames) {
    forall g :: g in cache && g in committed ==>
      && g in cache' && g in committed'
      && ((cache'[g] == cache[g] && committed'[g] == committed[g]) || cache[g].ver < cache'[g].ver)
  }

  lemma {:induction false} HeldMoves(births: Births, births': Births, rel: set<Guid>, rel': set<Guid>, base: Content,
                                     wal: seq<Batch>, wal': seq<Batch>, lo: nat, hi: nat,
                  cache: Frames, cache': Frames, committed: Frames, committed': Frames, held: Frames)
    requires HeldOk(births, rel, base, wal, lo, hi, cache, committed, held)
    requires committed.Keys <= births.Keys
    requires Extends(births, births') && Grows(births, rel, rel') && wal <= wal'
      && Moves(cache, cache', committed, committed')
    ensures HeldOk(births', rel', base, wal', lo, hi, cache', committed', held)
  {
    forall g | g in held && g in rel'
      ensures ImgOk(births', rel', base, wal', lo, hi, g, held[g].img)
    {
      ImgGrows(births, births', rel, rel', base, wal, wal', lo, hi, hi, g, held[g].img);
    }
  }

  lemma {:induction false} PlannerMoves(births: Births, births': Births, rel: set<Guid>, rel': set<Guid>,
                                        base: Content, wal: seq<Batch>, wal': seq<Batch>, lo: nat,
                     cache: Frames, cache': Frames, committed: Frames, committed': Frames, planner: Planner)
    requires PlannerOk(births, rel, base, wal, lo, cache, committed, planner)
    requires committed.Keys <= births.Keys && committed.Keys <= committed'.Keys
    requires Extends(births, births') && Grows(births, rel, rel') && wal <= wal'
      && Moves(cache, cache', committed, committed')
    ensures PlannerOk(births', rel', base, wal', lo, cache', committed', planner)
  {
    if planner.Round? {
      HeldMoves(births, births', rel, rel', base, wal, wal', lo, planner.upTo, cache, cache', committed, committed',
        planner.todo);
      HeldMoves(births, births', rel, rel', base, wal, wal', lo, planner.upTo, cache, cache', committed, committed',
        planner.clones);
    }
  }

  lemma {:induction false} EpochsMove(births: Births, births': Births, rel: set<Guid>, rel': set<Guid>,
                                      base: Content, wal: seq<Batch>, wal': seq<Batch>, lo: nat, flushed: nat,
                   cache: Frames, cache': Frames, committed: Frames, committed': Frames, epochs: seq<Epoch>)
    requires EpochsOk(births, rel, base, wal, lo, flushed, cache, committed, epochs)
    requires committed.Keys <= births.Keys && committed.Keys <= committed'.Keys
    requires Extends(births, births') && Grows(births, rel, rel') && wal <= wal'
      && Moves(cache, cache', committed, committed')
    ensures EpochsOk(births', rel', base, wal', lo, flushed, cache', committed', epochs)
  {
    forall i | 0 <= i < |epochs|
      ensures EpochOk(births', rel', base, wal', lo, flushed, cache', committed', epochs[i])
    {
      HeldMoves(births, births', rel, rel', base, wal, wal', lo, epochs[i].upTo, cache, cache', committed,
        committed', epochs[i].todo);
      HeldMoves(births, births', rel, rel', base, wal, wal', lo, epochs[i].upTo, cache, cache', committed,
        committed', epochs[i].wave);
    }
  }

  /** A guid the store never saw has no last write. */
  lemma {:induction false} NeverWritten(durable: Disk, unsynced: seq<StoreOp>, g: Guid)
    requires g !in durable && forall i :: 0 <= i < |unsynced| ==> unsynced[i].g != g
    ensures LastWrite(durable, unsynced, g) == None
    decreases |unsynced|
  {
    if unsynced != [] { NeverWritten(durable, unsynced[..|unsynced| - 1], g); }
  }

  /** A live frame leads to live frames only. */
  lemma {:induction false} LiveAvoids(births: Births, live: set<Guid>, gone: set<Guid>, g: Guid, img: Image)
    requires Shaped(births, live, g, img) && live !! gone
    ensures Avoids(births, gone, g, img)
  {
    forall k | k in births[g].terr && img(k).Below? ensures img(k).child !in gone {
      assert EdgeOk(births, live, g, img, k, img(k).child);
    }
  }

  lemma {:induction false} LiveImgOk(births: Births, live: set<Guid>, root: Guid, rel: set<Guid>, base: Content,
                                     wal: seq<Batch>, lo: nat, committed: Frames, g: Guid)
    requires TreeOk(births, live, root, committed, Current(base, wal)) && live <= rel && g in live && lo <= |wal|
    ensures ImgOk(births, rel, base, wal, lo, |wal|, g, committed[g].img)
  {
    ShapedGrows(births, births, live, rel, g, committed[g].img);
    forall k | k in births[g].terr && committed[g].img(k).Here?
      ensures InWindow(base, wal, lo, |wal|, k, committed[g].img(k).val)
    {
      assert Through(births, live, committed, g, k);
    }
  }

  lemma {:induction false} DetachesGrows(births: Births, births': Births, rel: set<Guid>, rel': set<Guid>,
                                         live: set<Guid>, live': set<Guid>, root: Guid,
                      durable: Disk, unsynced: seq<StoreOp>, committed: Frames, committed': Frames, gone: set<Guid>,
                        pend: set<Guid>, held: Frames)
    requires Detaches(births, rel, live, root, durable, unsynced, committed, gone, pend, held)
    requires Extends(births, births') && Grows(births, rel, rel') && held.Keys <= births.Keys && rel <= births.Keys
    requires forall g :: g in live' ==> g in live || g !in births
    requires forall g :: g in live' && g in committed' ==> Shaped(births', live', g, committed'[g].img)
    requires forall g :: g in rel' && g in committed' && g !in live' ==> g in committed && committed'[g] == committed[g]
    requires committed.Keys <= births.Keys
    requires forall g :: g in durable ==> g in births
    requires forall i :: 0 <= i < |unsynced| ==> unsynced[i].g in births
    ensures Detaches(births', rel', live', root, durable, unsynced, committed', gone, pend, held)
  {
    forall g | g in rel' && g !in gone
      ensures g in committed' ==> Avoids(births', gone, g, committed'[g].img)
      ensures g in held ==> Avoids(births', gone, g, held[g].img)
      ensures g !in held && LastWrite(durable, unsynced, g).Some? ==>
        Avoids(births', gone, g, LastWrite(durable, unsynced, g).value)
    {
      if g !in births { NeverWritten(durable, unsynced, g); }
      if g in live' && g in committed' { LiveAvoids(births', live', gone, g, committed'[g].img); }
    }
  }

  lemma {:induction false} RelGrows(births: Births, births': Births, rel: set<Guid>, rel': set<Guid>,
                                    live': set<Guid>, root: Guid, base: Content, wal: seq<Batch>, wal': seq<Batch>,
                                    lo: nat,
                 committed: Frames, committed': Frames)
    requires RelOk(births, rel, base, wal, lo, committed) && lo <= |wal|
    requires Extends(births, births') && Grows(births, rel, rel') && wal <= wal' && live' <= rel'
      && committed.Keys <= births.Keys
    requires TreeOk(births', live', root, committed', Current(base, wal'))
    requires forall g :: g in rel' && g in committed' && g !in live' ==> g in committed && committed'[g] == committed[g]
    ensures RelOk(births', rel', base, wal', lo, committed')
  {
    forall g | g in rel' && g in committed'
      ensures ImgOk(births', rel', base, wal', lo, |wal'|, g, committed'[g].img)
    {
      if g in live' {
        LiveImgOk(births', live', root, rel', base, wal', lo, committed', g);
      } else {
        ImgGrows(births, births', rel, rel', base, wal, wal', lo, |wal|, |wal'|, g, committed[g].img);
      }
    }
  }
}
