/** The counters that gate truncation see every unwritten change, blob by blob. A reference count may run
    low, because a failed epoch gives back references that it had already given up; the debt is in a
    counter all the same. A blob that leaves the live tree owes nothing: its copy or its parent does. */
module DebtCover {
  import opened Options
  import opened DebtBooks

  ghost predicate HasWriter(unmarked: set<(Guid, nat)>, g: Guid) { exists w :: w in unmarked && w.0 == g }

  /** The debt of `g` shows in a counter that gates truncation, or its writer still holds the gate. */
  ghost predicate Counted(b: Books, g: Guid) { g in b.dirty || g in b.flushing || HasWriter(b.unmarked, g) }

  /** An entry whose version is still current was captured after every change made so far. */
  ghost predicate Sound(snap: Entries, version: map<Guid, nat>, unmarked: set<(Guid, nat)>, g: Guid) {
    g in snap ==>
      g in version && snap[g].version <= version[g] && (snap[g].version == version[g] ==> !HasWriter(unmarked, g))
  }

  ghost predicate SoundEpochs(b: Books, g: Guid) {
    forall i | 0 <= i < |b.epochs| :: Sound(b.epochs[i].snap, b.version, b.unmarked, g)
  }

  ghost predicate StagedOut(b: Books, g: Guid) {
    forall p | p in b.staged && g in b.staged[p].children :: g in b.detached
  }

  ghost predicate Ok(b: Books, g: Guid) {
    && (g in b.dirty || g in b.unwritten ==> g in b.version) && (forall w | w in b.unmarked :: w.0 in b.version)
    && (b.round.Some? ==> Sound(b.round.value.snap, b.version, b.unmarked, g)) && SoundEpochs(b, g)
    && (g in b.orphans ==> g in b.detached) && StagedOut(b, g) && (g in b.detached ==> g !in b.unwritten)
    && (g in b.unwritten && !b.Fenced(g) ==> Counted(b, g))
  }

  ghost predicate Inv(b: Books) { forall g :: Ok(b, g) }

  // ---------- writers ----------

  lemma {:induction false} InstallKeeps(b: Books, g: Guid, s: nat, h: Guid)
    requires Ok(b, h) && g !in b.version && g !in b.detached
    ensures Ok(Installed(b, g, s), h)
  {
  }

  lemma {:induction false} MutateKeeps(b: Books, g: Guid, s: nat, h: Guid)
    requires Ok(b, h) && Live(b, g)
    ensures Ok(Mutated(b, g, s), h)
  {
    var c := Mutated(b, g, s);
    assert (g, s) in c.unmarked;
    assert HasWriter(c.unmarked, h) <==> HasWriter(b.unmarked, h) || h == g;
  }

  /** Publication makes orphans of what was staged under the blob. */
  lemma {:induction false} PublishKeeps(b: Books, g: Guid, h: Guid)
    requires Ok(b, h) && g in b.version
    ensures Ok(Published(b, g), h)
  {
  }

  /** A mark may go once its blob is in the dirty map, or is fenced. */
  lemma {:induction false} UnmarkKeeps(b: Books, g: Guid, s: nat, h: Guid)
    requires Ok(b, h) && (g in b.dirty || b.Fenced(g))
    ensures Ok(b.(unmarked := b.unmarked - {(g, s)}), h)
  {
    var c := b.(unmarked := b.unmarked - {(g, s)});
    assert HasWriter(c.unmarked, h) ==> HasWriter(b.unmarked, h);
    if h != g && HasWriter(b.unmarked, h) {
      var w :| w in b.unmarked && w.0 == h;
      assert w in c.unmarked;
    }
  }

  lemma {:induction false} MarkKeeps(b: Books, g: Guid, s: nat, h: Guid)
    requires Ok(b, h) && (g, s) in b.unmarked
    ensures Ok(Marked(b, g, s), h)
  {
    if b.Fenced(g) {
      UnmarkKeeps(b, g, s, h);
    } else {
      var c := b.(dirty := Put(b.dirty, g, s));
      assert Ok(c, h);
      UnmarkKeeps(c, g, s, h);
      PublishKeeps(c.(unmarked := b.unmarked - {(g, s)}), g, h);
    }
  }

  /** Passing the debt on leaves every blob's debt counted, once the heir is counted. */
  lemma {:induction false} PassKeeps(b: Books, g: Guid, to: Guid, h: Guid)
    requires Ok(b, h) && Live(b, to) && g != to && Counted(b, to)
    ensures Ok(Passed(b, g, to), h)
  {
  }

  lemma {:induction false} StageKeeps(b: Books, p: Guid, g: Guid, h: Guid)
    requires Ok(b, h) && g in b.detached
    ensures Ok(StagedUnder(b, p, g), h)
  {
  }

  /** A fork passes the child's debt to the copy. */
  lemma {:induction false} ForkKeeps(b: Books, g: Guid, f: Guid, p: Guid, s: nat, h: Guid)
    requires Ok(b, h) && Live(b, p) && g != p && g in b.version && f !in b.version && f !in b.detached
    ensures Ok(Forked(b, g, f, p, s), h)
  {
    var c := Installed(b, f, b.DirtySeq(g));
    InstallKeeps(b, f, b.DirtySeq(g), h);
    var d := Passed(c, g, f);
    PassKeeps(c, g, f, h);
    StageKeeps(d, p, g, h);
    MutateKeeps(StagedUnder(d, p, g), p, s, h);
  }

  /** A merge passes the child's debt to the parent. The parent is marked only later, so the two steps
      are one: the writer holds the gate. */
  lemma {:induction false} FoldKeeps(b: Books, g: Guid, p: Guid, s: nat, h: Guid)
    requires Ok(b, h) && Live(b, p) && Live(b, g) && g != p
    ensures Ok(FoldedInto(b, g, p, s), h)
  {
    var m := Mutated(b, p, s);
    MutateKeeps(b, p, s, h);
    assert (p, s) in m.unmarked;
    PassKeeps(m, g, p, h);
    StageKeeps(Passed(m, g, p), p, g, h);
    assert FoldedInto(b, g, p, s) == StagedUnder(Passed(m, g, p), p, g) by { FoldOrder(b, g, p, s); }
  }

  lemma {:induction false} FoldOrder(b: Books, g: Guid, p: Guid, s: nat)
    requires p in b.version && g != p
    ensures FoldedInto(b, g, p, s) == StagedUnder(Passed(Mutated(b, p, s), g, p), p, g)
  {
  }

  lemma {:induction false} PruneKeeps(b: Books, g: Guid, h: Guid)
    requires Ok(b, h) && g in b.orphans
    ensures Ok(Pruned(b, g), h)
  {
  }

  lemma {:induction false} MarkForDeleteKeeps(b: Books, g: Guid, s: nat, h: Guid)
    requires Ok(b, h)
    ensures Ok(MarkedForDelete(b, g, s), h)
  {
  }

  // ---------- the planner ----------

  /** Capture holds the commit gate alone: every change is marked. It may drop any orphan, with whatever
      its image holds that was never written: an orphan owes nothing. */
  lemma {:induction false} CaptureKeeps(b: Books, retired: set<Guid>, gcDeleting: set<Guid>, h: Guid)
    requires Ok(b, h) && b.unmarked == {} && b.round == None && retired <= b.orphans
    ensures Ok(Captured(b, retired, gcDeleting), h)
  {
  }

  /** What putting entries back does to one blob. */
  lemma {:induction false} ReleasedAt(b: Books, add: Entries, back: Seqs, h: Guid)
    ensures var c := Released(b, add, back);
      && (b.Fenced(h) ==> c.Fenced(h)) && (h in c.dirty ==> h in b.dirty || h in add)
      && (h in b.dirty ==> h in c.dirty && c.dirty[h] <= b.dirty[h])
      && (h in add && !c.Fenced(h) ==> h in c.dirty && c.dirty[h] <= add[h].seqNo)
      && (h !in add ==> c.flushing[h] == b.flushing[h])
  {
  }

  /** `c` is `b` with the entries `add` put back, whatever became of the round and the queue. */
  lemma {:induction false} ReleaseKeeps(b: Books, add: Entries, back: Seqs, c: Books, h: Guid)
    requires Ok(b, h) && (h in add ==> h in b.version)
    requires c == Released(b, add, back).(round := c.round, epochs := c.epochs, owed := c.owed)
    requires c.round.Some? ==> Sound(c.round.value.snap, b.version, b.unmarked, h)
    requires SoundEpochs(c, h)
    ensures Ok(c, h)
  {
    ReleasedAt(b, add, back, h);
  }

  lemma {:induction false} AbortKeeps(b: Books, h: Guid)
    requires Ok(b, h) && b.round.Some?
    ensures Ok(Aborted(b), h)
  {
    assert SoundEpochs(Aborted(b), h);
    ReleaseKeeps(b, b.round.value.snap, b.round.value.pending, Aborted(b), h);
  }

  lemma {:induction false} CloneKeeps(b: Books, stale: set<Guid>, h: Guid)
    requires Ok(b, h) && b.round.Some?
    ensures Ok(Cloned(b, stale), h)
  {
    assert SoundEpochs(Cloned(b, stale), h);
    ReleaseKeeps(b, Only(b.round.value.snap, stale), Returned(b.round.value, stale), Cloned(b, stale), h);
  }

  lemma {:induction false} QueueKeeps(b: Books, h: Guid)
    requires Ok(b, h) && b.round.Some?
    ensures Ok(Queued(b), h)
  {
    var c, n := Queued(b), |b.epochs|;
    forall i | 0 <= i < |c.epochs| ensures Sound(c.epochs[i].snap, c.version, c.unmarked, h) {
      assert i < n ==> Sound(b.epochs[i].snap, b.version, b.unmarked, h);
    }
  }

  // ---------- the I/O worker and the reaper ----------

  lemma {:induction false} EpochStaysSound(b: Books, c: Books, i: nat, h: Guid)
    requires SoundEpochs(b, h) && i < |b.epochs| == |c.epochs| && c.epochs == b.epochs[i := c.epochs[i]]
    requires c.epochs[i].snap == b.epochs[i].snap && c.version == b.version && c.unmarked == b.unmarked
    ensures SoundEpochs(c, h)
  {
  }

  lemma {:induction false} RetireKeeps(b: Books, i: nat, g: Guid, h: Guid)
    requires Ok(b, h) && i < |b.epochs| && g in b.epochs[i].snap && g in b.version
    ensures Ok(Retired(b, i, g), h)
  {
    EpochStaysSound(b, Retired(b, i, g), i, h);
  }

  /** An image that retires holds every change of its blob: no writer of it is still to mark it. */
  lemma {:induction false} RetiredImageIsCurrent(b: Books, i: nat, g: Guid)
    requires Ok(b, g) && i < |b.epochs| && g in b.epochs[i].snap && b.version[g] == b.epochs[i].snap[g].version
    ensures !HasWriter(b.unmarked, g)
  {
    assert Sound(b.epochs[i].snap, b.version, b.unmarked, g);
  }

  lemma {:induction false} EndKeeps(b: Books, i: nat, add: Entries, back: Seqs, ok: bool, h: Guid)
    requires Ok(b, h) && i < |b.epochs| && add.Keys <= b.epochs[i].snap.Keys
    ensures Ok(Ended(b, i, add, back, ok), h)
  {
    var c := Ended(b, i, add, back, ok);
    EpochStaysSound(b, c, i, h);
    assert Sound(b.epochs[i].snap, b.version, b.unmarked, h);
    ReleaseKeeps(b, add, back, c, h);
  }

  lemma {:induction false} DeleteKeeps(b: Books, i: nat, g: Guid, h: Guid)
    requires Ok(b, h) && i < |b.epochs| && g in b.epochs[i].pending
    ensures Ok(Deleted(b, i, g), h)
  {
    EpochStaysSound(b, Deleted(b, i, g), i, h);
  }

  lemma {:induction false} AbandonKeeps(b: Books, i: nat, h: Guid)
    requires Ok(b, h) && i < |b.epochs|
    ensures Ok(Abandoned(b, i), h)
  {
    EpochStaysSound(b, Abandoned(b, i), i, h);
  }

  lemma {:induction false} ReapKeeps(b: Books, h: Guid)
    requires Ok(b, h) && |b.epochs| > 0
    ensures Ok(Reaped(b), h)
  {
    var c, e := Reaped(b), b.epochs[0];
    TailStaysSound(b, c, h);
    if e.status.Reported? { PopKeeps(b, c, h); } else { ReleaseKeeps(b, e.snap, AllDeletes(e), c, h); }
  }

  lemma {:induction false} PopKeeps(b: Books, c: Books, h: Guid)
    requires Ok(b, h) && c == b.(epochs := c.epochs) && SoundEpochs(c, h)
    ensures Ok(c, h)
  {
  }

  lemma {:induction false} TailStaysSound(b: Books, c: Books, h: Guid)
    requires SoundEpochs(b, h) && |b.epochs| > 0 && c.epochs == b.epochs[1..]
    requires c.version == b.version && c.unmarked == b.unmarked
    ensures SoundEpochs(c, h) && Sound(b.epochs[0].snap, b.version, b.unmarked, h)
  {
  }

  // ---------- all steps ----------

  lemma {:induction false} StepKeeps(b: Books, bound: nat, step: Step, h: Guid)
    requires Ok(b, h) && Can(b, bound, step)
    ensures Ok(Do(b, bound, step), h)
  {
    match step
    case Install(g, s) => InstallKeeps(b, g, s, h);
    case Mutate(g, s) => MutateKeeps(b, g, s, h);
    case Mark(g, s) => MarkKeeps(b, g, s, h);
    case Fork(g, f, p, s) => ForkKeeps(b, g, f, p, s, h);
    case Fold(g, p, s) => FoldKeeps(b, g, p, s, h);
    case Prune(g) => PruneKeeps(b, g, h);
    case MarkForDelete(g, s) => MarkForDeleteKeeps(b, g, s, h);
    case Capture(retired, gcDeleting) => CaptureKeeps(b, retired, gcDeleting, h);
    case Abort => AbortKeeps(b, h);
    case Clone(stale) => CloneKeeps(b, stale, h);
    case Queue => QueueKeeps(b, h);
    case Retire(i, g) => RetireKeeps(b, i, g, h);
    case Fail(i) => EndKeeps(b, i, b.epochs[i].snap, b.epochs[i].pending, false, h);
    case Defer(i) => EndKeeps(b, i, b.epochs[i].snap - b.epochs[i].flushed, b.epochs[i].pending, true, h);
    case Finish(i, synced, ok) =>
      EndKeeps(b, i, map[], if synced then b.epochs[i].pending else AllDeletes(b.epochs[i]), ok, h);
    case Delete(i, g) => DeleteKeeps(b, i, g, h);
    case Abandon(i) => AbandonKeeps(b, i, h);
    case Reap => ReapKeeps(b, h);
  }

  lemma {:induction false} StepKeepsInv(b: Books, bound: nat, step: Step)
    requires Inv(b) && Can(b, bound, step)
    ensures Inv(Do(b, bound, step))
  {
    forall h ensures Ok(Do(b, bound, step), h) { StepKeeps(b, bound, step, h); }
  }

  /** When the counters are all zero under the gates, every change is in a written image. */
  lemma {:induction false} CleanMeansWritten(b: Books)
    requires Inv(b) && b.unmarked == {}
    requires b.dirty == map[] && b.flushing == multiset{} && b.pendingDeletes == map[] && b.deleting == map[]
    ensures b.unwritten == map[]
  {
    forall g ensures g !in b.unwritten {
      assert Ok(b, g);
    }
  }

  // ---------- nothing but a write or a delete settles debt ----------

  /** Some blob holds an unwritten change of sequence `s` or older. */
  ghost predicate Owes(b: Books, s: nat) { exists g :: g in b.unwritten && b.unwritten[g] <= s }

  /** The heir of an unwritten change: the blob itself unless it is the one detached. */
  function Heir(step: Step, g: Guid): Guid {
    match step
    case Fork(x, f, _, _) => if g == x then f else g
    case Fold(x, p, _) => if g == x then p else g
    case _ => g
  }

  /** After a fork the copy owes what the child owed, and everything else is owed as before. */
  lemma {:induction false} ForkPasses(b: Books, x: Guid, f: Guid, p: Guid, t: nat, g: Guid)
    requires p in b.version && p != f && x != p && x != f && g in b.unwritten
    ensures var c, h := Forked(b, x, f, p, t), if g == x then f else g;
      h in c.unwritten && c.unwritten[h] <= b.unwritten[g] && x !in c.unwritten
  {
  }

  /** After a merge the parent owes what the child owed. */
  lemma {:induction false} FoldPasses(b: Books, x: Guid, p: Guid, t: nat, g: Guid)
    requires p in b.version && x != p && g in b.unwritten
    ensures var c, h := FoldedInto(b, x, p, t), if g == x then p else g;
      h in c.unwritten && c.unwritten[h] <= b.unwritten[g] && x !in c.unwritten
  {
  }

  lemma {:induction false} HeirOwes(b: Books, bound: nat, step: Step, g: Guid)
    requires Can(b, bound, step) && !step.Retire? && !step.Delete? && g in b.unwritten
    ensures var c, h := Do(b, bound, step), Heir(step, g); h in c.unwritten && c.unwritten[h] <= b.unwritten[g]
  {
    match step
    case Fork(x, f, p, t) => ForkPasses(b, x, f, p, t, g);
    case Fold(x, p, t) => FoldPasses(b, x, p, t, g);
    case Install(x, t) => assert Do(b, bound, step).unwritten == Put(b.unwritten, x, t);
    case Mutate(x, t) => assert Do(b, bound, step).unwritten == Put(b.unwritten, x, t);
    case _ =>
  }

  /** A step that neither retires a written image nor deletes a blob leaves an unwritten change as old:
      with the same blob, or with the copy or parent that took it over. */
  lemma {:induction false} OnlyWritesSettle(b: Books, bound: nat, step: Step, s: nat)
    requires Can(b, bound, step) && !step.Retire? && !step.Delete? && Owes(b, s)
    ensures Owes(Do(b, bound, step), s)
  {
    var g :| g in b.unwritten && b.unwritten[g] <= s;
    HeirOwes(b, bound, step, g);
  }
}
