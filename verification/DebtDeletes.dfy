/** No delete is lost and none is held twice: a blob whose deletion was asked for and not executed is
    queued, or claimed by exactly one owner, the round or one unreported epoch, with the oldest sequence
    it was asked for at. */
module DebtDeletes {
  import opened Options
  import opened DebtBooks

  ghost predicate RoundOwns(b: Books, h: Guid) { b.round.Some? && h in b.round.value.pending }

  /** Epoch `i` has not reported and still holds the delete of `h`. */
  ghost predicate Owner(b: Books, h: Guid, i: int) {
    0 <= i < |b.epochs| && !b.epochs[i].status.Reported? && h in b.epochs[i].pending
  }

  /** Epoch `i` has not reported and has executed the delete of `h`. */
  ghost predicate Ran(b: Books, h: Guid, i: int) {
    0 <= i < |b.epochs| && !b.epochs[i].status.Reported? && h in b.epochs[i].executed
  }

  /** A delete is claimed exactly when it has an owner, and then it has one. */
  ghost predicate OneOwner(b: Books, h: Guid) {
    && (h in b.deleting <==> RoundOwns(b, h) || exists i :: Owner(b, h, i))
    && (RoundOwns(b, h) ==> forall i :: !Owner(b, h, i))
    && (forall i, j :: Owner(b, h, i) && Owner(b, h, j) ==> i == j)
  }

  /** The claim keeps the oldest sequence, also of requests that came after its capture. */
  ghost predicate OldestKept(b: Books, h: Guid) {
    && (RoundOwns(b, h) && h in b.deleting ==> b.deleting[h] <= b.round.value.pending[h])
    && (forall i :: Owner(b, h, i) && h in b.deleting ==> b.deleting[h] <= b.epochs[i].pending[h])
  }

  /** An executed delete is not asked for again before its epoch reports. */
  ghost predicate RanOnce(b: Books, h: Guid) {
    && (forall i :: Ran(b, h, i) ==> h in b.gone && !b.Fenced(h))
    && (forall i, j :: Ran(b, h, i) && Ran(b, h, j) ==> i == j)
  }

  /** What is owed is what is queued or claimed, with the same sequence. */
  ghost predicate OwedIsFenced(b: Books, h: Guid) {
    && (h in b.owed <==> b.Fenced(h)) && !(h in b.pendingDeletes && h in b.deleting)
    && (h in b.pendingDeletes ==> b.owed[h] == b.pendingDeletes[h])
    && (h in b.deleting ==> b.owed[h] == b.deleting[h])
  }

  ghost predicate Ok(b: Books, h: Guid) { OneOwner(b, h) && OldestKept(b, h) && RanOnce(b, h) && OwedIsFenced(b, h) }

  ghost predicate Inv(b: Books) { forall h :: Ok(b, h) }

  // ---------- a blob whose delete stays, and one whose delete goes back ----------

  /** `h` has the same fence and the same debt in both. */
  ghost predicate SameFence(b: Books, c: Books, h: Guid) {
    && (h in c.pendingDeletes <==> h in b.pendingDeletes) && (h in c.deleting <==> h in b.deleting)
    && (h in c.owed <==> h in b.owed) && (h in b.owed ==> c.owed[h] == b.owed[h])
    && (h in b.pendingDeletes ==> c.pendingDeletes[h] == b.pendingDeletes[h])
    && (h in b.deleting ==> c.deleting[h] == b.deleting[h])
  }

  /** `h` has the same owner in both; an epoch that executed its delete may have reported. */
  ghost predicate SameOwner(b: Books, c: Books, h: Guid) {
    && RoundOwns(c, h) == RoundOwns(b, h) && (RoundOwns(c, h) ==> c.round.value.pending[h] == b.round.value.pending[h])
    && (forall i :: Owner(c, h, i) == Owner(b, h, i) && (Ran(c, h, i) ==> Ran(b, h, i)))
    && (forall i | Owner(c, h, i) :: c.epochs[i].pending[h] == b.epochs[i].pending[h])
  }

  lemma {:induction false} Stays(b: Books, c: Books, h: Guid)
    requires Ok(b, h) && SameFence(b, c, h) && SameOwner(b, c, h) && c.gone == b.gone
    ensures Ok(c, h)
  {
  }

  /** The delete of `h` is queued again, owed as before, or again if it had been executed. */
  ghost predicate BackInQueue(b: Books, c: Books, h: Guid, s: nat) {
    && h !in c.deleting && h in c.pendingDeletes && h in c.owed
    && c.pendingDeletes[h] == (if h in b.deleting then Min(b.deleting[h], s) else s)
    && c.owed[h] == (if h in b.owed then b.owed[h] else s)
  }

  lemma {:induction false} GoesBack(b: Books, c: Books, h: Guid, s: nat)
    requires Ok(b, h) && BackInQueue(b, c, h, s) && h !in b.pendingDeletes && (h in b.deleting ==> b.deleting[h] <= s)
    requires !RoundOwns(c, h) && forall i :: !Owner(c, h, i) && !Ran(c, h, i)
    ensures Ok(c, h)
  {
  }

  /** What putting deletes back does to the fence of one blob. */
  lemma {:induction false} ReleasedFence(b: Books, add: Entries, back: Seqs, c: Books, h: Guid)
    requires c == Released(b, add, back).(round := c.round, epochs := c.epochs, owed := c.owed)
    requires c.owed == b.owed || c.owed == OwedAgain(b.owed, back)
    ensures h !in back ==> SameFence(b, c, h)
    ensures h in back && h !in b.pendingDeletes && h in c.owed ==> BackInQueue(b, c, h, back[h])
  {
  }

  lemma {:induction false} SameDeletes(b: Books, c: Books, h: Guid)
    requires Ok(b, h) && c.round == b.round && c.epochs == b.epochs && c.gone == b.gone
    requires c.pendingDeletes == b.pendingDeletes && c.deleting == b.deleting && c.owed == b.owed
    ensures Ok(c, h)
  {
    Stays(b, c, h);
  }

  /** Writers do not touch the delete maps, the round or the queue. */
  lemma {:induction false} WriterKeeps(b: Books, bound: nat, step: Step, h: Guid)
    requires Ok(b, h) && Can(b, bound, step)
    requires step.Install? || step.Mutate? || step.Mark? || step.Fork? || step.Fold? || step.Prune?
    ensures Ok(Do(b, bound, step), h)
  {
    SameDeletes(b, Do(b, bound, step), h);
  }

  lemma {:induction false} RetireKeeps(b: Books, i: nat, g: Guid, h: Guid)
    requires Ok(b, h) && i < |b.epochs| && g in b.epochs[i].snap && g in b.version
    ensures Ok(Retired(b, i, g), h)
  {
    Stays(b, Retired(b, i, g), h);
  }

  lemma {:induction false} AbandonKeeps(b: Books, i: nat, h: Guid)
    requires Ok(b, h) && i < |b.epochs| && b.epochs[i].status.Running?
    ensures Ok(Abandoned(b, i), h)
  {
    Stays(b, Abandoned(b, i), h);
  }

  // ---------- asking ----------

  lemma {:induction false} MarkForDeleteKeeps(b: Books, g: Guid, s: nat, h: Guid)
    requires Ok(b, h) && g !in b.gone
    ensures Ok(MarkedForDelete(b, g, s), h)
  {
    var c := MarkedForDelete(b, g, s);
    assert forall i :: Owner(b, h, i) == Owner(c, h, i) && Ran(b, h, i) == Ran(c, h, i);
    assert RoundOwns(b, h) == RoundOwns(c, h);
  }

  // ---------- the planner ----------

  lemma {:induction false} CaptureKeeps(b: Books, retired: set<Guid>, gcDeleting: set<Guid>, h: Guid)
    requires Ok(b, h) && b.round == None
    ensures Ok(Captured(b, retired, gcDeleting), h)
  {
    var c := Captured(b, retired, gcDeleting);
    assert forall i :: Owner(b, h, i) == Owner(c, h, i) && Ran(b, h, i) == Ran(c, h, i);
    assert RoundOwns(c, h) <==> h in b.pendingDeletes;
  }

  /** The round puts deletes back that it owns, and keeps the others. */
  lemma {:induction false} RoundKeeps(b: Books, back: Seqs, c: Books, h: Guid)
    requires Ok(b, h) && b.round.Some? && c.epochs == b.epochs && c.gone == b.gone
    requires h in back ==> RoundOwns(b, h) && back[h] == b.round.value.pending[h] && !RoundOwns(c, h)
    requires h in back && h !in b.pendingDeletes ==> BackInQueue(b, c, h, back[h])
    requires h !in back ==> SameFence(b, c, h) && RoundOwns(c, h) == RoundOwns(b, h)
    requires RoundOwns(c, h) ==> c.round.value.pending[h] == b.round.value.pending[h]
    ensures Ok(c, h)
  {
    assert forall i :: Owner(b, h, i) == Owner(c, h, i) && Ran(b, h, i) == Ran(c, h, i);
    if h in back { GoesBack(b, c, h, back[h]); } else { Stays(b, c, h); }
  }

  lemma {:induction false} AbortKeeps(b: Books, h: Guid)
    requires Ok(b, h) && b.round.Some?
    ensures Ok(Aborted(b), h)
  {
    var r := b.round.value;
    assert RoundOwns(b, h) ==> h in b.owed;
    ReleasedFence(b, r.snap, r.pending, Aborted(b), h);
    RoundKeeps(b, r.pending, Aborted(b), h);
  }

  lemma {:induction false} CloneKeeps(b: Books, stale: set<Guid>, h: Guid)
    requires Ok(b, h) && b.round.Some?
    ensures Ok(Cloned(b, stale), h)
  {
    var r := b.round.value;
    var c, back := Cloned(b, stale), Returned(r, stale);
    assert h in back ==> RoundOwns(b, h) && back[h] == r.pending[h] && h in b.owed;
    assert (h !in back ==> SameFence(b, c, h))
      && (h in back && h !in b.pendingDeletes ==> BackInQueue(b, c, h, back[h])) by {
      ReleasedFence(b, Only(r.snap, stale), back, c, h);
    }
    assert c.round.value.pending == r.pending - back.Keys;
    RoundKeeps(b, back, c, h);
  }

  /** The round's claims become the new epoch's. */
  lemma {:induction false} QueueKeeps(b: Books, h: Guid)
    requires Ok(b, h) && b.round.Some?
    ensures Ok(Queued(b), h)
  {
    var c, n := Queued(b), |b.epochs|;
    assert forall i :: i != n ==> Owner(b, h, i) == Owner(c, h, i) && Ran(b, h, i) == Ran(c, h, i);
    assert Owner(c, h, n) == RoundOwns(b, h) && !Ran(c, h, n);
  }

  // ---------- the I/O worker ----------

  lemma {:induction false} EndKeeps(b: Books, i: nat, add: Entries, back: Seqs, ok: bool, h: Guid)
    requires Ok(b, h) && i < |b.epochs| && !b.epochs[i].status.Reported?
    requires h in b.epochs[i].pending ==> h in back && back[h] == b.epochs[i].pending[h]
    requires h in back ==> h in b.epochs[i].pending || h in b.epochs[i].executed
    ensures Ok(Ended(b, i, add, back, ok), h)
  {
    var c := Ended(b, i, add, back, ok);
    assert (h !in back ==> SameFence(b, c, h))
      && (h in back && h !in b.pendingDeletes ==> BackInQueue(b, c, h, back[h])) by {
      ReleasedFence(b, add, back, c, h);
    }
    assert forall j :: j != i ==> Owner(b, h, j) == Owner(c, h, j) && Ran(b, h, j) == Ran(c, h, j);
    assert !Owner(c, h, i) && !Ran(c, h, i);
    assert Owner(b, h, i) == (h in b.epochs[i].pending) && Ran(b, h, i) == (h in b.epochs[i].executed);
    if h in back { GoesBack(b, c, h, back[h]); } else { Stays(b, c, h); }
  }

  lemma {:induction false} FinishKeeps(b: Books, i: nat, synced: bool, ok: bool, h: Guid)
    requires Ok(b, h) && i < |b.epochs| && b.epochs[i].status.Running?
    ensures Ok(Finished(b, i, synced, ok), h)
  {
    var e := b.epochs[i];
    assert Owner(b, h, i) == (h in e.pending) && Ran(b, h, i) == (h in e.executed);
    EndKeeps(b, i, map[], if synced then e.pending else AllDeletes(e), ok, h);
  }

  lemma {:induction false} DeleteKeeps(b: Books, i: nat, g: Guid, h: Guid)
    requires Ok(b, h) && Owner(b, g, i)
    ensures Ok(Deleted(b, i, g), h)
  {
    var c := Deleted(b, i, g);
    assert forall j :: j != i || h != g ==> Owner(b, h, j) == Owner(c, h, j) && Ran(b, h, j) == Ran(c, h, j);
    assert h == g ==> !Owner(c, h, i) && Ran(c, h, i);
  }

  // ---------- the reaper ----------

  /** A reported epoch holds no delete any more. */
  lemma {:induction false} PopKeeps(b: Books, h: Guid)
    requires Ok(b, h) && |b.epochs| > 0 && b.epochs[0].status.Reported?
    ensures Ok(b.(epochs := b.epochs[1..]), h)
  {
    var c := b.(epochs := b.epochs[1..]);
    assert forall j :: j >= 0 ==> Owner(b, h, j + 1) == Owner(c, h, j) && Ran(b, h, j + 1) == Ran(c, h, j);
    assert !Owner(b, h, 0) && !Ran(b, h, 0);
    if i :| Owner(b, h, i) { assert Owner(c, h, i - 1); }
  }

  /** A lost epoch is ended by the reaper, with every delete it was handed. */
  lemma {:induction false} ReapKeeps(b: Books, h: Guid)
    requires Ok(b, h) && |b.epochs| > 0
    ensures Ok(Reaped(b), h)
  {
    var e := b.epochs[0];
    if e.status.Reported? {
      PopKeeps(b, h);
    } else {
      var c := Ended(b, 0, e.snap, AllDeletes(e), false);
      assert Ok(c, h) by {
        assert Owner(b, h, 0) == (h in e.pending) && Ran(b, h, 0) == (h in e.executed);
        EndKeeps(b, 0, e.snap, AllDeletes(e), false, h);
      }
      PopKeeps(c, h);
    }
    assert Reaped(b) == if e.status.Reported? then b.(epochs := b.epochs[1..])
      else Ended(b, 0, e.snap, AllDeletes(e), false).(epochs := b.epochs[1..]);
  }

  // ---------- all steps ----------

  lemma {:induction false} StepKeeps(b: Books, bound: nat, step: Step, h: Guid)
    requires Ok(b, h) && Can(b, bound, step)
    ensures Ok(Do(b, bound, step), h)
  {
    match step
    case MarkForDelete(g, s) => MarkForDeleteKeeps(b, g, s, h);
    case Capture(retired, gcDeleting) => CaptureKeeps(b, retired, gcDeleting, h);
    case Abort => AbortKeeps(b, h);
    case Clone(stale) => CloneKeeps(b, stale, h);
    case Queue => QueueKeeps(b, h);
    case Fail(i) => EndKeeps(b, i, b.epochs[i].snap, b.epochs[i].pending, false, h);
    case Defer(i) => EndKeeps(b, i, b.epochs[i].snap - b.epochs[i].flushed, b.epochs[i].pending, true, h);
    case Finish(i, synced, ok) => FinishKeeps(b, i, synced, ok, h);
    case Delete(i, g) => DeleteKeeps(b, i, g, h);
    case Reap => ReapKeeps(b, h);
    case Retire(i, g) => RetireKeeps(b, i, g, h);
    case Abandon(i) => AbandonKeeps(b, i, h);
    case _ => WriterKeeps(b, bound, step, h);
  }

  lemma {:induction false} StepKeepsInv(b: Books, bound: nat, step: Step)
    requires Inv(b) && Can(b, bound, step)
    ensures Inv(Do(b, bound, step))
  {
    forall h ensures Ok(Do(b, bound, step), h) { StepKeeps(b, bound, step, h); }
  }

  /** Only its execution settles a delete that was asked for. */
  lemma {:induction false} OnlyExecutionSettles(b: Books, bound: nat, step: Step, h: Guid)
    requires Can(b, bound, step) && h in b.owed && !(step.Delete? && step.g == h)
    ensures h in Do(b, bound, step).owed
  {
  }
}
