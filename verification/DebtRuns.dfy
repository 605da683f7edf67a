/** Whole runs of the checkpoint bookkeeping, from the empty books on. */
module DebtRuns {
  import opened DebtBooks
  import DebtCover
  import DebtDeletes

  ghost predicate Inv(b: Books) { DebtCover.Inv(b) && DebtDeletes.Inv(b) }

  lemma {:induction false} EmptyHasInv()
    ensures Inv(EMPTY)
  {
  }

  lemma {:induction false} StepKeepsInv(b: Books, bound: nat, step: Step)
    requires Inv(b) && Can(b, bound, step)
    ensures Inv(Do(b, bound, step))
  {
    DebtCover.StepKeepsInv(b, bound, step);
    DebtDeletes.StepKeepsInv(b, bound, step);
  }

  lemma {:induction false} StepKeepsBound(b: Books, bound: nat, step: Step)
    requires Bounded(b, bound) && Can(b, bound, step)
    ensures Bounded(Do(b, bound, step), bound)
  {
  }

  /** No run loses debt: through every fork, merge, dropped orphan, success, stale clone, deferral, error
      and lost completion, a counter shows every unwritten change, every delete that was asked for is
      queued or has one owner, and the queue keeps within its bound. */
  lemma {:induction false} NoRunLosesDebt(b: Books, bound: nat, run: seq<Step>)
    requires Inv(b) && Bounded(b, bound) && CanRun(b, bound, run)
    ensures Inv(Run(b, bound, run)) && Bounded(Run(b, bound, run), bound)
    decreases |run|
  {
    if run != [] {
      StepKeepsInv(b, bound, run[0]);
      StepKeepsBound(b, bound, run[0]);
      NoRunLosesDebt(Do(b, bound, run[0]), bound, run[1..]);
    }
  }

  /** The round, or else one epoch and no other, holds the delete of `h`. */
  ghost predicate HasOneOwner(c: Books, h: Guid) {
    if DebtDeletes.RoundOwns(c, h) then forall i :: !DebtDeletes.Owner(c, h, i)
    else exists i :: DebtDeletes.Owner(c, h, i) && forall j :: DebtDeletes.Owner(c, h, j) ==> j == i
  }

  /** After any run the deletes that were asked for and not executed are the queued and the claimed ones,
      each with the oldest sequence it was asked for at, and each claimed one has exactly one owner. */
  lemma {:induction false} OwedIsQueuedOrClaimed(bound: nat, run: seq<Step>)
    requires CanRun(EMPTY, bound, run)
    ensures var c := Run(EMPTY, bound, run);
      && c.pendingDeletes.Keys !! c.deleting.Keys && c.owed == c.pendingDeletes + c.deleting
      && forall h | h in c.deleting :: HasOneOwner(c, h)
  {
    EmptyHasInv();
    NoRunLosesDebt(EMPTY, bound, run);
    var c := Run(EMPTY, bound, run);
    forall h
      ensures !(h in c.pendingDeletes && h in c.deleting) && (h in c.deleting ==> HasOneOwner(c, h))
      ensures h in c.owed <==> h in c.pendingDeletes + c.deleting
      ensures h in c.owed ==> c.owed[h] == (c.pendingDeletes + c.deleting)[h]
    {
      assert DebtDeletes.Ok(c, h);
    }
  }

  /** So whenever the counters that gate truncation are all zero under the gates, after any run, every
      change is in a written image and every delete was executed. */
  lemma {:induction false} TruncationGateIsSafe(bound: nat, run: seq<Step>)
    requires CanRun(EMPTY, bound, run)
    ensures var c := Run(EMPTY, bound, run);
      c.unmarked == {} && c.dirty == map[] && c.flushing == multiset{} && c.pendingDeletes == map[]
        && c.deleting == map[]
      ==> c.unwritten == map[] && c.owed == map[]
  {
    EmptyHasInv();
    NoRunLosesDebt(EMPTY, bound, run);
    OwedIsQueuedOrClaimed(bound, run);
    var c := Run(EMPTY, bound, run);
    if c.unmarked == {} && c.dirty == map[] && c.flushing == multiset{} && c.pendingDeletes == map[]
      && c.deleting == map[] {
      DebtCover.CleanMeansWritten(c);
    }
  }
}
