/** Which version tokens a guard may carry without noticing that the batch was grouped: exactly those
    older than the batch. A token the batch is about to hand out names a different write in grouped
    order than in submission order. */
module BatchTokens {
  import opened BatchSemantics
  import opened BatchGroups
  import opened BatchOrder

  /** Guards carry tokens older than `base`, or `token`. */
  predicate Carries(op: BatchOp, base: nat, token: nat) {
    match op
    case CompareAndPut(_, e, _) => e < base || e == token
    case DeleteIfVersion(_, e) => e < base || e == token
    case AssertVersion(_, e) => e < base || e == token
    case _ => true
  }

  ghost predicate CarriesAll(pending: seq<DbOp>, base: nat, token: nat) {
    forall i | 0 <= i < |pending| :: Carries(pending[i].op, base, token)
  }

  /** Whatever the database and the batch, both orders accept or both refuse. */
  ghost predicate OrdersAgree(base: nat, token: nat) {
    forall db: Db, pending: seq<DbOp>, groups: seq<Group> ::
      AllLive(db, pending) && IsGrouping(groups, pending, |pending|) && CarriesAll(pending, base, token)
      ==> (RunDb(db, pending, base, |pending|).Ok? <==> RunGroups(db, groups, base, |groups|).Ok?)
  }

  // ---------- a batch that notices ----------

  /** A first operation on tree a, `n` deletes on tree b, then a put on a and a guard on its version. */
  function Probe(n: nat, token: nat): seq<DbOp> {
    [DbOp("a", AssertAbsent([]))] + Deletes(n) + [DbOp("a", Put([], [])), DbOp("a", AssertVersion([], token))]
  }

  function Deletes(n: nat): seq<DbOp> { seq(n, i => DbOp("b", Delete([]))) }

  const TWO_TREES: Db := map["a" := map[], "b" := map[]]

  ghost function ProbeGroups(n: nat, token: nat): seq<Group> {
    var p := Probe(n, token);
    [Group("a", OpsOf(p, "a", |p|)), Group("b", OpsOf(p, "b", |p|))]
  }

  lemma {:induction false} ProbeAt(n: nat, token: nat, i: nat)
    requires i < n + 3
    ensures Probe(n, token)[i] ==
      if i == 0 then DbOp("a", AssertAbsent([])) else if i <= n then DbOp("b", Delete([]))
      else if i == n + 1 then DbOp("a", Put([], [])) else DbOp("a", AssertVersion([], token))
  {
  }

  lemma {:induction false} ProbeCounts(n: nat, token: nat, i: nat)
    requires 1 <= i <= n + 1
    ensures var p := Probe(n, token);
      && DbCount(p, i) == i - 1 && OpsOf(p, "a", i) == [AssertAbsent([])]
      && Names(p, i) == if i == 1 then ["a"] else ["a", "b"]
  {
    ProbeAt(n, token, i - 1);
    if i > 1 { ProbeCounts(n, token, i - 1); } else { assert OpsOf(Probe(n, token), "a", 0) == []; }
  }

  lemma {:induction false} ProbeNames(n: nat, token: nat)
    requires n >= 1
    ensures Names(Probe(n, token), n + 3) == ["a", "b"]
  {
    ProbeCounts(n, token, n + 1);
    ProbeAt(n, token, n + 1);
    ProbeAt(n, token, n + 2);
    assert Names(Probe(n, token), n + 2) == ["a", "b"];
  }

  /** The run on tree b never fails. */
  lemma {:induction false} DeletesRun(n: nat, token: nat, nums: seq<nat>, i: nat)
    requires i <= n + 3 == |nums|
    ensures TreeRun(map[], Probe(n, token), nums, "b", i).Ok?
  {
    if i > 0 {
      DeletesRun(n, token, nums, i - 1);
      ProbeAt(n, token, i - 1);
    }
  }

  /** Tree a is empty until the put. */
  lemma {:induction false} EmptyUntilPut(n: nat, token: nat, nums: seq<nat>, i: nat)
    requires 1 <= i <= n + 1 && |nums| == n + 3
    ensures TreeRun(map[], Probe(n, token), nums, "a", i) == Ok(map[])
  {
    ProbeAt(n, token, i - 1);
    if i > 1 { EmptyUntilPut(n, token, nums, i - 1); }
  }

  /** The run on tree a succeeds just when the put was given the token as its number. */
  lemma {:induction false} ProbeSees(n: nat, token: nat, nums: seq<nat>)
    requires |nums| == n + 3
    ensures TreeRun(map[], Probe(n, token), nums, "a", n + 3).Ok? <==> nums[n + 1] == token
  {
    var p, t: Tree := Probe(n, token), map[];
    EmptyUntilPut(n, token, nums, n + 1);
    ProbeAt(n, token, n + 1);
    ProbeAt(n, token, n + 2);
    assert TreeRun(t, p, nums, "a", n + 2) == Step(map[], Put([], []), nums[n + 1]);
    assert TreeRun(t, p, nums, "a", n + 2) == Ok(Insert(map[], [], [], nums[n + 1]));
  }

  lemma {:induction false} ProbeInOrder(n: nat, token: nat, base: nat)
    ensures RunDb(TWO_TREES, Probe(n, token), base, n + 3).Ok? <==> base + n == token
  {
    var p := Probe(n, token);
    var nums := SubmissionNums(p, base);
    ProbeCounts(n, token, n + 1);
    ProbeSees(n, token, nums);
    DeletesRun(n, token, nums, n + 3);
    ProbeLives(n, token);
    if RunDb(TWO_TREES, p, base, n + 3).Ok? {
      RunDbAt(TWO_TREES, p, nums, base, n + 3, "a");
    } else {
      var t := RunDbFails(TWO_TREES, p, nums, base, n + 3);
    }
  }

  lemma {:induction false} ProbeLives(n: nat, token: nat)
    ensures AllLive(TWO_TREES, Probe(n, token))
  {
  }

  /** In grouped order the put on tree a is numbered first. */
  lemma {:induction false} ProbeOnA(n: nat, token: nat, base: nat)
    ensures Run(map[], OpsOf(Probe(n, token), "a", n + 3), base).Ok? <==> base == token
  {
    var p := Probe(n, token);
    var nums := GroupNums(p, "a", base);
    assert nums[n + 1] == base by {
      ProbeCounts(n, token, n + 1);
      assert CountTo([AssertAbsent([])], 1) == 0;
    }
    ProbeSees(n, token, nums);
    GroupIsTreeRun(map[], p, nums, "a", base, n + 3);
  }

  lemma {:induction false} ProbeOnB(n: nat, token: nat, base: nat)
    ensures Run(map[], OpsOf(Probe(n, token), "b", n + 3), base).Ok?
  {
    var p := Probe(n, token);
    var nums := GroupNums(p, "b", base);
    DeletesRun(n, token, nums, n + 3);
    GroupIsTreeRun(map[], p, nums, "b", base, n + 3);
  }

  lemma {:induction false} ProbeGroupRuns(n: nat, token: nat, base: nat)
    ensures GroupRun(TWO_TREES, ProbeGroups(n, token), base, 0).Ok? <==> base == token
    ensures GroupRun(TWO_TREES, ProbeGroups(n, token), base, 1).Ok?
  {
    ProbeOnA(n, token, base);
    ProbeOnB(n, token, GroupBase(ProbeGroups(n, token), base, 1));
  }

  lemma {:induction false} ProbeGrouped(n: nat, token: nat, base: nat)
    ensures RunGroups(TWO_TREES, ProbeGroups(n, token), base, 2).Ok? <==> base == token
  {
    var g := ProbeGroups(n, token);
    ProbeGroupRuns(n, token, base);
    if RunGroups(TWO_TREES, g, base, 2).Ok? {
      GroupsAt(TWO_TREES, g, base, 2, 0);
    } else {
      var i := GroupsFail(TWO_TREES, g, base, 2);
    }
  }

  lemma {:induction false} ProbeDisagrees(base: nat, token: nat)
    requires token >= base
    ensures !OrdersAgree(base, token)
  {
    var n := if token == base then 1 else token - base;
    var p, g := Probe(n, token), ProbeGroups(n, token);
    ProbeInOrder(n, token, base);
    ProbeGrouped(n, token, base);
    ProbeNames(n, token);
    ProbeLives(n, token);
    assert IsGrouping(g, p, |p|);
    forall i | 0 <= i < |p| ensures Carries(p[i].op, base, token) { ProbeAt(n, token, i); }
    assert AllLive(TWO_TREES, p) && CarriesAll(p, base, token);
  }

  /** The exact condition: grouping is invisible to guards that carry `token` just when the token is
      older than the batch. */
  lemma {:induction false} OrdersAgreeIffOldToken(base: nat, token: nat)
    ensures OrdersAgree(base, token) <==> token < base
  {
    if token < base {
      forall db: Db, pending: seq<DbOp>, groups: seq<Group>
        | AllLive(db, pending) && IsGrouping(groups, pending, |pending|) && CarriesAll(pending, base, token)
        ensures RunDb(db, pending, base, |pending|).Ok? <==> RunGroups(db, groups, base, |groups|).Ok?
      {
        GroupsAreWellFormed(db, pending, groups);
        assert forall i | 0 <= i < |pending| :: Carries(pending[i].op, base, token) ==> OldToken(pending[i].op, base);
        GroupingKeepsMeaning(db, pending, groups, base);
      }
    } else {
      ProbeDisagrees(base, token);
    }
  }
}
