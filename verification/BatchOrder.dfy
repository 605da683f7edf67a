/** Grouped execution against submission order: the same verdict and the same contents, exactly when
    no guard names a version that the batch itself is about to hand out. */
module BatchOrder {
  import opened BatchSemantics
  import opened BatchPreflight
  import opened BatchGroups

  ghost predicate AllLive(db: Db, pending: seq<DbOp>) { forall i | 0 <= i < |pending| :: pending[i].tree in db }

  // ---------- submission order ----------

  function DbCount(pending: seq<DbOp>, n: nat): nat
    requires n <= |pending|
  {
    if n == 0 then 0 else DbCount(pending, n - 1) + pending[n - 1].op.Cost()
  }

  /** The database after one of its trees moved. */
  function Moved(d: Db, tree: Name, o: Outcome<Tree>): Outcome<Db> {
    match o
    case Fail(f) => Fail(f)
    case Ok(u) => Ok(d[tree := u])
  }

  function DbStep(o: Outcome<Db>, p: DbOp, seqNo: nat): Outcome<Db> {
    match o
    case Fail(f) => Fail(f)
    case Ok(d) => if p.tree in d then Moved(d, p.tree, Step(d[p.tree], p.op, seqNo)) else Fail(NotFound)
  }

  /** The first `n` operations, one after the other, each on its tree. */
  function RunDb(db: Db, pending: seq<DbOp>, base: nat, n: nat): Outcome<Db>
    requires n <= |pending|
  {
    if n == 0 then Ok(db) else DbStep(RunDb(db, pending, base, n - 1), pending[n - 1], base + DbCount(pending, n - 1))
  }

  // ---------- grouped ----------

  function GroupBase(groups: seq<Group>, base: nat, m: nat): nat
    requires m <= |groups|
  {
    if m == 0 then base else GroupBase(groups, base, m - 1) + Count(groups[m - 1].ops)
  }

  ghost predicate GroupsLive(db: Db, groups: seq<Group>) { forall i | 0 <= i < |groups| :: groups[i].tree in db }

  function GroupStep(o: Outcome<Db>, g: Group, base: nat): Outcome<Db> {
    match o
    case Fail(f) => Fail(f)
    case Ok(d) => if g.tree in d then Moved(d, g.tree, Run(d[g.tree], g.ops, base)) else Fail(NotFound)
  }

  /** The first `m` groups, each a batch on its own tree with its own range of sequence numbers. */
  function RunGroups(db: Db, groups: seq<Group>, base: nat, m: nat): Outcome<Db>
    requires m <= |groups|
  {
    if m == 0 then Ok(db) else GroupStep(RunGroups(db, groups, base, m - 1), groups[m - 1],
      GroupBase(groups, base, m - 1))
  }

  // ---------- one tree at a time ----------

  /** What the first `n` operations do to one tree when operation `i` has sequence number `nums[i]`. */
  function TreeRun(t: Tree, pending: seq<DbOp>, nums: seq<nat>, tree: Name, n: nat): Outcome<Tree>
    requires n <= |pending| == |nums|
  {
    if n == 0 then Ok(t)
    else match TreeRun(t, pending, nums, tree, n - 1)
      case Fail(f) => Fail(f)
      case Ok(u) => if pending[n - 1].tree == tree then Step(u, pending[n - 1].op, nums[n - 1]) else Ok(u)
  }

  function SubmissionNums(pending: seq<DbOp>, base: nat): seq<nat> {
    seq(|pending|, i requires 0 <= i < |pending| => base + DbCount(pending, i))
  }

  function GroupNums(pending: seq<DbOp>, tree: Name, base: nat): seq<nat> {
    seq(|pending|, i requires 0 <= i < |pending| => base + Count(OpsOf(pending, tree, i)))
  }

  lemma {:induction false} DbStepAt(o: Outcome<Db>, p: DbOp, seqNo: nat, t: Name)
    requires o.Ok? && t in o.value && p.tree in o.value
    ensures var r := DbStep(o, p, seqNo);
      && (p.tree == t ==> match Step(o.value[t], p.op, seqNo)
            case Ok(u) => r.Ok? && t in r.value && r.value[t] == u
            case Fail(f) => r == Fail(f))
      && (p.tree != t && r.Ok? ==> t in r.value && r.value[t] == o.value[t])
      && (r.Ok? ==> r.value.Keys == o.value.Keys)
  {
  }

  lemma {:induction false} RunDbKeepsTrees(db: Db, pending: seq<DbOp>, base: nat, n: nat)
    requires AllLive(db, pending) && n <= |pending| && RunDb(db, pending, base, n).Ok?
    ensures RunDb(db, pending, base, n).value.Keys == db.Keys
  {
    if n > 0 { RunDbKeepsTrees(db, pending, base, n - 1); }
  }

  /** In submission order every tree ends where its own operations take it. */
  lemma {:induction false} RunDbAt(db: Db, pending: seq<DbOp>, nums: seq<nat>, base: nat, n: nat, t: Name)
    requires AllLive(db, pending) && n <= |pending| && nums == SubmissionNums(pending, base)
    requires t in db && RunDb(db, pending, base, n).Ok?
    ensures t in RunDb(db, pending, base, n).value
    ensures TreeRun(db[t], pending, nums, t, n) == Ok(RunDb(db, pending, base, n).value[t])
  {
    if n > 0 {
      RunDbAt(db, pending, nums, base, n - 1, t);
      RunDbKeepsTrees(db, pending, base, n - 1);
      DbStepAt(RunDb(db, pending, base, n - 1), pending[n - 1], nums[n - 1], t);
    }
  }

  /** A failure in submission order is the failure of some tree's own operations. */
  lemma {:induction false} RunDbFails(db: Db, pending: seq<DbOp>, nums: seq<nat>, base: nat, n: nat) returns (t: Name)
    requires AllLive(db, pending) && n <= |pending| && nums == SubmissionNums(pending, base)
    requires RunDb(db, pending, base, n).Fail?
    ensures t in db && TreeRun(db[t], pending, nums, t, n).Fail?
  {
    if RunDb(db, pending, base, n - 1).Fail? {
      t := RunDbFails(db, pending, nums, base, n - 1);
    } else {
      t := pending[n - 1].tree;
      RunDbAt(db, pending, nums, base, n - 1, t);
      DbStepAt(RunDb(db, pending, base, n - 1), pending[n - 1], nums[n - 1], t);
    }
  }

  lemma {:induction false} CountSnoc(ops: seq<BatchOp>, op: BatchOp)
    ensures Count(ops + [op]) == Count(ops) + op.Cost()
  {
    CountPrefix(ops, ops + [op], |ops|);
  }

  lemma {:induction false} CountPrefix(ops: seq<BatchOp>, ops': seq<BatchOp>, n: nat)
    requires n <= |ops| && n <= |ops'| && forall i :: 0 <= i < n ==> ops[i] == ops'[i]
    ensures CountTo(ops, n) == CountTo(ops', n)
  {
    if n > 0 { CountPrefix(ops, ops', n - 1); }
  }

  lemma {:induction false} RunSnoc(t: Tree, ops: seq<BatchOp>, op: BatchOp, base: nat)
    ensures Run(t, ops + [op], base) ==
      match Run(t, ops, base)
      case Fail(f) => Fail(f)
      case Ok(u) => Step(u, op, base + Count(ops))
  {
    RunPrefix(t, ops, ops + [op], base, |ops|);
    match Run(t, ops, base) {
      case Fail(f) => RunFailsEarly(t, ops + [op], base, |ops|, |ops| + 1);
      case Ok(u) => RunNext(t, ops + [op], base, |ops|, u);
    }
  }

  /** A group is its tree's operations, numbered from the base of the group. */
  lemma {:induction false} GroupIsTreeRun(t: Tree, pending: seq<DbOp>, nums: seq<nat>, tree: Name, base: nat, n: nat)
    requires n <= |pending| && nums == GroupNums(pending, tree, base)
    ensures Run(t, OpsOf(pending, tree, n), base) == TreeRun(t, pending, nums, tree, n)
  {
    if n > 0 {
      GroupIsTreeRun(t, pending, nums, tree, base, n - 1);
      if pending[n - 1].tree == tree { SnocTreeRun(t, pending, nums, tree, base, n - 1, OpsOf(pending, tree, n - 1)); }
    }
  }

  lemma {:induction false} SnocTreeRun(t: Tree, pending: seq<DbOp>, nums: seq<nat>, tree: Name, base: nat, n: nat,
                                       ops: seq<BatchOp>)
    requires n < |pending| == |nums| && pending[n].tree == tree && nums[n] == base + Count(ops)
    requires Run(t, ops, base) == TreeRun(t, pending, nums, tree, n)
    ensures Run(t, ops + [pending[n].op], base) == TreeRun(t, pending, nums, tree, n + 1)
  {
    RunSnoc(t, ops, pending[n].op, base);
  }

  ghost predicate Distinct(groups: seq<Group>) {
    forall i, j | 0 <= i < j < |groups| :: groups[i].tree != groups[j].tree
  }

  function GroupRun(db: Db, groups: seq<Group>, base: nat, i: nat): Outcome<Tree>
    requires i < |groups| && groups[i].tree in db
  {
    Run(db[groups[i].tree], groups[i].ops, GroupBase(groups, base, i))
  }

  lemma {:induction false} GroupStepAt(o: Outcome<Db>, g: Group, base: nat, t: Name)
    requires o.Ok? && t in o.value && g.tree in o.value
    ensures var r := GroupStep(o, g, base);
      && (g.tree == t ==> match Run(o.value[t], g.ops, base)
            case Ok(u) => r.Ok? && t in r.value && r.value[t] == u
            case Fail(f) => r == Fail(f))
      && (g.tree != t && r.Ok? ==> t in r.value && r.value[t] == o.value[t])
  {
  }

  /** A tree keeps its state until its own group runs. */
  lemma {:induction false} GroupsUntil(db: Db, groups: seq<Group>, base: nat, m: nat, t: Name)
    requires GroupsLive(db, groups) && m <= |groups| && RunGroups(db, groups, base, m).Ok?
    requires t in db && forall i | 0 <= i < m :: groups[i].tree != t
    ensures t in RunGroups(db, groups, base, m).value && RunGroups(db, groups, base, m).value[t] == db[t]
  {
    if m > 0 {
      GroupsUntil(db, groups, base, m - 1, t);
      GroupsKeepTrees(db, groups, base, m - 1);
      GroupStepAt(RunGroups(db, groups, base, m - 1), groups[m - 1], GroupBase(groups, base, m - 1), t);
    }
  }

  lemma {:induction false} GroupsKeepTrees(db: Db, groups: seq<Group>, base: nat, m: nat)
    requires GroupsLive(db, groups) && m <= |groups| && RunGroups(db, groups, base, m).Ok?
    ensures RunGroups(db, groups, base, m).value.Keys == db.Keys
  {
    if m > 0 { GroupsKeepTrees(db, groups, base, m - 1); }
  }

  /** Group `m` runs on its tree as it was before the batch. */
  lemma {:induction false} GroupSeesBefore(db: Db, groups: seq<Group>, base: nat, m: nat)
    requires GroupsLive(db, groups) && Distinct(groups) && m < |groups| && RunGroups(db, groups, base, m).Ok?
    ensures match GroupRun(db, groups, base, m)
      case Fail(f) => RunGroups(db, groups, base, m + 1) == Fail(f)
      case Ok(u) =>
        var r := RunGroups(db, groups, base, m + 1);
        r.Ok? && groups[m].tree in r.value && r.value[groups[m].tree] == u
  {
    GroupsUntil(db, groups, base, m, groups[m].tree);
    GroupStepAt(RunGroups(db, groups, base, m), groups[m], GroupBase(groups, base, m), groups[m].tree);
  }

  /** Groups of different trees do not see each other. */
  lemma {:induction false} GroupsAt(db: Db, groups: seq<Group>, base: nat, m: nat, i: nat)
    requires GroupsLive(db, groups) && Distinct(groups) && i < m <= |groups| && RunGroups(db, groups, base, m).Ok?
    ensures groups[i].tree in RunGroups(db, groups, base, m).value
    ensures GroupRun(db, groups, base, i) == Ok(RunGroups(db, groups, base, m).value[groups[i].tree])
  {
    if i == m - 1 {
      GroupSeesBefore(db, groups, base, i);
    } else {
      GroupsAt(db, groups, base, m - 1, i);
      GroupsKeepTrees(db, groups, base, m - 1);
      GroupStepAt(RunGroups(db, groups, base, m - 1), groups[m - 1], GroupBase(groups, base, m - 1), groups[i].tree);
    }
  }

  lemma {:induction false} GroupsFail(db: Db, groups: seq<Group>, base: nat, m: nat) returns (i: nat)
    requires GroupsLive(db, groups) && Distinct(groups) && m <= |groups| && RunGroups(db, groups, base, m).Fail?
    ensures i < m && GroupRun(db, groups, base, i).Fail?
  {
    if RunGroups(db, groups, base, m - 1).Fail? {
      i := GroupsFail(db, groups, base, m - 1);
    } else {
      i := m - 1;
      GroupSeesBefore(db, groups, base, i);
    }
  }

  /** The preflight of all groups, each tried on its tree as it is before the batch. */
  method PreflightGroups(db: Db, groups: seq<Group>, base: nat) returns (v: Verdict)
    requires GroupsLive(db, groups) && Distinct(groups)
    ensures v == VerdictOf(RunGroups(db, groups, base, |groups|))
  {
    var groupBase := base;
    for m := 0 to |groups|
      invariant groupBase == GroupBase(groups, base, m) && RunGroups(db, groups, base, m).Ok?
    {
      GroupSeesBefore(db, groups, base, m);
      v := Preflight(db[groups[m].tree], groups[m].ops, groupBase);
      if !v.Passes? {
        GroupsFailEarly(db, groups, base, m + 1, |groups|);
        return;
      }
      groupBase := groupBase + Count(groups[m].ops);
    }
    return Passes;
  }

  lemma {:induction false} GroupsFailEarly(db: Db, groups: seq<Group>, base: nat, i: nat, m: nat)
    requires GroupsLive(db, groups) && i <= m <= |groups| && RunGroups(db, groups, base, i).Fail?
    ensures RunGroups(db, groups, base, m) == RunGroups(db, groups, base, i)
  {
    if i < m { GroupsFailEarly(db, groups, base, i, m - 1); }
  }

  // ---------- version-blind ----------

  /** Same contents; versions may differ only where both were handed out by the batch. */
  ghost predicate Blind(u: Tree, w: Tree, base: nat) {
    u.Keys == w.Keys && forall k | k in u ::
      u[k].value == w[k].value && (u[k].version == w[k].version || (u[k].version >= base && w[k].version >= base))
  }

  predicate OldToken(op: BatchOp, base: nat) {
    match op
    case CompareAndPut(_, e, _) => e < base
    case DeleteIfVersion(_, e) => e < base
    case AssertVersion(_, e) => e < base
    case _ => true
  }

  ghost predicate BlindOutcomes(o: Outcome<Tree>, p: Outcome<Tree>, base: nat) {
    match o
    case Fail(f) => p == Fail(f)
    case Ok(u) => p.Ok? && Blind(u, p.value, base)
  }

  /** An operation with an old token cannot tell two such trees apart. */
  lemma {:induction false} StepIsBlind(u: Tree, w: Tree, base: nat, op: BatchOp, s: nat, s': nat)
    requires Blind(u, w, base) && s >= base && s' >= base && OldToken(op, base)
    ensures BlindOutcomes(Step(u, op, s), Step(w, op, s'), base)
  {
  }

  lemma {:induction false} RunIsBlind(t: Tree, pending: seq<DbOp>, nums: seq<nat>, nums': seq<nat>, base: nat,
                                      tree: Name, n: nat)
    requires n <= |pending| == |nums| == |nums'|
    requires forall i | 0 <= i < |pending| :: nums[i] >= base && nums'[i] >= base && OldToken(pending[i].op, base)
    ensures BlindOutcomes(TreeRun(t, pending, nums, tree, n), TreeRun(t, pending, nums', tree, n), base)
  {
    if n > 0 {
      RunIsBlind(t, pending, nums, nums', base, tree, n - 1);
      var o, p := TreeRun(t, pending, nums, tree, n - 1), TreeRun(t, pending, nums', tree, n - 1);
      if o.Ok? { StepIsBlind(o.value, p.value, base, pending[n - 1].op, nums[n - 1], nums'[n - 1]); }
    }
  }

  // ---------- the grouped batch means the submitted batch ----------

  lemma {:induction false} BaseGrows(groups: seq<Group>, base: nat, m: nat)
    requires m <= |groups|
    ensures GroupBase(groups, base, m) >= base
  {
    if m > 0 { BaseGrows(groups, base, m - 1); }
  }

  lemma {:induction false} TreeAgrees(t: Tree, pending: seq<DbOp>, tree: Name, base: nat, groupBase: nat)
    requires groupBase >= base && forall i | 0 <= i < |pending| :: OldToken(pending[i].op, base)
    ensures BlindOutcomes(TreeRun(t, pending, SubmissionNums(pending, base), tree, |pending|),
                          Run(t, OpsOf(pending, tree, |pending|), groupBase), base)
  {
    var nums, nums' := SubmissionNums(pending, base), GroupNums(pending, tree, groupBase);
    GroupIsTreeRun(t, pending, nums', tree, groupBase, |pending|);
    RunIsBlind(t, pending, nums, nums', base, tree, |pending|);
  }

  lemma {:induction false} GroupAgrees(db: Db, pending: seq<DbOp>, groups: seq<Group>, base: nat, i: nat)
    requires IsGrouping(groups, pending, |pending|) && i < |groups| && groups[i].tree in db
    requires forall j | 0 <= j < |pending| :: OldToken(pending[j].op, base)
    ensures BlindOutcomes(TreeRun(db[groups[i].tree], pending, SubmissionNums(pending, base), groups[i].tree,
      |pending|),
                          GroupRun(db, groups, base, i), base)
  {
    BaseGrows(groups, base, i);
    TreeAgrees(db[groups[i].tree], pending, groups[i].tree, base, GroupBase(groups, base, i));
  }

  lemma {:induction false} GroupsAreWellFormed(db: Db, pending: seq<DbOp>, groups: seq<Group>)
    requires AllLive(db, pending) && IsGrouping(groups, pending, |pending|)
    ensures GroupsLive(db, groups) && Distinct(groups)
  {
    NamesAreDistinct(pending, |pending|);
    NamesAreLive(db, pending, |pending|);
    forall i | 0 <= i < |groups| ensures groups[i].tree in db {
      assert Names(pending, |pending|)[i] in Names(pending, |pending|);
    }
  }

  lemma {:induction false} NamesAreLive(db: Db, pending: seq<DbOp>, n: nat)
    requires AllLive(db, pending) && n <= |pending|
    ensures forall t | t in Names(pending, n) :: t in db
  {
    if n > 0 { NamesAreLive(db, pending, n - 1); }
  }

  lemma {:induction false} OthersUntouched(t: Tree, pending: seq<DbOp>, nums: seq<nat>, tree: Name, n: nat)
    requires n <= |pending| == |nums| && tree !in Names(pending, n)
    ensures TreeRun(t, pending, nums, tree, n) == Ok(t)
  {
    if n > 0 {
      NamesAreAll(pending, n, n - 1);
      OthersUntouched(t, pending, nums, tree, n - 1);
    }
  }

  ghost predicate SameContents(d: Db, e: Db) {
    d.Keys == e.Keys && forall t | t in d :: Values(d[t]) == Values(e[t])
  }

  /** With old tokens only, the grouped run accepts a batch exactly when the run in submission order
      does, and both leave the same contents; only which failure is reported may differ. */
  lemma {:induction false} GroupingKeepsMeaning(db: Db, pending: seq<DbOp>, groups: seq<Group>, base: nat)
    requires AllLive(db, pending) && IsGrouping(groups, pending, |pending|) && GroupsLive(db, groups)
    requires forall i | 0 <= i < |pending| :: OldToken(pending[i].op, base)
    ensures var s, g := RunDb(db, pending, base, |pending|), RunGroups(db, groups, base, |groups|);
      (s.Ok? <==> g.Ok?) && (s.Ok? && g.Ok? ==> SameContents(s.value, g.value))
  {
    var nums, all := SubmissionNums(pending, base), |pending|;
    var s, g := RunDb(db, pending, base, all), RunGroups(db, groups, base, |groups|);
    GroupsAreWellFormed(db, pending, groups);
    if g.Fail? {
      var i := GroupsFail(db, groups, base, |groups|);
      GroupAgrees(db, pending, groups, base, i);
      if s.Ok? { RunDbAt(db, pending, nums, base, all, groups[i].tree); }
    } else if s.Fail? {
      var t := RunDbFails(db, pending, nums, base, all);
      TreesAgree(db, pending, groups, base, t);
    } else {
      RunDbKeepsTrees(db, pending, base, all);
      GroupsKeepTrees(db, groups, base, |groups|);
      forall t | t in db ensures Values(s.value[t]) == Values(g.value[t]) {
        RunDbAt(db, pending, nums, base, all, t);
        TreesAgree(db, pending, groups, base, t);
      }
    }
  }

  lemma {:induction false} TreesAgree(db: Db, pending: seq<DbOp>, groups: seq<Group>, base: nat, t: Name)
    requires AllLive(db, pending) && IsGrouping(groups, pending, |pending|) && GroupsLive(db, groups) && t in db
    requires forall i | 0 <= i < |pending| :: OldToken(pending[i].op, base)
    requires RunGroups(db, groups, base, |groups|).Ok?
    ensures var o, g := TreeRun(db[t], pending, SubmissionNums(pending, base), t, |pending|),
      RunGroups(db, groups, base, |groups|);
      o.Ok? && t in g.value && Values(o.value) == Values(g.value[t])
  {
    var names := Names(pending, |pending|);
    GroupsAreWellFormed(db, pending, groups);
    if t in names {
      var i :| 0 <= i < |groups| && names[i] == t;
      GroupAgrees(db, pending, groups, base, i);
      GroupsAt(db, groups, base, |groups|, i);
    } else {
      OthersUntouched(db[t], pending, SubmissionNums(pending, base), t, |pending|);
      forall i | 0 <= i < |groups| ensures groups[i].tree != t {
        assert names[i] in names;
      }
      GroupsUntil(db, groups, base, |groups|, t);
    }
  }

  // ---------- the reserved range of sequence numbers ----------

  /** The numbers taken by the first `m` named trees among the first `n` operations. */
  function SumOf(pending: seq<DbOp>, names: seq<Name>, n: nat, m: nat): nat
    requires n <= |pending| && m <= |names|
  {
    if m == 0 then 0 else SumOf(pending, names, n, m - 1) + Count(OpsOf(pending, names[m - 1], n))
  }

  /** One more operation adds its cost to the sum of the tree it is on, if that is among the first `m`. */
  lemma {:induction false} SumGrows(pending: seq<DbOp>, names: seq<Name>, n: nat, m: nat, at: nat)
    requires n < |pending| && m <= |names| && at < |names| && names[at] == pending[n].tree
    requires forall i | 0 <= i < |names| && i != at :: names[i] != names[at]
    ensures SumOf(pending, names, n + 1, m) == SumOf(pending, names, n, m) + if at < m then pending[n].op.Cost() else 0
  {
    if m > 0 {
      SumGrows(pending, names, n, m - 1, at);
      if at == m - 1 { CountSnoc(OpsOf(pending, names[at], n), pending[n].op); }
    }
  }

  lemma {:induction false} SumPrefix(pending: seq<DbOp>, names: seq<Name>, names': seq<Name>, n: nat, m: nat)
    requires n <= |pending| && m <= |names| && m <= |names'| && forall i | 0 <= i < m :: names[i] == names'[i]
    ensures SumOf(pending, names, n, m) == SumOf(pending, names', n, m)
  {
    if m > 0 { SumPrefix(pending, names, names', n, m - 1); }
  }

  lemma {:induction false} SumIsCount(pending: seq<DbOp>, n: nat)
    requires n <= |pending|
    ensures SumOf(pending, Names(pending, n), n, |Names(pending, n)|) == DbCount(pending, n)
  {
    if n > 0 {
      SumIsCount(pending, n - 1);
      var before, names, tree := Names(pending, n - 1), Names(pending, n), pending[n - 1].tree;
      NamesAreDistinct(pending, n);
      var at :| 0 <= at < |names| && names[at] == tree;
      SumGrows(pending, names, n - 1, |names|, at);
      SumPrefix(pending, before, names, n - 1, |before|);
      if tree !in before { UnseenHasNoOps(pending, tree, n - 1); }
    }
  }

  /** The groups share out exactly the range that was reserved for the batch: no number is left over
      and none is used twice. */
  lemma {:induction false} RangesCover(pending: seq<DbOp>, groups: seq<Group>, base: nat, m: nat)
    requires IsGrouping(groups, pending, |pending|) && m <= |groups|
    ensures GroupBase(groups, base, m) == base + SumOf(pending, Names(pending, |pending|), |pending|, m)
    ensures m == |groups| ==> GroupBase(groups, base, m) == base + DbCount(pending, |pending|)
  {
    if m > 0 { RangesCover(pending, groups, base, m - 1); }
    SumIsCount(pending, |pending|);
  }

  /** `r` is left from `t` or has a version in `[lo, hi)`. */
  ghost predicate InRange(t: Tree, k: Bytes, r: Record, lo: nat, hi: nat) {
    (k in t && r == t[k]) || lo <= r.version < hi
  }

  /** Every record a batch writes carries a version of its own range. */
  lemma {:induction false} VersionsInRange(t: Tree, ops: seq<BatchOp>, base: nat, n: nat, k: Bytes)
    requires n <= |ops| && RunTo(t, ops, base, n).Ok? && k in RunTo(t, ops, base, n).value
    ensures InRange(t, k, RunTo(t, ops, base, n).value[k], base, base + CountTo(ops, n))
  {
    if n > 0 {
      var u := RunTo(t, ops, base, n - 1).value;
      RunNext(t, ops, base, n - 1, u);
      StepStamps(u, ops[n - 1], base + CountTo(ops, n - 1), k);
      if k in u { VersionsInRange(t, ops, base, n - 1, k); }
    }
  }

  lemma {:induction false} StepStamps(u: Tree, op: BatchOp, seqNo: nat, k: Bytes)
    requires Step(u, op, seqNo).Ok? && k in Step(u, op, seqNo).value
    ensures (k in u && Step(u, op, seqNo).value[k] == u[k])
      || (op.EmitsWal() && Step(u, op, seqNo).value[k].version == seqNo)
  {
  }
}
