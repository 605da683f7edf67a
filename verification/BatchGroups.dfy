/** Batches over several trees. The database groups the operations by tree and runs the groups one
    after the other; this module relates that to running the operations in submission order. */
module BatchGroups {
  import opened BatchSemantics

  type Name = string
  type Db = map<Name, Tree>

  datatype DbOp = DbOp(tree: Name, op: BatchOp)
  datatype Group = Group(tree: Name, ops: seq<BatchOp>)

  datatype GroupError = InvalidTreeName | TreeNotFound(name: Name)
  datatype Grouping = Grouped(groups: seq<Group>) | Rejected(error: GroupError)

  /** Names that start with a zero byte are the catalog's own. */
  predicate ValidName(n: Name) { n != "" && n[0] != '\0' }

  predicate Usable(live: set<Name>, n: Name) { ValidName(n) && n in live }

  // ---------- grouping ----------

  /** The operations on one tree among the first `n`, in submission order. */
  function OpsOf(pending: seq<DbOp>, tree: Name, n: nat): seq<BatchOp>
    requires n <= |pending|
  {
    if n == 0 then []
    else if pending[n - 1].tree == tree then OpsOf(pending, tree, n - 1) + [pending[n - 1].op]
    else OpsOf(pending, tree, n - 1)
  }

  /** The trees of the first `n` operations, in order of first appearance. */
  function Names(pending: seq<DbOp>, n: nat): seq<Name>
    requires n <= |pending|
  {
    if n == 0 then []
    else
      var names := Names(pending, n - 1);
      if pending[n - 1].tree in names then names else names + [pending[n - 1].tree]
  }

  /** `groups` holds the first `n` operations: one group per tree, in order of first appearance, each
      with exactly the operations on its tree in submission order. */
  ghost predicate IsGrouping(groups: seq<Group>, pending: seq<DbOp>, n: nat)
    requires n <= |pending|
  {
    var names := Names(pending, n);
    |groups| == |names| && forall i | 0 <= i < |groups| :: groups[i] == Group(names[i], OpsOf(pending, names[i], n))
  }

  lemma {:induction false} NamesAreDistinct(pending: seq<DbOp>, n: nat)
    requires n <= |pending|
    ensures forall i, j | 0 <= i < j < |Names(pending, n)| :: Names(pending, n)[i] != Names(pending, n)[j]
  {
    if n > 0 { NamesAreDistinct(pending, n - 1); }
  }

  lemma {:induction false} NamesAreAll(pending: seq<DbOp>, n: nat, i: nat)
    requires i < n <= |pending|
    ensures pending[i].tree in Names(pending, n)
  {
    if i < n - 1 { NamesAreAll(pending, n - 1, i); }
  }

  lemma {:induction false} UnseenHasNoOps(pending: seq<DbOp>, tree: Name, n: nat)
    requires n <= |pending| && tree !in Names(pending, n)
    ensures OpsOf(pending, tree, n) == []
  {
    if n > 0 {
      NamesAreAll(pending, n, n - 1);
      UnseenHasNoOps(pending, tree, n - 1);
    }
  }

  /** The position of each tree's group. */
  ghost predicate Indexed(groupOf: map<Name, nat>, groups: seq<Group>) {
    && (forall t | t in groupOf :: groupOf[t] < |groups| && groups[groupOf[t]].tree == t)
    && (forall j | 0 <= j < |groups| :: groups[j].tree in groupOf)
  }

  function Joined(groups: seq<Group>, at: nat, op: BatchOp): seq<Group>
    requires at < |groups|
  {
    groups[at := Group(groups[at].tree, groups[at].ops + [op])]
  }

  lemma {:induction false} JoinsGroup(groups: seq<Group>, groupOf: map<Name, nat>, pending: seq<DbOp>, n: nat)
    requires n < |pending| && IsGrouping(groups, pending, n) && Indexed(groupOf, groups) && pending[n].tree in groupOf
    ensures var next := Joined(groups, groupOf[pending[n].tree], pending[n].op);
      IsGrouping(next, pending, n + 1) && Indexed(groupOf, next)
  {
    var names, at := Names(pending, n), groupOf[pending[n].tree];
    NamesAreDistinct(pending, n);
    assert names[at] == pending[n].tree && Names(pending, n + 1) == names;
    forall i | 0 <= i < |names| && i != at ensures OpsOf(pending, names[i], n + 1) == OpsOf(pending, names[i], n) {
      assert names[i] != names[at];
    }
    var next := Joined(groups, at, pending[n].op);
    assert forall j | 0 <= j < |next| :: next[j].tree == groups[j].tree;
  }

  lemma {:induction false} StartsGroup(groups: seq<Group>, groupOf: map<Name, nat>, pending: seq<DbOp>, n: nat)
    requires n < |pending| && IsGrouping(groups, pending, n) && Indexed(groupOf, groups) && pending[n].tree !in groupOf
    ensures var next := groups + [Group(pending[n].tree, [pending[n].op])];
      IsGrouping(next, pending, n + 1) && Indexed(groupOf[pending[n].tree := |groups|], next)
  {
    var names := Names(pending, n);
    assert forall j | 0 <= j < |groups| :: names[j] == groups[j].tree;
    UnseenHasNoOps(pending, pending[n].tree, n);
    assert Names(pending, n + 1) == names + [pending[n].tree];
    forall i | 0 <= i < |names| ensures OpsOf(pending, names[i], n + 1) == OpsOf(pending, names[i], n) {
      assert names[i] in names;
    }
  }

  /** The first unusable name is the one reported. */
  ghost predicate FirstUnusable(pending: seq<DbOp>, live: set<Name>, e: GroupError) {
    exists i :: 0 <= i < |pending| && !Usable(live, pending[i].tree)
      && (forall j | 0 <= j < i :: Usable(live, pending[j].tree))
      && e == if ValidName(pending[i].tree) then TreeNotFound(pending[i].tree) else InvalidTreeName
  }

  /** Group the operations by tree, looking each tree up at its first appearance. */
  method GroupBatchOps(pending: seq<DbOp>, live: set<Name>) returns (r: Grouping)
    ensures r.Grouped? <==> forall i | 0 <= i < |pending| :: Usable(live, pending[i].tree)
    ensures r.Grouped? ==> IsGrouping(r.groups, pending, |pending|)
    ensures r.Rejected? ==> FirstUnusable(pending, live, r.error)
  {
    var groups: seq<Group> := [];
    var groupOf: map<Name, nat> := map[];
    for n := 0 to |pending|
      invariant IsGrouping(groups, pending, n)
      invariant forall i | 0 <= i < n :: Usable(live, pending[i].tree)
      invariant Indexed(groupOf, groups) && forall t | t in groupOf :: Usable(live, t)
    {
      var tree, op := pending[n].tree, pending[n].op;
      if tree in groupOf {
        JoinsGroup(groups, groupOf, pending, n);
        groups := Joined(groups, groupOf[tree], op);
      } else {
        if !ValidName(tree) { return Rejected(InvalidTreeName); }
        if tree !in live { return Rejected(TreeNotFound(tree)); }
        StartsGroup(groups, groupOf, pending, n);
        groupOf, groups := groupOf[tree := |groups|], groups + [Group(tree, [op])];
      }
    }
    return Grouped(groups);
  }
}
