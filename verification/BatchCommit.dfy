/** Committing a batch over several trees: grouping, preflight, in-place apply tree by tree, the log
    record, and the latch that closes the store when an applied batch has no record. */
module BatchCommit {
  import opened BatchSemantics
  import opened BatchPreflight
  import opened BatchGroups
  import opened BatchOrder
  import opened BatchReplay

  // ---------- one tree ----------

  predicate InsertLike(op: BatchOp) { op.Put? || op.PutIfAbsent? || op.CompareAndPut? }

  /** If the batch runs to the end then `t` is the tree after its first `i` operations. */
  ghost predicate At(start: Tree, ops: seq<BatchOp>, base: nat, i: nat, t: Tree) {
    i <= |ops| && (Run(start, ops, base).Ok? ==> RunTo(start, ops, base, i) == Ok(t))
  }

  /** In a batch that runs to the end no operation fails. */
  lemma {:induction false} NextRuns(start: Tree, ops: seq<BatchOp>, base: nat, i: nat, t: Tree)
    requires At(start, ops, base, i, t) && i < |ops| && Run(start, ops, base).Ok?
    ensures RunTo(start, ops, base, i + 1) == Step(t, ops[i], base + CountTo(ops, i))
    ensures Step(t, ops[i], base + CountTo(ops, i)).Ok?
  {
    RunNext(start, ops, base, i, t);
    if RunTo(start, ops, base, i + 1).Fail? { RunFailsEarly(start, ops, base, i + 1, |ops|); }
  }

  /** A tree that batches change in place. */
  class LiveTree {
    var records: Tree

    constructor ()
      ensures records == map[]
    {
      records := map[];
    }

    /** One conditional insert on the real tree; `false` when its condition did not hold. */
    method InsertConditional(op: BatchOp, seqNo: nat) returns (mutated: bool)
      requires InsertLike(op)
      modifies `records
      ensures Step(old(records), op, seqNo).Ok? ==> mutated && Ok(records) == Step(old(records), op, seqNo)
    {
      mutated := op.Put? || (op.PutIfAbsent? && op.key !in records)
              || (op.CompareAndPut? && HasVersion(records, op.key, op.expected));
      if mutated { records := Insert(records, op.key, op.value, seqNo); }
    }

    method InsertNext(ghost start: Tree, ops: seq<BatchOp>, ghost base: nat, i: nat, seqNo: nat) returns (missed: bool)
      requires i < |ops| && InsertLike(ops[i]) && seqNo == base + CountTo(ops, i) && At(start, ops, base, i, records)
      modifies `records
      ensures !missed ==> At(start, ops, base, i + 1, records)
      ensures missed ==> Run(start, ops, base).Fail?
    {
      if Run(start, ops, base).Ok? { NextRuns(start, ops, base, i, records); }
      var mutated := InsertConditional(ops[i], seqNo);
      missed := !mutated;
    }

    /** A run of insert-like operations with consecutive sequence numbers. */
    method ApplyInsertRun(ghost start: Tree, ops: seq<BatchOp>, ghost base: nat, i: nat, n: nat,
                          first: nat) returns (missed: bool)
      requires i + n <= |ops| && first == base + CountTo(ops, i) && At(start, ops, base, i, records)
      requires forall j :: i <= j < i + n ==> InsertLike(ops[j])
      modifies `records
      ensures !missed ==> At(start, ops, base, i + n, records) && CountTo(ops, i + n) == CountTo(ops, i) + n
      ensures missed ==> Run(start, ops, base).Fail?
    {
      missed := false;
      var j := 0;
      while j < n && !missed
        invariant j <= n && CountTo(ops, i + j) == CountTo(ops, i) + j
        invariant if missed then Run(start, ops, base).Fail? else At(start, ops, base, i + j, records)
      {
        missed := InsertNext(start, ops, base, i + j, first + j);
        j := j + 1;
      }
    }

    /** The other operations that change the tree; assertions were settled by preflight. */
    method ApplyOther(op: BatchOp, seqNo: nat) returns (missed: bool)
      requires !InsertLike(op)
      modifies `records
      ensures Step(old(records), op, seqNo).Ok? ==> !missed && Ok(records) == Step(old(records), op, seqNo)
    {
      missed := false;
      match op {
        case Delete(key) => records := records - {key};
        case DeleteIfVersion(key, expected) =>
          if HasVersion(records, key, expected) { records := records - {key}; } else { missed := true; }
        case Rename(src, dst, force) =>
          if src !in records { missed := true; }
          else if src != dst {
            if !force && dst in records { missed := true; }
            else {
              var value := records[src].value;
              records := records - {src};
              records := Insert(records, dst, value, seqNo);
            }
          }
        case _ =>
      }
    }

    method OtherNext(ghost start: Tree, ops: seq<BatchOp>, ghost base: nat, i: nat, seqNo: nat) returns (missed: bool)
      requires i < |ops| && !InsertLike(ops[i]) && seqNo == base + CountTo(ops, i) && At(start, ops, base, i, records)
      modifies `records
      ensures !missed ==> At(start, ops, base, i + 1, records)
      ensures missed ==> Run(start, ops, base).Fail?
    {
      if Run(start, ops, base).Ok? { NextRuns(start, ops, base, i, records); }
      missed := ApplyOther(ops[i], seqNo);
    }

    /** The apply phase. However it cuts the insert-like operations into runs, a batch that preflight
        accepted meets no failing guard and leaves the tree the batch means; a walker that breaks at
        operation `stop` leaves the tree after the operations before it. */
    method ApplyInPlace(ops: seq<BatchOp>, base: nat, stop: nat) returns (missed: bool)
      modifies `records
      ensures Run(old(records), ops, base).Ok? ==> (missed <==> stop < |ops|)
      ensures Run(old(records), ops, base).Ok? ==>
        RunTo(old(records), ops, base, if stop < |ops| then stop else |ops|) == Ok(records)
    {
      ghost var start := records;
      var i, offset := 0, 0;
      missed := false;
      while i < |ops| && i < stop
        invariant i <= |ops| && (stop < |ops| ==> i <= stop) && offset == CountTo(ops, i)
        invariant At(start, ops, base, i, records)
      {
        if InsertLike(ops[i]) {
          var n :| 1 <= n <= |ops| - i && n <= stop - i && forall j :: i <= j < i + n ==> InsertLike(ops[j]);
          missed := ApplyInsertRun(start, ops, base, i, n, base + offset);
          if missed { return; }
          i, offset := i + n, offset + n;
        } else {
          missed := OtherNext(start, ops, base, i, base + offset);
          if missed { return; }
          i, offset := i + 1, offset + ops[i].Cost();
        }
      }
      missed := i < |ops|;
    }
  }

  // ---------- the log ----------

  /** One tree's part of a record. */
  datatype LogPart = LogPart(tree: Name, ops: seq<LogOp>)
  datatype LogRecord = LogRecord(base: nat, parts: seq<LogPart>)

  function RecordOf(groups: seq<Group>, base: nat): LogRecord {
    LogRecord(base, seq(|groups|, i requires 0 <= i < |groups| => LogPart(groups[i].tree, Logged(groups[i].ops))))
  }

  /** Inner operations are numbered through the parts. */
  function PartBase(parts: seq<LogPart>, base: nat, m: nat): nat
    requires m <= |parts|
  {
    if m == 0 then base else PartBase(parts, base, m - 1) + |parts[m - 1].ops|
  }

  function ReplayPart(d: Db, p: LogPart, base: nat): Db {
    if p.tree in d then d[p.tree := Replay(d[p.tree], p.ops, base)] else d
  }

  function ReplayParts(d: Db, parts: seq<LogPart>, base: nat, m: nat): Db
    requires m <= |parts|
  {
    if m == 0 then d else ReplayPart(ReplayParts(d, parts, base, m - 1), parts[m - 1], PartBase(parts, base, m - 1))
  }

  function ReplayRecord(d: Db, r: LogRecord): Db { ReplayParts(d, r.parts, r.base, |r.parts|) }

  function ReplayLog(d: Db, log: seq<LogRecord>, n: nat): Db
    requires n <= |log|
  {
    if n == 0 then d else ReplayRecord(ReplayLog(d, log, n - 1), log[n - 1])
  }

  lemma {:induction false} ReplayLogPrefix(d: Db, log: seq<LogRecord>, log': seq<LogRecord>, n: nat)
    requires n <= |log| && n <= |log'| && forall i | 0 <= i < n :: log[i] == log'[i]
    ensures ReplayLog(d, log, n) == ReplayLog(d, log', n)
  {
    if n > 0 { ReplayLogPrefix(d, log, log', n - 1); }
  }

  /** The parts of a record are numbered as the groups were. */
  lemma {:induction false} PartsAreNumbered(groups: seq<Group>, base: nat, m: nat)
    requires m <= |groups|
    ensures PartBase(RecordOf(groups, base).parts, base, m) == GroupBase(groups, base, m)
  {
    if m > 0 {
      PartsAreNumbered(groups, base, m - 1);
      assert |RecordOf(groups, base).parts[m - 1].ops| == Count(groups[m - 1].ops) by {
        LoggedCount(groups[m - 1].ops, |groups[m - 1].ops|);
      }
    }
  }

  lemma {:induction false} PartRebuilds(d: Db, w: Db, g: Group, base: nat)
    requires SameContents(d, w) && g.tree in d && Run(d[g.tree], g.ops, base).Ok?
    ensures SameContents(GroupStep(Ok(d), g, base).value, ReplayPart(w, LogPart(g.tree, Logged(g.ops)), base))
  {
    ReplayRebuildsValues(d[g.tree], w[g.tree], g.ops, base, base);
  }

  /** Replaying the record of an accepted batch over the same contents rebuilds what the batch left. */
  lemma {:induction false} RecordRebuilds(d: Db, w: Db, groups: seq<Group>, base: nat, m: nat)
    requires SameContents(d, w) && GroupsLive(d, groups) && m <= |groups| && RunGroups(d, groups, base, m).Ok?
    ensures SameContents(RunGroups(d, groups, base, m).value, ReplayParts(w, RecordOf(groups, base).parts, base, m))
  {
    if m > 0 {
      RecordRebuilds(d, w, groups, base, m - 1);
      GroupsKeepTrees(d, groups, base, m - 1);
      PartsAreNumbered(groups, base, m - 1);
      PartRebuilds(RunGroups(d, groups, base, m - 1).value, ReplayParts(w, RecordOf(groups, base).parts, base, m - 1),
                   groups[m - 1], GroupBase(groups, base, m - 1));
    }
  }

  lemma {:induction false} LogRebuilds(start: Db, log: seq<LogRecord>, d: Db, groups: seq<Group>, base: nat, e: Db)
    requires SameContents(d, ReplayLog(start, log, |log|)) && GroupsLive(d, groups)
    requires RunGroups(d, groups, base, |groups|) == Ok(e)
    ensures var next := log + [RecordOf(groups, base)]; SameContents(e, ReplayLog(start, next, |next|))
  {
    ReplayLogPrefix(start, log, log + [RecordOf(groups, base)], |log|);
    RecordRebuilds(d, ReplayLog(start, log, |log|), groups, base, |groups|);
  }

  // ---------- the database ----------

  datatype Answer =
    | Applied
    | Refused
    | Error(failure: Failure)
    | BadName(error: GroupError)
    | OutcomeUnknown
    | Closed

  /** What may go wrong once a batch is being applied: a walker breaks at an operation of a group, or
      the log refuses the record. */
  datatype Fault = NoFault | WalkerBreaks(group: nat, op: nat) | LogRefuses

  predicate Hits(fault: Fault, groups: seq<Group>) {
    match fault
    case NoFault => false
    case WalkerBreaks(m, i) => m < |groups| && i < |groups[m].ops|
    case LogRefuses => true
  }

  /** `e` is `d` after the first `i` operations of the group. */
  ghost predicate Reaches(d: Db, g: Group, base: nat, i: nat, e: Db) {
    && i <= |g.ops| && g.tree in d && RunTo(d[g.tree], g.ops, base, i).Ok?
    && e == d[g.tree := RunTo(d[g.tree], g.ops, base, i).value]
  }

  /** The states between the groups of a batch that runs to the end. */
  ghost predicate IsPath(path: seq<Db>, groups: seq<Group>, base: nat) {
    && |path| == |groups| + 1
    && forall m | 0 <= m < |groups| :: Reaches(path[m], groups[m], GroupBase(groups, base, m), |groups[m].ops|,
      path[m + 1])
  }

  /** A batch that did not end left some prefix of itself, in group order. */
  ghost predicate PartWay(d: Db, groups: seq<Group>, base: nat, e: Db) {
    exists m, i, at: Db :: PartWayAt(d, groups, base, m, i, at, e)
  }

  ghost predicate PartWayAt(d: Db, groups: seq<Group>, base: nat, m: nat, i: nat, at: Db, e: Db) {
    m < |groups| && RunGroups(d, groups, base, m) == Ok(at) && Reaches(at, groups[m], GroupBase(groups, base, m), i, e)
  }

  lemma {:induction false} GroupPath(d: Db, groups: seq<Group>, base: nat, m: nat) returns (path: seq<Db>)
    requires GroupsLive(d, groups) && m <= |groups| && RunGroups(d, groups, base, m).Ok?
    ensures |path| == m + 1 && path[0] == d && RunGroups(d, groups, base, m) == Ok(path[m])
    ensures forall i | 0 <= i < m :: Reaches(path[i], groups[i], GroupBase(groups, base, i), |groups[i].ops|,
      path[i + 1])
  {
    if m == 0 {
      path := [d];
    } else {
      var front := GroupPath(d, groups, base, m - 1);
      var next := RunGroups(d, groups, base, m).value;
      GroupsKeepTrees(d, groups, base, m - 1);
      assert Reaches(front[m - 1], groups[m - 1], GroupBase(groups, base, m - 1), |groups[m - 1].ops|, next);
      path := front + [next];
    }
  }

  lemma {:induction false} PathRuns(d: Db, groups: seq<Group>, base: nat, path: seq<Db>, m: nat)
    requires IsPath(path, groups, base) && path[0] == d && m <= |groups|
    ensures RunGroups(d, groups, base, m) == Ok(path[m])
  {
    if m > 0 {
      PathRuns(d, groups, base, path, m - 1);
      assert Reaches(path[m - 1], groups[m - 1], GroupBase(groups, base, m - 1), |groups[m - 1].ops|, path[m - 1 + 1]);
    }
  }

  ghost predicate AllBelow(d: Db, hi: nat) { forall n | n in d :: VersionsBelow(d[n], hi) }

  lemma {:induction false} BaseMonotone(groups: seq<Group>, base: nat, i: nat, m: nat)
    requires i <= m <= |groups|
    ensures GroupBase(groups, base, i) <= GroupBase(groups, base, m)
  {
    if i < m { BaseMonotone(groups, base, i, m - 1); }
  }

  /** The versions that a batch hands out stay below the end of its range. */
  lemma {:induction false} GroupsStayBelow(d: Db, groups: seq<Group>, base: nat, m: nat, hi: nat)
    requires GroupsLive(d, groups) && m <= |groups| && RunGroups(d, groups, base, m).Ok? && AllBelow(d, hi)
    requires GroupBase(groups, base, m) <= hi
    ensures AllBelow(RunGroups(d, groups, base, m).value, hi)
  {
    if m > 0 {
      GroupsStayBelow(d, groups, base, m - 1, hi);
      var before, g, b := RunGroups(d, groups, base, m - 1).value, groups[m - 1], GroupBase(groups, base, m - 1);
      GroupsKeepTrees(d, groups, base, m - 1);
      GroupStaysBelow(before[g.tree], g.ops, b, hi);
    }
  }

  lemma {:induction false} GroupStaysBelow(t: Tree, ops: seq<BatchOp>, base: nat, hi: nat)
    requires Run(t, ops, base).Ok? && VersionsBelow(t, hi) && base + Count(ops) <= hi
    ensures VersionsBelow(Run(t, ops, base).value, hi)
  {
    forall k | k in Run(t, ops, base).value ensures Run(t, ops, base).value[k].version < hi {
      VersionsInRange(t, ops, base, |ops|, k);
    }
  }

  /** Groups that take no sequence number only assert. */
  lemma {:induction false} NoGroupChanges(d: Db, groups: seq<Group>, base: nat, m: nat)
    requires GroupsLive(d, groups) && m <= |groups| && RunGroups(d, groups, base, m).Ok?
      && GroupBase(groups, base, m) == base
    ensures RunGroups(d, groups, base, m) == Ok(d)
  {
    if m > 0 {
      BaseMonotone(groups, base, 0, m - 1);
      NoGroupChanges(d, groups, base, m - 1);
      var t := groups[m - 1].tree;
      AssertsChangeNothing(d[t], groups[m - 1].ops, base, |groups[m - 1].ops|);
      assert d[t := d[t]] == d;
    }
  }

  /** A batch of assertions changes nothing. */
  lemma {:induction false} AssertsChangeNothing(t: Tree, ops: seq<BatchOp>, base: nat, n: nat)
    requires n <= |ops| && RunTo(t, ops, base, n).Ok? && CountTo(ops, n) == 0
    ensures RunTo(t, ops, base, n) == Ok(t)
  {
    if n > 0 { AssertsChangeNothing(t, ops, base, n - 1); }
  }

  /** What a batch leaves: nothing changed and a reason, or everything with its record, or a latched
      store with no record that holds some prefix of the batch. */
  ghost predicate Committed(d: Db, base: nat, log: seq<LogRecord>, groups: seq<Group>, fault: Fault, answer: Answer,
                            e: Db, log': seq<LogRecord>, latched: bool)
  {
    match RunGroups(d, groups, base, |groups|)
    case Fail(f) =>
      e == d && log' == log && !latched && answer == if f.GuardFailed? then Refused else Error(f)
    case Ok(u) =>
      if GroupBase(groups, base, |groups|) == base then e == u == d && log' == log && !latched && answer == Applied
      else if !Hits(fault, groups) then
        e == u && log' == log + [RecordOf(groups, base)] && !latched && answer == Applied
      else
        && log' == log && latched && answer == OutcomeUnknown
        && if fault.LogRefuses? then e == u else PartWay(d, groups, base, e)
  }

  /** The log rebuilds the contents `d`, and every version in them was handed out before `nextSeq`. */
  ghost predicate Recovers(start: Db, log: seq<LogRecord>, d: Db, nextSeq: nat) {
    SameContents(d, ReplayLog(start, log, |log|)) && AllBelow(d, nextSeq)
  }

  lemma {:induction false} RecoversNext(start: Db, log: seq<LogRecord>, d: Db, hi: nat, groups: seq<Group>,
                                        base: nat, e: Db)
    requires Recovers(start, log, d, hi) && GroupsLive(d, groups) && GroupBase(groups, base, |groups|) <= hi
    requires RunGroups(d, groups, base, |groups|) == Ok(e)
    ensures Recovers(start, log + [RecordOf(groups, base)], e, hi)
  {
    LogRebuilds(start, log, d, groups, base, e);
    GroupsStayBelow(d, groups, base, |groups|, hi);
  }

  class LiveDb {
    const trees: map<Name, LiveTree>
    var nextSeq: nat
    var log: seq<LogRecord>
    var latched: bool
    /** The contents before the first record. */
    ghost const start: Db

    function Contents(): Db
      reads trees.Values`records
    {
      map n | n in trees :: trees[n].records
    }

    ghost predicate Apart() { forall m, n | m in trees && n in trees && m != n :: trees[m] != trees[n] }

    /** Unless the store is latched, the log rebuilds the contents, and every version was handed out. */
    ghost predicate Valid()
      reads this, trees.Values`records
    {
      Apart() && (!latched ==> Recovers(start, log, Contents(), nextSeq))
    }

    constructor (trees: map<Name, LiveTree>)
      requires forall m, n | m in trees && n in trees && m != n :: trees[m] != trees[n]
      requires forall n | n in trees :: trees[n].records == map[]
      ensures Valid() && this.trees == trees && nextSeq == 1 && log == [] && !latched
    {
      this.trees, nextSeq, log, latched := trees, 1, [], false;
      start := map n | n in trees :: trees[n].records;
    }

    /** One group on its own tree, up to operation `stop`. */
    method ApplyGroup(g: Group, base: nat, stop: nat) returns (missed: bool)
      requires Apart() && g.tree in trees && Run(trees[g.tree].records, g.ops, base).Ok?
      modifies trees.Values`records
      ensures missed <==> stop < |g.ops|
      ensures Reaches(old(Contents()), g, base, if stop < |g.ops| then stop else |g.ops|, Contents())
    {
      ghost var d := Contents();
      missed := trees[g.tree].ApplyInPlace(g.ops, base, stop);
      assert Contents() == d[g.tree := trees[g.tree].records];
    }

    /** The groups in order; a walker breaks at operation `op` of group `at`, if there is one. */
    method ApplyGroups(groups: seq<Group>, base: nat, at: nat, op: nat, ghost path: seq<Db>) returns (missed: bool)
      requires Apart() && IsPath(path, groups, base) && path[0] == Contents()
      modifies trees.Values`records
      ensures missed <==> at < |groups| && op < |groups[at].ops|
      ensures if missed then Reaches(path[at], groups[at], GroupBase(groups, base, at), op, Contents())
              else Contents() == path[|groups|]
    {
      var groupBase := base;
      for m := 0 to |groups|
        invariant groupBase == GroupBase(groups, base, m) && Contents() == path[m]
        invariant at < m ==> op >= |groups[at].ops|
      {
        var g := groups[m];
        assert Reaches(path[m], g, groupBase, |g.ops|, path[m + 1]);
        missed := ApplyGroup(g, groupBase, if m == at then op else |g.ops|);
        if missed { return; }
        groupBase := groupBase + Count(g.ops);
      }
      missed := false;
    }

    method ApplyUnlogged(groups: seq<Group>, base: nat, fault: Fault) returns (missed: bool)
      requires Apart() && GroupsLive(Contents(), groups) && RunGroups(Contents(), groups, base, |groups|).Ok?
      modifies trees.Values`records
      ensures missed <==> fault.WalkerBreaks? && Hits(fault, groups)
      ensures if missed then PartWay(old(Contents()), groups, base, Contents())
              else RunGroups(old(Contents()), groups, base, |groups|) == Ok(Contents())
    {
      ghost var before := Contents();
      ghost var path := GroupPath(before, groups, base, |groups|);
      var at, op := if fault.WalkerBreaks? then fault.group else |groups|, if fault.WalkerBreaks? then fault.op else 0;
      missed := ApplyGroups(groups, base, at, op, path);
      if missed {
        PathRuns(before, groups, base, path, at);
        assert PartWayAt(before, groups, base, at, op, path[at], Contents());
      }
    }

    /** A contiguous range of sequence numbers. */
    method Reserve(count: nat) returns (base: nat)
      requires Valid()
      modifies `nextSeq
      ensures Valid() && base == old(nextSeq) && nextSeq == base + count && Contents() == old(Contents())
    {
      base := nextSeq;
      nextSeq := nextSeq + count;
    }

    method Append(r: LogRecord)
      modifies `log
      ensures log == old(log) + [r] && Contents() == old(Contents())
    {
      log := log + [r];
    }

    method Latch()
      modifies `latched
      ensures latched && Contents() == old(Contents())
    {
      latched := true;
    }

    /** The apply phase of an accepted batch: it ends with the record in the log, or latches the store. */
    method ApplyLogged(groups: seq<Group>, base: nat, fault: Fault) returns (ok: bool)
      requires Valid() && !latched && GroupsLive(Contents(), groups) && GroupBase(groups, base, |groups|) <= nextSeq
      requires RunGroups(Contents(), groups, base, |groups|).Ok?
      modifies `log, `latched, trees.Values`records
      ensures Valid() && ok == !Hits(fault, groups) == !latched
      ensures ok ==> log == old(log) + [RecordOf(groups, base)]
      ensures ok || fault.LogRefuses? ==> RunGroups(old(Contents()), groups, base, |groups|) == Ok(Contents())
      ensures !ok ==> log == old(log)
      ensures !ok && !fault.LogRefuses? ==> PartWay(old(Contents()), groups, base, Contents())
    {
      ghost var before := Contents();
      var missed := ApplyUnlogged(groups, base, fault);
      ghost var after := Contents();
      ok := !missed && !fault.LogRefuses?;
      if ok {
        RecoversNext(start, log, before, nextSeq, groups, base, after);
        Append(RecordOf(groups, base));
      } else {
        Latch();
      }
    }

    /** Preflight and apply of grouped operations. */
    method Commit(groups: seq<Group>, count: nat, fault: Fault) returns (answer: Answer)
      requires Valid() && !latched && GroupsLive(Contents(), groups) && Distinct(groups)
      requires GroupBase(groups, nextSeq, |groups|) == nextSeq + count
      modifies this, trees.Values`records
      ensures Valid() && nextSeq == old(nextSeq) + count
      ensures Committed(old(Contents()), old(nextSeq), old(log), groups, fault, answer, Contents(), log, latched)
    {
      var base := Reserve(count);
      var v := PreflightGroups(Contents(), groups, base);
      match v {
        case Refuses => return Refused;
        case Errs(f) => return Error(f);
        case Passes =>
      }
      if count == 0 {
        NoGroupChanges(Contents(), groups, base, |groups|);
        return Applied;
      }
      var ok := ApplyLogged(groups, base, fault);
      return if ok then Applied else OutcomeUnknown;
    }

    /** An atomic batch over several trees. It applies as a whole, with its log record, or leaves every
        tree as it was and says why; no guard fails after preflight. When a walker breaks part-way or
        the log refuses the record, the store is latched closed and the outcome reported as unknown. */
    method Atomic(pending: seq<DbOp>, fault: Fault) returns (answer: Answer, ghost groups: seq<Group>)
      requires Valid()
      modifies this, trees.Values`records
      ensures Valid()
      ensures old(latched) ==> answer == Closed
      ensures old(latched) || answer.BadName? ==>
        Contents() == old(Contents()) && log == old(log) && nextSeq == old(nextSeq) && latched == old(latched)
      ensures !old(latched) ==>
        (answer.BadName? <==> exists i :: 0 <= i < |pending| && !Usable(trees.Keys, pending[i].tree))
      ensures answer.BadName? ==> FirstUnusable(pending, trees.Keys, answer.error)
      ensures !old(latched) && !answer.BadName? ==>
        && IsGrouping(groups, pending, |pending|) && nextSeq == old(nextSeq) + DbCount(pending, |pending|)
        && Committed(old(Contents()), old(nextSeq), old(log), groups, fault, answer, Contents(), log, latched)
    {
      groups := [];
      if latched { return Closed, groups; }
      var r := GroupBatchOps(pending, trees.Keys);
      if r.Rejected? { return BadName(r.error), groups; }
      groups := r.groups;
      GroupsAreWellFormed(Contents(), pending, r.groups);
      RangesCover(pending, r.groups, nextSeq, |r.groups|);
      answer := Commit(r.groups, DbCount(pending, |pending|), fault);
    }

    /** An atomic batch on one tree. */
    method AtomicOnTree(tree: Name, ops: seq<BatchOp>, fault: Fault) returns (answer: Answer)
      requires Valid() && tree in trees
      modifies this, trees.Values`records
      ensures Valid()
      ensures old(latched) ==> answer == Closed && Contents() == old(Contents()) && log == old(log)
      ensures !old(latched) ==> nextSeq == old(nextSeq) + Count(ops)
      ensures !old(latched) ==>
        Committed(old(Contents()), old(nextSeq), old(log), [Group(tree, ops)], fault, answer, Contents(), log, latched)
    {
      if latched { return Closed; }
      var groups := [Group(tree, ops)];
      assert GroupBase(groups, nextSeq, 1) == GroupBase(groups, nextSeq, 0) + Count(groups[0].ops);
      answer := Commit(groups, Count(ops), fault);
    }
  }
}
