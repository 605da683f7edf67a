/** Preflight: the whole batch is tried on an overlay over the untouched tree before any cached frame
    is mutated, and the apply phase then runs the same batch in place. */
module BatchPreflight {
  import opened Options
  import opened BatchSemantics

  /** Pending changes over the tree: a record to be written, or `None` for a key to be removed. */
  type Overlay = map<Bytes, Option<Record>>

  datatype Verdict = Passes | Refuses | Errs(failure: Failure)

  function VerdictOf<T>(o: Outcome<T>): Verdict {
    match o
    case Ok(_) => Passes
    case Fail(GuardFailed) => Refuses
    case Fail(f) => Errs(f)
  }

  /** The tree that the overlay stands for. */
  function Projected(t: Tree, overlay: Overlay): Tree {
    map k | k in t.Keys + overlay.Keys && (k in overlay ==> overlay[k].Some?)
      :: if k in overlay then overlay[k].value else t[k]
  }

  function ProjectedRecord(t: Tree, overlay: Overlay, key: Bytes): (r: Option<Record>)
    ensures r == if key in Projected(t, overlay) then Some(Projected(t, overlay)[key]) else None
  {
    if key in overlay then overlay[key] else if key in t then Some(t[key]) else None
  }

  predicate ProjectedVersion(t: Tree, overlay: Overlay, key: Bytes, expected: nat) {
    var r := ProjectedRecord(t, overlay, key);
    r.Some? && r.value.version == expected
  }

  lemma {:induction false} OverlayPut(t: Tree, overlay: Overlay, key: Bytes, r: Record)
    ensures Projected(t, overlay[key := Some(r)]) == Projected(t, overlay)[key := r]
  {
  }

  lemma {:induction false} OverlayDelete(t: Tree, overlay: Overlay, key: Bytes)
    ensures Projected(t, overlay[key := None]) == Projected(t, overlay) - {key}
  {
  }

  /** Scans the base keys under the prefix; one that the overlay does not remove, or any record the
      overlay adds under it, makes the prefix non-empty. */
  method ProjectedPrefixEmpty(t: Tree, overlay: Overlay, prefix: Bytes) returns (empty: bool)
    ensures empty <==> PrefixEmpty(Projected(t, overlay), prefix)
  {
    var adds := set k | k in overlay && overlay[k].Some? && prefix <= k;
    if adds != {} {
      var k :| k in adds;
      assert k in Projected(t, overlay);
      return false;
    }
    var todo := set k | k in t && prefix <= k;
    while todo != {}
      invariant todo <= t.Keys
      invariant forall k :: k in t && prefix <= k && k !in todo ==> k in overlay && overlay[k].None?
    {
      var k :| k in todo;
      if k !in overlay || overlay[k].Some? {
        assert prefix <= k ==> k in Projected(t, overlay);
        return !(prefix <= k);
      }
      todo := todo - {k};
    }
    return true;
  }

  method PreflightRename(t: Tree, overlay: Overlay, src: Bytes, dst: Bytes, force: bool, seqNo: nat)
    returns (v: Verdict, next: Overlay)
    ensures var o := Step(Projected(t, overlay), Rename(src, dst, force), seqNo);
      v == VerdictOf(o) && (o.Ok? ==> o.value == Projected(t, next))
  {
    next := overlay;
    var r := ProjectedRecord(t, overlay, src);
    if r.None? { return Errs(NotFound), overlay; }
    if src == dst { return Passes, overlay; }
    if !force && ProjectedRecord(t, overlay, dst).Some? { return Errs(DstExists), overlay; }
    if InsertShape(dst, r.value.value).Fail? { return Errs(InsertShape(dst, r.value.value).failure), overlay; }
    OverlayDelete(t, overlay, src);
    OverlayPut(t, overlay[src := None], dst, Record(r.value.value, seqNo));
    return Passes, overlay[src := None][dst := Some(Record(r.value.value, seqNo))];
  }

  /** One operation is tried on the overlay: the verdict is that of running it on the projected tree,
      and an accepted operation moves the overlay to the tree it would leave. */
  method PreflightOp(t: Tree, overlay: Overlay, op: BatchOp, seqNo: nat) returns (v: Verdict, next: Overlay)
    ensures var o := Step(Projected(t, overlay), op, seqNo);
      v == VerdictOf(o) && (o.Ok? ==> o.value == Projected(t, next))
  {
    v, next := Passes, overlay;
    match op {
      case Put(key, value) =>
        OverlayPut(t, overlay, key, Record(value, seqNo));
        if InsertShape(key, value).Fail? { v := Errs(InsertShape(key, value).failure); }
        else { next := overlay[key := Some(Record(value, seqNo))]; }
      case PutIfAbsent(key, value) =>
        OverlayPut(t, overlay, key, Record(value, seqNo));
        if InsertShape(key, value).Fail? { v := Errs(InsertShape(key, value).failure); }
        else if ProjectedRecord(t, overlay, key).Some? { v := Refuses; }
        else { next := overlay[key := Some(Record(value, seqNo))]; }
      case CompareAndPut(key, expected, value) =>
        OverlayPut(t, overlay, key, Record(value, seqNo));
        if InsertShape(key, value).Fail? { v := Errs(InsertShape(key, value).failure); }
        else if !ProjectedVersion(t, overlay, key, expected) { v := Refuses; }
        else { next := overlay[key := Some(Record(value, seqNo))]; }
      case Delete(key) =>
        OverlayDelete(t, overlay, key);
        next := overlay[key := None];
      case DeleteIfVersion(key, expected) =>
        OverlayDelete(t, overlay, key);
        if ProjectedVersion(t, overlay, key, expected) { next := overlay[key := None]; } else { v := Refuses; }
      case AssertVersion(key, expected) =>
        if !ProjectedVersion(t, overlay, key, expected) { v := Refuses; }
      case AssertAbsent(key) =>
        if ProjectedRecord(t, overlay, key).Some? { v := Refuses; }
      case AssertPrefixEmpty(prefix) =>
        var empty := ProjectedPrefixEmpty(t, overlay, prefix);
        if !empty { v := Refuses; }
      case Rename(src, dst, force) =>
        v, next := PreflightRename(t, overlay, src, dst, force, seqNo);
    }
  }

  predicate GuardFree(ops: seq<BatchOp>) {
    forall i :: 0 <= i < |ops| ==> ops[i].Put? || ops[i].Delete?
  }

  /** A batch of plain puts and deletes skips the overlay: only the shapes of its puts are checked. */
  method PreflightGuardFree(t: Tree, ops: seq<BatchOp>, base: nat) returns (v: Verdict)
    requires GuardFree(ops)
    ensures v == VerdictOf(Run(t, ops, base))
  {
    for i := 0 to |ops|
      invariant RunTo(t, ops, base, i).Ok?
    {
      if ops[i].Put? && InsertShape(ops[i].key, ops[i].value).Fail? {
        RunFailsEarly(t, ops, base, i + 1, |ops|);
        return Errs(InsertShape(ops[i].key, ops[i].value).failure);
      }
    }
    return Passes;
  }

  method PreflightNext(t: Tree, ops: seq<BatchOp>, ghost base: nat, i: nat, overlay: Overlay, seqNo: nat)
    returns (v: Verdict, next: Overlay)
    requires i < |ops| && seqNo == base + CountTo(ops, i)
    requires RunTo(t, ops, base, i) == Ok(Projected(t, overlay))
    ensures v == VerdictOf(RunTo(t, ops, base, i + 1))
    ensures v.Passes? ==> RunTo(t, ops, base, i + 1) == Ok(Projected(t, next))
  {
    RunNext(t, ops, base, i, Projected(t, overlay));
    v, next := PreflightOp(t, overlay, ops[i], seqNo);
  }

  /** A batch with a guard is tried operation by operation on a growing overlay. */
  method PreflightGuarded(t: Tree, ops: seq<BatchOp>, base: nat) returns (v: Verdict)
    ensures v == VerdictOf(Run(t, ops, base))
  {
    var overlay: Overlay := map[];
    var offset := 0;
    assert Projected(t, overlay) == t;
    v := Passes;
    for i := 0 to |ops|
      invariant v.Passes? && offset == CountTo(ops, i)
      invariant RunTo(t, ops, base, i) == Ok(Projected(t, overlay))
    {
      v, overlay := PreflightNext(t, ops, base, i, overlay, base + offset);
      if !v.Passes? {
        RunFailsEarly(t, ops, base, i + 1, |ops|);
        return;
      }
      offset := offset + ops[i].Cost();
    }
  }

  /** Preflight decides the batch exactly as running it in order would, and changes nothing. */
  method Preflight(t: Tree, ops: seq<BatchOp>, base: nat) returns (v: Verdict)
    ensures v == VerdictOf(Run(t, ops, base))
  {
    if GuardFree(ops) {
      v := PreflightGuardFree(t, ops, base);
    } else {
      v := PreflightGuarded(t, ops, base);
    }
  }
}
