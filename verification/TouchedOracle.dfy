/** The fuzz oracle for atomic batches keeps values and a set of touched keys, and no versions. It
    agrees with the versioned semantics: a "current" guard, compiled to the version read before the
    batch, holds exactly when the key was there and has not been touched since. */
module TouchedOracle {
  import opened BatchSemantics

  type Model = map<Bytes, Bytes>

  datatype OracleOp =
    | Put(key: Bytes, value: Bytes)
    | Delete(key: Bytes)
    | PutIfAbsent(key: Bytes, value: Bytes)
    | AssertAbsent(key: Bytes)
    | CompareAndPutCurrent(key: Bytes, value: Bytes)
    | DeleteIfCurrent(key: Bytes)
    | AssertCurrent(key: Bytes)
    | AssertStale(key: Bytes)
    | AssertPrefixEmpty(prefix: Bytes)
    | Rename(src: Bytes, dst: Bytes, force: bool)

  datatype Staged = Staged(values: Model, touched: set<Bytes>)

  /** The version that a caller reads before the batch; a missing key gives a version no record has. */
  function CurrentVersion(t: Tree, key: Bytes): nat { if key in t then t[key].version else U64_MAX }

  /** The batch operation that stands for the oracle's, compiled against the tree before the batch. */
  function Compile(t: Tree, op: OracleOp): BatchOp {
    match op
    case Put(k, v) => BatchOp.Put(k, v)
    case Delete(k) => BatchOp.Delete(k)
    case PutIfAbsent(k, v) => BatchOp.PutIfAbsent(k, v)
    case AssertAbsent(k) => BatchOp.AssertAbsent(k)
    case CompareAndPutCurrent(k, v) => CompareAndPut(k, CurrentVersion(t, k), v)
    case DeleteIfCurrent(k) => DeleteIfVersion(k, CurrentVersion(t, k))
    case AssertCurrent(k) => AssertVersion(k, CurrentVersion(t, k))
    case AssertStale(k) => AssertVersion(k, U64_MAX)
    case AssertPrefixEmpty(p) => BatchOp.AssertPrefixEmpty(p)
    case Rename(src, dst, force) => BatchOp.Rename(src, dst, force)
  }

  function CompileAll(t: Tree, ops: seq<OracleOp>): seq<BatchOp> {
    seq(|ops|, i requires 0 <= i < |ops| => Compile(t, ops[i]))
  }

  function Write(s: Staged, key: Bytes, value: Bytes): Staged {
    Staged(s.values[key := value], s.touched + {key})
  }

  function Remove(s: Staged, key: Bytes): Staged { Staged(s.values - {key}, s.touched + {key}) }

  predicate IsCurrent(model: Model, s: Staged, key: Bytes) { key in model && key !in s.touched }

  function OracleStep(model: Model, s: Staged, op: OracleOp): Outcome<Staged> {
    match op
    case Put(k, v) => Ok(Write(s, k, v))
    case Delete(k) => Ok(Remove(s, k))
    case PutIfAbsent(k, v) => if k in s.values then Fail(GuardFailed) else Ok(Write(s, k, v))
    case AssertAbsent(k) => if k in s.values then Fail(GuardFailed) else Ok(s)
    case CompareAndPutCurrent(k, v) => if IsCurrent(model, s, k) then Ok(Write(s, k, v)) else Fail(GuardFailed)
    case DeleteIfCurrent(k) => if IsCurrent(model, s, k) then Ok(Remove(s, k)) else Fail(GuardFailed)
    case AssertCurrent(k) => if IsCurrent(model, s, k) then Ok(s) else Fail(GuardFailed)
    case AssertStale(_) => Fail(GuardFailed)
    case AssertPrefixEmpty(p) => if forall k | k in s.values :: !(p <= k) then Ok(s) else Fail(GuardFailed)
    case Rename(src, dst, force) =>
      if src !in s.values then Fail(NotFound)
      else if src == dst then Ok(s)
      else if !force && dst in s.values then Fail(DstExists)
      else Ok(Write(Remove(s, src), dst, s.values[src]))
  }

  function OracleTo(model: Model, ops: seq<OracleOp>, n: nat): Outcome<Staged>
    requires n <= |ops|
  {
    if n == 0 then Ok(Staged(model, {}))
    else match OracleTo(model, ops, n - 1)
      case Fail(f) => Fail(f)
      case Ok(s) => OracleStep(model, s, ops[n - 1])
  }

  lemma {:induction false} OracleFailsEarly(model: Model, ops: seq<OracleOp>, i: nat, n: nat)
    requires i <= n <= |ops| && OracleTo(model, ops, i).Fail?
    ensures OracleTo(model, ops, n) == OracleTo(model, ops, i)
  {
    if i < n { OracleFailsEarly(model, ops, i, n - 1); }
  }

  // ---------- agreement ----------

  predicate FitKey(k: Bytes) { |k| + 1 <= U16_MAX }

  /** The oracle generates only keys and values that the tree can store. */
  predicate Fits(op: OracleOp) {
    match op
    case Put(k, v) => FitKey(k) && |v| <= U16_MAX
    case PutIfAbsent(k, v) => FitKey(k) && |v| <= U16_MAX
    case CompareAndPutCurrent(k, v) => FitKey(k) && |v| <= U16_MAX
    case Rename(_, dst, _) => FitKey(dst)
    case _ => true
  }

  predicate ValuesFit(t: Tree) { forall k | k in t :: |t[k].value| <= U16_MAX }

  /** `u` is `t` with exactly the touched keys changed, each live one under a version in `[lo, hi)`. */
  ghost predicate Linked(t: Tree, u: Tree, touched: set<Bytes>, lo: nat, hi: nat) {
    && (forall k | k !in touched :: (k in u <==> k in t) && (k in u ==> u[k] == t[k]))
    && (forall k | k in u && k in touched :: lo <= u[k].version < hi)
  }

  /** The oracle's map is the tree without its versions. */
  ghost predicate SameValues(u: Tree, m: Model) { u.Keys == m.Keys && forall k | k in u :: u[k].value == m[k] }

  /** The version read before the batch still matches just when the key was there and is untouched. */
  lemma {:induction false} CurrentIsUntouched(t: Tree, u: Tree, touched: set<Bytes>, lo: nat, hi: nat, key: Bytes)
    requires Linked(t, u, touched, lo, hi) && VersionsBelow(t, lo) && lo <= hi <= U64_MAX
    ensures HasVersion(u, key, CurrentVersion(t, key)) <==> key in t && key !in touched
    ensures !HasVersion(u, key, U64_MAX)
  {
  }

  /** The oracle is at `s` where the tree is at `u`. */
  ghost predicate Tracks(t: Tree, o: Outcome<Tree>, p: Outcome<Staged>, lo: nat, hi: nat) {
    match p
    case Fail(f) => o == Fail(f)
    case Ok(s) => o.Ok? && Linked(t, o.value, s.touched, lo, hi) && SameValues(o.value, s.values) && ValuesFit(o.value)
  }

  lemma {:induction false} InsertTracks(t: Tree, u: Tree, s: Staged, lo: nat, hi: nat, key: Bytes, value: Bytes,
                                        guard: bool)
    requires Tracks(t, Ok(u), Ok(s), lo, hi) && lo <= hi && FitKey(key) && |value| <= U16_MAX
    ensures Tracks(t, InsertStep(u, key, value, hi, guard), if guard then Ok(Write(s, key, value))
      else Fail(GuardFailed), lo, hi + 1)
  {
  }

  lemma {:induction false} DeleteTracks(t: Tree, u: Tree, s: Staged, lo: nat, hi: nat, key: Bytes)
    requires Tracks(t, Ok(u), Ok(s), lo, hi) && lo <= hi
    ensures Tracks(t, Ok(u - {key}), Ok(Remove(s, key)), lo, hi + 1)
  {
  }

  lemma {:induction false} RenameTracks(model: Model, t: Tree, u: Tree, s: Staged, lo: nat, hi: nat, src: Bytes,
                                        dst: Bytes, force: bool)
    requires Tracks(t, Ok(u), Ok(s), lo, hi) && lo <= hi && FitKey(dst)
    ensures Tracks(t, RenameStep(u, src, dst, force, hi), OracleStep(model, s, OracleOp.Rename(src, dst, force)), lo,
      hi + 1)
  {
  }

  lemma {:induction false} StepTracks(model: Model, t: Tree, u: Tree, s: Staged, lo: nat, hi: nat, op: OracleOp)
    requires SameValues(t, model) && Tracks(t, Ok(u), Ok(s), lo, hi) && VersionsBelow(t, lo) && lo <= hi <= U64_MAX
      && Fits(op)
    ensures Tracks(t, Step(u, Compile(t, op), hi), OracleStep(model, s, op), lo, hi + Compile(t, op).Cost())
  {
    assert u.Keys == s.values.Keys;
    match op {
      case Put(k, v) => InsertTracks(t, u, s, lo, hi, k, v, true);
      case PutIfAbsent(k, v) => InsertTracks(t, u, s, lo, hi, k, v, k !in u);
      case CompareAndPutCurrent(k, v) =>
        CurrentIsUntouched(t, u, s.touched, lo, hi, k);
        InsertTracks(t, u, s, lo, hi, k, v, k in t && k !in s.touched);
      case Delete(k) => DeleteTracks(t, u, s, lo, hi, k);
      case DeleteIfCurrent(k) =>
        CurrentIsUntouched(t, u, s.touched, lo, hi, k);
        DeleteTracks(t, u, s, lo, hi, k);
      case AssertCurrent(k) => CurrentIsUntouched(t, u, s.touched, lo, hi, k);
      case AssertStale(k) => CurrentIsUntouched(t, u, s.touched, lo, hi, k);
      case Rename(src, dst, force) => RenameTracks(model, t, u, s, lo, hi, src, dst, force);
      case _ =>
    }
  }

  lemma {:induction false} NextTracks(model: Model, t: Tree, ops: seq<OracleOp>, b: seq<BatchOp>, base: nat, i: nat,
                                      u: Tree, s: Staged)
    requires i < |ops| == |b| && b[i] == Compile(t, ops[i]) && Fits(ops[i])
    requires RunTo(t, b, base, i) == Ok(u) && OracleTo(model, ops, i) == Ok(s)
    requires SameValues(t, model) && VersionsBelow(t, base) && base + CountTo(b, i) <= U64_MAX
    requires Tracks(t, Ok(u), Ok(s), base, base + CountTo(b, i))
    ensures Tracks(t, RunTo(t, b, base, i + 1), OracleTo(model, ops, i + 1), base, base + CountTo(b, i + 1))
  {
    var hi := base + CountTo(b, i);
    var o, p := Step(u, b[i], hi), OracleStep(model, s, ops[i]);
    assert Tracks(t, o, p, base, hi + b[i].Cost()) by { StepTracks(model, t, u, s, base, hi, ops[i]); }
    assert RunTo(t, b, base, i + 1) == o by { RunNext(t, b, base, i, u); }
    assert OracleTo(model, ops, i + 1) == p by { OracleNext(model, ops, i, s); }
    assert CountTo(b, i + 1) == CountTo(b, i) + b[i].Cost();
  }

  lemma {:induction false} OracleNext(model: Model, ops: seq<OracleOp>, i: nat, s: Staged)
    requires i < |ops| && OracleTo(model, ops, i) == Ok(s)
    ensures OracleTo(model, ops, i + 1) == OracleStep(model, s, ops[i])
  {
  }

  lemma {:induction false} OracleTracks(model: Model, t: Tree, ops: seq<OracleOp>, b: seq<BatchOp>, base: nat, n: nat)
    requires SameValues(t, model) && VersionsBelow(t, base) && ValuesFit(t) && base + |ops| <= U64_MAX && n <= |ops|
    requires b == CompileAll(t, ops) && forall i | 0 <= i < |ops| :: Fits(ops[i])
    ensures Tracks(t, RunTo(t, b, base, n), OracleTo(model, ops, n), base, base + CountTo(b, n))
  {
    if n > 0 {
      OracleTracks(model, t, ops, b, base, n - 1);
      var p := OracleTo(model, ops, n - 1);
      if p.Ok? {
        assert base + CountTo(b, n - 1) <= U64_MAX by { CountMonotone(b, 0, n - 1); }
        NextTracks(model, t, ops, b, base, n - 1, RunTo(t, b, base, n - 1).value, p.value);
      } else {
        OracleFailsEarly(model, ops, n - 1, n);
        RunFailsEarly(t, b, base, n - 1, n);
      }
    }
  }

  /** A batch on `t` that the oracle speaks for: versions are older than it, and everything fits. */
  ghost predicate Covers(t: Tree, ops: seq<OracleOp>, base: nat) {
    && VersionsBelow(t, base) && ValuesFit(t) && base + |ops| <= U64_MAX
    && forall i | 0 <= i < |ops| :: Fits(ops[i])
  }

  /** Both accept with the same values, or both fail with the same error. */
  ghost predicate SameOutcome(m: Outcome<Model>, o: Outcome<Tree>) {
    match m
    case Ok(values) => o.Ok? && Values(o.value) == values
    case Fail(f) => o == Fail(f)
  }

  /** For every tree whose versions are older than the batch and every batch of oracle operations, the
      oracle and the tree succeed together with the same values, or fail with the same error. */
  lemma {:induction false} OracleAgrees(t: Tree, ops: seq<OracleOp>, base: nat)
    requires Covers(t, ops, base)
    ensures match OracleTo(Values(t), ops, |ops|)
      case Ok(s) => SameOutcome(Ok(s.values), Run(t, CompileAll(t, ops), base))
      case Fail(f) => SameOutcome(Fail(f), Run(t, CompileAll(t, ops), base))
  {
    OracleTracks(Values(t), t, ops, CompileAll(t, ops), base, |ops|);
  }

  /** The oracle's own loop, which knows only the values, predicts the batch on every tree with those
      values. */
  method ModelAtomic(model: Model, ops: seq<OracleOp>) returns (r: Outcome<Model>)
    ensures forall t: Tree, base: nat | Covers(t, ops, base) && Values(t) == model ::
      SameOutcome(r, Run(t, CompileAll(t, ops), base))
  {
    var values, touched := model, {};
    r := Ok(model);
    for i := 0 to |ops|
      invariant OracleTo(model, ops, i) == Ok(Staged(values, touched)) && r == Ok(values)
    {
      match OracleStep(model, Staged(values, touched), ops[i]) {
        case Fail(f) =>
          OracleFailsEarly(model, ops, i + 1, |ops|);
          r := Fail(f);
          break;
        case Ok(s) =>
          values, touched := s.values, s.touched;
          r := Ok(values);
      }
    }
    forall t: Tree, base: nat | Covers(t, ops, base) && Values(t) == model
      ensures SameOutcome(r, Run(t, CompileAll(t, ops), base))
    {
      OracleAgrees(t, ops, base);
    }
  }
}
