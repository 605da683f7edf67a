/** What an atomic batch means on one tree: its operations in order, each with its sequence number. */
module BatchSemantics {
  type Byte(==, !new)
  type Bytes = seq<Byte>

  const U16_MAX: nat := 65535
  const U64_MAX: nat := 0xffff_ffff_ffff_ffff

  /** A live value and its compare-and-set token, the sequence number of the write. */
  datatype Record = Record(value: Bytes, version: nat)
  type Tree = map<Bytes, Record>

  datatype BatchOp =
    | Put(key: Bytes, value: Bytes)
    | PutIfAbsent(key: Bytes, value: Bytes)
    | CompareAndPut(key: Bytes, expected: nat, value: Bytes)
    | Delete(key: Bytes)
    | DeleteIfVersion(key: Bytes, expected: nat)
    | AssertVersion(key: Bytes, expected: nat)
    | AssertAbsent(key: Bytes)
    | AssertPrefixEmpty(prefix: Bytes)
    | Rename(src: Bytes, dst: Bytes, force: bool)
  {
    predicate EmitsWal() { !(AssertVersion? || AssertAbsent? || AssertPrefixEmpty?) }

    /** Number of sequence numbers the operation takes. */
    function Cost(): nat { if EmitsWal() then 1 else 0 }
  }

  datatype Failure = GuardFailed | NotFound | DstExists | KeyTooLong(len: nat) | ValueTooLong(len: nat)

  datatype Outcome<+T> = Ok(value: T) | Fail(failure: Failure)

  /** Keys carry one terminator byte; key and value lengths are 16-bit. */
  function InsertShape(key: Bytes, value: Bytes): Outcome<()> {
    if |key| + 1 > U16_MAX then Fail(KeyTooLong(|key| + 1))
    else if |value| > U16_MAX then Fail(ValueTooLong(|value|))
    else Ok(())
  }

  predicate HasVersion(t: Tree, key: Bytes, expected: nat) { key in t && t[key].version == expected }

  predicate PrefixEmpty(t: Tree, prefix: Bytes) { forall k | k in t :: !(prefix <= k) }

  function Insert(t: Tree, key: Bytes, value: Bytes, seqNo: nat): Tree { t[key := Record(value, seqNo)] }

  /** An insert: its shape is checked first, then its guard. */
  function InsertStep(t: Tree, key: Bytes, value: Bytes, seqNo: nat, guard: bool): Outcome<Tree> {
    match InsertShape(key, value)
    case Fail(f) => Fail(f)
    case Ok(_) => if guard then Ok(Insert(t, key, value, seqNo)) else Fail(GuardFailed)
  }

  function RenameStep(t: Tree, src: Bytes, dst: Bytes, force: bool, seqNo: nat): Outcome<Tree> {
    if src !in t then Fail(NotFound)
    else if src == dst then Ok(t)
    else if !force && dst in t then Fail(DstExists)
    else InsertStep(t - {src}, dst, t[src].value, seqNo, true)
  }

  /** One operation on the tree as the earlier operations of the batch left it. */
  function Step(t: Tree, op: BatchOp, seqNo: nat): Outcome<Tree> {
    match op
    case Put(key, value) => InsertStep(t, key, value, seqNo, true)
    case PutIfAbsent(key, value) => InsertStep(t, key, value, seqNo, key !in t)
    case CompareAndPut(key, expected, value) => InsertStep(t, key, value, seqNo, HasVersion(t, key, expected))
    case Delete(key) => Ok(t - {key})
    case DeleteIfVersion(key, expected) => if HasVersion(t, key, expected) then Ok(t - {key}) else Fail(GuardFailed)
    case AssertVersion(key, expected) => if HasVersion(t, key, expected) then Ok(t) else Fail(GuardFailed)
    case AssertAbsent(key) => if key in t then Fail(GuardFailed) else Ok(t)
    case AssertPrefixEmpty(prefix) => if PrefixEmpty(t, prefix) then Ok(t) else Fail(GuardFailed)
    case Rename(src, dst, force) => RenameStep(t, src, dst, force, seqNo)
  }

  /** Sequence numbers taken by the first `n` operations. */
  function CountTo(ops: seq<BatchOp>, n: nat): nat
    requires n <= |ops|
  {
    if n == 0 then 0 else CountTo(ops, n - 1) + ops[n - 1].Cost()
  }

  function Count(ops: seq<BatchOp>): nat { CountTo(ops, |ops|) }

  /** The first `n` operations in order: the first failure stops the batch, and each operation that
      emits a log record takes the next sequence number. */
  function RunTo(t: Tree, ops: seq<BatchOp>, base: nat, n: nat): Outcome<Tree>
    requires n <= |ops|
  {
    if n == 0 then Ok(t)
    else
      match RunTo(t, ops, base, n - 1)
      case Fail(f) => Fail(f)
      case Ok(u) => Step(u, ops[n - 1], base + CountTo(ops, n - 1))
  }

  /** What the batch means. */
  function Run(t: Tree, ops: seq<BatchOp>, base: nat): Outcome<Tree> { RunTo(t, ops, base, |ops|) }

  /** The key/value content of a tree, without versions. */
  function Values(t: Tree): map<Bytes, Bytes> { map k | k in t :: t[k].value }

  /** Every record was written before sequence number `base` was handed out. */
  ghost predicate VersionsBelow(t: Tree, base: nat) { forall k | k in t :: t[k].version < base }

  lemma {:induction false} CountMonotone(ops: seq<BatchOp>, i: nat, n: nat)
    requires i <= n <= |ops|
    ensures CountTo(ops, i) <= CountTo(ops, n) <= CountTo(ops, i) + (n - i)
  {
    if i < n { CountMonotone(ops, i, n - 1); }
  }

  lemma {:induction false} RunNext(t: Tree, ops: seq<BatchOp>, base: nat, i: nat, u: Tree)
    requires i < |ops| && RunTo(t, ops, base, i) == Ok(u)
    ensures RunTo(t, ops, base, i + 1) == Step(u, ops[i], base + CountTo(ops, i))
  {
  }

  /** A batch fails as soon as one of its prefixes does, with the same failure. */
  lemma {:induction false} RunFailsEarly(t: Tree, ops: seq<BatchOp>, base: nat, i: nat, n: nat)
    requires i <= n <= |ops| && RunTo(t, ops, base, i).Fail?
    ensures RunTo(t, ops, base, n) == RunTo(t, ops, base, i)
  {
    if i < n { RunFailsEarly(t, ops, base, i, n - 1); }
  }

  /** The meaning of a prefix does not depend on what follows it. */
  lemma {:induction false} RunPrefix(t: Tree, ops: seq<BatchOp>, ops': seq<BatchOp>, base: nat, n: nat)
    requires n <= |ops| && n <= |ops'| && forall i :: 0 <= i < n ==> ops[i] == ops'[i]
    ensures RunTo(t, ops, base, n) == RunTo(t, ops', base, n) && CountTo(ops, n) == CountTo(ops', n)
  {
    if n > 0 {
      RunPrefix(t, ops, ops', base, n - 1);
      match RunTo(t, ops, base, n - 1) {
        case Fail(_) =>
        case Ok(u) =>
          assert RunTo(t, ops, base, n) == Step(u, ops[n - 1],
            base + CountTo(ops, n - 1)) by { RunNext(t, ops, base, n - 1, u); }
          assert RunTo(t, ops', base, n) == Step(u, ops'[n - 1],
            base + CountTo(ops', n - 1)) by { RunNext(t, ops', base, n - 1, u); }
      }
    }
  }
}
