/** The attached recovery stream: a hash-chained log of application envelopes kept since the last
    checkpoint, and bounded pages over it. */
module JournalStream {
  type Digest(==, !new, 00)
  type Payload(==, !new)

  const U32_MAX: nat := 0xffff_ffff
  const U64_MAX: nat := 0xffff_ffff_ffff_ffff
  const USIZE_MAX: nat := U64_MAX
  const MAX_RECORD_BYTES: nat := 16 * 1024 * 1024

  datatype Result<+T> = Ok(value: T) | Err(error: Error)

  datatype Error =
    | NonContiguous(previous: nat, current: nat)
    | EmptyPayload
    | PayloadTooLarge(len: nat)
    | NoMutation
    | EmptyRecord
    | RecordTooLarge(bytes: nat)
    | Unavailable
    | AnchorMismatch(requested: nat, expected: nat)
    | PositionExpired(requested: nat, floor: nat)
    | InvalidScanLimit

  datatype Anchor = Anchor(sequence: nat, digest: Digest)

  /** One envelope; the payload is opaque, only its length matters here. */
  datatype Envelope = Envelope(previous: Anchor, current: Anchor, payload: Payload, len: nat)

  /** Sequences are 64-bit: an anchor at the maximum has no successor. */
  function NewEnvelope(previous: Anchor, current: Anchor, payload: Payload, len: nat): (r: Result<Envelope>)
    ensures r.Ok? <==> current.sequence == previous.sequence + 1 <= U64_MAX && 0 < len <= U32_MAX
    ensures r.Ok? ==> WellFormed(r.value) && r.value.previous == previous && r.value.current == current
  {
    if previous.sequence >= U64_MAX || current.sequence != previous.sequence + 1 then
      Err(NonContiguous(previous.sequence, current.sequence))
    else if len == 0 then Err(EmptyPayload)
    else if len > U32_MAX then Err(PayloadTooLarge(len))
    else Ok(Envelope(previous, current, payload, len))
  }

  predicate WellFormed(e: Envelope) { e.current.sequence == e.previous.sequence + 1 && e.len > 0 }

  /** The position after the first `i` envelopes. */
  function AnchorAt(floor: Anchor, es: seq<Envelope>, i: nat): Anchor
    requires i <= |es|
  {
    if i == 0 then floor else es[i - 1].current
  }

  /** Envelope `i` starts where the one before it, or the floor, ended. */
  predicate Link(floor: Anchor, es: seq<Envelope>, i: nat)
    requires i < |es|
  {
    WellFormed(es[i]) && es[i].previous == AnchorAt(floor, es, i)
  }

  ghost predicate Chained(floor: Anchor, es: seq<Envelope>) { forall i | 0 <= i < |es| :: Link(floor, es, i) }

  lemma {:induction false} ChainedSequence(floor: Anchor, es: seq<Envelope>, i: nat)
    requires Chained(floor, es) && i <= |es|
    ensures AnchorAt(floor, es, i).sequence == floor.sequence + i
  {
    if i > 0 {
      ChainedSequence(floor, es, i - 1);
      assert Link(floor, es, i - 1);
    }
  }

  // ---------- finding a cursor ----------

  /** Where a scan after `cursor` starts, as the stream's own search decides it. */
  method StartAfter(floor: Anchor, es: seq<Envelope>, tail: Anchor, cursor: Anchor) returns (r: Result<nat>)
    requires Chained(floor, es) && tail == AnchorAt(floor, es, |es|)
    ensures r == Located(floor, es, cursor)
  {
    if cursor.sequence < floor.sequence { return Err(PositionExpired(cursor.sequence, floor.sequence)); }
    if cursor == floor { return Ok(0); }
    if cursor.sequence == floor.sequence { return Err(AnchorMismatch(cursor.sequence, cursor.sequence)); }
    for i := 0 to |es|
      invariant forall j | 0 <= j < i :: es[j].current.sequence != cursor.sequence
    {
      ChainedSequence(floor, es, i + 1);
      if es[i].current.sequence == cursor.sequence {
        return if es[i].current == cursor then Ok(i + 1) else Err(AnchorMismatch(cursor.sequence, cursor.sequence));
      }
    }
    ChainedSequence(floor, es, |es|);
    if cursor.sequence <= tail.sequence { ChainedSequence(floor, es, cursor.sequence - floor.sequence); }
    return Err(AnchorMismatch(cursor.sequence, tail.sequence));
  }

  /** A cursor is found by its sequence alone, and must then match exactly. */
  function Located(floor: Anchor, es: seq<Envelope>, cursor: Anchor): Result<nat> {
    if cursor.sequence < floor.sequence then Err(PositionExpired(cursor.sequence, floor.sequence))
    else
      var i := cursor.sequence - floor.sequence;
      if i > |es| then Err(AnchorMismatch(cursor.sequence, floor.sequence + |es|))
      else if AnchorAt(floor, es, i) == cursor then Ok(i)
      else Err(AnchorMismatch(cursor.sequence, cursor.sequence))
  }

  /** Exactly the positions of the stream are found: every retained position, each at its place, and
      nothing else. */
  lemma {:induction false} LocatesPositions(floor: Anchor, es: seq<Envelope>, cursor: Anchor, i: nat)
    requires Chained(floor, es)
    ensures Located(floor, es, cursor) == Ok(i) <==> i <= |es| && cursor == AnchorAt(floor, es, i)
  {
    if i <= |es| { ChainedSequence(floor, es, i); }
  }

  // ---------- pages ----------

  function SaturatingAdd(a: nat, b: nat): nat { if a + b > USIZE_MAX then USIZE_MAX else a + b }

  /** Payload bytes of `n` envelopes from `start`. */
  function Bytes(es: seq<Envelope>, start: nat, n: nat): nat
    requires start + n <= |es|
  {
    if n == 0 then 0 else SaturatingAdd(Bytes(es, start, n - 1), es[start + n - 1].len)
  }

  datatype Page = Page(envelopes: seq<Envelope>, next: Anchor, hasMore: bool)

  /** A page of `n` envelopes is within the limits: the byte limit does not bind the first envelope. */
  predicate Fits(es: seq<Envelope>, start: nat, n: nat, rowLimit: nat, byteLimit: nat)
    requires start + n <= |es|
  {
    n <= rowLimit && (n <= 1 || Bytes(es, start, n) <= byteLimit)
  }

  lemma {:induction false} BytesGrow(es: seq<Envelope>, start: nat, n: nat, m: nat)
    requires n <= m && start + m <= |es|
    ensures Bytes(es, start, n) <= Bytes(es, start, m) <= USIZE_MAX
  {
    if n < m { BytesGrow(es, start, n, m - 1); }
    else if n > 0 { BytesGrow(es, start, n - 1, n - 1); }
  }

  /** The next page: the longest run of retained envelopes within the limits, and where it ends. */
  method BoundedPage(floor: Anchor, es: seq<Envelope>, start: nat, cursor: Anchor, rowLimit: nat,
                     byteLimit: nat) returns (p: Page)
    requires start <= |es| && cursor == AnchorAt(floor, es, start) && rowLimit > 0
    ensures var n := |p.envelopes|;
      && start + n <= |es| && p.envelopes == es[start..start + n]
      && Fits(es, start, n, rowLimit, byteLimit)
      && (forall m | n < m && start + m <= |es| :: !Fits(es, start, m, rowLimit, byteLimit))
      && p.next == AnchorAt(floor, es, start + n) && (p.hasMore <==> start + n < |es|)
  {
    var page, bytes := [], 0;
    while start + |page| < |es|
      invariant start + |page| <= |es| && page == es[start..start + |page|]
      invariant bytes == Bytes(es, start, |page|) && Fits(es, start, |page|, rowLimit, byteLimit)
      decreases |es| - |page|
    {
      if |page| == rowLimit { break; }
      var e := es[start + |page|];
      var next := SaturatingAdd(bytes, e.len);
      if page != [] && next > byteLimit { break; }
      bytes, page := next, page + [e];
    }
    var n := |page|;
    forall m | n < m && start + m <= |es| ensures !Fits(es, start, m, rowLimit, byteLimit) {
      BytesGrow(es, start, n + 1, m);
    }
    return Page(page, if page == [] then cursor else page[n - 1].current, start + n < |es|);
  }

  /** Reading page after page from `cursor`: what a reader that follows `next` collects. */
  method ReadAll(floor: Anchor, es: seq<Envelope>, tail: Anchor, cursor: Anchor, rowLimit: nat,
                 byteLimit: nat) returns (got: seq<Envelope>, at: Anchor)
    requires Chained(floor, es) && tail == AnchorAt(floor, es, |es|) && rowLimit > 0
    requires Located(floor, es, cursor).Ok?
    ensures got == es[Located(floor, es, cursor).value..] && at == tail
  {
    got, at := [], cursor;
    var start := Located(floor, es, cursor).value;
    ghost var first := start;
    var more := true;
    LocatesPositions(floor, es, cursor, start);
    while more
      invariant first <= start <= |es| && at == AnchorAt(floor, es, start) && got == es[first..start]
      invariant !more ==> start == |es|
      decreases |es| - start, if more then 1 else 0
    {
      var r := StartAfter(floor, es, tail, at);
      LocatesPositions(floor, es, at, start);
      var p := BoundedPage(floor, es, r.value, at, rowLimit, byteLimit);
      assert start < |es| ==> Fits(es, start, 1, rowLimit, byteLimit);
      got, at, more, start := got + p.envelopes, p.next, p.hasMore, start + |p.envelopes|;
    }
  }
}
