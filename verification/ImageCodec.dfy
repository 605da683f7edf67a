/** The checkpoint image: every family's name and key/value pairs in one length-prefixed byte string.

    The encoder writes a length as a 32-bit number and cuts off what does not fit. The codec is exact
    just on the images whose lengths do fit, and then it is a bijection onto the accepted strings. */
module ImageCodec {
  newtype Byte = x: int | 0 <= x < 256
  type Bytes = seq<Byte>

  const TWO32: nat := 0x1_0000_0000

  datatype Kv = Kv(key: Bytes, value: Bytes)
  datatype Family = Family(name: Bytes, kvs: seq<Kv>)
  datatype Error = BadHeader | TruncatedLength | TruncatedBody | TrailingBytes
  datatype Result<+T> = Ok(value: T) | Err(error: Error)

  const MAGIC: Bytes := [104, 111, 108, 116, 100, 98, 105, 49]
  const HEADER_LEN: nat := 12

  // ---------- lengths ----------

  /** The low `width` bytes of a number, the lowest first. */
  function Le(n: nat, width: nat): (b: Bytes)
    ensures |b| == width
  {
    if width == 0 then [] else [(n % 256) as Byte] + Le(n / 256, width - 1)
  }

  function FromLe(b: Bytes): nat { if b == [] then 0 else b[0] as nat + 256 * FromLe(b[1..]) }

  function Pow256(width: nat): nat { if width == 0 then 1 else 256 * Pow256(width - 1) }

  /** A number survives exactly when it fits. */
  lemma {:induction false} LengthRoundTrip(n: nat, width: nat)
    ensures FromLe(Le(n, width)) == n <==> n < Pow256(width)
  {
    if width > 0 {
      LengthRoundTrip(n / 256, width - 1);
      assert Le(n, width)[1..] == Le(n / 256, width - 1);
      assert n == n % 256 + 256 * (n / 256);
    }
  }

  lemma {:induction false} LengthFromBytes(b: Bytes)
    ensures Le(FromLe(b), |b|) == b && FromLe(b) < Pow256(|b|)
    decreases |b|
  {
    if b != [] {
      LengthFromBytes(b[1..]);
      assert FromLe(b) / 256 == FromLe(b[1..]) && FromLe(b) % 256 == b[0] as nat;
    }
  }

  lemma {:induction false} FourBytes()
    ensures Pow256(4) == TWO32
  {
  }

  // ---------- encoding ----------

  function Field(b: Bytes): Bytes { Le(|b|, 4) + b }

  function EncodeKv(kv: Kv): Bytes { Field(kv.key) + Field(kv.value) }

  function EncodeKvs(kvs: seq<Kv>): Bytes {
    if kvs == [] then [] else EncodeKv(kvs[0]) + EncodeKvs(kvs[1..])
  }

  function EncodeFamily(f: Family): Bytes { Field(f.name) + Field(EncodeKvs(f.kvs)) }

  function EncodeFamilies(fs: seq<Family>): Bytes {
    if fs == [] then [] else EncodeFamily(fs[0]) + EncodeFamilies(fs[1..])
  }

  function Encode(fs: seq<Family>): Bytes { MAGIC + Le(|fs|, 4) + EncodeFamilies(fs) }

  lemma {:induction false} EncodeKvsAppend(kvs: seq<Kv>, kv: Kv)
    ensures EncodeKvs(kvs + [kv]) == EncodeKvs(kvs) + EncodeKv(kv)
    decreases |kvs|
  {
    if kvs != [] {
      assert (kvs + [kv])[1..] == kvs[1..] + [kv];
      EncodeKvsAppend(kvs[1..], kv);
    }
  }

  lemma {:induction false} EncodeFamiliesAppend(fs: seq<Family>, f: Family)
    ensures EncodeFamilies(fs + [f]) == EncodeFamilies(fs) + EncodeFamily(f)
    decreases |fs|
  {
    if fs != [] {
      assert (fs + [f])[1..] == fs[1..] + [f];
      EncodeFamiliesAppend(fs[1..], f);
    }
  }

  method EncodeBlock(kvs: seq<Kv>) returns (block: Bytes)
    ensures block == EncodeKvs(kvs)
  {
    block := [];
    for j := 0 to |kvs|
      invariant block == EncodeKvs(kvs[..j])
    {
      assert kvs[..j + 1] == kvs[..j] + [kvs[j]];
      EncodeKvsAppend(kvs[..j], kvs[j]);
      block := block + (Field(kvs[j].key) + Field(kvs[j].value));
    }
    assert kvs[..|kvs|] == kvs;
  }

  method EncodeOne(f: Family) returns (b: Bytes)
    ensures b == EncodeFamily(f)
  {
    var block := EncodeBlock(f.kvs);
    b := Field(f.name) + Field(block);
  }

  lemma {:induction false} OneMoreFamily(header: Bytes, fs: seq<Family>, i: nat)
    requires i < |fs|
    ensures header + EncodeFamilies(fs[..i + 1]) == header + EncodeFamilies(fs[..i]) + EncodeFamily(fs[i])
  {
    assert fs[..i + 1] == fs[..i] + [fs[i]];
    EncodeFamiliesAppend(fs[..i], fs[i]);
  }

  /** The buffer is extended in place, family by family and pair by pair. */
  method EncodeImage(fs: seq<Family>) returns (buf: Bytes)
    ensures buf == Encode(fs)
  {
    buf := AppendFamilies(MAGIC + Le(|fs|, 4), fs);
  }

  method AppendFamilies(header: Bytes, fs: seq<Family>) returns (buf: Bytes)
    ensures buf == header + EncodeFamilies(fs)
  {
    buf := header;
    assert header == header + EncodeFamilies(fs[..0]);
    for i := 0 to |fs|
      invariant buf == header + EncodeFamilies(fs[..i])
    {
      var family := EncodeOne(fs[i]);
      OneMoreFamily(header, fs, i);
      buf := buf + family;
    }
    assert fs[..|fs|] == fs;
  }

  // ---------- decoding ----------

  /** A field at the front of `s`, and what follows it. */
  function TakeField(s: Bytes): (r: Result<(Bytes, Bytes)>)
    ensures r.Ok? ==> |r.value.1| + 4 <= |s|
  {
    if |s| < 4 then Err(TruncatedLength)
    else
      var n := FromLe(s[..4]);
      if 4 + n > |s| then Err(TruncatedBody) else Ok((s[4..4 + n], s[4 + n..]))
  }

  function DecodeKv(s: Bytes): (r: Result<(Kv, Bytes)>)
    ensures r.Ok? ==> |r.value.1| < |s|
  {
    match TakeField(s)
    case Err(e) => Err(e)
    case Ok((key, rest)) =>
      match TakeField(rest)
      case Err(e) => Err(e)
      case Ok((value, tail)) => Ok((Kv(key, value), tail))
  }

  /** One more element in front of what the rest decodes to. */
  function Cons<T>(x: T, r: Result<seq<T>>): Result<seq<T>> {
    match r
    case Err(e) => Err(e)
    case Ok(more) => Ok([x] + more)
  }

  function DecodeKvs(s: Bytes): Result<seq<Kv>>
    decreases |s|
  {
    if s == [] then Ok([])
    else match DecodeKv(s)
      case Err(e) => Err(e)
      case Ok((kv, rest)) => Cons(kv, DecodeKvs(rest))
  }

  function DecodeFamily(s: Bytes): (r: Result<(Family, Bytes)>)
    ensures r.Ok? ==> |r.value.1| < |s|
  {
    match TakeField(s)
    case Err(e) => Err(e)
    case Ok((name, rest)) =>
      match TakeField(rest)
      case Err(e) => Err(e)
      case Ok((block, tail)) =>
        match DecodeKvs(block)
        case Err(e) => Err(e)
        case Ok(kvs) => Ok((Family(name, kvs), tail))
  }

  function DecodeFamilies(s: Bytes, count: nat): Result<seq<Family>>
    decreases count
  {
    if count == 0 then (if s == [] then Ok([]) else Err(TrailingBytes))
    else match DecodeFamily(s)
      case Err(e) => Err(e)
      case Ok((f, rest)) => Cons(f, DecodeFamilies(rest, count - 1))
  }

  function Decode(s: Bytes): Result<seq<Family>> {
    if |s| < HEADER_LEN || s[..8] != MAGIC then Err(BadHeader)
    else DecodeFamilies(s[12..], FromLe(s[8..12]))
  }

  // ---------- one field ----------

  lemma {:induction false} TakeUndoesField(b: Bytes, rest: Bytes)
    requires |b| < TWO32
    ensures TakeField(Field(b) + rest) == Ok((b, rest))
  {
    var s := Field(b) + rest;
    assert s[..4] == Le(|b|, 4);
    LengthRoundTrip(|b|, 4);
    FourBytes();
    assert s[4..4 + |b|] == b && s[4 + |b|..] == rest;
  }

  lemma {:induction false} FieldUndoesTake(s: Bytes)
    requires TakeField(s).Ok?
    ensures var (b, rest) := TakeField(s).value; |b| < TWO32 && s == Field(b) + rest
  {
    LengthFromBytes(s[..4]);
    FourBytes();
    var (b, rest) := TakeField(s).value;
    assert s == s[..4] + b + rest;
  }

  // ---------- the loops of the decoder ----------

  /** Read one field at `off` and move past it. */
  method Take(s: Bytes, off: nat) returns (r: Result<Bytes>, next: nat)
    requires off <= |s|
    ensures match TakeField(s[off..])
      case Err(e) => r == Err(e)
      case Ok((b, rest)) => r == Ok(b) && off < next <= |s| && rest == s[next..]
  {
    next := off;
    if off + 4 > |s| { return Err(TruncatedLength), next; }
    var n := FromLe(s[off..off + 4]);
    assert s[off..][..4] == s[off..off + 4];
    if off + 4 + n > |s| { return Err(TruncatedBody), next; }
    next := off + 4 + n;
    assert s[off..][4..4 + n] == s[off + 4..next] && s[off..][4 + n..] == s[next..];
    return Ok(s[off + 4..next]), next;
  }

  /** What was collected, and then what the rest decodes to. */
  function After<T>(done: seq<T>, r: Result<seq<T>>): Result<seq<T>> {
    match r
    case Err(e) => Err(e)
    case Ok(more) => Ok(done + more)
  }

  lemma {:induction false} AfterCons<T>(done: seq<T>, x: T, r: Result<seq<T>>)
    ensures After(done, Cons(x, r)) == After(done + [x], r)
  {
    if r.Ok? { assert done + ([x] + r.value) == done + [x] + r.value; }
  }

  lemma {:induction false} AfterNothing<T>(r: Result<seq<T>>)
    ensures After([], r) == r
  {
    if r.Ok? { assert [] + r.value == r.value; }
  }

  method TakeKv(s: Bytes, off: nat) returns (r: Result<Kv>, next: nat)
    requires off <= |s|
    ensures match DecodeKv(s[off..])
      case Err(e) => r == Err(e)
      case Ok((kv, rest)) => r == Ok(kv) && off < next <= |s| && rest == s[next..]
  {
    var key, value;
    key, next := Take(s, off);
    if key.Err? { return Err(key.error), next; }
    value, next := Take(s, next);
    if value.Err? { return Err(value.error), next; }
    r := Ok(Kv(key.value, value.value));
  }

  method DecodeBlock(block: Bytes) returns (r: Result<seq<Kv>>)
    ensures r == DecodeKvs(block)
  {
    var kvs: seq<Kv> := [];
    var off := 0;
    assert block[0..] == block;
    AfterNothing(DecodeKvs(block));
    while off < |block|
      invariant off <= |block| && DecodeKvs(block) == After(kvs, DecodeKvs(block[off..]))
    {
      var kv;
      kv, off := TakeKv(block, off);
      if kv.Err? { return Err(kv.error); }
      AfterCons(kvs, kv.value, DecodeKvs(block[off..]));
      kvs := kvs + [kv.value];
    }
    assert block[off..] == [] && kvs + [] == kvs;
    return Ok(kvs);
  }

  method TakeFamily(s: Bytes, off: nat) returns (r: Result<Family>, next: nat)
    requires off <= |s|
    ensures match DecodeFamily(s[off..])
      case Err(e) => r == Err(e)
      case Ok((f, rest)) => r == Ok(f) && off < next <= |s| && rest == s[next..]
  {
    var name, block;
    name, next := Take(s, off);
    if name.Err? { return Err(name.error), next; }
    block, next := Take(s, next);
    if block.Err? { return Err(block.error), next; }
    var kvs := DecodeBlock(block.value);
    r := if kvs.Err? then Err(kvs.error) else Ok(Family(name.value, kvs.value));
  }

  method DecodeImage(s: Bytes) returns (r: Result<seq<Family>>)
    ensures r == Decode(s)
  {
    if |s| < HEADER_LEN || s[..8] != MAGIC { return Err(BadHeader); }
    var count, off := FromLe(s[8..12]), 12;
    var fs: seq<Family> := [];
    AfterNothing(Decode(s));
    for i := 0 to count
      invariant off <= |s| && Decode(s) == After(fs, DecodeFamilies(s[off..], count - i))
    {
      var f;
      f, off := TakeFamily(s, off);
      if f.Err? { return Err(f.error); }
      AfterCons(fs, f.value, DecodeFamilies(s[off..], count - i - 1));
      fs := fs + [f.value];
    }
    if off != |s| { return Err(TrailingBytes); }
    assert s[off..] == [] && fs + [] == fs;
    return Ok(fs);
  }

  // ---------- the bijection ----------

  predicate FitsKv(kv: Kv) { |kv.key| < TWO32 && |kv.value| < TWO32 }

  predicate FitsKvs(kvs: seq<Kv>) { forall i | 0 <= i < |kvs| :: FitsKv(kvs[i]) }

  predicate FitsFamily(f: Family) {
    |f.name| < TWO32 && |EncodeKvs(f.kvs)| < TWO32 && FitsKvs(f.kvs)
  }

  /** Every length of the image is a 32-bit number. */
  predicate Fits(fs: seq<Family>) { |fs| < TWO32 && AllFit(fs) }

  predicate AllFit(fs: seq<Family>) { forall i | 0 <= i < |fs| :: FitsFamily(fs[i]) }

  lemma {:induction false} DecodeUndoesKv(kv: Kv, rest: Bytes)
    requires FitsKv(kv)
    ensures DecodeKv(EncodeKv(kv) + rest) == Ok((kv, rest))
  {
    assert EncodeKv(kv) + rest == Field(kv.key) + (Field(kv.value) + rest);
    TakeUndoesField(kv.key, Field(kv.value) + rest);
    TakeUndoesField(kv.value, rest);
  }

  lemma {:induction false} DecodeUndoesKvs(kvs: seq<Kv>)
    requires FitsKvs(kvs)
    ensures DecodeKvs(EncodeKvs(kvs)) == Ok(kvs)
    decreases |kvs|
  {
    if kvs != [] {
      var kv, rest := kvs[0], EncodeKvs(kvs[1..]);
      assert DecodeKv(EncodeKvs(kvs)) == Ok((kv, rest)) by { DecodeUndoesKv(kv, rest); }
      DecodeUndoesKvs(kvs[1..]);
      KvsStep(EncodeKvs(kvs), kv, rest);
      assert [kv] + kvs[1..] == kvs;
    }
  }

  lemma {:induction false} KvsStep(s: Bytes, kv: Kv, rest: Bytes)
    requires DecodeKv(s) == Ok((kv, rest))
    ensures DecodeKvs(s) == Cons(kv, DecodeKvs(rest))
  {
  }

  lemma {:induction false} DecodeUndoesFamily(f: Family, rest: Bytes)
    requires FitsFamily(f)
    ensures DecodeFamily(EncodeFamily(f) + rest) == Ok((f, rest))
  {
    var block := EncodeKvs(f.kvs);
    assert EncodeFamily(f) + rest == Field(f.name) + (Field(block) + rest);
    TakeUndoesField(f.name, Field(block) + rest);
    TakeUndoesField(block, rest);
    DecodeUndoesKvs(f.kvs);
  }

  /** Encoded families decode to themselves, and anything after them is found out. */
  lemma {:induction false} DecodeUndoesFamilies(fs: seq<Family>, more: Bytes)
    requires AllFit(fs)
    ensures DecodeFamilies(EncodeFamilies(fs) + more, |fs|) == if more == [] then Ok(fs) else Err(TrailingBytes)
    decreases |fs|
  {
    if fs == [] {
      assert EncodeFamilies(fs) + more == more;
    } else {
      var f, rest := fs[0], EncodeFamilies(fs[1..]) + more;
      assert EncodeFamilies(fs) + more == EncodeFamily(f) + rest;
      assert DecodeFamily(EncodeFamily(f) + rest) == Ok((f, rest)) by { DecodeUndoesFamily(f, rest); }
      DecodeUndoesFamilies(fs[1..], more);
      FamiliesStep(EncodeFamilies(fs) + more, |fs|, f, rest);
      assert Cons(f, Ok(fs[1..])) == Ok(fs) by { assert [f] + fs[1..] == fs; }
    }
  }

  lemma {:induction false} FamiliesStep(s: Bytes, count: nat, f: Family, rest: Bytes)
    requires count > 0 && DecodeFamily(s) == Ok((f, rest))
    ensures DecodeFamilies(s, count) == Cons(f, DecodeFamilies(rest, count - 1))
  {
  }

  lemma {:induction false} KvUndoesDecode(s: Bytes)
    requires DecodeKv(s).Ok?
    ensures var (kv, rest) := DecodeKv(s).value; FitsKv(kv) && s == EncodeKv(kv) + rest
  {
    FieldUndoesTake(s);
    var (key, rest) := TakeField(s).value;
    FieldUndoesTake(rest);
    var (value, tail) := TakeField(rest).value;
    assert s == Field(key) + Field(value) + tail;
  }

  lemma {:induction false} KvsUndoDecode(s: Bytes)
    requires DecodeKvs(s).Ok?
    ensures EncodeKvs(DecodeKvs(s).value) == s && FitsKvs(DecodeKvs(s).value)
    decreases |s|
  {
    if s != [] {
      KvUndoesDecode(s);
      var (kv, rest) := DecodeKv(s).value;
      KvsUndoDecode(rest);
      assert DecodeKvs(s).value[1..] == DecodeKvs(rest).value;
    }
  }

  lemma {:induction false} FamilyUndoesDecode(s: Bytes)
    requires DecodeFamily(s).Ok?
    ensures var (f, rest) := DecodeFamily(s).value; FitsFamily(f) && s == EncodeFamily(f) + rest
  {
    FieldUndoesTake(s);
    var (name, rest) := TakeField(s).value;
    FieldUndoesTake(rest);
    var (block, tail) := TakeField(rest).value;
    KvsUndoDecode(block);
    assert s == Field(name) + Field(block) + tail;
  }

  lemma {:induction false} FamiliesUndoDecode(s: Bytes, count: nat)
    requires DecodeFamilies(s, count).Ok?
    ensures |DecodeFamilies(s, count).value| == count && EncodeFamilies(DecodeFamilies(s, count).value) == s
    ensures AllFit(DecodeFamilies(s, count).value)
    decreases count
  {
    if count > 0 {
      var (f, rest) := DecodeFamily(s).value;
      var more := DecodeFamilies(rest, count - 1);
      assert DecodeFamilies(s, count) == Cons(f, more) by { FamiliesStep(s, count, f, rest); }
      assert |more.value| == count - 1 && EncodeFamilies(more.value) == rest && AllFit(more.value) by {
        FamiliesUndoDecode(rest, count - 1);
      }
      assert s == EncodeFamily(f) + rest && FitsFamily(f) by { FamilyUndoesDecode(s); }
      FamiliesCons(f, more.value);
    }
  }

  lemma {:induction false} FamiliesCons(f: Family, fs: seq<Family>)
    ensures EncodeFamilies([f] + fs) == EncodeFamily(f) + EncodeFamilies(fs)
    ensures FitsFamily(f) && AllFit(fs) ==> AllFit([f] + fs)
  {
  }

  lemma {:induction false} HeaderBytes(s: Bytes, count: nat, body: Bytes)
    requires |s| >= 12 && s[..8] == MAGIC && count == FromLe(s[8..12]) && body == s[12..]
    ensures s == MAGIC + Le(count, 4) + body && count < TWO32
  {
    LengthFromBytes(s[8..12]);
    FourBytes();
    assert s == s[..8] + s[8..12] + s[12..];
  }

  lemma {:induction false} BodyUndoesDecode(body: Bytes, count: nat, fs: seq<Family>)
    requires DecodeFamilies(body, count) == Ok(fs) && count < TWO32
    ensures |fs| == count && EncodeFamilies(fs) == body && Fits(fs)
  {
    FamiliesUndoDecode(body, count);
  }

  /** An accepted string is the encoding of what it decodes to, and that fits. */
  lemma {:induction false} EncodeUndoesDecode(s: Bytes)
    requires Decode(s).Ok?
    ensures Encode(Decode(s).value) == s && Fits(Decode(s).value)
  {
    HeaderBytes(s, FromLe(s[8..12]), s[12..]);
    BodyUndoesDecode(s[12..], FromLe(s[8..12]), Decode(s).value);
  }

  /** Decoding undoes encoding exactly on the images whose lengths fit in 32 bits. */
  lemma {:induction false} DecodeUndoesEncode(fs: seq<Family>)
    ensures Decode(Encode(fs)) == Ok(fs) <==> Fits(fs)
  {
    var s := Encode(fs);
    if Fits(fs) {
      assert s[..8] == MAGIC && s[8..12] == Le(|fs|, 4) && s[12..] == EncodeFamilies(fs);
      LengthRoundTrip(|fs|, 4);
      FourBytes();
      DecodeUndoesFamilies(fs, []);
      assert EncodeFamilies(fs) + [] == EncodeFamilies(fs);
    } else if Decode(s) == Ok(fs) {
      EncodeUndoesDecode(s);
    }
  }

  // ---------- no accepted image continues another ----------

  /** No accepted image is a proper prefix of another. */
  lemma {:induction false} PrefixFree(s: Bytes, t: Bytes)
    requires Decode(s).Ok? && Decode(t).Ok? && s <= t
    ensures s == t
  {
    var more := t[|s|..];
    assert t == s + more;
    assert t[8..12] == s[8..12] && t[12..] == s[12..] + more;
    EncodeUndoesDecode(s);
    FamiliesUndoDecode(s[12..], FromLe(s[8..12]));
    DecodeUndoesFamilies(Decode(s).value, more);
  }
}
