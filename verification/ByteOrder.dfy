/** Byte strings in dictionary order, and the keys below a prefix as a range of that order. */
module ByteOrder {
  newtype Byte = x: int | 0 <= x < 256
  type Bytes = seq<Byte>

  predicate Less(a: Bytes, b: Bytes)
    decreases |a|
  {
    b != [] && (a == [] || a[0] < b[0] || (a[0] == b[0] && Less(a[1..], b[1..])))
  }

  lemma {:induction false} NotBelowItself(a: Bytes)
    ensures !Less(a, a)
    decreases |a|
  {
    if a != [] { NotBelowItself(a[1..]); }
  }

  lemma {:induction false} LessIsTotal(a: Bytes, b: Bytes)
    ensures Less(a, b) || a == b || Less(b, a)
    decreases |a|
  {
    if a != [] && b != [] && a[0] == b[0] {
      LessIsTotal(a[1..], b[1..]);
      assert a[1..] == b[1..] ==> a == [a[0]] + a[1..] == b;
    }
  }

  lemma {:induction false} LessIsTransitive(a: Bytes, b: Bytes, c: Bytes)
    requires Less(a, b) && Less(b, c)
    ensures Less(a, c)
    decreases |a|
  {
    if a != [] && a[0] == b[0] && b[0] == c[0] { LessIsTransitive(a[1..], b[1..], c[1..]); }
  }

  /** A string is not below its own prefix. */
  lemma {:induction false} PrefixComesFirst(p: Bytes, k: Bytes)
    requires p <= k
    ensures !Less(k, p)
    decreases |p|
  {
    if p != [] {
      assert p[0] == k[0];
      PrefixComesFirst(p[1..], k[1..]);
    }
  }

  /** The first string after all that start with `k`, when its last byte can grow. */
  function Successor(k: Bytes): Bytes
    requires k != [] && k[|k| - 1] < 255
  {
    k[..|k| - 1] + [k[|k| - 1] + 1]
  }

  lemma {:induction false} PrefixByHead(r: Bytes, k: Bytes)
    requires r != [] && k != []
    ensures r <= k <==> r[0] == k[0] && r[1..] <= k[1..]
  {
  }

  /** The strings that start with `r` are exactly those from `r` up to its successor. */
  lemma {:induction false} PrefixIsRange(r: Bytes, k: Bytes)
    requires r != [] && r[|r| - 1] < 255
    ensures r <= k <==> !Less(k, r) && Less(k, Successor(r))
    decreases |r|
  {
    var up := Successor(r);
    if k == [] {
      assert Less(k, r);
    } else if |r| > 1 {
      PrefixIsRange(r[1..], k[1..]);
      assert up[0] == r[0] && up[1..] == Successor(r[1..]);
      PrefixByHead(r, k);
    } else {
      assert up == [r[0] + 1] && r[1..] == [] && up[1..] == [];
      assert !Less(k[1..], []);
      PrefixByHead(r, k);
    }
  }

  /** Past the prefix but not below it: everything below the prefix is behind. */
  lemma {:induction false} BeyondPrefix(p: Bytes, k: Bytes, below: Bytes)
    requires !Less(k, p) && !(p <= k) && p <= below
    ensures Less(below, k)
    decreases |p|
  {
    if p != [] && k != [] {
      assert below[0] == p[0];
      if k[0] == p[0] {
        assert p <= k <==> p[1..] <= k[1..];
        BeyondPrefix(p[1..], k[1..], below[1..]);
      }
    }
  }

  ghost predicate Sorted(keys: seq<Bytes>) { forall i, j | 0 <= i < j < |keys| :: Less(keys[i], keys[j]) }
}
