/** Longest stored prefix of a query: by a forward walk over candidate lengths, by bisection, and by
    the tree's own descent restricted to a view's scope. */
module LongestPrefix {
  import opened Options
  import opened ByteOrder

  // ---------- candidate lengths ----------

  predicate Stored(keys: set<Bytes>, q: Bytes, len: nat) { len <= |q| && q[..len] in keys }

  ghost predicate Probes(q: Bytes, probes: seq<nat>) {
    && (forall i | 0 <= i < |probes| :: probes[i] <= |q|)
    && (forall i, j | 0 <= i < j < |probes| :: probes[i] < probes[j])
  }

  /** `len` is the longest stored candidate, or zero when there is none. */
  ghost predicate IsLongest(keys: set<Bytes>, q: Bytes, probes: seq<nat>, len: nat) {
    && (forall i | 0 <= i < |probes| && Stored(keys, q, probes[i]) :: probes[i] <= len)
    && ((exists i :: 0 <= i < |probes| && probes[i] == len && Stored(keys, q, len))
        || (len == 0 && forall i | 0 <= i < |probes| :: !Stored(keys, q, probes[i])))
  }

  /** Along the query, whatever is stored has every shorter candidate stored too. */
  ghost predicate Closed(keys: set<Bytes>, q: Bytes, probes: seq<nat>) {
    forall i, j | 0 <= i < j < |probes| && Stored(keys, q, probes[j]) :: Stored(keys, q, probes[i])
  }

  /** Point-get by point-get until the first miss: finds the longest exactly on closed chains. */
  method ForwardWalk(keys: set<Bytes>, q: Bytes, probes: seq<nat>) returns (len: nat)
    requires Probes(q, probes)
    ensures IsLongest(keys, q, probes, len) <==> Closed(keys, q, probes)
  {
    len := 0;
    for i := 0 to |probes|
      invariant forall j | 0 <= j < i :: Stored(keys, q, probes[j])
      invariant len == if i == 0 then 0 else probes[i - 1]
    {
      if q[..probes[i]] !in keys {
        if exists j :: i < j < |probes| && Stored(keys, q, probes[j]) {
          ghost var j :| i < j < |probes| && Stored(keys, q, probes[j]);
          assert probes[i] < probes[j] && !Stored(keys, q, probes[i]);
          assert i > 0 ==> probes[i - 1] < probes[j];
        } else {
          assert Closed(keys, q, probes);
          assert i > 0 ==> Stored(keys, q, probes[i - 1]);
        }
        return;
      }
      len := probes[i];
    }
    assert |probes| > 0 ==> Stored(keys, q, probes[|probes| - 1]);
  }

  /** Binary search for the last hit. */
  method Bisect(keys: set<Bytes>, q: Bytes, probes: seq<nat>) returns (len: nat)
    requires Probes(q, probes) && Closed(keys, q, probes)
    ensures IsLongest(keys, q, probes, len)
  {
    var lo, hi := 0, |probes|;
    while lo < hi
      invariant 0 <= lo <= hi <= |probes|
      invariant forall i | 0 <= i < lo :: Stored(keys, q, probes[i])
      invariant forall i | hi <= i < |probes| :: !Stored(keys, q, probes[i])
    {
      var mid := (lo + hi) / 2;
      if q[..probes[mid]] in keys { lo := mid + 1; } else { hi := mid; }
    }
    len := if lo == 0 then 0 else probes[lo - 1];
    assert lo > 0 ==> Stored(keys, q, probes[lo - 1]);
  }

  /** There is only one longest candidate: on closed chains both methods agree. */
  lemma {:induction false} LongestIsUnique(keys: set<Bytes>, q: Bytes, probes: seq<nat>, a: nat, b: nat)
    requires IsLongest(keys, q, probes, a) && IsLongest(keys, q, probes, b)
    ensures a == b
  {
  }

  // ---------- restricted to a scope ----------

  /** The longest key that is a prefix of the query, of at most `n` bytes. */
  function Longest(keys: set<Bytes>, q: Bytes, n: nat): (r: Option<Bytes>)
    requires n <= |q|
    ensures r.Some? ==> r.value in keys && r.value <= q && |r.value| <= n
    ensures forall k | k in keys && k <= q && |k| <= n :: r.Some? && |k| <= |r.value|
  {
    if q[..n] in keys then Some(q[..n])
    else if n == 0 then None
    else
      assert forall k | k in keys && k <= q && |k| == n :: k == q[..n];
      Longest(keys, q, n - 1)
  }

  function InScope(keys: set<Bytes>, scope: Bytes): set<Bytes> { set k | k in keys && scope <= k }

  /** The view's answer: the global hit, dropped when it lies outside the scope. A query outside the
      scope is refused. */
  function ScopedLongest(keys: set<Bytes>, scope: Bytes, q: Bytes): Option<Option<Bytes>> {
    if !(scope <= q) then None
    else match Longest(keys, q, |q|)
      case Some(k) => if scope <= k then Some(Some(k)) else Some(None)
      case None => Some(None)
  }

  /** Filtering the global hit is the same as searching only the keys in scope. */
  lemma {:induction false} FilterIsSearch(keys: set<Bytes>, scope: Bytes, q: Bytes)
    requires scope <= q
    ensures ScopedLongest(keys, scope, q) == Some(Longest(InScope(keys, scope), q, |q|))
  {
    var g, l := Longest(keys, q, |q|), Longest(InScope(keys, scope), q, |q|);
    if l.Some? {
      assert l.value in keys && scope <= l.value;
      LongerPrefix(scope, l.value, g.value, q);
      assert g.value in InScope(keys, scope);
      assert g.value == q[..|g.value|] && l.value == q[..|l.value|];
    }
  }

  lemma {:induction false} LongerPrefix(scope: Bytes, a: Bytes, b: Bytes, q: Bytes)
    requires scope <= a <= q && b <= q && |a| <= |b|
    ensures scope <= b
  {
  }
}
