/** Directory listings: the keys under a prefix, rolled up at the first delimiter after it.

    Three ways to compute one: scan everything and drop repeats of the last entry, scan everything and
    remember what was emitted, or jump with a seek over the keys that share a rollup. */
module ListDir {
  import opened Options
  import opened ByteOrder

  /** The position of the first delimiter at or after `from`. */
  function Find(k: Bytes, d: Byte, from: nat): (r: Option<nat>)
    requires from <= |k|
    ensures r.Some? ==> from <= r.value < |k| && k[r.value] == d && forall j | from <= j < r.value :: k[j] != d
    ensures r.None? ==> forall j | from <= j < |k| :: k[j] != d
    decreases |k| - from
  {
    if from == |k| then None else if k[from] == d then Some(from) else Find(k, d, from + 1)
  }

  /** The entry a key is listed as: its directory, or itself. */
  function Rollup(k: Bytes, p: Bytes, d: Byte): Bytes
    requires p <= k
  {
    match Find(k, d, |p|)
    case Some(i) => k[..i + 1]
    case None => k
  }

  predicate IsDir(k: Bytes, p: Bytes, d: Byte)
    requires p <= k
  {
    Find(k, d, |p|).Some?
  }

  /** A key that starts with a directory entry is listed as that entry. */
  lemma {:induction false} SharesDir(k: Bytes, h: Bytes, p: Bytes, d: Byte)
    requires p <= k && IsDir(k, p, d) && Rollup(k, p, d) <= h
    ensures p <= h && Rollup(h, p, d) == Rollup(k, p, d)
  {
  }

  lemma {:induction false} DirEnds(k: Bytes, p: Bytes, d: Byte)
    requires p <= k && IsDir(k, p, d)
    ensures var r := Rollup(k, p, d); r <= k && r != [] && r[|r| - 1] == d
  {
  }

  /** In key order the entries never go back. */
  lemma {:induction false} RollupsAscend(k: Bytes, h: Bytes, p: Bytes, d: Byte)
    requires p <= k && p <= h && Less(k, h) && d < 255
    ensures Rollup(k, p, d) == Rollup(h, p, d) || Less(Rollup(k, p, d), Rollup(h, p, d))
  {
    var r, q := Rollup(k, p, d), Rollup(h, p, d);
    LessIsTotal(r, q);
    if Less(q, r) {
      assert r <= k && q <= h;
      BelowKey(q, r, k);
      if IsDir(h, p, d) {
        DirEnds(h, p, d);
        PrefixIsRange(q, h);
        LessIsTransitive(k, h, Successor(q));
        AboveIsNotBelow(q, k);
        PrefixIsRange(q, k);
        SharesDir(h, k, p, d);
        NotBelowItself(q);
      } else {
        LessIsTransitive(q, k, h);
        NotBelowItself(h);
      }
    }
  }

  lemma {:induction false} BelowKey(q: Bytes, r: Bytes, k: Bytes)
    requires Less(q, r) && r <= k
    ensures Less(q, k)
  {
    PrefixComesFirst(r, k);
    LessIsTotal(r, k);
    if Less(r, k) { LessIsTransitive(q, r, k); }
  }

  lemma {:induction false} AboveIsNotBelow(q: Bytes, k: Bytes)
    requires Less(q, k)
    ensures !Less(k, q)
  {
    if Less(k, q) {
      LessIsTransitive(q, k, q);
      NotBelowItself(q);
    }
  }

  // ---------- the listing ----------

  /** The entries of the first `n` keys, repeats of the last one dropped. */
  function Listing(keys: seq<Bytes>, p: Bytes, d: Byte, n: nat): seq<Bytes>
    requires n <= |keys|
  {
    if n == 0 then []
    else
      var out := Listing(keys, p, d, n - 1);
      if !(p <= keys[n - 1]) then out
      else
        var e := Rollup(keys[n - 1], p, d);
        if out != [] && out[|out| - 1] == e then out else out + [e]
  }

  /** Every entry of the listing is the entry of some key. */
  lemma {:induction false} ListingIsSound(keys: seq<Bytes>, p: Bytes, d: Byte, n: nat, i: nat) returns (at: nat)
    requires n <= |keys| && i < |Listing(keys, p, d, n)|
    ensures at < n && p <= keys[at] && Rollup(keys[at], p, d) == Listing(keys, p, d, n)[i]
  {
    if i < |Listing(keys, p, d, n - 1)| { at := ListingIsSound(keys, p, d, n - 1, i); } else { at := n - 1; }
  }

  /** Every key under the prefix has its entry. */
  lemma {:induction false} ListingIsComplete(keys: seq<Bytes>, p: Bytes, d: Byte, n: nat, at: nat)
    requires at < n <= |keys| && p <= keys[at]
    ensures Rollup(keys[at], p, d) in Listing(keys, p, d, n)
  {
    if at < n - 1 { ListingIsComplete(keys, p, d, n - 1, at); }
  }

  lemma {:induction false} LastIsBelow(keys: seq<Bytes>, p: Bytes, d: Byte, n: nat)
    requires Sorted(keys) && d < 255 && n < |keys| && p <= keys[n] && Listing(keys, p, d, n) != []
    ensures var out, e := Listing(keys, p, d, n), Rollup(keys[n], p, d);
      out[|out| - 1] == e || Less(out[|out| - 1], e)
  {
    var out := Listing(keys, p, d, n);
    var at := ListingIsSound(keys, p, d, n, |out| - 1);
    RollupsAscend(keys[at], keys[n], p, d);
  }

  /** Entries come in order, so none comes twice. */
  lemma {:induction false} ListingAscends(keys: seq<Bytes>, p: Bytes, d: Byte, n: nat, i: nat, j: nat)
    requires Sorted(keys) && d < 255 && n <= |keys| && i < j < |Listing(keys, p, d, n)|
    ensures Less(Listing(keys, p, d, n)[i], Listing(keys, p, d, n)[j])
  {
    var before, out := Listing(keys, p, d, n - 1), Listing(keys, p, d, n);
    if j < |before| {
      ListingAscends(keys, p, d, n - 1, i, j);
    } else {
      LastIsBelow(keys, p, d, n - 1);
      if i < |before| - 1 {
        ListingAscends(keys, p, d, n - 1, i, |before| - 1);
        LessIsTransitive(out[i], out[|before| - 1], out[j]);
      }
    }
  }

  lemma {:induction false} ListingGrows(keys: seq<Bytes>, p: Bytes, d: Byte, m: nat, n: nat)
    requires m <= n <= |keys|
    ensures Listing(keys, p, d, m) <= Listing(keys, p, d, n)
  {
    if m < n { ListingGrows(keys, p, d, m, n - 1); }
  }

  /** Keys outside the prefix add nothing. */
  lemma {:induction false} OutsideAddsNothing(keys: seq<Bytes>, p: Bytes, d: Byte, m: nat, n: nat)
    requires m <= n <= |keys| && forall i | m <= i < n :: !(p <= keys[i])
    ensures Listing(keys, p, d, n) == Listing(keys, p, d, m)
  {
    if m < n { OutsideAddsNothing(keys, p, d, m, n - 1); }
  }

  /** Keys that share a directory with their predecessor add nothing. */
  lemma {:induction false} SameDirAddsNothing(keys: seq<Bytes>, p: Bytes, d: Byte, m: nat, n: nat)
    requires 0 < m <= n <= |keys| && p <= keys[m - 1]
    requires forall i | m <= i < n :: p <= keys[i] && Rollup(keys[i], p, d) == Rollup(keys[m - 1], p, d)
    ensures Listing(keys, p, d, n) == Listing(keys, p, d, m)
  {
    if m < n {
      SameDirAddsNothing(keys, p, d, m, n - 1);
      assert Listing(keys, p, d, m) != [] && Listing(keys, p, d,
        m)[|Listing(keys, p, d, m)| - 1] == Rollup(keys[m - 1], p, d);
    }
  }

  /** The page a limit cuts off; the loops look at the limit only after an entry. */
  function Page(all: seq<Bytes>, limit: nat): seq<Bytes> {
    var most := if limit == 0 then 1 else limit;
    if |all| <= most then all else all[..most]
  }

  /** A loop that stops at `limit` after some keys has the page of the whole listing. */
  lemma {:induction false} StoppedEarly(keys: seq<Bytes>, p: Bytes, d: Byte, n: nat, limit: nat)
    requires n <= |keys| && |Listing(keys, p, d, n)| == if limit == 0 then 1 else limit
    ensures Listing(keys, p, d, n) == Page(Listing(keys, p, d, |keys|), limit)
  {
    ListingGrows(keys, p, d, n, |keys|);
  }

  // ---------- where a seek lands ----------

  /** The first key from `from` on that is not below `x`. */
  method Seek(keys: seq<Bytes>, from: nat, x: Bytes) returns (i: nat)
    requires from <= |keys|
    ensures from <= i <= |keys| && (forall j | from <= j < i :: Less(keys[j], x)) && (i < |keys| ==> !Less(keys[i], x))
  {
    i := from;
    while i < |keys| && Less(keys[i], x)
      invariant from <= i <= |keys| && forall j | from <= j < i :: Less(keys[j], x)
    {
      i := i + 1;
    }
  }

  /** Before the seek to the prefix, and after the first key past it, no key is under the prefix. */
  lemma {:induction false} OutsidePrefix(keys: seq<Bytes>, p: Bytes, i: nat, j: nat)
    requires Sorted(keys) && j < |keys|
    requires Less(keys[j], p) || (i <= j && i < |keys| && !Less(keys[i], p) && !(p <= keys[i]))
    ensures !(p <= keys[j])
  {
    if p <= keys[j] {
      PrefixComesFirst(p, keys[j]);
      BeyondPrefix(p, keys[i], keys[j]);
      if i < j { AboveIsNotBelow(keys[i], keys[j]); } else { NotBelowItself(keys[i]); }
    }
  }

  lemma {:induction false} AllOutside(keys: seq<Bytes>, p: Bytes, d: Byte, i: nat)
    requires Sorted(keys) && i < |keys| && !Less(keys[i], p) && !(p <= keys[i])
    ensures Listing(keys, p, d, |keys|) == Listing(keys, p, d, i)
  {
    forall j | i <= j < |keys| ensures !(p <= keys[j]) { OutsidePrefix(keys, p, i, j); }
    OutsideAddsNothing(keys, p, d, i, |keys|);
  }

  lemma {:induction false} NoneBefore(keys: seq<Bytes>, p: Bytes, d: Byte, i: nat)
    requires Sorted(keys) && i <= |keys| && forall j | 0 <= j < i :: Less(keys[j], p)
    ensures Listing(keys, p, d, i) == []
  {
    forall j | 0 <= j < i ensures !(p <= keys[j]) { OutsidePrefix(keys, p, 0, j); }
    OutsideAddsNothing(keys, p, d, 0, i);
  }

  /** From a key with a directory entry, a seek to the entry's successor passes exactly the keys with
      that entry. */
  lemma {:induction false} SeekSkipsDir(keys: seq<Bytes>, p: Bytes, d: Byte, i: nat, j: nat)
    requires Sorted(keys) && d < 255 && i < j < |keys| && p <= keys[i] && IsDir(keys[i], p, d)
    ensures DirEndsIn(keys[i], p, d)
    ensures Less(keys[j], Successor(Rollup(keys[i], p, d))) <==>
      p <= keys[j] && Rollup(keys[j], p, d) == Rollup(keys[i], p, d)
  {
    var r := Rollup(keys[i], p, d);
    DirEnds(keys[i], p, d);
    PrefixComesFirst(r, keys[i]);
    PrefixIsRange(r, keys[j]);
    assert !Less(keys[j], r) by {
      if Less(keys[j], r) {
        BelowKey(keys[j], r, keys[i]);
        AboveIsNotBelow(keys[i], keys[j]);
      }
    }
    if r <= keys[j] { SharesDir(keys[i], keys[j], p, d); }
  }

  predicate DirEndsIn(k: Bytes, p: Bytes, d: Byte)
    requires p <= k
  {
    var r := Rollup(k, p, d);
    r != [] && r[|r| - 1] < 255
  }

  // ---------- the three loops ----------

  /** Scan everything under the prefix and drop repeats of the last entry. */
  method ListByScan(keys: seq<Bytes>, p: Bytes, d: Byte, limit: nat) returns (out: seq<Bytes>)
    requires Sorted(keys)
    ensures out == Page(Listing(keys, p, d, |keys|), limit)
  {
    var i := Seek(keys, 0, p);
    out := [];
    NoneBefore(keys, p, d, i);
    while i < |keys|
      invariant i <= |keys| && out == Listing(keys, p, d, i) && (|out| < limit || out == [])
      invariant i < |keys| ==> !Less(keys[i], p)
    {
      if !(p <= keys[i]) {
        AllOutside(keys, p, d, i);
        break;
      }
      var e := Rollup(keys[i], p, d);
      if out == [] || out[|out| - 1] != e {
        out := out + [e];
        if |out| >= limit {
          StoppedEarly(keys, p, d, i + 1, limit);
          return;
        }
      }
      if i + 1 < |keys| { StaysAbove(keys, p, i); }
      i := i + 1;
    }
  }

  lemma {:induction false} StaysAbove(keys: seq<Bytes>, p: Bytes, i: nat)
    requires Sorted(keys) && i + 1 < |keys| && !Less(keys[i], p)
    ensures !Less(keys[i + 1], p)
  {
    if Less(keys[i + 1], p) { LessIsTransitive(keys[i], keys[i + 1], p); }
  }

  /** Scan everything and remember the directories that were emitted. */
  method ListBySet(keys: seq<Bytes>, p: Bytes, d: Byte) returns (out: seq<Bytes>)
    requires Sorted(keys) && d < 255
    ensures out == Listing(keys, p, d, |keys|)
  {
    var dirs: set<Bytes> := {};
    out := [];
    for i := 0 to |keys|
      invariant out == Listing(keys, p, d, i) && forall x | x in dirs :: x in out
      invariant forall j | 0 <= j < i && p <= keys[j] && IsDir(keys[j], p, d) :: Rollup(keys[j], p, d) in dirs
    {
      if p <= keys[i] {
        var e := Rollup(keys[i], p, d);
        RepeatIsLast(keys, p, d, i);
        if IsDir(keys[i], p, d) {
          if e !in dirs {
            SeenIfListed(keys, p, d, i);
            dirs := dirs + {e};
            out := out + [e];
          }
        } else {
          PlainIsNew(keys, p, d, i);
          out := out + [e];
        }
      }
    }
  }

  /** An entry that was listed before is the last one listed. */
  lemma {:induction false} RepeatIsLast(keys: seq<Bytes>, p: Bytes, d: Byte, n: nat)
    requires Sorted(keys) && d < 255 && n < |keys| && p <= keys[n]
    ensures var out, e := Listing(keys, p, d, n), Rollup(keys[n], p, d); e in out ==> out[|out| - 1] == e
  {
    var out, e := Listing(keys, p, d, n), Rollup(keys[n], p, d);
    if e in out && out[|out| - 1] != e {
      var i :| 0 <= i < |out| && out[i] == e;
      LastIsBelow(keys, p, d, n);
      ListingAscends(keys, p, d, n, i, |out| - 1);
      AboveIsNotBelow(e, out[|out| - 1]);
    }
  }

  lemma {:induction false} SeenIfListed(keys: seq<Bytes>, p: Bytes, d: Byte, n: nat)
    requires n < |keys| && p <= keys[n] && IsDir(keys[n], p, d)
    ensures Rollup(keys[n], p, d) in Listing(keys, p, d, n) ==>
      exists j :: 0 <= j < n && p <= keys[j] && IsDir(keys[j], p, d) && Rollup(keys[j], p, d) == Rollup(keys[n], p, d)
  {
    var e, out := Rollup(keys[n], p, d), Listing(keys, p, d, n);
    if e in out {
      var i :| 0 <= i < |out| && out[i] == e;
      var at := ListingIsSound(keys, p, d, n, i);
      assert e <= keys[at];
      SharesDir(keys[n], keys[at], p, d);
      DirStays(keys[n], keys[at], p, d);
    }
  }

  lemma {:induction false} DirStays(k: Bytes, h: Bytes, p: Bytes, d: Byte)
    requires p <= k && IsDir(k, p, d) && p <= h && Rollup(k, p, d) <= h
    ensures IsDir(h, p, d)
  {
  }

  /** A key listed as itself was not listed before. */
  lemma {:induction false} PlainIsNew(keys: seq<Bytes>, p: Bytes, d: Byte, n: nat)
    requires Sorted(keys) && n < |keys| && p <= keys[n] && !IsDir(keys[n], p, d)
    ensures Rollup(keys[n], p, d) !in Listing(keys, p, d, n)
  {
    var out := Listing(keys, p, d, n);
    if keys[n] in out {
      var i :| 0 <= i < |out| && out[i] == keys[n];
      var at := ListingIsSound(keys, p, d, n, i);
      assert keys[n] <= keys[at];
      PrefixComesFirst(keys[n], keys[at]);
    }
  }

  /** Jump: after a directory entry, seek past every key below it. */
  method ListByJumps(keys: seq<Bytes>, p: Bytes, d: Byte, limit: nat) returns (out: seq<Bytes>)
    requires Sorted(keys) && d < 255
    ensures out == Page(Listing(keys, p, d, |keys|), limit)
  {
    var i := Seek(keys, 0, p);
    out := [];
    NoneBefore(keys, p, d, i);
    while i < |keys|
      invariant i <= |keys| && out == Listing(keys, p, d, i) && (|out| < limit || out == [])
      invariant i < |keys| ==> !Less(keys[i], p)
      invariant i < |keys| && p <= keys[i] ==> Rollup(keys[i], p, d) !in out
    {
      if !(p <= keys[i]) {
        AllOutside(keys, p, d, i);
        break;
      }
      out := out + [Rollup(keys[i], p, d)];
      if |out| >= limit {
        StoppedEarly(keys, p, d, i + 1, limit);
        return;
      }
      if IsDir(keys[i], p, d) {
        i := JumpPast(keys, p, d, i);
      } else {
        if i + 1 < |keys| { AfterPlain(keys, p, d, i); }
        i := i + 1;
      }
    }
  }

  lemma {:induction false} AfterPlain(keys: seq<Bytes>, p: Bytes, d: Byte, i: nat)
    requires Sorted(keys) && d < 255 && i + 1 < |keys| && p <= keys[i] && !IsDir(keys[i], p, d) && !Less(keys[i], p)
    ensures !Less(keys[i + 1], p)
    ensures p <= keys[i + 1] ==> Rollup(keys[i + 1], p, d) !in Listing(keys, p, d, i + 1)
  {
    StaysAbove(keys, p, i);
    if p <= keys[i + 1] {
      NewEntry(keys, p, d, i + 1);
    }
  }

  /** After a plain key, or after all keys of a directory, the next entry is new. */
  lemma {:induction false} NewEntry(keys: seq<Bytes>, p: Bytes, d: Byte, n: nat)
    requires Sorted(keys) && d < 255 && 0 < n < |keys| && p <= keys[n] && p <= keys[n - 1]
    requires !IsDir(keys[n - 1], p, d) || Rollup(keys[n], p, d) != Rollup(keys[n - 1], p, d)
    ensures Rollup(keys[n], p, d) !in Listing(keys, p, d, n)
  {
    RepeatIsLast(keys, p, d, n);
    var out := Listing(keys, p, d, n);
    assert out[|out| - 1] == Rollup(keys[n - 1], p, d);
    if !IsDir(keys[n - 1], p, d) && Rollup(keys[n], p, d) == keys[n - 1] {
      if IsDir(keys[n], p, d) {
        DirStays(keys[n], keys[n - 1], p, d);
      } else {
        NotBelowItself(keys[n]);
      }
    }
  }

  method JumpPast(keys: seq<Bytes>, p: Bytes, d: Byte, i: nat) returns (j: nat)
    requires Sorted(keys) && d < 255 && i < |keys| && p <= keys[i] && IsDir(keys[i], p, d) && !Less(keys[i], p)
    ensures i < j <= |keys| && Listing(keys, p, d, j) == Listing(keys, p, d, i + 1)
    ensures j < |keys| ==> !Less(keys[j], p)
    ensures j < |keys| && p <= keys[j] ==> Rollup(keys[j], p, d) !in Listing(keys, p, d, j)
  {
    DirEnds(keys[i], p, d);
    j := Seek(keys, i + 1, Successor(Rollup(keys[i], p, d)));
    forall m | i < m < |keys|
      ensures Less(keys[m], Successor(Rollup(keys[i], p, d))) <==>
        p <= keys[m] && Rollup(keys[m], p, d) == Rollup(keys[i], p, d)
    {
      SeekSkipsDir(keys, p, d, i, m);
    }
    SameDirAddsNothing(keys, p, d, i + 1, j);
    if j < |keys| {
      assert !Less(keys[j], p) by { if Less(keys[j], p) { LessIsTransitive(keys[i], keys[j], p); } }
      if p <= keys[j] { NewEntry(keys, p, d, j); }
    }
  }
}
