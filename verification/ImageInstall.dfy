/** Exporting a database and installing the image into an empty one. */
module ImageInstall {
  import opened ImageCodec

  type Tree = map<Bytes, Bytes>
  type Db = map<Bytes, Tree>

  datatype InstallError = Corrupt(error: Error) | InvalidName | TreeExists(name: Bytes)
  datatype Outcome = Installed(db: Db) | Failed(error: InstallError)

  /** Names are not empty and do not start with the catalog's reserved byte. */
  predicate ValidName(n: Bytes) { n != [] && n[0] != 0 }

  /** The tree that putting the first `n` pairs in order builds. */
  function Puts(kvs: seq<Kv>, n: nat): Tree
    requires n <= |kvs|
  {
    if n == 0 then map[] else Puts(kvs, n - 1)[kvs[n - 1].key := kvs[n - 1].value]
  }

  /** The families one after the other: each is created, then filled. */
  function Installs(fs: seq<Family>, n: nat): Outcome
    requires n <= |fs|
  {
    if n == 0 then Installed(map[])
    else match Installs(fs, n - 1)
      case Failed(e) => Failed(e)
      case Installed(db) =>
        var f := fs[n - 1];
        if !ValidName(f.name) then Failed(InvalidName)
        else if f.name in db then Failed(TreeExists(f.name))
        else Installed(db[f.name := Puts(f.kvs, |f.kvs|)])
  }

  lemma {:induction false} InstallsFailEarly(fs: seq<Family>, i: nat, n: nat)
    requires i <= n <= |fs| && Installs(fs, i).Failed?
    ensures Installs(fs, n) == Installs(fs, i)
  {
    if i < n { InstallsFailEarly(fs, i, n - 1); }
  }

  method Fill(kvs: seq<Kv>) returns (t: Tree)
    ensures t == Puts(kvs, |kvs|)
  {
    t := map[];
    for i := 0 to |kvs|
      invariant t == Puts(kvs, i)
    {
      t := t[kvs[i].key := kvs[i].value];
    }
  }

  method Install(image: Bytes) returns (r: Outcome)
    ensures match Decode(image)
      case Err(e) => r == Failed(Corrupt(e))
      case Ok(fs) => r == Installs(fs, |fs|)
  {
    var decoded := DecodeImage(image);
    if decoded.Err? { return Failed(Corrupt(decoded.error)); }
    var fs := decoded.value;
    var db: Db := map[];
    for i := 0 to |fs|
      invariant Installs(fs, i) == Installed(db)
    {
      if !ValidName(fs[i].name) || fs[i].name in db {
        InstallsFailEarly(fs, i + 1, |fs|);
        return Failed(if ValidName(fs[i].name) then TreeExists(fs[i].name) else InvalidName);
      }
      var t := Fill(fs[i].kvs);
      db := db[fs[i].name := t];
    }
    return Installed(db);
  }

  // ---------- export, then install ----------

  /** The pairs are the records of the tree, each once. */
  ghost predicate ListsTree(kvs: seq<Kv>, t: Tree) {
    && (forall i | 0 <= i < |kvs| :: kvs[i].key in t && t[kvs[i].key] == kvs[i].value)
    && (forall k | k in t :: exists i :: 0 <= i < |kvs| && kvs[i].key == k)
  }

  /** The families are the trees of the database, each once under its name. */
  ghost predicate ListsDb(fs: seq<Family>, db: Db) {
    && (forall i | 0 <= i < |fs| :: ValidName(fs[i].name) && fs[i].name in db && ListsTree(fs[i].kvs, db[fs[i].name]))
    && (forall n | n in db :: exists i :: 0 <= i < |fs| && fs[i].name == n)
    && (forall i, j | 0 <= i < j < |fs| :: fs[i].name != fs[j].name)
  }

  lemma {:induction false} PutsWithin(kvs: seq<Kv>, t: Tree, n: nat)
    requires ListsTree(kvs, t) && n <= |kvs|
    ensures forall k | k in Puts(kvs, n) :: k in t && Puts(kvs, n)[k] == t[k]
    ensures forall i | 0 <= i < n :: kvs[i].key in Puts(kvs, n)
  {
    if n > 0 { PutsWithin(kvs, t, n - 1); }
  }

  lemma {:induction false} PutsRebuild(kvs: seq<Kv>, t: Tree)
    requires ListsTree(kvs, t)
    ensures Puts(kvs, |kvs|) == t
  {
    PutsWithin(kvs, t, |kvs|);
    forall k | k in t ensures k in Puts(kvs, |kvs|) {
      var i :| 0 <= i < |kvs| && kvs[i].key == k;
      assert kvs[i].key in Puts(kvs, |kvs|);
    }
  }

  function NamesTo(fs: seq<Family>, n: nat): set<Bytes>
    requires n <= |fs|
  {
    if n == 0 then {} else NamesTo(fs, n - 1) + {fs[n - 1].name}
  }

  lemma {:induction false} NamesToAre(fs: seq<Family>, n: nat, m: Bytes)
    requires n <= |fs|
    ensures m in NamesTo(fs, n) <==> exists i :: 0 <= i < n && fs[i].name == m
  {
    if n > 0 { NamesToAre(fs, n - 1, m); }
  }

  function Part(db: Db, names: set<Bytes>): Db { map m | m in db && m in names :: db[m] }

  lemma {:induction false} PartGrows(db: Db, names: set<Bytes>, m: Bytes)
    requires m in db && m !in names
    ensures m !in Part(db, names) && Part(db, names)[m := db[m]] == Part(db, names + {m})
  {
  }

  lemma {:induction false} InstallsWithin(fs: seq<Family>, db: Db, n: nat)
    requires ListsDb(fs, db) && n <= |fs|
    ensures Installs(fs, n) == Installed(Part(db, NamesTo(fs, n)))
  {
    if n > 0 {
      InstallsWithin(fs, db, n - 1);
      var f := fs[n - 1];
      NamesToAre(fs, n - 1, f.name);
      PutsRebuild(f.kvs, db[f.name]);
      PartGrows(db, NamesTo(fs, n - 1), f.name);
    }
  }

  /** Installing an export into an empty database rebuilds every name, key and value, whatever order
      the export listed them in. */
  lemma {:induction false} InstallRebuilds(fs: seq<Family>, db: Db)
    requires ListsDb(fs, db) && Fits(fs)
    ensures Decode(Encode(fs)) == Ok(fs) && Installs(fs, |fs|) == Installed(db)
  {
    assert Decode(Encode(fs)) == Ok(fs) by { DecodeUndoesEncode(fs); }
    assert Installs(fs, |fs|) == Installed(Part(db, NamesTo(fs, |fs|))) by { InstallsWithin(fs, db, |fs|); }
    assert Part(db, NamesTo(fs, |fs|)) == db by {
      forall m | m in db ensures m in NamesTo(fs, |fs|) { NamesToAre(fs, |fs|, m); }
    }
  }
}
