/** An abstract file system: directories are a set of paths and files a map
    from path to content, all relative to the current working directory (the
    empty path). Only what the scaffolder does to it is modelled: `makedirs`
    with parents, writing a file, `rmtree`, and existence tests. */
module Files {

  /** A relative path as its components; `[]` is the current directory `.`. */
  type Path = seq<string>

  /** The path `Path(name)` of a single-component name, `"."` being the
      current directory itself. */
  function PathOf(name: string): (p: Path)
    ensures name == "." <==> p == []
  {
    if name == "." then [] else [name]
  }

  predicate IsPrefix(p: Path, q: Path)
  {
    |p| <= |q| && q[..|p|] == p
  }

  function Parent(p: Path): Path
    requires p != []
  {
    p[..|p| - 1]
  }

  /** Every non-empty prefix of `p`, `p` included: what `mkdir -p p` creates. */
  function Ancestors(p: Path): (a: set<Path>)
    ensures forall q :: q in a ==> q != [] && IsPrefix(q, p)
    ensures p != [] ==> p in a
  {
    assert p != [] ==> p[..|p|] == p;
    set k | 1 <= k <= |p| :: p[..k]
  }

  /** The JSON values a `package.json` document is made of. */
  datatype Json =
    | JNull
    | JBool(b: bool)
    | JNumber(n: int)
    | JString(s: string)
    | JArray(items: seq<Json>)
    | JObject(fields: map<string, Json>)

  /** A file holds either text or a JSON document (its serialisation is not
      modelled). */
  datatype Content = Text(text: string) | JsonDoc(doc: Json)

  /** The paths of `ds` not inside `p`. */
  function OutsideDirs(ds: set<Path>, p: Path): (s: set<Path>)
    ensures s <= ds
    ensures forall d :: d in ds && !IsPrefix(p, d) ==> d in s
  {
    set d | d in ds && !IsPrefix(p, d)
  }

  /** The entries of `fs` not inside `p`. */
  function OutsideFiles(fs: map<Path, Content>, p: Path): (m: map<Path, Content>)
    ensures m.Keys <= fs.Keys
    ensures forall f :: f in m ==> m[f] == fs[f] && !IsPrefix(p, f)
    ensures forall f :: f in fs && !IsPrefix(p, f) ==> f in m
  {
    map f | f in fs && !IsPrefix(p, f) :: fs[f]
  }

  /** New directories that are inside `p` or already there leave what lies
      outside `p` as it was. */
  lemma OutsideDirsGrow(ds: set<Path>, extra: set<Path>, p: Path)
    requires forall d :: d in extra && !IsPrefix(p, d) ==> d in ds
    ensures OutsideDirs(ds + extra, p) == OutsideDirs(ds, p)
  {
  }

  /** Writing a file inside `p` leaves what lies outside `p` as it was. */
  lemma OutsideFilesWrite(fs: map<Path, Content>, f: Path, c: Content, p: Path)
    requires IsPrefix(p, f)
    ensures OutsideFiles(fs[f := c], p) == OutsideFiles(fs, p)
  {
  }

  lemma MapUnionAssoc<K, V>(a: map<K, V>, b: map<K, V>, c: map<K, V>)
    ensures (a + b) + c == a + (b + c)
  {
  }

  /** A later write to `a` hides an earlier one, whatever was written to other
      keys in between. */
  lemma MapUpdateHidden<K, V>(m: map<K, V>, a: K, b: K, c: K, x: V, y: V, z: V, w: V)
    requires a != b && a != c
    ensures m[a := x][b := y][c := z][a := w] == m[b := y][c := z][a := w]
  {
  }

  class FileSystem {
    var dirs: set<Path>
    var files: map<Path, Content>

    /** The current directory exists and every directory and file sits in an
        existing directory. */
    ghost predicate Valid()
      reads this
    {
      && [] in dirs
      && (forall d :: d in dirs && d != [] ==> Parent(d) in dirs)
      && (forall f :: f in files ==> f != [] && Parent(f) in dirs)
    }

    /** `os.path.exists(p)`. */
    predicate Exists(p: Path)
      reads this
    {
      p in dirs || p in files
    }

    /** `os.path.exists(name)` for a name on its own: the empty name never
        exists, "." is the current directory. */
    predicate NameExists(name: string)
      reads this
    {
      name != "" && Exists(PathOf(name))
    }

    /** The directories not inside `p`. */
    function DirsOutside(p: Path): (s: set<Path>)
      reads this
      ensures s <= dirs
    {
      OutsideDirs(dirs, p)
    }

    /** The files not inside `p`. */
    function FilesOutside(p: Path): (m: map<Path, Content>)
      reads this
      ensures m.Keys <= files.Keys
      ensures forall f :: f in m ==> m[f] == files[f]
    {
      OutsideFiles(files, p)
    }

    /** Every prefix of an existing directory exists. */
    lemma {:induction false} PrefixesExist(d: Path, k: nat)
      requires Valid() && d in dirs && k <= |d|
      ensures d[..k] in dirs
      decreases |d| - k
    {
      if k < |d| {
        PrefixesExist(d, k + 1);
        assert d[..k + 1] != [] && Parent(d[..k + 1]) == d[..k];
      } else {
        assert d[..k] == d;
      }
    }

    /** Whatever lies inside `p` makes `p` exist. */
    lemma InsideExisting(p: Path, e: Path)
      requires Valid() && (e in dirs || e in files) && IsPrefix(p, e)
      ensures Exists(p)
    {
      if e in dirs {
        PrefixesExist(e, |p|);
      } else if |e| > |p| {
        assert Parent(e)[..|p|] == p;
        PrefixesExist(Parent(e), |p|);
      } else {
        assert e == e[..|p|];
      }
    }

    /** When `p` does not exist, nothing inside it exists either. */
    lemma NothingInside(p: Path)
      requires Valid() && !Exists(p)
      ensures DirsOutside(p) == dirs
      ensures FilesOutside(p) == files
    {
      forall e | e in dirs || e in files ensures !IsPrefix(p, e) {
        if IsPrefix(p, e) {
          InsideExisting(p, e);
        }
      }
    }

    /** Making the directories of a path inside an existing directory `base`
        changes nothing outside `base`. */
    lemma AncestorsInside(base: Path, q: Path)
      requires Valid() && base in dirs && IsPrefix(base, q)
      ensures forall d :: d in Ancestors(q) && !IsPrefix(base, d) ==> d in dirs
    {
      forall d | d in Ancestors(q) && !IsPrefix(base, d) ensures d in dirs {
        assert |d| < |base| && d == base[..|d|];
        PrefixesExist(base, |d|);
      }
    }

    /** `os.makedirs(p, exist_ok=True)` / `Path.mkdir(parents=True, exist_ok=True)`. */
    method MakeDirs(p: Path)
      requires Valid()
      modifies this
      ensures Valid()
      ensures dirs == old(dirs) + Ancestors(p)
      ensures files == old(files)
    {
      forall q | q in Ancestors(p) && q != [] && |q| > 1 ensures Parent(q) in Ancestors(p) {
        assert Parent(q) == p[..|q| - 1];
      }
      dirs := dirs + Ancestors(p);
    }

    /** Writing a file whose directory exists (`open(p, "w")`). */
    method WriteFile(p: Path, c: Content)
      requires Valid() && p != [] && Parent(p) in dirs
      modifies this
      ensures Valid()
      ensures files == old(files)[p := c]
      ensures dirs == old(dirs)
    {
      files := files[p := c];
    }

    /** `shutil.rmtree(p)`: `p` and everything inside it disappear. */
    method RemoveTree(p: Path)
      requires Valid() && p != []
      modifies this
      ensures Valid()
      ensures dirs == old(DirsOutside(p))
      ensures files == old(FilesOutside(p))
      ensures !Exists(p)
    {
      forall d | d in dirs && d != [] && IsPrefix(p, Parent(d)) ensures IsPrefix(p, d) {
        assert d[..|p|] == Parent(d)[..|p|];
      }
      forall f | f in files && IsPrefix(p, Parent(f)) ensures IsPrefix(p, f) {
        assert f[..|p|] == Parent(f)[..|p|];
      }
      dirs := DirsOutside(p);
      files := FilesOutside(p);
    }

    /** `set(os.listdir("."))`: the names of the entries of the current directory. */
    function Listing(): (names: set<string>)
      reads this
      ensures forall n :: n in names <==> Exists([n])
    {
      var names := (set d | d in dirs && |d| == 1 :: d[0]) + (set f | f in files && |f| == 1 :: f[0]);
      forall n | Exists([n]) ensures n in names {
        assert [n][0] == n;
      }
      forall d | (d in dirs || d in files) && |d| == 1 ensures d == [d[0]] {
      }
      names
    }
  }
}
