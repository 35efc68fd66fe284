/** The part of the file system the dataset splitter touches, reduced to
    its shape: a set of directories and a map from file paths to contents.
    A path is the sequence of its components below the drive root, so the
    root is the empty path and `os.path.join(d, x)` is `d + [x]`. The
    operations are the ones of `os` and `shutil` that scripts/lego_scanner.py
    calls, each with the error it raises turned into `ok == false`. */
module Files {
  import opened Seqs

  type Path = seq<string>
  type Bytes = seq<bv8>

  /** `p` is `d` itself or lies somewhere below it. */
  predicate Under(p: Path, d: Path)
  {
    |d| <= |p| && p[..|d|] == d
  }

  /** `p` lies strictly below `d`. */
  predicate Below(p: Path, d: Path)
  {
    |d| < |p| && p[..|d|] == d
  }

  function Parent(p: Path): Path
    requires p != []
  {
    p[..|p| - 1]
  }

  /** `d` and every directory above it, the root included. */
  function Prefixes(d: Path): set<Path>
  {
    set k | 0 <= k <= |d| :: d[..k]
  }

  /** A tree: the root is a directory, nothing is both a file and a
      directory, and everything other than the root sits in a directory. */
  ghost predicate WellFormed(dirs: set<Path>, files: map<Path, Bytes>)
  {
    && [] in dirs
    && dirs !! files.Keys
    && (forall p :: p in dirs && p != [] ==> Parent(p) in dirs)
    && (forall p :: p in files ==> p != [] && Parent(p) in dirs)
  }

  /** Every directory above an entry of a tree exists as a directory. */
  lemma {:induction false} AncestorsAreDirs(dirs: set<Path>, files: map<Path, Bytes>, q: Path, k: nat)
    requires WellFormed(dirs, files)
    requires q in dirs || q in files
    requires k < |q|
    ensures q[..k] in dirs
    decreases |q|
  {
    var par := Parent(q);
    if k < |par| {
      AncestorsAreDirs(dirs, files, par, k);
      assert par[..k] == q[..k];
    } else {
      assert q[..k] == par;
    }
  }

  /** Nothing lies below a path that is not a directory. */
  lemma NothingBelowNonDir(dirs: set<Path>, files: map<Path, Bytes>, d: Path, q: Path)
    requires WellFormed(dirs, files)
    requires d !in dirs
    requires Below(q, d)
    ensures q !in dirs && q !in files
  {
    if q in dirs || q in files {
      AncestorsAreDirs(dirs, files, q, |d|);
      assert false;
    }
  }

  /** The tree without what lies strictly below `d`. */
  function PruneDirs(dirs: set<Path>, d: Path): set<Path>
  {
    set p | p in dirs && !Below(p, d)
  }

  function PruneFiles(files: map<Path, Bytes>, d: Path): map<Path, Bytes>
  {
    map p | p in files && !Below(p, d) :: files[p]
  }

  /** No directory on the way to `d`, nor `d` itself, is a file. */
  predicate NoFileOnPath(files: map<Path, Bytes>, d: Path)
  {
    forall k :: 0 <= k <= |d| ==> d[..k] !in files
  }

  /** The names of the entries directly inside `d`. */
  function ChildNames(dirs: set<Path>, files: map<Path, Bytes>, d: Path): set<string>
  {
    (set p | p in dirs && |p| == |d| + 1 && p[..|d|] == d :: p[|d|])
    + (set p | p in files && |p| == |d| + 1 && p[..|d|] == d :: p[|d|])
  }

  /** A name is listed in `d` exactly when `d + [name]` exists. */
  lemma ChildNamesIff(dirs: set<Path>, files: map<Path, Bytes>, d: Path, x: string)
    ensures x in ChildNames(dirs, files, d) <==> d + [x] in dirs || d + [x] in files
  {
    if x in ChildNames(dirs, files, d) {
      var p :| (p in dirs || p in files) && |p| == |d| + 1 && p[..|d|] == d && p[|d|] == x;
      assert p == d + [x];
    }
    var p := d + [x];
    assert p[..|d|] == d && p[|d|] == x;
  }

  /** Everything strictly below `d` lies below one of the entries listed in `d`. */
  lemma BelowListed(dirs: set<Path>, files: map<Path, Bytes>, d: Path, q: Path)
    requires WellFormed(dirs, files)
    requires q in dirs || q in files
    requires Below(q, d)
    ensures q[|d|] in ChildNames(dirs, files, d)
  {
    var c := q[..|d| + 1];
    if |q| > |d| + 1 {
      AncestorsAreDirs(dirs, files, q, |d| + 1);
    } else {
      assert c == q;
    }
    assert c == d + [q[|d|]];
    ChildNamesIff(dirs, files, d, q[|d|]);
  }

  /** Being under the entry `x` of `d` is lying below `d` on the branch `x`. */
  lemma UnderChild(q: Path, d: Path, x: string)
    ensures Under(q, d + [x]) <==> Below(q, d) && q[|d|] == x
  {
    if Below(q, d) && q[|d|] == x {
      assert q[..|d| + 1] == q[..|d|] + [q[|d|]];
    }
    if Under(q, d + [x]) {
      assert q[..|d|] == (d + [x])[..|d|];
    }
  }

  /** The directories above `d + [x]` are `d + [x]` and those above `d`. */
  lemma PrefixesOfChild(d: Path, x: string)
    ensures Prefixes(d + [x]) == Prefixes(d) + {d + [x]}
  {
    var e := d + [x];
    forall k | 0 <= k <= |d|
      ensures e[..k] == d[..k]
    {
    }
    assert e[..|e|] == e;
    forall p | p in Prefixes(e)
      ensures p in Prefixes(d) + {e}
    {
      var k :| 0 <= k <= |e| && p == e[..k];
      if k <= |d| {
        assert p == d[..k];
      }
    }
  }

  /** The directories above a directory of a tree all exist, so none of
      them is a file. */
  lemma DirPrefixes(dirs: set<Path>, files: map<Path, Bytes>, d: Path)
    requires WellFormed(dirs, files)
    requires d in dirs
    ensures Prefixes(d) <= dirs
    ensures NoFileOnPath(files, d)
  {
    forall k | 0 <= k <= |d|
      ensures d[..k] in dirs
    {
      if k < |d| {
        AncestorsAreDirs(dirs, files, d, k);
      } else {
        assert d[..k] == d;
      }
    }
  }

  /** On the way to an entry of a directory with no file on its way, only
      the entry itself can be a file. */
  lemma NoFileOnChild(files: map<Path, Bytes>, d: Path, x: string)
    requires NoFileOnPath(files, d)
    ensures NoFileOnPath(files, d + [x]) <==> d + [x] !in files
  {
    var e := d + [x];
    assert e[..|e|] == e;
    forall k | 0 <= k <= |d|
      ensures e[..k] == d[..k]
    {
    }
  }

  /** Entries of two different directories are different paths. */
  lemma EntriesDiffer(a: Path, b: Path, x: string, y: string)
    requires a != b
    ensures a + [x] != b + [y]
  {
    if |a| == |b| {
      assert (a + [x])[..|a|] == a && (b + [y])[..|b|] == b;
    }
  }

  /** A path under two directories is under the longer one, which is under
      the shorter one. */
  lemma UnderBoth(p: Path, a: Path, b: Path)
    requires Under(p, a) && Under(p, b)
    ensures Under(a, b) || Under(b, a)
  {
    if |a| <= |b| {
      assert b[..|a|] == p[..|b|][..|a|] == p[..|a|];
    } else {
      assert a[..|b|] == p[..|a|][..|b|] == p[..|b|];
    }
  }

  class FileSystem {
    var dirs: set<Path>
    var files: map<Path, Bytes>

    ghost predicate Valid()
      reads this
    {
      WellFormed(dirs, files)
    }

    constructor (dirs0: set<Path>, files0: map<Path, Bytes>)
      requires WellFormed(dirs0, files0)
      ensures Valid() && dirs == dirs0 && files == files0
    {
      dirs, files := dirs0, files0;
    }

    /** `os.path.exists(p)` */
    predicate Exists(p: Path)
      reads this
    {
      p in dirs || p in files
    }

    /** `os.path.isdir(p)` */
    predicate IsDir(p: Path)
      reads this
    {
      p in dirs
    }

    /** `os.listdir(d)`: fails unless `d` is a directory; lists every entry
        once, in an order the model leaves open. */
    method ListDir(d: Path) returns (ok: bool, names: seq<string>)
      ensures ok == IsDir(d)
      ensures ok ==> Distinct(names) && Elems(names) == ChildNames(dirs, files, d)
      ensures !ok ==> names == []
    {
      if d !in dirs {
        return false, [];
      }
      ok := true;
      names := Enumerate(ChildNames(dirs, files, d));
    }

    /** `shutil.rmtree(p)` on a directory: `p` and everything below it go. */
    method RemoveTree(p: Path)
      requires Valid() && p in dirs && p != []
      modifies this
      ensures Valid()
      ensures dirs == set q | q in old(dirs) && !Under(q, p)
      ensures files == map q | q in old(files) && !Under(q, p) :: old(files)[q]
    {
      dirs := set q | q in dirs && !Under(q, p);
      files := map q | q in files && !Under(q, p) :: files[q];
      forall q | q in dirs && q != []
        ensures Parent(q) in dirs
      {
        assert Parent(q) in old(dirs);
      }
      forall q | q in files
        ensures q != [] && Parent(q) in dirs
      {
        assert Parent(q) in old(dirs);
      }
    }

    /** `os.remove(p)` on a file. */
    method Remove(p: Path)
      requires Valid() && p in files
      modifies this
      ensures Valid()
      ensures dirs == old(dirs) && files == old(files) - {p}
    {
      files := files - {p};
    }

    /** `os.makedirs(d, exist_ok=existOk)`: creates `d` and the directories
        above it. It fails, creating nothing, when a path on the way is a
        file, or when `d` is already a directory and `existOk` is false. */
    method MakeDirs(d: Path, existOk: bool) returns (ok: bool)
      requires Valid()
      modifies this
      ensures Valid()
      ensures ok == (NoFileOnPath(old(files), d) && (existOk || d !in old(dirs)))
      ensures files == old(files)
      ensures dirs == if ok then old(dirs) + Prefixes(d) else old(dirs)
    {
      ok := (forall k | 0 <= k <= |d| :: d[..k] !in files) && (existOk || d !in dirs);
      if ok {
        dirs := dirs + Prefixes(d);
        forall q | q in dirs && q != []
          ensures Parent(q) in dirs
        {
          if q in Prefixes(d) {
            var k :| 0 <= k <= |d| && q == d[..k];
            assert Parent(q) == d[..k - 1];
          }
        }
        assert [] == d[..0];
      }
    }

    /** `shutil.copy(src, dst)` where `dst` is not a directory: fails unless
        `src` is a file and `dst` lies in a directory; otherwise `dst` holds
        the bytes of `src`, replacing what it held. */
    method Copy(src: Path, dst: Path) returns (ok: bool)
      requires Valid() && dst != [] && dst !in dirs
      modifies this
      ensures Valid()
      ensures ok == (src in old(files) && Parent(dst) in old(dirs))
      ensures dirs == old(dirs)
      ensures files == if ok then old(files)[dst := old(files)[src]] else old(files)
    {
      ok := src in files && Parent(dst) in dirs;
      if ok {
        files := files[dst := files[src]];
      }
    }
  }
}
