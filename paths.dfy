/** The path operations of `os.path` the scripts use, on file names and
    string paths. Joining is the simple form: the two parts with one
    separator between them (the scripts run on Windows, so the separator is
    a backslash). */
module Paths {
  import opened Text

  const Sep: char := '\\'

  /** `os.path.join(dir, name)` */
  function Join(dir: string, name: string): string
  {
    dir + [Sep] + name
  }

  /** Index of the last `c` among the first `n` characters of `s`, or -1
      when there is none. */
  function LastIndexBefore(s: string, c: char, n: nat): (i: int)
    requires n <= |s|
    ensures -1 <= i < n
  {
    if n == 0 then -1
    else if s[n - 1] == c then n - 1
    else LastIndexBefore(s, c, n - 1)
  }

  /** Index of the last `c` in `s`, or -1 when there is none. */
  function LastIndexOf(s: string, c: char): (i: int)
    ensures -1 <= i < |s|
  {
    LastIndexBefore(s, c, |s|)
  }

  lemma {:induction false} LastIndexBeforeSpec(s: string, c: char, n: nat)
    requires n <= |s|
    ensures LastIndexBefore(s, c, n) >= 0 ==> s[LastIndexBefore(s, c, n)] == c
    ensures forall k :: LastIndexBefore(s, c, n) < k < n ==> s[k] != c
  {
    if n > 0 && s[n - 1] != c {
      LastIndexBeforeSpec(s, c, n - 1);
    }
  }

  /** The index found holds `c`, and no `c` comes after it. */
  lemma LastIndexOfSpec(s: string, c: char)
    ensures LastIndexOf(s, c) >= 0 ==> s[LastIndexOf(s, c)] == c
    ensures forall k :: LastIndexOf(s, c) < k < |s| ==> s[k] != c
  {
    LastIndexBeforeSpec(s, c, |s|);
  }

  /** A `c` with no `c` after it is the last one. */
  lemma LastIndexOfUnique(s: string, c: char, j: nat)
    requires j < |s| && s[j] == c
    requires forall k :: j < k < |s| ==> s[k] != c
    ensures LastIndexOf(s, c) == j
  {
    LastIndexOfSpec(s, c);
  }

  /** `os.path.basename(path)`: what follows the last separator. */
  function Basename(path: string): (r: string)
    ensures |r| <= |path|
  {
    path[LastIndexOf(path, Sep) + 1..]
  }

  /** The base name is a tail of the path holding no separator: the whole
      path, or what follows a separator. */
  lemma BasenameSpec(path: string)
    ensures Sep !in Basename(path)
    ensures Basename(path) == path[|path| - |Basename(path)|..]
    ensures Basename(path) == path || path[|path| - |Basename(path)| - 1] == Sep
  {
    LastIndexOfSpec(path, Sep);
  }

  /** The base name of a joined path is the name that was joined. */
  lemma BasenameOfJoin(dir: string, name: string)
    requires Sep !in name
    ensures Basename(Join(dir, name)) == name
  {
    var p := Join(dir, name);
    assert p[|dir|] == Sep;
    assert forall k :: |dir| < k < |p| ==> p[k] == name[k - |dir| - 1];
    LastIndexOfUnique(p, Sep, |dir|);
  }

  predicate AllDots(s: string)
  {
    forall k :: 0 <= k < |s| ==> s[k] == '.'
  }

  /** `os.path.splitext(name)[0]` for a file name: the name without its last
      extension. As in Python, a name whose part before the last dot is
      empty or made only of dots (".dat", "..stl") has no extension. */
  function Stem(name: string): (r: string)
    ensures |r| <= |name|
  {
    var dot := LastIndexOf(name, '.');
    if dot < 0 || AllDots(name[..dot]) then name else name[..dot]
  }

  /** The stem is the name up to a last dot that follows something other
      than dots, or the whole name. */
  lemma StemSpec(name: string)
    ensures Stem(name) == name[..|Stem(name)|]
    ensures Stem(name) == name
         || (name[|Stem(name)|] == '.' && '.' !in name[|Stem(name)| + 1..] && !AllDots(Stem(name)))
  {
    var dot := LastIndexOf(name, '.');
    LastIndexOfSpec(name, '.');
    if !(dot < 0 || AllDots(name[..dot])) {
      assert Stem(name) == name[..dot];
    }
  }

  /** Removing the extension of `base.ext` gives back `base` whenever `base`
      holds a character other than a dot and `ext` holds no dot. */
  lemma StemOfExtension(base: string, ext: string)
    requires !AllDots(base)
    requires '.' !in ext
    ensures Stem(base + "." + ext) == base
  {
    var name := base + "." + ext;
    assert name[|base|] == '.';
    assert forall k :: |base| < k < |name| ==> name[k] == ext[k - |base| - 1];
    LastIndexOfUnique(name, '.', |base|);
    assert name[..|base|] == base;
  }

  /** A name whose part before the extension is only dots keeps its
      extension: `splitext(".dat")[0]` is ".dat". */
  lemma StemOfDotName(base: string, ext: string)
    requires AllDots(base)
    requires '.' !in ext
    ensures Stem(base + "." + ext) == base + "." + ext
  {
    var name := base + "." + ext;
    assert name[|base|] == '.';
    assert forall k :: |base| < k < |name| ==> name[k] == ext[k - |base| - 1];
    LastIndexOfUnique(name, '.', |base|);
    assert name[..|base|] == base;
  }

  /** The name of view `i` of an object: `f"{stem}_view_{i}.png"`. */
  function ViewName(stem: string, i: nat): string
  {
    stem + "_view_" + NatToString(i) + ".png"
  }

  /** Where the marker's last character and the tail sit in `s + m + t`. */
  lemma MarkerThenTail(s: string, m: string, t: string)
    ensures m != [] ==> (s + m + t)[|s| + |m| - 1] == m[|m| - 1]
    ensures forall k :: |s| + |m| <= k < |s| + |m| + |t| ==> (s + m + t)[k] == t[k - |s| - |m|]
  {
  }

  /** Two texts that end in a marker followed by digits, where the marker
      ends in a non-digit, split the same way. */
  lemma DigitTailUnique(s1: string, d1: string, s2: string, d2: string, m: string)
    requires m != [] && !IsDigit(m[|m| - 1])
    requires forall k :: 0 <= k < |d1| ==> IsDigit(d1[k])
    requires forall k :: 0 <= k < |d2| ==> IsDigit(d2[k])
    requires s1 + m + d1 == s2 + m + d2
    ensures s1 == s2 && d1 == d2
  {
    var x := s1 + m + d1;
    var y := s2 + m + d2;
    MarkerThenTail(s1, m, d1);
    MarkerThenTail(s2, m, d2);
    if |d1| < |d2| {
      assert false;
    } else if |d2| < |d1| {
      assert false;
    }
    assert d1 == x[|x| - |d1|..] == y[|y| - |d2|..] == d2;
    assert s1 == x[..|s1|] == y[..|s2|] == s2;
  }

  /** Different (stem, index) pairs name different view files: the index is
      the run of digits after the last "_view_". */
  lemma ViewNameInjective(s1: string, i: nat, s2: string, j: nat)
    requires ViewName(s1, i) == ViewName(s2, j)
    ensures s1 == s2 && i == j
  {
    var d1, d2 := NatToString(i), NatToString(j);
    var x, y := s1 + "_view_" + d1, s2 + "_view_" + d2;
    assert x + ".png" == y + ".png";
    assert |x| == |y|;
    assert x == (x + ".png")[..|x|] == (y + ".png")[..|y|] == y;
    DigitTailUnique(s1, d1, s2, d2, "_view_");
    NatToStringInjective(i, j);
  }

  /** Joined paths from the same directory are equal only for equal names. */
  lemma JoinCancel(dir: string, a: string, b: string)
    requires Join(dir, a) == Join(dir, b)
    ensures a == b
  {
    assert a == Join(dir, a)[|dir| + 1..];
  }

  /** A directory name without separators is recovered from a path below it. */
  lemma JoinSplit(a1: string, r1: string, a2: string, r2: string)
    requires Sep !in a1 && Sep !in a2
    requires Join(a1, r1) == Join(a2, r2)
    ensures a1 == a2 && r1 == r2
  {
    var p := Join(a1, r1);
    assert forall k :: 0 <= k < |a1| ==> p[k] == a1[k];
    assert forall k :: 0 <= k < |a2| ==> p[k] == a2[k];
    IndexOfUnique(p, Sep, |a1|);
    IndexOfUnique(p, Sep, |a2|);
    assert a1 == p[..|a1|];
    assert a2 == p[..|a2|];
    assert r1 == p[|a1| + 1..];
  }
}
