/** The train/validation split of scripts/lego_scanner.py (lines 12-64):
    empty or create the `train` and `val` trees, mirror every class folder
    of the dataset into both, and copy a shuffled 80/20 split of each
    class's images into them.

    `random.shuffle` draws from a random source that is a parameter here:
    `rng(k)` is the `k`-th number drawn, taken modulo the range the
    shuffle asks for. */
module LegoScanner {
  import opened Text
  import opened Seqs
  import opened Files

  /** `clear_directory(directory)` (lines 17-23): every entry of the
      directory is removed, sub-directories with all they hold, and the
      directory itself stays. Listing a path that is not a directory fails. */
  method ClearDirectory(fs: FileSystem, directory: Path) returns (ok: bool)
    requires fs.Valid()
    modifies fs
    ensures fs.Valid()
    ensures ok == (directory in old(fs.dirs))
    ensures fs.dirs == if ok then PruneDirs(old(fs.dirs), directory) else old(fs.dirs)
    ensures fs.files == if ok then PruneFiles(old(fs.files), directory) else old(fs.files)
  {
    ghost var dirs0, files0 := fs.dirs, fs.files;
    var names;
    ok, names := fs.ListDir(directory);
    if !ok {
      return;
    }
    forall x | x in names
      ensures directory + [x] in dirs0 || directory + [x] in files0
    {
      ChildNamesIff(dirs0, files0, directory, x);
    }
    for i := 0 to |names|
      invariant fs.Valid()
      invariant fs.dirs == set q | q in dirs0 && !Cleared(q, directory, names[..i])
      invariant fs.files == map q | q in files0 && !Cleared(q, directory, names[..i]) :: files0[q]
    {
      var filePath := directory + [names[i]];
      ghost var before, after := names[..i], names[..i + 1];
      assert after == before + [names[i]];
      assert names[i] !in before;
      forall q
        ensures Cleared(q, directory, after) <==> Cleared(q, directory, before) || Under(q, filePath)
      {
        UnderChild(q, directory, names[i]);
      }
      assert !Cleared(filePath, directory, before);
      RemoveEntry(fs, filePath);
      assert forall q :: q in fs.dirs <==> q in dirs0 && !Cleared(q, directory, after);
      assert forall q :: q in fs.files <==> q in files0 && !Cleared(q, directory, after);
    }
    forall q | q in dirs0 || q in files0
      ensures Cleared(q, directory, names) <==> Below(q, directory)
    {
      if Below(q, directory) {
        BelowListed(dirs0, files0, directory, q);
      }
    }
    assert names[..|names|] == names;
  }

  /** The body of the loop of `clear_directory`: a directory entry goes
      with everything below it, a file entry goes alone. */
  method RemoveEntry(fs: FileSystem, filePath: Path)
    requires fs.Valid() && filePath != []
    requires filePath in fs.dirs || filePath in fs.files
    modifies fs
    ensures fs.Valid()
    ensures fs.dirs == set q | q in old(fs.dirs) && !Under(q, filePath)
    ensures fs.files == map q | q in old(fs.files) && !Under(q, filePath) :: old(fs.files)[q]
  {
    if fs.IsDir(filePath) {
      fs.RemoveTree(filePath);
    } else {
      ghost var dirs0, files0 := fs.dirs, fs.files;
      forall q | Under(q, filePath)
        ensures q !in dirs0 && (q in files0 ==> q == filePath)
      {
        if q != filePath {
          NothingBelowNonDir(dirs0, files0, filePath, q);
        }
      }
      fs.Remove(filePath);
    }
  }

  /** `q` lies below `d` on the branch of one of the names in `done`. */
  predicate Cleared(q: Path, d: Path, done: seq<string>)
  {
    Below(q, d) && q[|d|] in done
  }

  /** Lines 26-34 for one of the two trees: a path that exists is cleared
      (and fails when it is a file), a path that does not is created with
      the directories above it. Either way the outcome is the same: the
      directory exists and is empty, and the preparation succeeds exactly
      when no path on the way to it is a file. */
  method PrepareDir(fs: FileSystem, d: Path) returns (ok: bool)
    requires fs.Valid()
    modifies fs
    ensures fs.Valid()
    ensures ok == NoFileOnPath(old(fs.files), d)
    ensures fs.dirs == if ok then PruneDirs(old(fs.dirs), d) + Prefixes(d) else old(fs.dirs)
    ensures fs.files == if ok then PruneFiles(old(fs.files), d) else old(fs.files)
  {
    ghost var dirs0, files0 := fs.dirs, fs.files;
    if fs.Exists(d) {
      ok := ClearDirectory(fs, d);
      if d in dirs0 {
        forall k | 0 <= k <= |d|
          ensures d[..k] in dirs0
        {
          if k < |d| {
            AncestorsAreDirs(dirs0, files0, d, k);
          } else {
            assert d[..k] == d;
          }
        }
        assert Prefixes(d) <= PruneDirs(dirs0, d);
      } else {
        assert d[..|d|] == d;
      }
    } else {
      ok := fs.MakeDirs(d, false);
      forall q | Below(q, d)
        ensures q !in dirs0 && q !in files0
      {
        NothingBelowNonDir(dirs0, files0, d, q);
      }
      assert PruneDirs(dirs0, d) == dirs0;
      assert PruneFiles(files0, d) == files0;
    }
  }

  /** The name filter of line 45: `.png`, `.jpg` and `.jpeg`, with the case
      as written (`photo.PNG` is not an image here). */
  predicate IsImageName(name: string)
  {
    EndsWith(name, ".png") || EndsWith(name, ".jpg") || EndsWith(name, ".jpeg")
  }

  /** The filter is case-sensitive: upper-case extensions and `.gif` are
      not images, and a name that is only an extension is one. */
  lemma ImageNameExamples()
    ensures IsImageName("brick.png") && IsImageName("brick.jpg") && IsImageName("brick.jpeg")
    ensures IsImageName(".png")
    ensures !IsImageName("brick.PNG") && !IsImageName("brick.Jpg") && !IsImageName("brick.gif")
  {
    assert "brick.png"[5..] == ".png";
    assert "brick.jpg"[5..] == ".jpg";
    assert "brick.jpeg"[5..] == ".jpeg";
    assert ".png"[0..] == ".png";
    assert "brick.PNG"[5..] != ".png";
    assert "brick.Jpg"[5..] != ".jpg";
    assert "brick.gif"[5..] != ".png";
  }

  /** `[f for f in names if f.endswith(('.png', '.jpg', '.jpeg'))]` */
  function ImageFiles(names: seq<string>): (images: seq<string>)
    ensures forall x :: x in images <==> x in names && IsImageName(x)
  {
    if names == [] then []
    else (if IsImageName(names[0]) then [names[0]] else []) + ImageFiles(names[1..])
  }

  /** The image list of a listing holds each name once, as the listing does. */
  lemma {:induction false} ImageFilesDistinct(names: seq<string>)
    requires Distinct(names)
    ensures Distinct(ImageFiles(names))
  {
    if names != [] {
      ImageFilesDistinct(names[1..]);
      var rest := ImageFiles(names[1..]);
      assert names[0] !in names[1..] by {
        forall k | 0 <= k < |names| - 1 ensures names[1..][k] != names[0] {
          assert names[1..][k] == names[k + 1];
        }
      }
      assert names[0] !in rest;
    }
  }

  /** `[folder for folder in names if os.path.isdir(os.path.join(d, folder))]`
      (line 37): the entries of `d` that are directories, in listing order. */
  function SubDirs(dirs: set<Path>, d: Path, names: seq<string>): (folders: seq<string>)
    ensures forall x :: x in folders <==> x in names && d + [x] in dirs
  {
    if names == [] then []
    else (if d + [names[0]] in dirs then [names[0]] else []) + SubDirs(dirs, d, names[1..])
  }

  lemma {:induction false} SubDirsDistinct(dirs: set<Path>, d: Path, names: seq<string>)
    requires Distinct(names)
    ensures Distinct(SubDirs(dirs, d, names))
  {
    if names != [] {
      SubDirsDistinct(dirs, d, names[1..]);
      assert names[0] !in names[1..] by {
        forall k | 0 <= k < |names| - 1 ensures names[1..][k] != names[0] {
          assert names[1..][k] == names[k + 1];
        }
      }
    }
  }

  /** `int(0.8 * n)` (line 51), as integer arithmetic: the largest `k` with
      `5 * k <= 4 * n`, which the floating-point product gives for every
      `n` below 2^50. One image or more leaves at least one for
      validation; two or more put at least one in training. */
  function TrainSize(n: nat): (k: nat)
    ensures 5 * k <= 4 * n < 5 * k + 5
    ensures n >= 1 ==> k < n
    ensures n >= 2 ==> k >= 1
  {
    (4 * n) / 5
  }

  /** `image_files[:train_size]` (line 54) */
  function TrainPart(images: seq<string>): seq<string>
  {
    images[..TrainSize(|images|)]
  }

  /** `image_files[train_size:]` (line 55) */
  function ValPart(images: seq<string>): seq<string>
  {
    images[TrainSize(|images|)..]
  }

  /** The two parts are a prefix and the matching suffix of the list: they
      put it back together, and when the list holds each name once, every
      name lands in exactly one of them. */
  lemma SplitPartition(images: seq<string>)
    ensures TrainPart(images) + ValPart(images) == images
    ensures |ValPart(images)| == |images| - TrainSize(|images|)
    ensures Elems(TrainPart(images)) + Elems(ValPart(images)) == Elems(images)
    ensures Distinct(images) ==> Elems(TrainPart(images)) !! Elems(ValPart(images))
    ensures Distinct(images) ==> Distinct(TrainPart(images)) && Distinct(ValPart(images))
  {
    var k := TrainSize(|images|);
    var t, v := TrainPart(images), ValPart(images);
    assert t + v == images;
    forall x | x in images
      ensures x in t || x in v
    {
      var i :| 0 <= i < |images| && images[i] == x;
      if i < k {
        assert t[i] == x;
      } else {
        assert v[i - k] == x;
      }
    }
    if Distinct(images) {
      forall i, j | 0 <= i < |t| && 0 <= j < |v|
        ensures t[i] != v[j]
      {
        assert t[i] == images[i] && v[j] == images[k + j];
      }
    }
  }

  /** Exchanging two places of a list keeps its elements, and keeps them
      distinct. */
  lemma Swapped(s: seq<string>, i: nat, j: nat)
    requires i < |s| && j < |s|
    ensures multiset(s[i := s[j]][j := s[i]]) == multiset(s)
    ensures Distinct(s) ==> Distinct(s[i := s[j]][j := s[i]])
  {
    var t := s[i := s[j]][j := s[i]];
    if Distinct(s) {
      forall p, q | 0 <= p < q < |t|
        ensures t[p] != t[q]
      {
        var p' := if p == i then j else if p == j then i else p;
        var q' := if q == i then j else if q == j then i else q;
        assert t[p] == s[p'] && t[q] == s[q'];
      }
    }
  }

  /** `random.shuffle(items)`: for `i` from the last index down to 1, swap
      place `i` with a place `j` drawn from `0..i`. The `k`-th draw is
      `rng(k)`; the shuffle makes `|items| - 1` draws, starting at draw
      number `drawn`. Whatever the draws, the result is a permutation. */
  method Shuffle(items: seq<string>, rng: nat -> nat, drawn: nat)
    returns (shuffled: seq<string>, drawnAfter: nat)
    ensures multiset(shuffled) == multiset(items)
    ensures Distinct(items) ==> Distinct(shuffled)
    ensures drawnAfter == drawn + (if items == [] then 0 else |items| - 1)
  {
    shuffled, drawnAfter := items, drawn;
    var i := |items| - 1;
    while i >= 1
      invariant 0 <= i < |items| || (items == [] && i == -1)
      invariant |shuffled| == |items|
      invariant multiset(shuffled) == multiset(items)
      invariant Distinct(items) ==> Distinct(shuffled)
      invariant drawnAfter == drawn + (|items| - 1 - i)
      decreases i
    {
      var j := rng(drawnAfter) % (i + 1);
      drawnAfter := drawnAfter + 1;
      Swapped(shuffled, i, j);
      shuffled := shuffled[i := shuffled[j]][j := shuffled[i]];
      i := i - 1;
    }
  }

  /** The class folders `d + [c]` for the names in `folders`. */
  function Mirrored(d: Path, folders: seq<string>): set<Path>
  {
    set c | c in folders :: d + [c]
  }

  /** Mirroring one more folder adds its copy. */
  lemma MirroredNext(d: Path, folders: seq<string>, i: nat)
    requires i < |folders|
    ensures Mirrored(d, folders[..i + 1]) == Mirrored(d, folders[..i]) + {d + [folders[i]]}
    ensures forall c :: c in folders[..i + 1] <==> c in folders[..i] || c == folders[i]
  {
    assert folders[..i + 1] == folders[..i] + [folders[i]];
  }

  /** Lines 38-40: `os.makedirs(<tree>/<folder>, exist_ok=True)` for every
      class folder, in `train` and in `val`. It fails only where a class
      folder's place is taken by a file. */
  method MirrorClasses(fs: FileSystem, train: Path, val: Path, folders: seq<string>) returns (ok: bool)
    requires fs.Valid() && train in fs.dirs && val in fs.dirs
    modifies fs
    ensures fs.Valid() && fs.files == old(fs.files)
    ensures ok == forall c :: c in folders ==> train + [c] !in old(fs.files) && val + [c] !in old(fs.files)
    ensures ok ==> fs.dirs == old(fs.dirs) + Mirrored(train, folders) + Mirrored(val, folders)
  {
    ghost var dirs0, files0 := fs.dirs, fs.files;
    DirPrefixes(dirs0, files0, train);
    DirPrefixes(dirs0, files0, val);
    for i := 0 to |folders|
      invariant fs.Valid() && fs.files == files0
      invariant forall c :: c in folders[..i] ==> train + [c] !in files0 && val + [c] !in files0
      invariant fs.dirs == dirs0 + Mirrored(train, folders[..i]) + Mirrored(val, folders[..i])
    {
      var folder := folders[i];
      MirroredNext(train, folders, i);
      MirroredNext(val, folders, i);
      PrefixesOfChild(train, folder);
      PrefixesOfChild(val, folder);
      NoFileOnChild(files0, train, folder);
      NoFileOnChild(files0, val, folder);
      ok := fs.MakeDirs(train + [folder], true);
      if !ok {
        return;
      }
      ok := fs.MakeDirs(val + [folder], true);
      if !ok {
        return;
      }
    }
    ok := true;
    assert folders[..|folders|] == folders;
  }

  /** What copying the entries `names` of `srcDir` into `dstDir`, in order,
      writes: each `dstDir + [x]` gets the bytes of the file `srcDir + [x]`.
      (A run that meets a name that is not a file stops there.) */
  function CopyMap(files: map<Path, Bytes>, srcDir: Path, dstDir: Path, names: seq<string>): map<Path, Bytes>
  {
    if names == [] then map[]
    else
      var x := names[|names| - 1];
      var m := CopyMap(files, srcDir, dstDir, names[..|names| - 1]);
      if srcDir + [x] in files then m[dstDir + [x] := files[srcDir + [x]]] else m
  }

  /** Copying one more entry adds exactly its target. */
  lemma CopyMapStep(files: map<Path, Bytes>, srcDir: Path, dstDir: Path, names: seq<string>, x: string)
    requires srcDir + [x] in files
    ensures CopyMap(files, srcDir, dstDir, names + [x])
            == CopyMap(files, srcDir, dstDir, names)[dstDir + [x] := files[srcDir + [x]]]
  {
    assert (names + [x])[..|names|] == names;
  }

  /** Each target is an entry of `dstDir` named in `names`, holding the
      bytes of the file of the same name in `srcDir`. */
  lemma {:induction false} CopyMapKeys(files: map<Path, Bytes>, srcDir: Path, dstDir: Path, names: seq<string>, p: Path)
    requires p in CopyMap(files, srcDir, dstDir, names)
    ensures |p| == |dstDir| + 1 && p == dstDir + [p[|dstDir|]]
    ensures p[|dstDir|] in names && srcDir + [p[|dstDir|]] in files
    ensures CopyMap(files, srcDir, dstDir, names)[p] == files[srcDir + [p[|dstDir|]]]
  {
    var x := names[|names| - 1];
    var init := names[..|names| - 1];
    if srcDir + [x] in files && p == dstDir + [x] {
      assert p[|dstDir|] == x;
    } else {
      CopyMapKeys(files, srcDir, dstDir, init, p);
    }
  }

  /** Every named entry of `srcDir` that is a file has its copy. */
  lemma {:induction false} CopyMapHas(files: map<Path, Bytes>, srcDir: Path, dstDir: Path, names: seq<string>, x: string)
    requires x in names && srcDir + [x] in files
    ensures dstDir + [x] in CopyMap(files, srcDir, dstDir, names)
  {
    var init := names[..|names| - 1];
    if x != names[|names| - 1] {
      assert x in init by {
        var k :| 0 <= k < |names| && names[k] == x;
        assert init[k] == x;
      }
      CopyMapHas(files, srcDir, dstDir, init, x);
    }
  }

  /** A copy plan reads only its sources. */
  lemma {:induction false} CopyMapSources(f: map<Path, Bytes>, g: map<Path, Bytes>, srcDir: Path, dstDir: Path, names: seq<string>)
    requires forall x :: x in names ==> (srcDir + [x] in f <==> srcDir + [x] in g)
    requires forall x :: x in names && srcDir + [x] in f && srcDir + [x] in g ==> f[srcDir + [x]] == g[srcDir + [x]]
    ensures CopyMap(f, srcDir, dstDir, names) == CopyMap(g, srcDir, dstDir, names)
  {
    if names != [] {
      var init := names[..|names| - 1];
      assert forall x :: x in init ==> x in names;
      CopyMapSources(f, g, srcDir, dstDir, init);
    }
  }

  lemma MergeUpdate(a: map<Path, Bytes>, b: map<Path, Bytes>, k: Path, v: Bytes)
    ensures a + b[k := v] == (a + b)[k := v]
  {
  }

  /** Trees that agree under the dataset copy the same bytes out of it. */
  lemma CopyMapAgree(f: map<Path, Bytes>, g: map<Path, Bytes>, dataset: Path, c: string, dstDir: Path, names: seq<string>)
    requires forall p :: Under(p, dataset) ==> (p in f <==> p in g)
    requires forall p :: Under(p, dataset) && p in f && p in g ==> f[p] == g[p]
    ensures CopyMap(f, dataset + [c], dstDir, names) == CopyMap(g, dataset + [c], dstDir, names)
  {
    forall x
      ensures Under(dataset + [c] + [x], dataset)
    {
      assert (dataset + [c] + [x])[..|dataset|] == dataset;
    }
    CopyMapSources(f, g, dataset + [c], dstDir, names);
  }

  /** Lines 58-59 (or 61-62) for one class: `shutil.copy` of every listed
      image from the class folder into its folder in one tree. It fails,
      at the first such image, when an image name is not a file. */
  method CopyImages(fs: FileSystem, srcDir: Path, dstDir: Path, images: seq<string>) returns (ok: bool)
    requires fs.Valid() && dstDir in fs.dirs && srcDir != dstDir
    requires forall x :: x in images ==> dstDir + [x] !in fs.dirs
    modifies fs
    ensures fs.Valid() && fs.dirs == old(fs.dirs)
    ensures ok == forall x :: x in images ==> srcDir + [x] in old(fs.files)
    ensures ok ==> fs.files == old(fs.files) + CopyMap(old(fs.files), srcDir, dstDir, images)
  {
    ghost var files0 := fs.files;
    for i := 0 to |images|
      invariant fs.Valid() && fs.dirs == old(fs.dirs)
      invariant forall x :: x in images[..i] ==> srcDir + [x] in files0
      invariant fs.files == files0 + CopyMap(files0, srcDir, dstDir, images[..i])
    {
      var image := images[i];
      assert images[..i + 1] == images[..i] + [image];
      var src, dst := srcDir + [image], dstDir + [image];
      ghost var written := CopyMap(files0, srcDir, dstDir, images[..i]);
      if src in written {
        CopyMapKeys(files0, srcDir, dstDir, images[..i], src);
        EntriesDiffer(srcDir, dstDir, image, src[|dstDir|]);
      }
      assert Parent(dst) == dstDir;
      ok := fs.Copy(src, dst);
      if !ok {
        return;
      }
      assert fs.files == (files0 + written)[dst := files0[src]];
      CopyMapStep(files0, srcDir, dstDir, images[..i], image);
      MergeUpdate(files0, written, dst, files0[src]);
    }
    ok := true;
    assert images[..|images|] == images;
  }

  /** The image names listed in `d`. */
  function ImageNamesIn(dirs: set<Path>, files: map<Path, Bytes>, d: Path): set<string>
  {
    set x | x in ChildNames(dirs, files, d) && IsImageName(x)
  }

  /** Every image name listed in the class folder `c` is a file. */
  ghost predicate ClassPresent(dirs: set<Path>, files: map<Path, Bytes>, dataset: Path, c: string)
  {
    forall x :: x in ImageNamesIn(dirs, files, dataset + [c]) ==> dataset + [c] + [x] in files
  }

  /** Lines 44-62 for one class folder: list it, keep the image names,
      shuffle them, copy the first `TrainSize` of them into the class's
      `train` folder and the rest into its `val` folder. The shuffled list
      is returned. The class folder must be listable and every image name
      in it a file; the class's two target folders exist and hold no
      directories. */
  method SplitClass(fs: FileSystem, dataset: Path, train: Path, val: Path, folder: string,
                    rng: nat -> nat, drawn: nat)
    returns (ok: bool, shuffled: seq<string>, drawnAfter: nat)
    requires fs.Valid() && dataset != train && dataset != val
    requires train + [folder] in fs.dirs && val + [folder] in fs.dirs
    requires forall q :: q in fs.dirs ==> !Below(q, train + [folder]) && !Below(q, val + [folder])
    modifies fs
    ensures fs.Valid() && fs.dirs == old(fs.dirs)
    ensures ok == (dataset + [folder] in old(fs.dirs) && ClassPresent(old(fs.dirs), old(fs.files), dataset, folder))
    ensures ok ==> Distinct(shuffled) && Elems(shuffled) == ImageNamesIn(old(fs.dirs), old(fs.files), dataset + [folder])
    ensures ok ==> drawnAfter == drawn + (if shuffled == [] then 0 else |shuffled| - 1)
    ensures ok ==>
              fs.files == old(fs.files)
                + CopyMap(old(fs.files), dataset + [folder], train + [folder], TrainPart(shuffled))
                + CopyMap(old(fs.files), dataset + [folder], val + [folder], ValPart(shuffled))
  {
    ghost var dirs0, files0 := fs.dirs, fs.files;
    var folderPath := dataset + [folder];
    var entries;
    shuffled, drawnAfter := [], drawn;
    ok, entries := fs.ListDir(folderPath);
    if !ok {
      return;
    }
    var imageFiles := ImageFiles(entries);
    ImageFilesDistinct(entries);
    assert Elems(imageFiles) == ImageNamesIn(dirs0, files0, folderPath);
    shuffled, drawnAfter := Shuffle(imageFiles, rng, drawn);
    assert Elems(shuffled) == Elems(imageFiles) by {
      forall x ensures x in shuffled <==> x in imageFiles {
        assert x in shuffled <==> x in multiset(shuffled);
        assert x in imageFiles <==> x in multiset(imageFiles);
      }
    }
    var trainImages, valImages := TrainPart(shuffled), ValPart(shuffled);
    SplitPartition(shuffled);
    EntriesDiffer(dataset, train, folder, folder);
    EntriesDiffer(dataset, val, folder, folder);
    forall x | x in trainImages
      ensures train + [folder] + [x] !in fs.dirs
    {
      assert Below(train + [folder] + [x], train + [folder]);
    }
    ok := CopyImages(fs, folderPath, train + [folder], trainImages);
    if !ok {
      return;
    }
    ghost var files1 := fs.files;
    forall x | x in valImages
      ensures val + [folder] + [x] !in fs.dirs
    {
      assert Below(val + [folder] + [x], val + [folder]);
    }
    ghost var written := CopyMap(files0, folderPath, train + [folder], trainImages);
    forall x | x in valImages
      ensures folderPath + [x] !in written
    {
      if folderPath + [x] in written {
        CopyMapKeys(files0, folderPath, train + [folder], trainImages, folderPath + [x]);
      }
    }
    ok := CopyImages(fs, folderPath, val + [folder], valImages);
    if ok {
      CopyMapSources(files1, files0, folderPath, val + [folder], valImages);
    }
  }

  function TrainDir(output: Path): Path
  {
    output + ["train"]
  }

  function ValDir(output: Path): Path
  {
    output + ["val"]
  }

  /** The tree after lines 26-34: `train` and `val` exist and are empty. */
  function PreparedDirs(dirs: set<Path>, output: Path): set<Path>
  {
    PruneDirs(PruneDirs(dirs, TrainDir(output)), ValDir(output))
    + Prefixes(TrainDir(output)) + Prefixes(ValDir(output))
  }

  function PreparedFiles(files: map<Path, Bytes>, output: Path): map<Path, Bytes>
  {
    PruneFiles(PruneFiles(files, TrainDir(output)), ValDir(output))
  }

  /** No directory above `train` lies below `val`, and the other way round:
      the two have the same length. */
  lemma SiblingTrees(output: Path)
    ensures forall p :: p in Prefixes(TrainDir(output)) ==> !Below(p, ValDir(output))
    ensures forall k :: 0 <= k <= |ValDir(output)| ==> !Below(ValDir(output)[..k], TrainDir(output))
  {
  }

  /** Lines 26-34: prepare `train`, then `val`. */
  method PrepareOutput(fs: FileSystem, output: Path) returns (ok: bool)
    requires fs.Valid()
    modifies fs
    ensures fs.Valid()
    ensures ok == (NoFileOnPath(old(fs.files), TrainDir(output)) && NoFileOnPath(old(fs.files), ValDir(output)))
    ensures ok ==> fs.dirs == PreparedDirs(old(fs.dirs), output)
    ensures ok ==> fs.files == PreparedFiles(old(fs.files), output)
  {
    ghost var dirs0, files0 := fs.dirs, fs.files;
    var trainDir, valDir := TrainDir(output), ValDir(output);
    SiblingTrees(output);
    ok := PrepareDir(fs, trainDir);
    if !ok {
      return;
    }
    assert NoFileOnPath(fs.files, valDir) <==> NoFileOnPath(files0, valDir);
    ok := PrepareDir(fs, valDir);
    if ok {
      assert PruneDirs(PruneDirs(dirs0, trainDir) + Prefixes(trainDir), valDir)
             == PruneDirs(PruneDirs(dirs0, trainDir), valDir) + Prefixes(trainDir);
    }
  }

  /** The class folders of the dataset: its entries that are directories. */
  function ClassNames(dirs: set<Path>, files: map<Path, Bytes>, dataset: Path): set<string>
  {
    set c | c in ChildNames(dirs, files, dataset) && dataset + [c] in dirs
  }

  /** Every name of `names` is a file of `d`. */
  ghost predicate AllPresent(files: map<Path, Bytes>, d: Path, names: seq<string>)
  {
    forall x :: x in names ==> d + [x] in files
  }

  /** What the copy loops of lines 58-62 write, class by class in the order
      `classes`: the train part of each class's shuffled list into
      `train/<class>`, the rest into `val/<class>`, each with the bytes of
      the image it copies. */
  function PlacedAlong(files: map<Path, Bytes>, dataset: Path, output: Path,
                       classes: seq<string>, splits: map<string, seq<string>>): map<Path, Bytes>
    requires forall c :: c in classes ==> c in splits
  {
    if classes == [] then map[]
    else
      var c := classes[|classes| - 1];
      PlacedAlong(files, dataset, output, classes[..|classes| - 1], splits)
      + CopyMap(files, dataset + [c], TrainDir(output) + [c], TrainPart(splits[c]))
      + CopyMap(files, dataset + [c], ValDir(output) + [c], ValPart(splits[c]))
  }

  /** The two trees after the split: prepared, mirrored, copied into. */
  function SplitDirs(dirs: set<Path>, output: Path, classes: seq<string>): set<Path>
  {
    PreparedDirs(dirs, output) + Mirrored(TrainDir(output), classes) + Mirrored(ValDir(output), classes)
  }

  function SplitFiles(files: map<Path, Bytes>, dataset: Path, output: Path,
                      classes: seq<string>, splits: map<string, seq<string>>): map<Path, Bytes>
    requires forall c :: c in classes ==> c in splits
  {
    PreparedFiles(files, output) + PlacedAlong(files, dataset, output, classes, splits)
  }


  /** Two trees agree on everything under `d`. */
  ghost predicate SameUnder(dirs: set<Path>, files: map<Path, Bytes>,
                            dirs0: set<Path>, files0: map<Path, Bytes>, d: Path)
  {
    forall p :: Under(p, d) ==>
      && (p in dirs <==> p in dirs0)
      && (p in files <==> p in files0)
      && (p in files && p in files0 ==> files[p] == files0[p])
  }

  /** Trees that agree under `d` list the same entries in `d`. */
  lemma SameUnderChildNames(dirs: set<Path>, files: map<Path, Bytes>,
                            dirs0: set<Path>, files0: map<Path, Bytes>, d: Path)
    requires SameUnder(dirs, files, dirs0, files0, d)
    ensures ChildNames(dirs, files, d) == ChildNames(dirs0, files0, d)
  {
    forall x
      ensures x in ChildNames(dirs, files, d) <==> x in ChildNames(dirs0, files0, d)
    {
      ChildNamesIff(dirs, files, d, x);
      ChildNamesIff(dirs0, files0, d, x);
      assert Under(d + [x], d);
    }
  }

  /** A path under the dataset is never under the output folder, nor one of
      the directories above `train` or `val`, when neither folder lies
      under the other. */
  lemma Apart(p: Path, dataset: Path, output: Path)
    requires Under(p, dataset) && !Under(dataset, output) && !Under(output, dataset)
    ensures !Under(p, output)
    ensures p !in Prefixes(TrainDir(output)) && p !in Prefixes(ValDir(output))
  {
    if Under(p, output) {
      UnderBoth(p, dataset, output);
    }
  }

  /** Everything the copy loops write lies two levels below `train` or `val`. */
  lemma {:induction false} PlacedAlongKeys(files: map<Path, Bytes>, dataset: Path, output: Path,
                                           classes: seq<string>, splits: map<string, seq<string>>, p: Path)
    requires forall c :: c in classes ==> c in splits
    requires p in PlacedAlong(files, dataset, output, classes, splits)
    ensures Below(p, TrainDir(output)) || Below(p, ValDir(output))
    ensures |p| == |output| + 3
  {
    var init := classes[..|classes| - 1];
    var c := classes[|classes| - 1];
    if p in PlacedAlong(files, dataset, output, init, splits) {
      PlacedAlongKeys(files, dataset, output, init, splits, p);
    } else if p in CopyMap(files, dataset + [c], TrainDir(output) + [c], TrainPart(splits[c])) {
      CopyMapKeys(files, dataset + [c], TrainDir(output) + [c], TrainPart(splits[c]), p);
      assert p[..|TrainDir(output)|] == TrainDir(output);
    } else {
      CopyMapKeys(files, dataset + [c], ValDir(output) + [c], ValPart(splits[c]), p);
      assert p[..|ValDir(output)|] == ValDir(output);
    }
  }

  /** The copies depend only on the lists of the classes in `classes`. */
  lemma {:induction false} PlacedAlongFrame(files: map<Path, Bytes>, dataset: Path, output: Path, classes: seq<string>,
                                            s1: map<string, seq<string>>, s2: map<string, seq<string>>)
    requires forall c :: c in classes ==> c in s1 && c in s2 && s1[c] == s2[c]
    ensures PlacedAlong(files, dataset, output, classes, s1) == PlacedAlong(files, dataset, output, classes, s2)
  {
    if classes != [] {
      PlacedAlongFrame(files, dataset, output, classes[..|classes| - 1], s1, s2);
    }
  }

  /** The copies depend only on the bytes of the dataset's images. */
  lemma {:induction false} PlacedAlongSources(f: map<Path, Bytes>, g: map<Path, Bytes>, dataset: Path, output: Path,
                                              classes: seq<string>, splits: map<string, seq<string>>)
    requires forall c :: c in classes ==> c in splits
    requires forall p :: Under(p, dataset) ==> (p in f <==> p in g)
    requires forall p :: Under(p, dataset) && p in f && p in g ==> f[p] == g[p]
    ensures PlacedAlong(f, dataset, output, classes, splits) == PlacedAlong(g, dataset, output, classes, splits)
  {
    if classes != [] {
      var c := classes[|classes| - 1];
      PlacedAlongSources(f, g, dataset, output, classes[..|classes| - 1], splits);
      CopyMapAgree(f, g, dataset, c, TrainDir(output) + [c], TrainPart(splits[c]));
      CopyMapAgree(f, g, dataset, c, ValDir(output) + [c], ValPart(splits[c]));
    }
  }

  /** The copies of one more class follow those of the classes before it. */
  lemma PlacedAlongNext(files: map<Path, Bytes>, dataset: Path, output: Path, classes: seq<string>, i: nat,
                        splits: map<string, seq<string>>, s: seq<string>)
    requires i < |classes| && classes[i] !in classes[..i]
    requires forall c :: c in classes[..i] ==> c in splits
    ensures PlacedAlong(files, dataset, output, classes[..i + 1], splits[classes[i] := s])
            == PlacedAlong(files, dataset, output, classes[..i], splits)
               + CopyMap(files, dataset + [classes[i]], TrainDir(output) + [classes[i]], TrainPart(s))
               + CopyMap(files, dataset + [classes[i]], ValDir(output) + [classes[i]], ValPart(s))
  {
    var c := classes[i];
    assert classes[..i + 1] == classes[..i] + [c];
    assert classes[..i + 1][..i] == classes[..i];
    PlacedAlongFrame(files, dataset, output, classes[..i], splits, splits[c := s]);
  }

  /** The copy loops write nothing under the dataset. */
  lemma PlacedAlongApart(files: map<Path, Bytes>, dataset: Path, output: Path,
                         classes: seq<string>, splits: map<string, seq<string>>)
    requires forall c :: c in classes ==> c in splits
    requires !Under(dataset, output) && !Under(output, dataset)
    ensures forall p :: Under(p, dataset) ==> p !in PlacedAlong(files, dataset, output, classes, splits)
  {
    forall p | Under(p, dataset)
      ensures p !in PlacedAlong(files, dataset, output, classes, splits)
    {
      if p in PlacedAlong(files, dataset, output, classes, splits) {
        PlacedAlongKeys(files, dataset, output, classes, splits, p);
        Apart(p, dataset, output);
      }
    }
  }

  /** Adding entries outside the dataset leaves every class folder as it was. */
  lemma SameUnderAfterPlacing(dirs: set<Path>, files: map<Path, Bytes>, placed: map<Path, Bytes>,
                              dataset: Path, c: string)
    requires forall p :: Under(p, dataset) ==> p !in placed
    ensures SameUnder(dirs, files + placed, dirs, files, dataset + [c])
  {
    forall p | Under(p, dataset + [c])
      ensures Under(p, dataset)
    {
      assert p[..|dataset|] == p[..|dataset| + 1][..|dataset|];
    }
  }

  lemma MergeAssoc(a: map<Path, Bytes>, b: map<Path, Bytes>, c: map<Path, Bytes>, d: map<Path, Bytes>)
    ensures a + b + c + d == a + (b + c + d)
  {
  }

  /** The state the class mirroring leaves for the classes `classes`: their
      folders exist in the dataset and in both trees, and both trees hold no
      directory below the class folders. */
  ghost predicate TargetsReady(dirs: set<Path>, dataset: Path, output: Path, classes: seq<string>)
  {
    && (forall c :: c in classes ==> dataset + [c] in dirs)
    && Mirrored(TrainDir(output), classes) + Mirrored(ValDir(output), classes) <= dirs
    && (forall q :: q in dirs && (Below(q, TrainDir(output)) || Below(q, ValDir(output))) ==> |q| == |output| + 2)
  }

  /** What the copies of one class need of the tree. */
  lemma ClassTargets(dirs: set<Path>, dataset: Path, output: Path, classes: seq<string>, c: string)
    requires TargetsReady(dirs, dataset, output, classes) && c in classes
    ensures dataset + [c] in dirs
    ensures TrainDir(output) + [c] in dirs && ValDir(output) + [c] in dirs
    ensures forall q :: q in dirs ==> !Below(q, TrainDir(output) + [c]) && !Below(q, ValDir(output) + [c])
  {
    assert TrainDir(output) + [c] in Mirrored(TrainDir(output), classes);
    assert ValDir(output) + [c] in Mirrored(ValDir(output), classes);
    forall q | q in dirs
      ensures !Below(q, TrainDir(output) + [c]) && !Below(q, ValDir(output) + [c])
    {
      if Below(q, TrainDir(output) + [c]) {
        assert Below(q, TrainDir(output));
      }
      if Below(q, ValDir(output) + [c]) {
        assert Below(q, ValDir(output));
      }
    }
  }

  /** The copies made so far leave every class folder as it was. */
  lemma ClassFolderUntouched(dirs0: set<Path>, files0: map<Path, Bytes>, files1: map<Path, Bytes>,
                             dataset: Path, output: Path, done: seq<string>, splits: map<string, seq<string>>,
                             c: string)
    requires forall d :: d in done ==> d in splits
    requires !Under(dataset, output) && !Under(output, dataset)
    requires files1 == files0 + PlacedAlong(files0, dataset, output, done, splits)
    ensures SameUnder(dirs0, files1, dirs0, files0, dataset + [c])
  {
    PlacedAlongApart(files0, dataset, output, done, splits);
    SameUnderAfterPlacing(dirs0, files0, PlacedAlong(files0, dataset, output, done, splits), dataset, c);
  }

  /** After the classes `done`: each has its shuffled list, which holds
      every image name of its folder once, each of them a file. */
  ghost predicate ListsSoFar(dirs0: set<Path>, files0: map<Path, Bytes>, dataset: Path,
                             done: seq<string>, splits: map<string, seq<string>>)
  {
    && (forall c :: c in done ==> c in splits)
    && splits.Keys == Elems(done)
    && (forall c :: c in splits ==>
          Distinct(splits[c]) && Elems(splits[c]) == ImageNamesIn(dirs0, files0, dataset + [c]))
    && (forall c :: c in splits ==> AllPresent(files0, dataset + [c], splits[c]))
  }

  /** ... and the tree holds the copies of those classes on top of the
      tree before. */
  ghost predicate SplitSoFar(dirs0: set<Path>, files0: map<Path, Bytes>, dataset: Path, output: Path,
                             done: seq<string>, splits: map<string, seq<string>>, files: map<Path, Bytes>)
  {
    && ListsSoFar(dirs0, files0, dataset, done, splits)
    && files == files0 + PlacedAlong(files0, dataset, output, done, splits)
  }

  /** Trees that agree under a class folder list the same images in it,
      and the images are files in one exactly when they are in the other. */
  lemma SameUnderClass(dirs: set<Path>, files: map<Path, Bytes>,
                       dirs0: set<Path>, files0: map<Path, Bytes>, dataset: Path, c: string)
    requires SameUnder(dirs, files, dirs0, files0, dataset + [c])
    ensures ImageNamesIn(dirs, files, dataset + [c]) == ImageNamesIn(dirs0, files0, dataset + [c])
    ensures ClassPresent(dirs, files, dataset, c) <==> ClassPresent(dirs0, files0, dataset, c)
    ensures forall x :: dataset + [c] + [x] in files <==> dataset + [c] + [x] in files0
  {
    SameUnderChildNames(dirs, files, dirs0, files0, dataset + [c]);
    forall x
      ensures Under(dataset + [c] + [x], dataset + [c])
    {
      assert (dataset + [c] + [x])[..|dataset| + 1] == dataset + [c];
    }
  }

  /** The loop state after one more class, given the class's shuffled list
      and the copies of its two parts. */
  lemma SplitSoFarNext(dirs0: set<Path>, files0: map<Path, Bytes>, dataset: Path, output: Path,
                       classes: seq<string>, i: nat, splits: map<string, seq<string>>, shuffled: seq<string>,
                       files1: map<Path, Bytes>, files2: map<Path, Bytes>)
    requires i < |classes| && classes[i] !in classes[..i]
    requires SplitSoFar(dirs0, files0, dataset, output, classes[..i], splits, files1)
    requires Distinct(shuffled) && Elems(shuffled) == ImageNamesIn(dirs0, files0, dataset + [classes[i]])
    requires AllPresent(files0, dataset + [classes[i]], shuffled)
    requires files2 == files1
                       + CopyMap(files0, dataset + [classes[i]], TrainDir(output) + [classes[i]], TrainPart(shuffled))
                       + CopyMap(files0, dataset + [classes[i]], ValDir(output) + [classes[i]], ValPart(shuffled))
    ensures SplitSoFar(dirs0, files0, dataset, output, classes[..i + 1], splits[classes[i] := shuffled], files2)
  {
    var after := splits[classes[i] := shuffled];
    ListsNext(dirs0, files0, dataset, classes, i, splits, shuffled, after);
    FilesNext(files0, files1, files2, dataset, output, classes, i, splits, shuffled, after);
  }

  /** One more class gets its list. */
  lemma ListsNext(dirs0: set<Path>, files0: map<Path, Bytes>, dataset: Path,
                  classes: seq<string>, i: nat, splits: map<string, seq<string>>, shuffled: seq<string>,
                  after: map<string, seq<string>>)
    requires i < |classes|
    requires ListsSoFar(dirs0, files0, dataset, classes[..i], splits)
    requires Distinct(shuffled) && Elems(shuffled) == ImageNamesIn(dirs0, files0, dataset + [classes[i]])
    requires AllPresent(files0, dataset + [classes[i]], shuffled)
    requires after == splits[classes[i] := shuffled]
    ensures ListsSoFar(dirs0, files0, dataset, classes[..i + 1], after)
  {
    var c := classes[i];
    ElemsPrefix(classes, i);
    assert after.Keys == Elems(classes[..i + 1]);
    forall d | d in after
      ensures Distinct(after[d]) && Elems(after[d]) == ImageNamesIn(dirs0, files0, dataset + [d])
      ensures AllPresent(files0, dataset + [d], after[d])
    {
      if d != c {
        assert after[d] == splits[d];
      }
    }
  }

  /** The tree after one more class holds the copies of the classes so far. */
  lemma FilesNext(files0: map<Path, Bytes>, files1: map<Path, Bytes>, files2: map<Path, Bytes>,
                  dataset: Path, output: Path, classes: seq<string>, i: nat,
                  splits: map<string, seq<string>>, shuffled: seq<string>, after: map<string, seq<string>>)
    requires i < |classes| && classes[i] !in classes[..i]
    requires forall c :: c in classes[..i] ==> c in splits
    requires after == splits[classes[i] := shuffled]
    requires files1 == files0 + PlacedAlong(files0, dataset, output, classes[..i], splits)
    requires files2 == files1
                       + CopyMap(files0, dataset + [classes[i]], TrainDir(output) + [classes[i]], TrainPart(shuffled))
                       + CopyMap(files0, dataset + [classes[i]], ValDir(output) + [classes[i]], ValPart(shuffled))
    ensures forall c :: c in classes[..i + 1] ==> c in after
    ensures files2 == files0 + PlacedAlong(files0, dataset, output, classes[..i + 1], after)
  {
    var c := classes[i];
    PlacedAlongNext(files0, dataset, output, classes, i, splits, shuffled);
    MergeAssoc(files0, PlacedAlong(files0, dataset, output, classes[..i], splits),
               CopyMap(files0, dataset + [c], TrainDir(output) + [c], TrainPart(shuffled)),
               CopyMap(files0, dataset + [c], ValDir(output) + [c], ValPart(shuffled)));
  }

  /** One round of the per-class loop of lines 43-62: the class
      `classes[i]`, after the classes before it. */
  method SplitNextClass(fs: FileSystem, dataset: Path, output: Path, classes: seq<string>, i: nat,
                        splits: map<string, seq<string>>, rng: nat -> nat, drawn: nat,
                        ghost dirs0: set<Path>, ghost files0: map<Path, Bytes>)
    returns (ok: bool, splitsAfter: map<string, seq<string>>, drawnAfter: nat)
    requires fs.Valid() && fs.dirs == dirs0 && !Under(dataset, output) && !Under(output, dataset)
    requires Distinct(classes) && i < |classes|
    requires TargetsReady(dirs0, dataset, output, classes)
    requires SplitSoFar(dirs0, files0, dataset, output, classes[..i], splits, fs.files)
    modifies fs
    ensures fs.Valid() && fs.dirs == dirs0
    ensures ok == ClassPresent(dirs0, files0, dataset, classes[i])
    ensures ok ==> SplitSoFar(dirs0, files0, dataset, output, classes[..i + 1], splitsAfter, fs.files)
  {
    var train, val := TrainDir(output), ValDir(output);
    var folder := classes[i];
    DistinctPrefix(classes, i);
    ghost var files1 := fs.files;
    ClassFolderUntouched(dirs0, files0, files1, dataset, output, classes[..i], splits, folder);
    SameUnderClass(dirs0, files1, dirs0, files0, dataset, folder);
    ClassTargets(dirs0, dataset, output, classes, folder);
    var shuffled;
    splitsAfter := splits;
    ok, shuffled, drawnAfter := SplitClass(fs, dataset, train, val, folder, rng, drawn);
    if !ok {
      return;
    }
    CopyMapSources(files1, files0, dataset + [folder], train + [folder], TrainPart(shuffled));
    CopyMapSources(files1, files0, dataset + [folder], val + [folder], ValPart(shuffled));
    SplitSoFarNext(dirs0, files0, dataset, output, classes, i, splits, shuffled, files1, fs.files);
    splitsAfter := splits[folder := shuffled];
  }

  /** The per-class loop of lines 43-62, from the state the mirroring left.
      The random draws run on from one class to the next. The loop stops
      at the first class with an image name that is not a file. */
  method SplitClasses(fs: FileSystem, dataset: Path, output: Path, classes: seq<string>, rng: nat -> nat)
    returns (ok: bool, splits: map<string, seq<string>>)
    requires fs.Valid() && !Under(dataset, output) && !Under(output, dataset)
    requires Distinct(classes)
    requires TargetsReady(fs.dirs, dataset, output, classes)
    modifies fs
    ensures fs.Valid() && fs.dirs == old(fs.dirs)
    ensures ok == forall c :: c in classes ==> ClassPresent(old(fs.dirs), old(fs.files), dataset, c)
    ensures ok ==> SplitSoFar(old(fs.dirs), old(fs.files), dataset, output, classes, splits, fs.files)
  {
    ghost var dirs0, files0 := fs.dirs, fs.files;
    splits := map[];
    var drawn := 0;
    for i := 0 to |classes|
      invariant fs.Valid() && fs.dirs == dirs0
      invariant forall c :: c in classes[..i] ==> ClassPresent(dirs0, files0, dataset, c)
      invariant SplitSoFar(dirs0, files0, dataset, output, classes[..i], splits, fs.files)
    {
      assert forall c :: c in classes[..i + 1] ==> c in classes[..i] || c == classes[i];
      ok, splits, drawn := SplitNextClass(fs, dataset, output, classes, i, splits, rng, drawn, dirs0, files0);
      if !ok {
        return;
      }
    }
    ok := true;
    assert classes[..|classes|] == classes;
  }
  /** The run can go through: neither `train` nor `val` nor a directory
      above them is a file, the dataset is a directory, and every image
      name listed in a class folder is a file. */
  ghost predicate Feasible(dirs: set<Path>, files: map<Path, Bytes>, dataset: Path, output: Path)
  {
    && NoFileOnPath(files, TrainDir(output))
    && NoFileOnPath(files, ValDir(output))
    && dataset in dirs
    && forall c :: c in ClassNames(dirs, files, dataset) ==> ClassPresent(dirs, files, dataset, c)
  }

  /** In a tree, the images of a class folder are all files exactly when the
      folder holds no directory with an image name: `shutil.copy` refuses
      only those. */
  lemma ClassPresentIff(dirs: set<Path>, files: map<Path, Bytes>, dataset: Path, c: string)
    requires WellFormed(dirs, files)
    ensures ClassPresent(dirs, files, dataset, c)
            <==> forall x :: dataset + [c] + [x] in dirs ==> !IsImageName(x)
  {
    var d := dataset + [c];
    forall x
      ensures x in ImageNamesIn(dirs, files, d) <==> (d + [x] in dirs || d + [x] in files) && IsImageName(x)
    {
      ChildNamesIff(dirs, files, d, x);
    }
  }

  /** A path under the dataset is neither in nor above the two trees, and is
      none of the class folders made in them. */
  lemma ApartFromTrees(p: Path, dataset: Path, output: Path, folders: seq<string>)
    requires Under(p, dataset) && !Under(dataset, output) && !Under(output, dataset)
    ensures !Below(p, TrainDir(output)) && !Below(p, ValDir(output))
    ensures p !in Prefixes(TrainDir(output)) && p !in Prefixes(ValDir(output))
    ensures p !in Mirrored(TrainDir(output), folders) && p !in Mirrored(ValDir(output), folders)
  {
    Apart(p, dataset, output);
    assert Under(output, output);
    forall c | c in folders
      ensures p != TrainDir(output) + [c] && p != ValDir(output) + [c]
    {
      assert (TrainDir(output) + [c])[..|output|] == output;
      assert (ValDir(output) + [c])[..|output|] == output;
    }
  }

  /** Preparing the two trees and mirroring the classes into them leaves the
      dataset as it was. */
  lemma DatasetUntouched(dirs: set<Path>, files: map<Path, Bytes>, dataset: Path, output: Path, folders: seq<string>)
    requires !Under(dataset, output) && !Under(output, dataset)
    ensures SameUnder(PreparedDirs(dirs, output) + Mirrored(TrainDir(output), folders) + Mirrored(ValDir(output), folders),
                      PreparedFiles(files, output), dirs, files, dataset)
  {
    forall p | Under(p, dataset)
      ensures !Below(p, TrainDir(output)) && !Below(p, ValDir(output))
      ensures p !in Prefixes(TrainDir(output)) && p !in Prefixes(ValDir(output))
      ensures p !in Mirrored(TrainDir(output), folders) && p !in Mirrored(ValDir(output), folders)
    {
      ApartFromTrees(p, dataset, output, folders);
    }
  }

  /** Trees that agree under the dataset agree under each class folder. */
  lemma SameUnderNarrow(dirs: set<Path>, files: map<Path, Bytes>,
                        dirs0: set<Path>, files0: map<Path, Bytes>, dataset: Path, c: string)
    requires SameUnder(dirs, files, dirs0, files0, dataset)
    ensures SameUnder(dirs, files, dirs0, files0, dataset + [c])
  {
    forall p | Under(p, dataset + [c])
      ensures Under(p, dataset)
    {
      assert p[..|dataset|] == p[..|dataset| + 1][..|dataset|];
    }
  }

  /** The per-class lists mean the same in trees that agree under the dataset. */
  lemma ListsSame(dirs: set<Path>, files: map<Path, Bytes>, dirs0: set<Path>, files0: map<Path, Bytes>,
                  dataset: Path, done: seq<string>, splits: map<string, seq<string>>)
    requires SameUnder(dirs, files, dirs0, files0, dataset)
    requires ListsSoFar(dirs, files, dataset, done, splits)
    ensures ListsSoFar(dirs0, files0, dataset, done, splits)
  {
    forall c | c in splits
      ensures ImageNamesIn(dirs, files, dataset + [c]) == ImageNamesIn(dirs0, files0, dataset + [c])
      ensures AllPresent(files, dataset + [c], splits[c]) <==> AllPresent(files0, dataset + [c], splits[c])
    {
      SameUnderNarrow(dirs, files, dirs0, files0, dataset, c);
      SameUnderClass(dirs, files, dirs0, files0, dataset, c);
    }
  }

  /** Whether a class folder's images are all files is the same in trees
      that agree under the dataset. */
  lemma PresentSame(dirs: set<Path>, files: map<Path, Bytes>, dirs0: set<Path>, files0: map<Path, Bytes>,
                    dataset: Path)
    requires SameUnder(dirs, files, dirs0, files0, dataset)
    ensures forall c :: ClassPresent(dirs, files, dataset, c) <==> ClassPresent(dirs0, files0, dataset, c)
  {
    forall c
      ensures ClassPresent(dirs, files, dataset, c) <==> ClassPresent(dirs0, files0, dataset, c)
    {
      SameUnderNarrow(dirs, files, dirs0, files0, dataset, c);
      SameUnderClass(dirs, files, dirs0, files0, dataset, c);
    }
  }

  /** The entries of the dataset that are directories, listed in a tree that
      agrees with the original one under the dataset, are its class folders. */
  lemma ClassNamesOf(dirs: set<Path>, files: map<Path, Bytes>, dirs0: set<Path>, files0: map<Path, Bytes>,
                     dataset: Path, entries: seq<string>)
    requires SameUnder(dirs, files, dirs0, files0, dataset)
    requires Elems(entries) == ChildNames(dirs, files, dataset)
    ensures Elems(SubDirs(dirs, dataset, entries)) == ClassNames(dirs0, files0, dataset)
  {
    SameUnderChildNames(dirs, files, dirs0, files0, dataset);
    forall x
      ensures Under(dataset + [x], dataset)
    {
      assert (dataset + [x])[..|dataset|] == dataset;
    }
  }

  /** After the preparation both trees exist and are empty. */
  lemma PreparedTreesEmpty(dirs: set<Path>, files: map<Path, Bytes>, output: Path, classes: seq<string>)
    ensures TrainDir(output) in PreparedDirs(dirs, output) && ValDir(output) in PreparedDirs(dirs, output)
    ensures forall c :: c in classes ==>
              TrainDir(output) + [c] !in PreparedFiles(files, output) && ValDir(output) + [c] !in PreparedFiles(files, output)
  {
    assert TrainDir(output)[..|TrainDir(output)|] == TrainDir(output);
    assert ValDir(output)[..|ValDir(output)|] == ValDir(output);
    forall c | c in classes
      ensures Below(TrainDir(output) + [c], TrainDir(output)) && Below(ValDir(output) + [c], ValDir(output))
    {
    }
  }

  /** The tree after mirroring is the state the per-class loop starts from. */
  lemma MirroredShape(dirs: set<Path>, dataset: Path, output: Path, classes: seq<string>)
    requires forall c :: c in classes ==> dataset + [c] in PreparedDirs(dirs, output)
    ensures TargetsReady(PreparedDirs(dirs, output) + Mirrored(TrainDir(output), classes)
                         + Mirrored(ValDir(output), classes), dataset, output, classes)
  {
    var train, val := TrainDir(output), ValDir(output);
    SiblingTrees(output);
    forall q | q in Prefixes(train) || q in Prefixes(val)
      ensures !Below(q, train) && !Below(q, val)
    {
    }
  }

  /** Lines 12-62: prepare the two trees, list the class folders of the
      dataset, mirror them into both trees and split each one. On success
      the class folders are listed once each, every class has a shuffled
      list of exactly the image names of its folder, `train` and `val` hold
      exactly the class folders and the copies, and nothing outside them
      changed. */
  method SplitDataset(fs: FileSystem, dataset: Path, output: Path, rng: nat -> nat)
    returns (ok: bool, classes: seq<string>, splits: map<string, seq<string>>)
    requires fs.Valid() && !Under(dataset, output) && !Under(output, dataset)
    modifies fs
    ensures fs.Valid()
    ensures ok == Feasible(old(fs.dirs), old(fs.files), dataset, output)
    ensures ok ==> Distinct(classes) && Elems(classes) == ClassNames(old(fs.dirs), old(fs.files), dataset)
    ensures ok ==> ListsSoFar(old(fs.dirs), old(fs.files), dataset, classes, splits)
    ensures ok ==> fs.dirs == SplitDirs(old(fs.dirs), output, classes)
    ensures ok ==> fs.files == SplitFiles(old(fs.files), dataset, output, classes, splits)
  {
    ghost var dirs0, files0 := fs.dirs, fs.files;
    var train, val := TrainDir(output), ValDir(output);
    classes, splits := [], map[];
    ok := PrepareOutput(fs, output);
    if !ok {
      return;
    }
    ghost var dirs1, files1 := fs.dirs, fs.files;
    DatasetUntouched(dirs0, files0, dataset, output, []);
    assert Under(dataset, dataset);
    var entries;
    ok, entries := fs.ListDir(dataset);
    if !ok {
      return;
    }
    classes := SubDirs(fs.dirs, dataset, entries);
    SubDirsDistinct(fs.dirs, dataset, entries);
    ClassNamesOf(dirs1, files1, dirs0, files0, dataset, entries);
    PreparedTreesEmpty(dirs0, files0, output, classes);
    ok := MirrorClasses(fs, train, val, classes);
    assert ok;
    ghost var dirs2, files2 := fs.dirs, fs.files;
    MirroredShape(dirs0, dataset, output, classes);
    DatasetUntouched(dirs0, files0, dataset, output, classes);
    PresentSame(dirs2, files2, dirs0, files0, dataset);
    ok, splits := SplitClasses(fs, dataset, output, classes, rng);
    if ok {
      ListsSame(dirs2, files2, dirs0, files0, dataset, classes, splits);
      PlacedAlongSources(files2, files0, dataset, output, classes, splits);
    }
  }

  /** A cleared directory lists no entries. */
  lemma ClearedIsEmpty(dirs: set<Path>, files: map<Path, Bytes>, d: Path)
    ensures ChildNames(PruneDirs(dirs, d), PruneFiles(files, d), d) == {}
  {
    forall x
      ensures x !in ChildNames(PruneDirs(dirs, d), PruneFiles(files, d), d)
    {
      ChildNamesIff(PruneDirs(dirs, d), PruneFiles(files, d), d, x);
      assert Below(d + [x], d);
    }
  }

  /** The copy plan of one folder, entry by entry: `d + [x]` is written
      exactly when `d` is the target folder and `x` a listed name that is a
      file of the source folder, and it then holds that file's bytes. */
  lemma CopyMapEntry(files: map<Path, Bytes>, srcDir: Path, dstDir: Path, names: seq<string>, d: Path, x: string)
    ensures d + [x] in CopyMap(files, srcDir, dstDir, names) <==> d == dstDir && x in names && srcDir + [x] in files
    ensures d + [x] in CopyMap(files, srcDir, dstDir, names) ==>
              CopyMap(files, srcDir, dstDir, names)[d + [x]] == files[srcDir + [x]]
  {
    var p := d + [x];
    if p in CopyMap(files, srcDir, dstDir, names) {
      CopyMapKeys(files, srcDir, dstDir, names, p);
      assert d == p[..|dstDir|] == dstDir;
    }
    if d == dstDir && x in names && srcDir + [x] in files {
      CopyMapHas(files, srcDir, dstDir, names, x);
    }
  }

  /** The copies of all classes into `train`, entry by entry: the image `x`
      of class `c` lands in `train/<c>` exactly when it is in the train
      part of the class's list, and then holds the bytes of
      `<dataset>/<c>/<x>`. */
  lemma {:induction false} PlacedInTrain(files: map<Path, Bytes>, dataset: Path, output: Path,
                                         classes: seq<string>, splits: map<string, seq<string>>, c: string, x: string)
    requires forall d :: d in classes ==> d in splits
    ensures TrainDir(output) + [c] + [x] in PlacedAlong(files, dataset, output, classes, splits)
            <==> c in classes && x in TrainPart(splits[c]) && dataset + [c] + [x] in files
    ensures TrainDir(output) + [c] + [x] in PlacedAlong(files, dataset, output, classes, splits) ==>
              PlacedAlong(files, dataset, output, classes, splits)[TrainDir(output) + [c] + [x]] == files[dataset + [c] + [x]]
  {
    if classes != [] {
      var init, last := classes[..|classes| - 1], classes[|classes| - 1];
      assert c in classes <==> c in init || c == last by {
        assert classes == init + [last];
      }
      PlacedInTrain(files, dataset, output, init, splits, c, x);
      var train, val := TrainDir(output), ValDir(output);
      if c != last {
        assert (train + [c])[|train|] != (train + [last])[|train|];
      }
      assert train[|output|] != val[|output|];
      EntriesDiffer(train, val, c, last);
      CopyMapEntry(files, dataset + [last], train + [last], TrainPart(splits[last]), train + [c], x);
      CopyMapEntry(files, dataset + [last], val + [last], ValPart(splits[last]), train + [c], x);
    }
  }

  /** The same for `val` and the val part of each list. */
  lemma {:induction false} PlacedInVal(files: map<Path, Bytes>, dataset: Path, output: Path,
                                       classes: seq<string>, splits: map<string, seq<string>>, c: string, x: string)
    requires forall d :: d in classes ==> d in splits
    ensures ValDir(output) + [c] + [x] in PlacedAlong(files, dataset, output, classes, splits)
            <==> c in classes && x in ValPart(splits[c]) && dataset + [c] + [x] in files
    ensures ValDir(output) + [c] + [x] in PlacedAlong(files, dataset, output, classes, splits) ==>
              PlacedAlong(files, dataset, output, classes, splits)[ValDir(output) + [c] + [x]] == files[dataset + [c] + [x]]
  {
    if classes != [] {
      var init, last := classes[..|classes| - 1], classes[|classes| - 1];
      assert c in classes <==> c in init || c == last by {
        assert classes == init + [last];
      }
      PlacedInVal(files, dataset, output, init, splits, c, x);
      var train, val := TrainDir(output), ValDir(output);
      if c != last {
        assert (val + [c])[|val|] != (val + [last])[|val|];
      }
      assert train[|output|] != val[|output|];
      EntriesDiffer(val, train, c, last);
      CopyMapEntry(files, dataset + [last], train + [last], TrainPart(splits[last]), val + [c], x);
      CopyMapEntry(files, dataset + [last], val + [last], ValPart(splits[last]), val + [c], x);
    }
  }

  /** Nothing of the tree before the split is left below `train` or `val`. */
  lemma PreparedNothingBelow(files: map<Path, Bytes>, output: Path, p: Path)
    requires Below(p, TrainDir(output)) || Below(p, ValDir(output))
    ensures p !in PreparedFiles(files, output)
  {
  }

  /** Each image of a class ends up in exactly one of `train/<class>` and
      `val/<class>`, with the bytes of the image in the dataset. */
  lemma ImagePlacedOnce(dirs: set<Path>, files: map<Path, Bytes>, dataset: Path, output: Path,
                        classes: seq<string>, splits: map<string, seq<string>>, c: string, x: string)
    requires ListsSoFar(dirs, files, dataset, classes, splits)
    requires c in classes && x in ImageNamesIn(dirs, files, dataset + [c])
    ensures TrainDir(output) + [c] + [x] in SplitFiles(files, dataset, output, classes, splits)
            <==> ValDir(output) + [c] + [x] !in SplitFiles(files, dataset, output, classes, splits)
    ensures TrainDir(output) + [c] + [x] in SplitFiles(files, dataset, output, classes, splits) ==>
              SplitFiles(files, dataset, output, classes, splits)[TrainDir(output) + [c] + [x]] == files[dataset + [c] + [x]]
    ensures ValDir(output) + [c] + [x] in SplitFiles(files, dataset, output, classes, splits) ==>
              SplitFiles(files, dataset, output, classes, splits)[ValDir(output) + [c] + [x]] == files[dataset + [c] + [x]]
  {
    var t, v := TrainDir(output) + [c] + [x], ValDir(output) + [c] + [x];
    assert Below(t, TrainDir(output)) && Below(v, ValDir(output));
    PreparedNothingBelow(files, output, t);
    PreparedNothingBelow(files, output, v);
    PlacedInTrain(files, dataset, output, classes, splits, c, x);
    PlacedInVal(files, dataset, output, classes, splits, c, x);
    SplitPartition(splits[c]);
    assert x in Elems(splits[c]);
    assert AllPresent(files, dataset + [c], splits[c]);
  }

  /** The split writes nothing else into the two trees: every file below
      `train` or `val` is `<tree>/<class>/<image>` for a listed class and one
      of its images, put on that side. */
  lemma NothingElsePlaced(files: map<Path, Bytes>, dataset: Path, output: Path,
                          classes: seq<string>, splits: map<string, seq<string>>, p: Path)
    requires forall c :: c in classes ==> c in splits
    requires p in SplitFiles(files, dataset, output, classes, splits)
    requires Below(p, TrainDir(output)) || Below(p, ValDir(output))
    ensures |p| == |output| + 3 && p[|output| + 1] in classes
    ensures Below(p, TrainDir(output)) ==> p[|output| + 2] in TrainPart(splits[p[|output| + 1]])
    ensures Below(p, ValDir(output)) ==> p[|output| + 2] in ValPart(splits[p[|output| + 1]])
  {
    PreparedNothingBelow(files, output, p);
    assert p in PlacedAlong(files, dataset, output, classes, splits);
    PlacedAlongKeys(files, dataset, output, classes, splits, p);
    var c, x := p[|output| + 1], p[|output| + 2];
    var tree := p[..|output| + 1];
    assert p == tree + [c] + [x];
    if Below(p, TrainDir(output)) {
      assert tree == TrainDir(output);
      assert p[|output|] == "train" && ValDir(output)[|output|] == "val";
      PlacedInTrain(files, dataset, output, classes, splits, c, x);
    } else {
      assert tree == ValDir(output);
      PlacedInVal(files, dataset, output, classes, splits, c, x);
    }
  }

  /** The split changes nothing under the dataset: the class folders and
      their images are as they were. */
  lemma DatasetKept(dirs: set<Path>, files: map<Path, Bytes>, dataset: Path, output: Path,
                    classes: seq<string>, splits: map<string, seq<string>>)
    requires forall c :: c in classes ==> c in splits
    requires !Under(dataset, output) && !Under(output, dataset)
    ensures SameUnder(SplitDirs(dirs, output, classes), SplitFiles(files, dataset, output, classes, splits),
                      dirs, files, dataset)
  {
    DatasetUntouched(dirs, files, dataset, output, classes);
    PlacedAlongApart(files, dataset, output, classes, splits);
  }

  /** After the split, `train` and `val` each list exactly the class folders. */
  lemma TreesListClasses(dirs: set<Path>, files: map<Path, Bytes>, dataset: Path, output: Path,
                         classes: seq<string>, splits: map<string, seq<string>>)
    requires forall c :: c in classes ==> c in splits
    ensures ChildNames(SplitDirs(dirs, output, classes), SplitFiles(files, dataset, output, classes, splits),
                       TrainDir(output)) == Elems(classes)
    ensures ChildNames(SplitDirs(dirs, output, classes), SplitFiles(files, dataset, output, classes, splits),
                       ValDir(output)) == Elems(classes)
  {
    var ds, fs := SplitDirs(dirs, output, classes), SplitFiles(files, dataset, output, classes, splits);
    SiblingTrees(output);
    forall tree, x | tree == TrainDir(output) || tree == ValDir(output)
      ensures x in ChildNames(ds, fs, tree) <==> x in classes
    {
      ChildNamesIff(ds, fs, tree, x);
      var e := tree + [x];
      assert Below(e, tree);
      if e in fs {
        PlacedAlongKeys(files, dataset, output, classes, splits, e);
      }
      if e in Prefixes(TrainDir(output)) || e in Prefixes(ValDir(output)) {
        assert false;
      }
    }
  }
}
