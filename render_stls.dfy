/** The fixed-view renderer of render_stls.py.

    The listing of the STL folder is an input. The output folder is created
    and a camera is added, tilted by 45 degrees; the scene is not emptied
    first. Then every `.stl` file is rendered: its mesh is imported, turned
    through the eight rotations of the table, one image per rotation, in
    the flat folder as `<out>\<stem>_view_<i>.png`, and removed again. */
module RenderStls {
  import opened Text
  import opened Paths
  import opened Scenes
  import opened Seqs

  /** The camera's fixed rotation. */
  const CameraTilt: Angle := (45, 0, 0)

  /** The rotations of the object, one per view, in degrees. */
  const ObjectAngles: seq<Angle> :=
    [(45, 0, 0), (0, 45, 0), (0, 0, 45), (45, 45, 0), (90, 0, 0), (180, 0, 0), (180, 45, 0), (180, 0, 45)]

  /** The files the loop renders: every name that ends in ".stl" (the
      suffix compared with its case), in listing order. */
  function StlFiles(listing: seq<string>): seq<string>
  {
    if listing == [] then []
    else
      var last := listing[|listing| - 1];
      StlFiles(listing[..|listing| - 1]) + (if EndsWith(last, ".stl") then [last] else [])
  }

  /** A file is rendered exactly when it is listed and its name ends in
      ".stl": there is no whitelist. */
  lemma {:induction false} StlFilesIff(listing: seq<string>, f: string)
    ensures f in StlFiles(listing) <==> f in listing && EndsWith(f, ".stl")
  {
    if listing != [] {
      var init := listing[..|listing| - 1];
      StlFilesIff(init, f);
      assert listing == init + [listing[|listing| - 1]];
    }
  }

  /** One more listed file is rendered exactly when its name ends in ".stl". */
  lemma StlFilesStep(listing: seq<string>, k: nat)
    requires k < |listing|
    ensures StlFiles(listing[..k + 1])
         == if EndsWith(listing[k], ".stl") then StlFiles(listing[..k]) + [listing[k]] else StlFiles(listing[..k])
  {
    assert listing[..k + 1][..k] == listing[..k];
  }

  /** A listing without repetitions, as `os.listdir` gives, renders each
      file once. */
  lemma {:induction false} StlFilesDistinct(listing: seq<string>)
    requires Distinct(listing)
    ensures Distinct(StlFiles(listing))
  {
    if listing != [] {
      var init, last := listing[..|listing| - 1], listing[|listing| - 1];
      assert Distinct(init);
      StlFilesDistinct(init);
      StlFilesIff(init, last);
      assert last !in init by {
        DistinctPrefix(listing, |listing| - 1);
      }
      var r := StlFiles(listing);
      if EndsWith(last, ".stl") {
        forall i, j | 0 <= i < j < |r|
          ensures r[i] != r[j]
        {
          if j == |r| - 1 {
            assert r[i] in StlFiles(init);
          }
        }
      }
    }
  }

  /** `os.path.join(output_folder, f"{stem}_view_{i}.png")`, the stem being
      `os.path.splitext(stl_file)[0]`, unchanged. */
  function OutputFile(out: string, file: string, i: nat): string
  {
    Join(out, ViewName(Stem(file), i))
  }

  /** View `i` of the mesh `obj` imported from `file` into a scene holding
      `scene`, whose rotations were `rot`: the mesh joins the scene, turned
      to entry `i` of the table. */
  function FileShot(scene: multiset<SceneObject>, rot: map<SceneObject, Angle>, out: string, obj: SceneObject,
                    file: string, i: nat): Shot
    requires i < |ObjectAngles|
  {
    Shot(OutputFile(out, file, i), scene + multiset{obj}, rot[obj := ObjectAngles[i]])
  }

  /** The first `n` views of one file. */
  function FileViews(scene: multiset<SceneObject>, rot: map<SceneObject, Angle>, out: string, obj: SceneObject,
                     file: string, n: nat): seq<Shot>
    requires n <= |ObjectAngles|
  {
    seq(n, i requires 0 <= i < n => FileShot(scene, rot, out, obj, file, i))
  }

  /** All the views of `file`, imported from the STL folder as the `id`-th
      object. */
  function FileShots(scene: multiset<SceneObject>, rot: map<SceneObject, Angle>, stlFolder: string, out: string,
                     id: nat, file: string): seq<Shot>
  {
    FileViews(scene, rot, out, Mesh(id, Join(stlFolder, file)), file, |ObjectAngles|)
  }

  /** The views of each file, one list per file; the meshes are numbered
      from `first` on. */
  function Batches(scene: multiset<SceneObject>, rot: map<SceneObject, Angle>, stlFolder: string, out: string,
                   first: nat, files: seq<string>): seq<seq<Shot>>
  {
    seq(|files|, k requires 0 <= k < |files| => FileShots(scene, rot, stlFolder, out, first + k, files[k]))
  }

  /** The images of the files, in order. */
  function PlannedShots(scene: multiset<SceneObject>, rot: map<SceneObject, Angle>, stlFolder: string, out: string,
                        first: nat, files: seq<string>): seq<Shot>
  {
    Flatten(Batches(scene, rot, stlFolder, out, first, files))
  }

  /** The output path left set after the loop: the last view of the last
      file, or the one set before when there was none. */
  function LastOutput(before: string, out: string, files: seq<string>): string
  {
    if files == [] then before else OutputFile(out, files[|files| - 1], |ObjectAngles| - 1)
  }

  /** Each file gives eight images. */
  lemma PlannedShotsLength(scene: multiset<SceneObject>, rot: map<SceneObject, Angle>, stlFolder: string, out: string,
                           first: nat, files: seq<string>)
    ensures |PlannedShots(scene, rot, stlFolder, out, first, files)| == 8 * |files|
  {
    FlattenLength(Batches(scene, rot, stlFolder, out, first, files), |ObjectAngles|);
  }

  /** One more file adds its views after the images so far. */
  lemma PlannedShotsSnoc(scene: multiset<SceneObject>, rot: map<SceneObject, Angle>, stlFolder: string, out: string,
                         first: nat, files: seq<string>, file: string)
    ensures PlannedShots(scene, rot, stlFolder, out, first, files + [file])
         == PlannedShots(scene, rot, stlFolder, out, first, files) + FileShots(scene, rot, stlFolder, out, first + |files|, file)
  {
    var v := FileShots(scene, rot, stlFolder, out, first + |files|, file);
    assert Batches(scene, rot, stlFolder, out, first, files + [file]) == Batches(scene, rot, stlFolder, out, first, files) + [v];
    FlattenSnoc(Batches(scene, rot, stlFolder, out, first, files), v);
  }

  /** `s` is view `i` of the `k`-th file. */
  ghost predicate ShowsView(scene: multiset<SceneObject>, rot: map<SceneObject, Angle>, stlFolder: string, out: string,
                            first: nat, files: seq<string>, s: Shot, k: int, i: int)
  {
    0 <= k < |files| && 0 <= i < |ObjectAngles|
    && s == FileShot(scene, rot, out, Mesh(first + k, Join(stlFolder, files[k])), files[k], i)
  }

  /** Every element of a file's views is one of its views. */
  lemma FileViewsMember(scene: multiset<SceneObject>, rot: map<SceneObject, Angle>, out: string, obj: SceneObject,
                        file: string, n: nat, s: Shot)
    requires n <= |ObjectAngles| && s in FileViews(scene, rot, out, obj, file, n)
    ensures exists i :: 0 <= i < n && s == FileShot(scene, rot, out, obj, file, i)
  {
    var v := FileViews(scene, rot, out, obj, file, n);
    var i :| 0 <= i < |v| && v[i] == s;
    assert s == FileShot(scene, rot, out, obj, file, i);
  }

  /** Every image is a view of one of the files. */
  lemma PlannedShotIsView(scene: multiset<SceneObject>, rot: map<SceneObject, Angle>, stlFolder: string, out: string,
                          first: nat, files: seq<string>, s: Shot)
    requires s in PlannedShots(scene, rot, stlFolder, out, first, files)
    ensures exists k, i :: ShowsView(scene, rot, stlFolder, out, first, files, s, k, i)
  {
    var parts := Batches(scene, rot, stlFolder, out, first, files);
    FlattenMember(parts, s);
    var k :| 0 <= k < |parts| && s in parts[k];
    var obj := Mesh(first + k, Join(stlFolder, files[k]));
    FileViewsMember(scene, rot, out, obj, files[k], |ObjectAngles|, s);
    var i :| 0 <= i < |ObjectAngles| && s == FileShot(scene, rot, out, obj, files[k], i);
    assert ShowsView(scene, rot, stlFolder, out, first, files, s, k, i);
  }

  /** Every view of every file is among the images. */
  lemma ViewIsPlanned(scene: multiset<SceneObject>, rot: map<SceneObject, Angle>, stlFolder: string, out: string,
                      first: nat, files: seq<string>, k: nat, i: nat)
    requires k < |files| && i < |ObjectAngles|
    ensures FileShot(scene, rot, out, Mesh(first + k, Join(stlFolder, files[k])), files[k], i)
         in PlannedShots(scene, rot, stlFolder, out, first, files)
  {
    var parts := Batches(scene, rot, stlFolder, out, first, files);
    var v := parts[k];
    assert v[i] == FileShot(scene, rot, out, Mesh(first + k, Join(stlFolder, files[k])), files[k], i);
    FlattenMember(parts, v[i]);
  }

  /** The images are exactly the views of the files: each shows the scene
      as it was before the loop plus the mesh of one file, turned to one
      entry of the table. */
  lemma PlannedShotsMembers(scene: multiset<SceneObject>, rot: map<SceneObject, Angle>, stlFolder: string, out: string,
                            first: nat, files: seq<string>, s: Shot)
    ensures s in PlannedShots(scene, rot, stlFolder, out, first, files)
        <==> exists k, i :: ShowsView(scene, rot, stlFolder, out, first, files, s, k, i)
  {
    if s in PlannedShots(scene, rot, stlFolder, out, first, files) {
      PlannedShotIsView(scene, rot, stlFolder, out, first, files, s);
    }
    if exists k, i :: ShowsView(scene, rot, stlFolder, out, first, files, s, k, i) {
      var k, i :| ShowsView(scene, rot, stlFolder, out, first, files, s, k, i);
      ViewIsPlanned(scene, rot, stlFolder, out, first, files, k, i);
    }
  }

  /** Two output names are the same only for the same view of the same
      stem: the view number is all the digits after the last "_view_". */
  lemma OutputFileInjective(out: string, f1: string, i: nat, f2: string, j: nat)
    requires OutputFile(out, f1, i) == OutputFile(out, f2, j)
    ensures Stem(f1) == Stem(f2) && i == j
  {
    JoinCancel(out, ViewName(Stem(f1), i), ViewName(Stem(f2), j));
    ViewNameInjective(Stem(f1), i, Stem(f2), j);
  }

  /** Two different `.stl` names have different stems unless the part of
      one of them before ".stl" is made only of dots. */
  lemma StlStemsDiffer(f1: string, f2: string)
    requires f1 != f2 && EndsWith(f1, ".stl") && EndsWith(f2, ".stl")
    requires !AllDots(f1[..|f1| - 4]) && !AllDots(f2[..|f2| - 4])
    ensures Stem(f1) != Stem(f2)
  {
    var b1, b2 := f1[..|f1| - 4], f2[..|f2| - 4];
    assert f1 == b1 + "." + "stl";
    assert f2 == b2 + "." + "stl";
    StemOfExtension(b1, "stl");
    StemOfExtension(b2, "stl");
  }

  /** ".stl" keeps its whole name as its stem, which is also the stem of
      ".stl.stl": both files write `<out>\.stl_view_<i>.png`, and the later
      one's images replace the earlier one's. */
  lemma DotStlNamesMeet(out: string, i: nat)
    ensures EndsWith(".stl", ".stl") && EndsWith(".stl.stl", ".stl")
    ensures OutputFile(out, ".stl", i) == OutputFile(out, ".stl.stl", i) == Join(out, ViewName(".stl", i))
  {
    assert ".stl" == "" + "." + "stl";
    assert ".stl.stl" == ".stl" + "." + "stl";
    assert AllDots("");
    assert !AllDots(".stl") by { assert ".stl"[1] != '.'; }
    StemOfDotName("", "stl");
    StemOfExtension(".stl", "stl");
  }

  /** The views of one file go to different paths. */
  lemma FileViewsDistinctPaths(scene: multiset<SceneObject>, rot: map<SceneObject, Angle>, out: string,
                               obj: SceneObject, file: string)
    ensures DistinctPaths(FileViews(scene, rot, out, obj, file, |ObjectAngles|))
  {
    var v := FileViews(scene, rot, out, obj, file, |ObjectAngles|);
    forall p, q | 0 <= p < q < |v|
      ensures v[p].path != v[q].path
    {
      if v[p].path == v[q].path {
        OutputFileInjective(out, file, p, file, q);
      }
    }
  }

  /** The views of two files with different stems go to different paths. */
  lemma ViewsOfStemsDiffer(scene: multiset<SceneObject>, rot: map<SceneObject, Angle>, out: string,
                           o1: SceneObject, f1: string, o2: SceneObject, f2: string, s: Shot, t: Shot)
    requires Stem(f1) != Stem(f2)
    requires s in FileViews(scene, rot, out, o1, f1, |ObjectAngles|)
    requires t in FileViews(scene, rot, out, o2, f2, |ObjectAngles|)
    ensures s.path != t.path
  {
    FileViewsMember(scene, rot, out, o1, f1, |ObjectAngles|, s);
    var i :| 0 <= i < |ObjectAngles| && s == FileShot(scene, rot, out, o1, f1, i);
    FileViewsMember(scene, rot, out, o2, f2, |ObjectAngles|, t);
    var j :| 0 <= j < |ObjectAngles| && t == FileShot(scene, rot, out, o2, f2, j);
    if s.path == t.path {
      OutputFileInjective(out, f1, i, f2, j);
    }
  }

  /** When the files have different stems, no two images are written to
      the same path. */
  lemma ShotPathsDistinct(scene: multiset<SceneObject>, rot: map<SceneObject, Angle>, stlFolder: string, out: string,
                          first: nat, files: seq<string>)
    requires forall a, b :: 0 <= a < b < |files| ==> Stem(files[a]) != Stem(files[b])
    ensures DistinctPaths(PlannedShots(scene, rot, stlFolder, out, first, files))
  {
    var parts := Batches(scene, rot, stlFolder, out, first, files);
    forall k | 0 <= k < |parts|
      ensures DistinctPaths(parts[k])
    {
      FileViewsDistinctPaths(scene, rot, out, Mesh(first + k, Join(stlFolder, files[k])), files[k]);
    }
    forall k1, k2, s: Shot, t: Shot | 0 <= k1 < k2 < |parts| && s in parts[k1] && t in parts[k2]
      ensures s.path != t.path
    {
      ViewsOfStemsDiffer(scene, rot, out, Mesh(first + k1, Join(stlFolder, files[k1])), files[k1],
                         Mesh(first + k2, Join(stlFolder, files[k2])), files[k2], s, t);
    }
    FlattenDistinctPaths(parts);
  }

  /** In a listing without repetitions where no `.stl` name is only dots
      before its extension, every image of the run has a path of its own. */
  lemma ListingPathsDistinct(scene: multiset<SceneObject>, rot: map<SceneObject, Angle>, stlFolder: string,
                             out: string, first: nat, listing: seq<string>)
    requires Distinct(listing)
    requires forall f :: f in listing && EndsWith(f, ".stl") ==> !AllDots(f[..|f| - 4])
    ensures DistinctPaths(PlannedShots(scene, rot, stlFolder, out, first, StlFiles(listing)))
  {
    var files := StlFiles(listing);
    StlFilesDistinct(listing);
    forall a, b | 0 <= a < b < |files|
      ensures Stem(files[a]) != Stem(files[b])
    {
      StlFilesIff(listing, files[a]);
      StlFilesIff(listing, files[b]);
      StlStemsDiffer(files[a], files[b]);
    }
    ShotPathsDistinct(scene, rot, stlFolder, out, first, files);
  }

  /** Two rendered files with the same stem write their views to the same
      paths, so the images of the later one overwrite those of the earlier:
      the distinct stems `ShotPathsDistinct` asks for are needed. */
  lemma SameStemCollides(scene: multiset<SceneObject>, rot: map<SceneObject, Angle>, stlFolder: string, out: string,
                         first: nat, files: seq<string>, a: nat, b: nat)
    requires a < |files| && b < |files| && a != b
    requires Stem(files[a]) == Stem(files[b])
    ensures !DistinctPaths(PlannedShots(scene, rot, stlFolder, out, first, files))
  {
    var shots := PlannedShots(scene, rot, stlFolder, out, first, files);
    var oa, ob := Mesh(first + a, Join(stlFolder, files[a])), Mesh(first + b, Join(stlFolder, files[b]));
    var s := FileShot(scene, rot, out, oa, files[a], 0);
    var t := FileShot(scene, rot, out, ob, files[b], 0);
    ViewIsPlanned(scene, rot, stlFolder, out, first, files, a, 0);
    ViewIsPlanned(scene, rot, stlFolder, out, first, files, b, 0);
    var p :| 0 <= p < |shots| && shots[p] == s;
    var q :| 0 <= q < |shots| && shots[q] == t;
    assert s.objects[oa] == scene[oa] + 1 && t.objects[oa] == scene[oa];
    assert p != q;
    if p < q {
      assert shots[p].path == shots[q].path;
    } else {
      assert shots[q].path == shots[p].path;
    }
  }

  /** Two different listed ".stl" files with the same stem, such as ".stl"
      and ".stl.stl", make the run overwrite images. */
  lemma SameStemFilesCollide(scene: multiset<SceneObject>, rot: map<SceneObject, Angle>, stlFolder: string,
                             out: string, first: nat, listing: seq<string>, f: string, g: string)
    requires f != g && f in listing && g in listing
    requires EndsWith(f, ".stl") && EndsWith(g, ".stl") && Stem(f) == Stem(g)
    ensures !DistinctPaths(PlannedShots(scene, rot, stlFolder, out, first, StlFiles(listing)))
  {
    var files := StlFiles(listing);
    StlFilesIff(listing, f);
    StlFilesIff(listing, g);
    var a :| 0 <= a < |files| && files[a] == f;
    var b :| 0 <= b < |files| && files[b] == g;
    SameStemCollides(scene, rot, stlFolder, out, first, files, a, b);
  }

  /** The eight rotations of the table differ from one another, so each
      view shows the part in a pose of its own. */
  lemma ObjectAnglesDistinct()
    ensures |ObjectAngles| == 8
    ensures forall i, j :: 0 <= i < j < |ObjectAngles| ==> ObjectAngles[i] != ObjectAngles[j]
  {
  }

  /** The images after one more listed file: those so far, followed by the
      file's views when it is an `.stl` file. */
  lemma ShotsStep(scene: multiset<SceneObject>, rot: map<SceneObject, Angle>, stlFolder: string, out: string,
                  first: nat, done: seq<string>, next: seq<string>, processed: bool, id: nat, file: string,
                  shots0: seq<Shot>, before: seq<Shot>, after: seq<Shot>)
    requires before == shots0 + PlannedShots(scene, rot, stlFolder, out, first, done)
    requires processed ==> next == done + [file] && id == first + |done|
                           && after == before + FileShots(scene, rot, stlFolder, out, id, file)
    requires !processed ==> next == done && after == before
    ensures after == shots0 + PlannedShots(scene, rot, stlFolder, out, first, next)
  {
    if processed {
      PlannedShotsSnoc(scene, rot, stlFolder, out, first, done, file);
      AppendAssoc(shots0, PlannedShots(scene, rot, stlFolder, out, first, done), FileShots(scene, rot, stlFolder, out, id, file));
    }
  }

  /** One pass of the loop on the import counter and the output path. */
  lemma StateStep(out: string, first: nat, listing: seq<string>, k: nat, processed: bool, path0: string,
                  imported: nat, filepath: string, imported': nat, filepath': string)
    requires k < |listing|
    requires processed == EndsWith(listing[k], ".stl")
    requires imported == first + |StlFiles(listing[..k])|
    requires filepath == LastOutput(path0, out, StlFiles(listing[..k]))
    requires processed ==> imported' == imported + 1 && filepath' == OutputFile(out, listing[k], |ObjectAngles| - 1)
    requires !processed ==> imported' == imported && filepath' == filepath
    ensures imported' == first + |StlFiles(listing[..k + 1])|
    ensures filepath' == LastOutput(path0, out, StlFiles(listing[..k + 1]))
    ensures processed ==> StlFiles(listing[..k + 1]) == StlFiles(listing[..k]) + [listing[k]]
    ensures !processed ==> StlFiles(listing[..k + 1]) == StlFiles(listing[..k])
  {
    StlFilesStep(listing, k);
  }

  /** One more view extends the views by that view. */
  lemma FileViewsSnoc(scene: multiset<SceneObject>, rot: map<SceneObject, Angle>, out: string, obj: SceneObject,
                      file: string, i: nat)
    requires i < |ObjectAngles|
    ensures FileViews(scene, rot, out, obj, file, i + 1)
         == FileViews(scene, rot, out, obj, file, i) + [FileShot(scene, rot, out, obj, file, i)]
  {
  }

  /** One round of the inner loop (lines 41-45): turn the mesh, point the
      output at the view's file and render. */
  method RenderFileView(studio: Studio, out: string, obj: SceneObject, file: string, i: nat,
                        ghost scene: multiset<SceneObject>, ghost rot: map<SceneObject, Angle>)
    requires i < |ObjectAngles|
    requires studio.Valid() && studio.objects == scene + multiset{obj} && studio.rotations - {obj} == rot
    modifies studio
    ensures studio.Valid() && studio.imported == old(studio.imported)
    ensures studio.objects == old(studio.objects) && studio.dirs == old(studio.dirs)
    ensures studio.rotations == rot[obj := ObjectAngles[i]]
    ensures studio.shots == old(studio.shots) + [FileShot(scene, rot, out, obj, file, i)]
    ensures studio.filepath == OutputFile(out, file, i)
  {
    studio.Rotate(obj, ObjectAngles[i]);
    assert studio.rotations == rot[obj := ObjectAngles[i]];
    studio.SetOutput(Join(out, ViewName(Stem(file), i)));
    studio.Render();
  }

  /** The inner loop (lines 41-45): turn the mesh `obj`, imported from
      `file`, to each rotation of the table and render it into its own file
      of the output folder. */
  method RenderFileViews(studio: Studio, out: string, obj: SceneObject, file: string,
                         ghost scene: multiset<SceneObject>, ghost rot: map<SceneObject, Angle>)
    requires studio.Valid() && studio.objects == scene + multiset{obj} && studio.rotations - {obj} == rot
    modifies studio
    ensures studio.Valid() && studio.imported == old(studio.imported)
    ensures studio.objects == old(studio.objects) && studio.dirs == old(studio.dirs)
    ensures studio.rotations == rot[obj := ObjectAngles[|ObjectAngles| - 1]]
    ensures studio.shots == old(studio.shots) + FileViews(scene, rot, out, obj, file, |ObjectAngles|)
    ensures studio.filepath == OutputFile(out, file, |ObjectAngles| - 1)
  {
    for i := 0 to |ObjectAngles|
      invariant studio.Valid() && studio.imported == old(studio.imported)
      invariant studio.objects == old(studio.objects) && studio.dirs == old(studio.dirs)
      invariant studio.rotations - {obj} == rot
      invariant i > 0 ==> studio.rotations == rot[obj := ObjectAngles[i - 1]]
      invariant studio.shots == old(studio.shots) + FileViews(scene, rot, out, obj, file, i)
      invariant i > 0 ==> studio.filepath == OutputFile(out, file, i - 1)
    {
      RenderFileView(studio, out, obj, file, i, scene, rot);
      FileViewsSnoc(scene, rot, out, obj, file, i);
      assert studio.rotations - {obj} == rot;
    }
  }

  /** The body of the loop for one `.stl` file (lines 20-48): import the
      mesh, render its eight views, remove it. The scene is as it was
      before afterwards. */
  method RenderFile(studio: Studio, stlFolder: string, out: string, file: string)
    requires studio.Valid()
    modifies studio
    ensures studio.Valid() && studio.imported == old(studio.imported) + 1
    ensures studio.objects == old(studio.objects) && studio.rotations == old(studio.rotations)
    ensures studio.dirs == old(studio.dirs)
    ensures studio.shots
         == old(studio.shots) + FileShots(old(studio.objects), old(studio.rotations), stlFolder, out, old(studio.imported), file)
    ensures studio.filepath == OutputFile(out, file, |ObjectAngles| - 1)
  {
    ghost var scene, rot := studio.objects, studio.rotations;
    assert forall o :: o in rot && o.Mesh? ==> o.id < studio.imported;
    var obj := studio.ImportStl(Join(stlFolder, file));
    assert obj !in rot;
    assert studio.rotations - {obj} == rot;
    RenderFileViews(studio, out, obj, file, scene, rot);
    studio.Remove(obj);
    assert studio.rotations == rot;
  }

  /** One listed file: rendered when its name ends in ".stl", skipped
      otherwise. */
  method RenderEntry(studio: Studio, stlFolder: string, out: string, file: string, ghost id: nat)
    returns (processed: bool)
    requires studio.Valid() && id == studio.imported
    modifies studio
    ensures processed == EndsWith(file, ".stl")
    ensures studio.Valid()
    ensures studio.objects == old(studio.objects) && studio.rotations == old(studio.rotations)
    ensures studio.dirs == old(studio.dirs)
    ensures processed ==> studio.imported == old(studio.imported) + 1
    ensures processed ==> (studio.shots
         == old(studio.shots) + FileShots(old(studio.objects), old(studio.rotations), stlFolder, out, id, file))
    ensures processed ==> studio.filepath == OutputFile(out, file, |ObjectAngles| - 1)
    ensures !processed ==> studio.imported == old(studio.imported) && studio.shots == old(studio.shots)
    ensures !processed ==> studio.filepath == old(studio.filepath)
  {
    processed := EndsWith(file, ".stl");
    if processed {
      RenderFile(studio, stlFolder, out, file);
    }
  }

  /** The loop over the listing (lines 18-48): every `.stl` file is
      rendered, in listing order, each against the scene as it stood
      before the loop, which it leaves as it found it. */
  method RenderListing(studio: Studio, stlFolder: string, out: string, listing: seq<string>)
    requires studio.Valid()
    modifies studio
    ensures studio.Valid()
    ensures studio.objects == old(studio.objects) && studio.rotations == old(studio.rotations)
    ensures studio.dirs == old(studio.dirs)
    ensures studio.imported == old(studio.imported) + |StlFiles(listing)|
    ensures studio.shots == old(studio.shots)
      + PlannedShots(old(studio.objects), old(studio.rotations), stlFolder, out, old(studio.imported), StlFiles(listing))
    ensures studio.filepath == LastOutput(old(studio.filepath), out, StlFiles(listing))
  {
    ghost var scene, rot, first, shots0, path0 := studio.objects, studio.rotations, studio.imported, studio.shots, studio.filepath;
    assert listing[..0] == [];
    for k := 0 to |listing|
      invariant studio.Valid()
      invariant studio.objects == scene && studio.rotations == rot && studio.dirs == old(studio.dirs)
      invariant studio.imported == first + |StlFiles(listing[..k])|
      invariant studio.shots == shots0 + PlannedShots(scene, rot, stlFolder, out, first, StlFiles(listing[..k]))
      invariant studio.filepath == LastOutput(path0, out, StlFiles(listing[..k]))
    {
      ghost var imported, shots, filepath := studio.imported, studio.shots, studio.filepath;
      var processed := RenderEntry(studio, stlFolder, out, listing[k], imported);
      StateStep(out, first, listing, k, processed, path0, imported, filepath, studio.imported, studio.filepath);
      ShotsStep(scene, rot, stlFolder, out, first, StlFiles(listing[..k]), StlFiles(listing[..k + 1]),
                processed, imported, listing[k], shots0, shots, studio.shots);
    }
    assert listing[..|listing|] == listing;
  }

  /** The whole script: create the output folder, add the camera with its
      fixed tilt to whatever the scene already holds, then render every
      `.stl` file. The scene ends as the startup scene plus the camera. */
  method RenderStlFolder(studio: Studio, stlFolder: string, outputFolder: string, listing: seq<string>)
    requires studio.Valid()
    modifies studio
    ensures studio.Valid()
    ensures studio.objects == old(studio.objects) + multiset{Camera}
    ensures studio.rotations == old(studio.rotations)[Camera := CameraTilt]
    ensures studio.dirs == old(studio.dirs) + {outputFolder}
    ensures studio.imported == old(studio.imported) + |StlFiles(listing)|
    ensures studio.shots == old(studio.shots)
      + PlannedShots(old(studio.objects) + multiset{Camera}, old(studio.rotations)[Camera := CameraTilt],
                     stlFolder, outputFolder, old(studio.imported), StlFiles(listing))
    ensures studio.filepath == LastOutput(old(studio.filepath), outputFolder, StlFiles(listing))
  {
    studio.MakeDirs(outputFolder);
    studio.Link(Camera);
    studio.Rotate(Camera, CameraTilt);
    RenderListing(studio, stlFolder, outputFolder, listing);
  }
}
