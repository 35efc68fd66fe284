/** The whitelist-driven renderer of scripts/blender_render.py.

    The whitelist file's text and the listing of the STL folder are inputs.
    The scene is emptied; the camera and the sun lamp are added. Then every
    `.stl` file whose normalised name is on the whitelist is rendered. Its
    mesh is imported and turned through the 91 rotations of the angle table,
    one image per rotation, in `<out>\<name>\<name>_view_<i>.png`. The mesh
    is then removed. */
module BlenderRender {
  import opened Text
  import opened Paths
  import opened Scenes
  import opened Seqs

  /** The tilt given to both the camera and the lamp. */
  const Tilt: Angle := (45, 0, 0)

  /** The rotations once the camera and the lamp are set up. */
  function SetUp(): map<SceneObject, Angle>
  {
    map[Camera := Tilt, Lamp := Tilt]
  }

  /** The names in the whitelist text: every comma-separated field,
      stripped and lower-cased. */
  function ParseWhitelist(text: string): set<string>
  {
    set f | f in Split(text, ',') :: Normalize(f)
  }

  /** A text with no comma is one field. */
  lemma WhitelistField(f: string)
    requires ',' !in f
    ensures ParseWhitelist(f) == {Normalize(f)}
  {
    IndexOfUnique(f, ',', |f|);
    assert Split(f, ',') == [f];
  }

  /** The names of two texts joined by a comma are the names of each. */
  lemma WhitelistAppend(a: string, b: string)
    ensures ParseWhitelist(a + [','] + b) == ParseWhitelist(a) + ParseWhitelist(b)
  {
    SplitAppend(a, b, ',');
  }

  /** A trailing comma leaves an empty field, which puts the empty name on
      the whitelist. */
  lemma WhitelistTrailingComma(a: string)
    ensures "" in ParseWhitelist(a + [','])
  {
    WhitelistAppend(a, "");
    assert a + [','] + "" == a + [','];
    WhitelistField("");
    assert Normalize("") == "";
  }

  /** Every name on the whitelist is already in normal form. */
  lemma WhitelistNormalized(text: string)
    ensures forall n :: n in ParseWhitelist(text) ==> Normalize(n) == n
  {
    forall n | n in ParseWhitelist(text)
      ensures Normalize(n) == n
    {
      var f :| f in Split(text, ',') && n == Normalize(f);
      NormalizeIdempotent(f);
    }
  }

  /** The name an STL file is known by: its stem, stripped and lower-cased. */
  function ObjectName(file: string): string
  {
    Normalize(Stem(file))
  }

  /** The files the loop renders: `.stl` names (the suffix compared with its
      case) whose object name is on the whitelist. */
  predicate Accepted(file: string, valid: set<string>)
  {
    EndsWith(file, ".stl") && ObjectName(file) in valid
  }
  /** An accepted file together with the object name it is rendered under. */
  datatype Job = Job(file: string, name: string)

  /** The files the loop renders, each with its object name, in listing
      order. */
  function AcceptedJobs(listing: seq<string>, valid: set<string>): seq<Job>
  {
    if listing == [] then []
    else
      var last := listing[|listing| - 1];
      AcceptedJobs(listing[..|listing| - 1], valid)
        + (if Accepted(last, valid) then [Job(last, ObjectName(last))] else [])
  }

  /** A file is rendered exactly when it is listed, is an `.stl` file and
      its object name is on the whitelist, and it is rendered under that
      name. */
  lemma {:induction false} AcceptedJobsIff(listing: seq<string>, valid: set<string>, j: Job)
    ensures j in AcceptedJobs(listing, valid)
        <==> j.file in listing && Accepted(j.file, valid) && j.name == ObjectName(j.file)
  {
    if listing != [] {
      var init := listing[..|listing| - 1];
      AcceptedJobsIff(init, valid, j);
      assert listing == init + [listing[|listing| - 1]];
    }
  }

  /** One more listed file adds a job exactly when it is accepted. */
  lemma AcceptedJobsStep(listing: seq<string>, valid: set<string>, k: nat)
    requires k < |listing|
    ensures AcceptedJobs(listing[..k + 1], valid)
         == if Accepted(listing[k], valid) then AcceptedJobs(listing[..k], valid) + [Job(listing[k], ObjectName(listing[k]))]
            else AcceptedJobs(listing[..k], valid)
  {
    assert listing[..k + 1][..k] == listing[..k];
  }

  /** The rotations of the object, one per view, in degrees, row by row as
      the script lays the table out. */
  const AnglesRow1: seq<Angle> := [(240, 0, 0), (235, 0, 0), (245, 0, 0), (240, 5, 0), (240, -5, 0), (240, 10, 0), (240, -10, 0), (242, 0, 0), (238, 0, 0), (240, 15, 0)]
  const AnglesRow2: seq<Angle> := [(240, -15, 0), (245, 5, 0), (235, 5, 0), (245, -5, 0), (235, -5, 0), (243, 0, 0), (237, 0, 0), (240, 0, 5), (240, 0, -5), (240, 20, 0)]
  const AnglesRow3: seq<Angle> := [(240, -20, 0), (240, 10, 10), (240, 10, -10), (235, 15, 0), (245, 15, 0), (240, 15, 10), (240, 15, -10), (245, 10, 5), (235, 10, 5)]
  const AnglesRow4: seq<Angle> := [(245, 5, 10), (235, 5, 10), (245, 0, 10), (235, 0, 10), (245, 0, 15), (235, 0, 15), (240, 20, 5), (240, 20, -5), (245, 15, 5), (235, 15, -5)]
  const AnglesRow5: seq<Angle> := [(240, 25, 0), (240, 25, 5), (240, -10, 10), (240, -10, -10), (235, -15, 0), (245, -15, 0), (240, -15, 10), (240, -15, -10), (245, -10, 5)]
  const AnglesRow6: seq<Angle> := [(235, -10, 5), (245, -5, 10), (235, -5, 10), (245, 0, 10), (235, 0, 10), (245, 0, 15), (235, 0, 15), (240, -20, 5), (240, -20, -5), (245, -15, 5)]
  const AnglesRow7: seq<Angle> := [(235, -15, -5), (240, -25, 0), (240, -25, 5), (240, 30, 0), (240, -30, 0), (240, 30, 5), (240, -30, 5), (240, 30, -5), (240, -30, -5)]
  const AnglesRow8: seq<Angle> := [(240, 35, 0), (240, -35, 0), (240, 35, 5), (240, -35, 5), (240, 35, -5), (240, -35, -5), (240, 40, 0), (240, -40, 0), (240, 40, 5), (240, -40, 5)]
  const AnglesRow9: seq<Angle> := [(240, 40, -5), (240, -40, -5), (240, 45, 0), (240, -45, 0), (240, 45, 5), (240, -45, 5), (240, 45, -5), (240, -45, -5), (240, 50, 0), (240, -50, 0)]
  const AnglesRow10: seq<Angle> := [(240, 50, 5), (240, -50, 5), (240, 50, -5), (240, -50, -5)]

  const Angles: seq<Angle> :=
    AnglesRow1 + AnglesRow2 + AnglesRow3 + AnglesRow4 + AnglesRow5
    + AnglesRow6 + AnglesRow7 + AnglesRow8 + AnglesRow9 + AnglesRow10

  /** `<out>\<name>`, the folder of one object's images. */
  function ObjectFolder(out: string, name: string): string
  {
    Join(out, name)
  }


  /** `<out>\<name>\<name>_view_<i>.png` */
  function ViewPath(out: string, name: string, i: nat): string
  {
    Join(ObjectFolder(out, name), ViewName(name, i))
  }

  /** The mesh imported as the `id`-th object from `file` of the STL folder. */
  function MeshOf(stlFolder: string, id: nat, file: string): SceneObject
  {
    Mesh(id, Join(stlFolder, file))
  }

  /** View `i` of the mesh `obj`, known by `name`: the scene holds the
      camera, the lamp and that mesh, turned to entry `i` of the table. */
  function ViewShot(angles: seq<Angle>, out: string, obj: SceneObject, name: string, i: nat): Shot
    requires i < |angles|
  {
    Shot(ViewPath(out, name, i), multiset{Camera, Lamp, obj}, SetUp()[obj := angles[i]])
  }

  /** The first `n` views of one object. */
  function Views(angles: seq<Angle>, out: string, obj: SceneObject, name: string, n: nat): seq<Shot>
    requires n <= |angles|
  {
    seq(n, i requires 0 <= i < n => ViewShot(angles, out, obj, name, i))
  }

  /** All the views of the job's file, imported as the `id`-th object. */
  function JobViews(angles: seq<Angle>, stlFolder: string, out: string, id: nat, job: Job): seq<Shot>
  {
    Views(angles, out, MeshOf(stlFolder, id, job.file), job.name, |angles|)
  }

  /** The views of each job, one list per job; the meshes are numbered from
      `first` on. */
  function Batches(angles: seq<Angle>, stlFolder: string, out: string, first: nat, jobs: seq<Job>): seq<seq<Shot>>
  {
    seq(|jobs|, k requires 0 <= k < |jobs| => JobViews(angles, stlFolder, out, first + k, jobs[k]))
  }

  /** The images of the jobs, in order. */
  function PlannedShots(angles: seq<Angle>, stlFolder: string, out: string, first: nat, jobs: seq<Job>): seq<Shot>
  {
    Flatten(Batches(angles, stlFolder, out, first, jobs))
  }

  /** The folders the loop creates for the jobs. */
  function ObjectFolders(out: string, jobs: seq<Job>): set<string>
  {
    set j | j in jobs :: ObjectFolder(out, j.name)
  }

  /** The images after one more listed file: those so far, followed by the
      file's views when it is accepted. */
  lemma ShotsStep(angles: seq<Angle>, stlFolder: string, out: string, first: nat, done: seq<Job>, next: seq<Job>,
                  rendered: bool, id: nat, job: Job, shots0: seq<Shot>, before: seq<Shot>, after: seq<Shot>)
    requires before == shots0 + PlannedShots(angles, stlFolder, out, first, done)
    requires rendered ==> next == done + [job] && id == first + |done|
                          && after == before + JobViews(angles, stlFolder, out, id, job)
    requires !rendered ==> next == done && after == before
    ensures after == shots0 + PlannedShots(angles, stlFolder, out, first, next)
  {
    if rendered {
      PlannedShotsSnoc(angles, stlFolder, out, first, done, job);
      AppendAssoc(shots0, PlannedShots(angles, stlFolder, out, first, done), JobViews(angles, stlFolder, out, id, job));
    }
  }

  /** One more job adds its folder. */
  lemma ObjectFoldersSnoc(out: string, jobs: seq<Job>, job: Job)
    ensures ObjectFolders(out, jobs + [job]) == ObjectFolders(out, jobs) + {ObjectFolder(out, job.name)}
  {
    assert forall j :: j in jobs + [job] <==> j in jobs || j == job;
  }

  /** The output path left set after the loop: the last view of the last
      job, or the one set before when there was none. */
  function LastOutput(angles: seq<Angle>, before: string, out: string, jobs: seq<Job>): string
    requires angles != []
  {
    if jobs == [] then before else ViewPath(out, jobs[|jobs| - 1].name, |angles| - 1)
  }

  /** One pass of the loop on the counter, the created folders and the
      output path: an accepted file moves each on by its job, a skipped
      file leaves them as they were. */
  lemma StateStep(angles: seq<Angle>, out: string, first: nat, listing: seq<string>, valid: set<string>, k: nat,
                  rendered: bool, dirs0: set<string>, path0: string,
                  imported: nat, dirs: set<string>, filepath: string,
                  imported': nat, dirs': set<string>, filepath': string)
    requires angles != [] && k < |listing|
    requires rendered == Accepted(listing[k], valid)
    requires imported == first + |AcceptedJobs(listing[..k], valid)|
    requires dirs == dirs0 + ObjectFolders(out, AcceptedJobs(listing[..k], valid))
    requires filepath == LastOutput(angles, path0, out, AcceptedJobs(listing[..k], valid))
    requires rendered ==> imported' == imported + 1 && dirs' == dirs + {ObjectFolder(out, ObjectName(listing[k]))}
                          && filepath' == ViewPath(out, ObjectName(listing[k]), |angles| - 1)
    requires !rendered ==> imported' == imported && dirs' == dirs && filepath' == filepath
    ensures imported' == first + |AcceptedJobs(listing[..k + 1], valid)|
    ensures dirs' == dirs0 + ObjectFolders(out, AcceptedJobs(listing[..k + 1], valid))
    ensures filepath' == LastOutput(angles, path0, out, AcceptedJobs(listing[..k + 1], valid))
    ensures rendered ==> AcceptedJobs(listing[..k + 1], valid)
                         == AcceptedJobs(listing[..k], valid) + [Job(listing[k], ObjectName(listing[k]))]
    ensures !rendered ==> AcceptedJobs(listing[..k + 1], valid) == AcceptedJobs(listing[..k], valid)
  {
    var done := AcceptedJobs(listing[..k], valid);
    AcceptedJobsStep(listing, valid, k);
    if rendered {
      ObjectFoldersSnoc(out, done, Job(listing[k], ObjectName(listing[k])));
    }
  }

  /** The table has 91 entries, and four rotations appear in it twice. */
  lemma AnglesRepeat()
    ensures |Angles| == 91
    ensures Angles[31] == Angles[51] == (245, 0, 10)
    ensures Angles[32] == Angles[52] == (235, 0, 10)
    ensures Angles[33] == Angles[53] == (245, 0, 15)
    ensures Angles[34] == Angles[54] == (235, 0, 15)
  {
  }

  /** The views of one object have different paths, repeated rotations
      included: the view number alone tells them apart. */
  lemma ViewPathsOfObjectDiffer(out: string, name: string, i: nat, j: nat)
    requires i != j
    ensures ViewPath(out, name, i) != ViewPath(out, name, j)
  {
    if ViewPath(out, name, i) == ViewPath(out, name, j) {
      JoinCancel(ObjectFolder(out, name), ViewName(name, i), ViewName(name, j));
      ViewNameInjective(name, i, name, j);
    }
  }

  /** Views of objects whose names hold no separator have the same path only
      when they are the same view of the same name. */
  lemma ViewPathInjective(out: string, n1: string, i: nat, n2: string, j: nat)
    requires Sep !in n1 && Sep !in n2
    requires ViewPath(out, n1, i) == ViewPath(out, n2, j)
    ensures n1 == n2 && i == j
  {
    var r1, r2 := Join(n1, ViewName(n1, i)), Join(n2, ViewName(n2, j));
    assert ViewPath(out, n1, i) == Join(out, r1);
    assert ViewPath(out, n2, j) == Join(out, r2);
    JoinCancel(out, r1, r2);
    JoinSplit(n1, ViewName(n1, i), n2, ViewName(n2, j));
    ViewNameInjective(n1, i, n2, j);
  }

  /** A file name without a separator gives an object name without one:
      stripping keeps a slice of the stem, which is a prefix of the name,
      and lower-casing turns no character into a separator. */
  lemma ObjectNameNoSep(file: string)
    requires Sep !in file
    ensures Sep !in ObjectName(file)
  {
    var st := Stem(file);
    StemSpec(file);
    assert forall k :: 0 <= k < |st| ==> st[k] == file[k];
    var t := Strip(st);
    StripSpec(st);
    var i := SkipSpaces(st, 0);
    assert forall k :: 0 <= k < |t| ==> t[k] == st[i + k];
  }

  /** In a listing of plain file names, no object name holds a separator. */
  lemma AcceptedNamesNoSep(listing: seq<string>, valid: set<string>)
    requires forall f :: f in listing ==> Sep !in f
    ensures forall j :: j in AcceptedJobs(listing, valid) ==> Sep !in j.name
  {
    forall j | j in AcceptedJobs(listing, valid)
      ensures Sep !in j.name
    {
      AcceptedJobsIff(listing, valid, j);
      ObjectNameNoSep(j.file);
    }
  }

  /** Files whose names differ only in case or in blanks around the stem
      share one object name, so the later one's images replace the
      earlier one's. */
  lemma CaseFoldedNamesMeet()
    ensures ObjectName("A.stl") == ObjectName("a .stl") == "a"
  {
    assert "A" + "." + "stl" == "A.stl";
    assert "a " + "." + "stl" == "a .stl";
    assert !AllDots("A") by { assert "A"[0] != '.'; }
    assert !AllDots("a ") by { assert "a "[0] != '.'; }
    StemOfExtension("A", "stl");
    StemOfExtension("a ", "stl");
    assert Strip("A") == "A" by { StripTrimmed("A"); }
    assert Strip("a ") == "a" by {
      assert SkipSpaces("a ", 0) == 0;
      assert SkipSpacesBack("a ", 0, 2) == 1;
    }
  }

  /** Each job contributes one image per table entry. */
  lemma PlannedShotsLength(angles: seq<Angle>, stlFolder: string, out: string, first: nat, jobs: seq<Job>)
    ensures |PlannedShots(angles, stlFolder, out, first, jobs)| == |angles| * |jobs|
  {
    FlattenLength(Batches(angles, stlFolder, out, first, jobs), |angles|);
  }

  /** One more job adds its views after the images so far. */
  lemma PlannedShotsSnoc(angles: seq<Angle>, stlFolder: string, out: string, first: nat, jobs: seq<Job>, job: Job)
    ensures PlannedShots(angles, stlFolder, out, first, jobs + [job])
         == PlannedShots(angles, stlFolder, out, first, jobs) + JobViews(angles, stlFolder, out, first + |jobs|, job)
  {
    var v := JobViews(angles, stlFolder, out, first + |jobs|, job);
    assert Batches(angles, stlFolder, out, first, jobs + [job]) == Batches(angles, stlFolder, out, first, jobs) + [v];
    FlattenSnoc(Batches(angles, stlFolder, out, first, jobs), v);
  }

  /** The images in order: those of the jobs before the `k`-th, then the
      views of the `k`-th job in table order, then those of the jobs after
      it, whose meshes are numbered on from `first + k + 1`. */
  lemma PlannedShotsAround(angles: seq<Angle>, stlFolder: string, out: string, first: nat, jobs: seq<Job>, k: nat)
    requires k < |jobs|
    ensures PlannedShots(angles, stlFolder, out, first, jobs)
         == PlannedShots(angles, stlFolder, out, first, jobs[..k])
          + JobViews(angles, stlFolder, out, first + k, jobs[k])
          + PlannedShots(angles, stlFolder, out, first + k + 1, jobs[k + 1..])
  {
    var pre := Batches(angles, stlFolder, out, first, jobs[..k]);
    var v := JobViews(angles, stlFolder, out, first + k, jobs[k]);
    var post := Batches(angles, stlFolder, out, first + k + 1, jobs[k + 1..]);
    assert Batches(angles, stlFolder, out, first, jobs) == (pre + [v]) + post;
    FlattenAppend(pre + [v], post);
    FlattenSnoc(pre, v);
  }

  /** Every element of an object's views is one of its views. */
  lemma ViewsMember(angles: seq<Angle>, out: string, obj: SceneObject, name: string, n: nat, s: Shot)
    requires n <= |angles| && s in Views(angles, out, obj, name, n)
    ensures exists i :: 0 <= i < n && s == ViewShot(angles, out, obj, name, i)
  {
    var v := Views(angles, out, obj, name, n);
    var i :| 0 <= i < |v| && v[i] == s;
    assert s == ViewShot(angles, out, obj, name, i);
  }

  /** `s` is view `i` of the `k`-th job. */
  ghost predicate ShowsView(angles: seq<Angle>, stlFolder: string, out: string, first: nat, jobs: seq<Job>,
                            s: Shot, k: int, i: int)
  {
    0 <= k < |jobs| && 0 <= i < |angles|
    && s == ViewShot(angles, out, MeshOf(stlFolder, first + k, jobs[k].file), jobs[k].name, i)
  }

  /** Every image is a view of one of the jobs. */
  lemma PlannedShotIsView(angles: seq<Angle>, stlFolder: string, out: string, first: nat, jobs: seq<Job>, s: Shot)
    requires s in PlannedShots(angles, stlFolder, out, first, jobs)
    ensures exists k, i :: ShowsView(angles, stlFolder, out, first, jobs, s, k, i)
  {
    var parts := Batches(angles, stlFolder, out, first, jobs);
    FlattenMember(parts, s);
    var k :| 0 <= k < |parts| && s in parts[k];
    var obj := MeshOf(stlFolder, first + k, jobs[k].file);
    ViewsMember(angles, out, obj, jobs[k].name, |angles|, s);
    var i :| 0 <= i < |angles| && s == ViewShot(angles, out, obj, jobs[k].name, i);
    assert ShowsView(angles, stlFolder, out, first, jobs, s, k, i);
  }

  /** Every view of every job is among the images. */
  lemma ViewIsPlanned(angles: seq<Angle>, stlFolder: string, out: string, first: nat, jobs: seq<Job>, k: nat, i: nat)
    requires k < |jobs| && i < |angles|
    ensures ViewShot(angles, out, MeshOf(stlFolder, first + k, jobs[k].file), jobs[k].name, i)
         in PlannedShots(angles, stlFolder, out, first, jobs)
  {
    var parts := Batches(angles, stlFolder, out, first, jobs);
    var v := parts[k];
    assert v[i] == ViewShot(angles, out, MeshOf(stlFolder, first + k, jobs[k].file), jobs[k].name, i);
    FlattenMember(parts, v[i]);
  }

  /** The images are exactly the views of the jobs: each shows the camera,
      the lamp and the mesh of one job at one entry of the table. */
  lemma PlannedShotsMembers(angles: seq<Angle>, stlFolder: string, out: string, first: nat, jobs: seq<Job>, s: Shot)
    ensures s in PlannedShots(angles, stlFolder, out, first, jobs)
        <==> exists k, i :: ShowsView(angles, stlFolder, out, first, jobs, s, k, i)
  {
    if s in PlannedShots(angles, stlFolder, out, first, jobs) {
      PlannedShotIsView(angles, stlFolder, out, first, jobs, s);
    }
    if exists k, i :: ShowsView(angles, stlFolder, out, first, jobs, s, k, i) {
      var k, i :| ShowsView(angles, stlFolder, out, first, jobs, s, k, i);
      ViewIsPlanned(angles, stlFolder, out, first, jobs, k, i);
    }
  }

  /** The views of one object go to different paths. */
  lemma ViewsDistinctPaths(angles: seq<Angle>, out: string, obj: SceneObject, name: string)
    ensures DistinctPaths(Views(angles, out, obj, name, |angles|))
  {
    var v := Views(angles, out, obj, name, |angles|);
    forall p, q | 0 <= p < q < |v|
      ensures v[p].path != v[q].path
    {
      ViewPathsOfObjectDiffer(out, name, p, q);
    }
  }

  /** The views of two objects with different names, neither holding a
      separator, go to different paths. */
  lemma ViewsOfNamesDiffer(angles: seq<Angle>, out: string, o1: SceneObject, n1: string, o2: SceneObject, n2: string,
                           s: Shot, t: Shot)
    requires Sep !in n1 && Sep !in n2 && n1 != n2
    requires s in Views(angles, out, o1, n1, |angles|)
    requires t in Views(angles, out, o2, n2, |angles|)
    ensures s.path != t.path
  {
    ViewsMember(angles, out, o1, n1, |angles|, s);
    var i :| 0 <= i < |angles| && s == ViewShot(angles, out, o1, n1, i);
    ViewsMember(angles, out, o2, n2, |angles|, t);
    var j :| 0 <= j < |angles| && t == ViewShot(angles, out, o2, n2, j);
    if s.path == t.path {
      ViewPathInjective(out, n1, i, n2, j);
    }
  }

  /** When the jobs have different names, none holding a separator, no two
      images are written to the same path. */
  lemma ShotPathsDistinct(angles: seq<Angle>, stlFolder: string, out: string, first: nat, jobs: seq<Job>)
    requires forall j :: j in jobs ==> Sep !in j.name
    requires forall a, b :: 0 <= a < b < |jobs| ==> jobs[a].name != jobs[b].name
    ensures DistinctPaths(PlannedShots(angles, stlFolder, out, first, jobs))
  {
    var parts := Batches(angles, stlFolder, out, first, jobs);
    forall k | 0 <= k < |parts|
      ensures DistinctPaths(parts[k])
    {
      ViewsDistinctPaths(angles, out, MeshOf(stlFolder, first + k, jobs[k].file), jobs[k].name);
    }
    forall k1, k2, s: Shot, t: Shot | 0 <= k1 < k2 < |parts| && s in parts[k1] && t in parts[k2]
      ensures s.path != t.path
    {
      var a, b := jobs[k1], jobs[k2];
      assert a in jobs && b in jobs;
      ViewsOfNamesDiffer(angles, out, MeshOf(stlFolder, first + k1, a.file), a.name,
                         MeshOf(stlFolder, first + k2, b.file), b.name, s, t);
    }
    FlattenDistinctPaths(parts);
  }

  /** Two rendered objects known by the same name write their views to the
      same paths, so the images of the later one overwrite those of the
      earlier: the distinct names `ShotPathsDistinct` asks for are needed. */
  lemma SameNameCollides(angles: seq<Angle>, stlFolder: string, out: string, first: nat, jobs: seq<Job>, a: nat, b: nat)
    requires angles != [] && a < |jobs| && b < |jobs| && a != b
    requires jobs[a].name == jobs[b].name
    ensures !DistinctPaths(PlannedShots(angles, stlFolder, out, first, jobs))
  {
    var shots := PlannedShots(angles, stlFolder, out, first, jobs);
    var oa, ob := MeshOf(stlFolder, first + a, jobs[a].file), MeshOf(stlFolder, first + b, jobs[b].file);
    var s := ViewShot(angles, out, oa, jobs[a].name, 0);
    var t := ViewShot(angles, out, ob, jobs[b].name, 0);
    ViewIsPlanned(angles, stlFolder, out, first, jobs, a, 0);
    ViewIsPlanned(angles, stlFolder, out, first, jobs, b, 0);
    var p :| 0 <= p < |shots| && shots[p] == s;
    var q :| 0 <= q < |shots| && shots[q] == t;
    assert oa !in t.objects;
    assert p != q;
    if p < q {
      assert shots[p].path == shots[q].path;
    } else {
      assert shots[q].path == shots[p].path;
    }
  }

  /** Two different listed files that are both accepted and normalise to
      the same object name, such as "A.stl" and "a .stl", make the run
      overwrite images. */
  lemma SameObjectNameCollides(angles: seq<Angle>, stlFolder: string, out: string, first: nat,
                               listing: seq<string>, valid: set<string>, f: string, g: string)
    requires angles != [] && f != g && f in listing && g in listing
    requires Accepted(f, valid) && Accepted(g, valid) && ObjectName(f) == ObjectName(g)
    ensures !DistinctPaths(PlannedShots(angles, stlFolder, out, first, AcceptedJobs(listing, valid)))
  {
    var jobs := AcceptedJobs(listing, valid);
    AcceptedJobsIff(listing, valid, Job(f, ObjectName(f)));
    AcceptedJobsIff(listing, valid, Job(g, ObjectName(g)));
    var a :| 0 <= a < |jobs| && jobs[a] == Job(f, ObjectName(f));
    var b :| 0 <= b < |jobs| && jobs[b] == Job(g, ObjectName(g));
    SameNameCollides(angles, stlFolder, out, first, jobs, a, b);
  }

  /** A listed `.stl` file whose name is not on the whitelist gets neither a
      folder nor an image. */
  lemma SkippedLeavesNothing(angles: seq<Angle>, stlFolder: string, out: string, first: nat, listing: seq<string>,
                             valid: set<string>, f: string, v: nat)
    requires forall g :: g in listing ==> Sep !in g
    requires f in listing && EndsWith(f, ".stl") && ObjectName(f) !in valid
    ensures ObjectFolder(out, ObjectName(f)) !in ObjectFolders(out, AcceptedJobs(listing, valid))
    ensures forall s :: s in PlannedShots(angles, stlFolder, out, first, AcceptedJobs(listing, valid))
              ==> s.path != ViewPath(out, ObjectName(f), v)
  {
    var jobs := AcceptedJobs(listing, valid);
    var name := ObjectName(f);
    if ObjectFolder(out, name) in ObjectFolders(out, jobs) {
      var j :| j in jobs && ObjectFolder(out, j.name) == ObjectFolder(out, name);
      AcceptedJobsIff(listing, valid, j);
      JoinCancel(out, j.name, name);
    }
    ObjectNameNoSep(f);
    AcceptedNamesNoSep(listing, valid);
    forall s | s in PlannedShots(angles, stlFolder, out, first, jobs)
      ensures s.path != ViewPath(out, name, v)
    {
      PlannedShotIsView(angles, stlFolder, out, first, jobs, s);
      var k, i :| ShowsView(angles, stlFolder, out, first, jobs, s, k, i);
      var j := jobs[k];
      AcceptedJobsIff(listing, valid, j);
      if s.path == ViewPath(out, name, v) {
        ViewPathInjective(out, j.name, i, name, v);
      }
    }
  }

  /** One more view extends the views by that view. */
  lemma ViewsSnoc(angles: seq<Angle>, out: string, obj: SceneObject, name: string, i: nat)
    requires i < |angles|
    ensures Views(angles, out, obj, name, i + 1) == Views(angles, out, obj, name, i) + [ViewShot(angles, out, obj, name, i)]
  {
  }

  /** One round of the inner loop: turn the mesh to entry `i` of the table,
      point the output at the view's file and render. */
  method RenderView(angles: seq<Angle>, studio: Studio, out: string, obj: SceneObject, name: string, i: nat)
    requires i < |angles| && obj.Mesh?
    requires studio.Valid() && studio.objects == multiset{Camera, Lamp, obj} && studio.rotations - {obj} == SetUp()
    modifies studio
    ensures studio.Valid() && studio.imported == old(studio.imported)
    ensures studio.objects == old(studio.objects) && studio.dirs == old(studio.dirs)
    ensures studio.rotations == SetUp()[obj := angles[i]]
    ensures studio.shots == old(studio.shots) + [ViewShot(angles, out, obj, name, i)]
    ensures studio.filepath == ViewPath(out, name, i)
  {
    studio.Rotate(obj, angles[i]);
    assert studio.rotations == SetUp()[obj := angles[i]];
    studio.SetOutput(Join(ObjectFolder(out, name), ViewName(name, i)));
    studio.Render();
  }

  /** The inner loop for one object: turn the mesh `obj`, known by `name`,
      to each rotation of the table and render it into its own file of the
      object's folder. */
  method RenderViews(angles: seq<Angle>, studio: Studio, out: string, obj: SceneObject, name: string)
    requires angles != [] && obj.Mesh?
    requires studio.Valid() && studio.objects == multiset{Camera, Lamp, obj} && studio.rotations == SetUp()
    modifies studio
    ensures studio.Valid() && studio.imported == old(studio.imported)
    ensures studio.objects == old(studio.objects) && studio.dirs == old(studio.dirs)
    ensures studio.rotations == SetUp()[obj := angles[|angles| - 1]]
    ensures studio.shots == old(studio.shots) + Views(angles, out, obj, name, |angles|)
    ensures studio.filepath == ViewPath(out, name, |angles| - 1)
  {
    assert studio.rotations - {obj} == SetUp();
    for i := 0 to |angles|
      invariant studio.Valid() && studio.imported == old(studio.imported)
      invariant studio.objects == old(studio.objects) && studio.dirs == old(studio.dirs)
      invariant studio.rotations - {obj} == SetUp()
      invariant i > 0 ==> studio.rotations == SetUp()[obj := angles[i - 1]]
      invariant studio.shots == old(studio.shots) + Views(angles, out, obj, name, i)
      invariant i > 0 ==> studio.filepath == ViewPath(out, name, i - 1)
    {
      RenderView(angles, studio, out, obj, name, i);
      ViewsSnoc(angles, out, obj, name, i);
      assert studio.rotations - {obj} == SetUp();
    }
  }

  /** One accepted file, known by `name`: import the mesh, create its
      folder, render its views, remove the mesh. The scene is back to the
      camera and the lamp afterwards. */
  method RenderObject(angles: seq<Angle>, studio: Studio, stlFolder: string, out: string, file: string, name: string)
    requires angles != []
    requires studio.Valid() && studio.objects == multiset{Camera, Lamp} && studio.rotations == SetUp()
    modifies studio
    ensures studio.Valid() && studio.imported == old(studio.imported) + 1
    ensures studio.objects == multiset{Camera, Lamp} && studio.rotations == SetUp()
    ensures studio.shots == old(studio.shots) + JobViews(angles, stlFolder, out, old(studio.imported), Job(file, name))
    ensures studio.dirs == old(studio.dirs) + {ObjectFolder(out, name)}
    ensures studio.filepath == ViewPath(out, name, |angles| - 1)
  {
    var obj := studio.ImportStl(Join(stlFolder, file));
    studio.MakeDirs(ObjectFolder(out, name));
    RenderViews(angles, studio, out, obj, name);
    assert studio.rotations - {obj} == SetUp();
    studio.Remove(obj);
  }

  /** The whole script: clear the scene, create the output folder, read the
      whitelist, add the camera and the lamp, then render every accepted
      file. `object_id` ends one above the number of rendered files. */
  method RenderWhitelisted(studio: Studio, stlFolder: string, outputFolder: string, whitelistText: string,
                           listing: seq<string>) returns (objectId: nat)
    requires studio.Valid()
    modifies studio
    ensures studio.Valid()
    ensures studio.imported == old(studio.imported) + |AcceptedJobs(listing, ParseWhitelist(whitelistText))|
    ensures studio.objects == multiset{Camera, Lamp} && studio.rotations == SetUp()
    ensures studio.shots == old(studio.shots)
      + PlannedShots(Angles, stlFolder, outputFolder, old(studio.imported), AcceptedJobs(listing, ParseWhitelist(whitelistText)))
    ensures studio.dirs == old(studio.dirs) + {outputFolder}
      + ObjectFolders(outputFolder, AcceptedJobs(listing, ParseWhitelist(whitelistText)))
    ensures studio.filepath
         == LastOutput(Angles, old(studio.filepath), outputFolder, AcceptedJobs(listing, ParseWhitelist(whitelistText)))
    ensures objectId == 1 + |AcceptedJobs(listing, ParseWhitelist(whitelistText))|
  {
    studio.DeleteAll();
    studio.MakeDirs(outputFolder);
    var valid := ParseWhitelist(whitelistText);
    studio.Link(Camera);
    studio.Rotate(Camera, Tilt);
    studio.Link(Lamp);
    studio.Rotate(Lamp, Tilt);
    AnglesRepeat();
    objectId := RenderListing(Angles, studio, stlFolder, outputFolder, valid, listing);
  }

  /** The loop over the listing, once the scene holds only the camera and
      the lamp: every accepted file is rendered with the rotations of
      `angles`, and `object_id` counts from 1 past each. */
  method RenderListing(angles: seq<Angle>, studio: Studio, stlFolder: string, outputFolder: string, valid: set<string>,
                       listing: seq<string>) returns (objectId: nat)
    requires angles != []
    requires studio.Valid() && studio.objects == multiset{Camera, Lamp} && studio.rotations == SetUp()
    modifies studio
    ensures studio.Valid()
    ensures studio.imported == old(studio.imported) + |AcceptedJobs(listing, valid)|
    ensures studio.objects == multiset{Camera, Lamp} && studio.rotations == SetUp()
    ensures studio.shots == old(studio.shots) + PlannedShots(angles, stlFolder, outputFolder, old(studio.imported), AcceptedJobs(listing, valid))
    ensures studio.dirs == old(studio.dirs) + ObjectFolders(outputFolder, AcceptedJobs(listing, valid))
    ensures studio.filepath == LastOutput(angles, old(studio.filepath), outputFolder, AcceptedJobs(listing, valid))
    ensures objectId == 1 + |AcceptedJobs(listing, valid)|
  {
    objectId := 1;
    ghost var first, shots0, dirs0, path0 := studio.imported, studio.shots, studio.dirs, studio.filepath;
    assert listing[..0] == [];
    for k := 0 to |listing|
      invariant studio.Valid()
      invariant studio.objects == multiset{Camera, Lamp} && studio.rotations == SetUp()
      invariant studio.imported == first + |AcceptedJobs(listing[..k], valid)|
      invariant studio.shots == shots0 + PlannedShots(angles, stlFolder, outputFolder, first, AcceptedJobs(listing[..k], valid))
      invariant studio.dirs == dirs0 + ObjectFolders(outputFolder, AcceptedJobs(listing[..k], valid))
      invariant studio.filepath == LastOutput(angles, path0, outputFolder, AcceptedJobs(listing[..k], valid))
      invariant objectId + first == 1 + studio.imported
    {
      ghost var imported, shots, dirs, filepath := studio.imported, studio.shots, studio.dirs, studio.filepath;
      var rendered := RenderStep(angles, studio, stlFolder, outputFolder, valid, listing[k], imported);
      StateStep(angles, outputFolder, first, listing, valid, k, rendered, dirs0, path0,
                imported, dirs, filepath, studio.imported, studio.dirs, studio.filepath);
      ShotsStep(angles, stlFolder, outputFolder, first, AcceptedJobs(listing[..k], valid), AcceptedJobs(listing[..k + 1], valid),
                rendered, imported, Job(listing[k], ObjectName(listing[k])), shots0, shots, studio.shots);
      if rendered {
        objectId := objectId + 1;
      }
    }
    assert listing[..|listing|] == listing;
  }

  /** The body of the loop for one listed file: an `.stl` file whose object
      name is on the whitelist is imported, rendered through the table and
      removed; any other file is skipped and changes nothing. */
  method RenderStep(angles: seq<Angle>, studio: Studio, stlFolder: string, outputFolder: string, valid: set<string>,
                    file: string, ghost id: nat) returns (rendered: bool)
    requires angles != [] && id == studio.imported
    requires studio.Valid() && studio.objects == multiset{Camera, Lamp} && studio.rotations == SetUp()
    modifies studio
    ensures rendered == Accepted(file, valid)
    ensures studio.Valid()
    ensures studio.objects == multiset{Camera, Lamp} && studio.rotations == SetUp()
    ensures rendered ==> studio.imported == old(studio.imported) + 1
    ensures rendered ==> (studio.shots
         == old(studio.shots) + JobViews(angles, stlFolder, outputFolder, id, Job(file, ObjectName(file))))
    ensures rendered ==> studio.dirs == old(studio.dirs) + {ObjectFolder(outputFolder, ObjectName(file))}
    ensures rendered ==> studio.filepath == ViewPath(outputFolder, ObjectName(file), |angles| - 1)
    ensures !rendered ==> studio.imported == old(studio.imported) && studio.shots == old(studio.shots)
    ensures !rendered ==> studio.dirs == old(studio.dirs) && studio.filepath == old(studio.filepath)
  {
    rendered := false;
    if EndsWith(file, ".stl") {
      var name := ObjectName(file);
      if name in valid {
        RenderObject(angles, studio, stlFolder, outputFolder, file, name);
        rendered := true;
      }
    }
  }
}
