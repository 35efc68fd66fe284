/** The LDraw to STL conversion planner of scripts/ldview_convert.py.

    The directory walk is an input: the sequence of `(root, files)` pairs
    that `os.walk` yields. The file system is reduced to the set of output
    paths that exist, and running LDView on one command line is an opaque
    function from the command line to its outcome. A successful run leaves
    its output file behind; a failed one leaves nothing. */
module LdviewConvert {
  import opened Text
  import opened Seqs
  import opened Paths

  /** One step of `os.walk`: a directory and the names of the files directly in it. */
  datatype WalkEntry = WalkEntry(root: string, files: seq<string>)

  /** What `subprocess.run(command, check=True)` does: returns, raises
      `CalledProcessError` (non-zero exit) or raises `FileNotFoundError`
      (no LDView executable). */
  datatype Outcome = Ok | CalledProcessError | NotFound

  /** What the conversion loop does for one collected file. */
  datatype Event =
    | Skipped(file: string, output: string)
    | Attempted(file: string, output: string, command: seq<string>, outcome: Outcome)

  /** Substrings that exclude a file name from conversion. */
  const Excluded: seq<string> := ["s0", "--", "p0"]

  /** The file-name test: a `.dat` name with none of the excluded substrings. */
  predicate Selected(name: string)
  {
    EndsWith(name, ".dat") && !ContainsAny(name, Excluded)
  }

  /** The paths the inner loop keeps for one allowed directory, in listing order. */
  function KeptPaths(root: string, files: seq<string>): seq<string>
  {
    if files == [] then []
    else
      var name := files[|files| - 1];
      KeptPaths(root, files[..|files| - 1]) + (if Selected(name) then [Join(root, name)] else [])
  }

  /** The paths both collection passes visit, in walk order, duplicates
      included: only directories that are themselves in `allowed`. */
  function DatList(walk: seq<WalkEntry>, allowed: seq<string>): seq<string>
  {
    if walk == [] then []
    else
      var entry := walk[|walk| - 1];
      DatList(walk[..|walk| - 1], allowed)
      + (if entry.root in allowed then KeptPaths(entry.root, entry.files) else [])
  }

  /** File `j` of walk step `i` is collected as `p`: its directory is exactly
      one of the allowed folders, its name ends in ".dat" and holds none of
      "s0", "--", "p0". */
  ghost predicate CollectedAt(walk: seq<WalkEntry>, allowed: seq<string>, i: int, j: int, p: string)
  {
    && 0 <= i < |walk| && 0 <= j < |walk[i].files|
    && walk[i].root in allowed
    && EndsWith(walk[i].files[j], ".dat")
    && !Contains(walk[i].files[j], "s0")
    && !Contains(walk[i].files[j], "--")
    && !Contains(walk[i].files[j], "p0")
    && p == Join(walk[i].root, walk[i].files[j])
  }

  lemma SelectedIff(name: string)
    ensures Selected(name) <==>
      EndsWith(name, ".dat") && !Contains(name, "s0") && !Contains(name, "--") && !Contains(name, "p0")
  {
    assert Excluded[0] == "s0" && Excluded[1] == "--" && Excluded[2] == "p0";
  }

  lemma {:induction false} KeptPathsMembers(root: string, files: seq<string>, p: string)
    ensures p in KeptPaths(root, files) <==>
            exists j :: 0 <= j < |files| && Selected(files[j]) && p == Join(root, files[j])
  {
    if files != [] {
      var init := files[..|files| - 1];
      KeptPathsMembers(root, init, p);
      if p in KeptPaths(root, init) {
        var j :| 0 <= j < |init| && Selected(init[j]) && p == Join(root, init[j]);
        assert files[j] == init[j];
      }
      forall j | 0 <= j < |files| - 1
        ensures files[j] == init[j]
      {
      }
    }
  }

  /** A path is in the collected list exactly when some walk step collects it. */
  lemma {:induction false} DatListMembers(walk: seq<WalkEntry>, allowed: seq<string>, p: string)
    ensures p in DatList(walk, allowed) <==> exists i, j :: CollectedAt(walk, allowed, i, j, p)
  {
    if walk != [] {
      var init := walk[..|walk| - 1];
      var n := |walk| - 1;
      var entry := walk[n];
      DatListMembers(init, allowed, p);
      KeptPathsMembers(entry.root, entry.files, p);
      if p in DatList(init, allowed) {
        var i, j :| CollectedAt(init, allowed, i, j, p);
        assert walk[i] == init[i];
        SelectedIff(walk[i].files[j]);
        assert CollectedAt(walk, allowed, i, j, p);
      } else if entry.root in allowed && p in KeptPaths(entry.root, entry.files) {
        var j :| 0 <= j < |entry.files| && Selected(entry.files[j]) && p == Join(entry.root, entry.files[j]);
        SelectedIff(entry.files[j]);
        assert CollectedAt(walk, allowed, n, j, p);
      }
      if exists i, j :: CollectedAt(walk, allowed, i, j, p) {
        var i, j :| CollectedAt(walk, allowed, i, j, p);
        SelectedIff(walk[i].files[j]);
        if i < n {
          assert walk[i] == init[i];
          assert CollectedAt(init, allowed, i, j, p);
        } else {
          assert p in KeptPaths(entry.root, entry.files);
        }
      }
    }
  }

  /** First collection pass (lines 25-31): a list, duplicates kept. Its
      result is thrown away by the second pass. */
  method CollectDatList(walk: seq<WalkEntry>, allowed: seq<string>) returns (datFiles: seq<string>)
    ensures datFiles == DatList(walk, allowed)
  {
    datFiles := [];
    for i := 0 to |walk|
      invariant datFiles == DatList(walk[..i], allowed)
    {
      var root, files := walk[i].root, walk[i].files;
      assert walk[..i + 1][..i] == walk[..i];
      if root in allowed {
        for j := 0 to |files|
          invariant datFiles == DatList(walk[..i], allowed) + KeptPaths(root, files[..j])
        {
          assert files[..j + 1][..j] == files[..j];
          var name := files[j];
          if Selected(name) {
            datFiles := datFiles + [Join(root, name)];
          }
        }
        assert files[..|files|] == files;
      }
    }
    assert walk[..|walk|] == walk;
  }

  /** Second collection pass (lines 34-42): the same walk into a set, so each
      path is kept once however often the walk reaches it. */
  method CollectDatSet(walk: seq<WalkEntry>, allowed: seq<string>) returns (datFiles: set<string>)
    ensures datFiles == Elems(DatList(walk, allowed))
  {
    datFiles := {};
    for i := 0 to |walk|
      invariant datFiles == Elems(DatList(walk[..i], allowed))
    {
      var root, files := walk[i].root, walk[i].files;
      assert walk[..i + 1][..i] == walk[..i];
      if root in allowed {
        for j := 0 to |files|
          invariant datFiles == Elems(DatList(walk[..i], allowed) + KeptPaths(root, files[..j]))
        {
          assert files[..j + 1][..j] == files[..j];
          var name := files[j];
          if Selected(name) {
            var filePath := Join(root, name);
            if filePath !in datFiles {
              datFiles := datFiles + {filePath};
            }
          }
        }
        assert files[..|files|] == files;
      }
    }
    assert walk[..|walk|] == walk;
  }

  /** `os.path.join(output_folder, os.path.splitext(basename)[0] + ".stl")` */
  function OutputPath(outputFolder: string, filePath: string): string
  {
    Join(outputFolder, Stem(Basename(filePath)) + ".stl")
  }

  /** The LDView command line, argument by argument. */
  function Command(ldviewPath: string, filePath: string, outputPath: string): seq<string>
  {
    [ldviewPath, filePath, "-ExportFile=" + outputPath, "-ExportFormat=STL",
     "-AutoCrop", "-SaveWidth=800", "-SaveHeight=600"]
  }

  /** The output of `<dir>\<base>.dat` is `<out>\<base>.stl` whenever the base
      name holds a character other than a dot; it does not depend on the
      directory, so equal names in two allowed folders share one output. */
  lemma OutputPathOfDat(outputFolder: string, dir: string, base: string)
    requires Sep !in base
    requires !AllDots(base)
    ensures OutputPath(outputFolder, Join(dir, base + ".dat")) == Join(outputFolder, base + ".stl")
  {
    assert Sep !in base + ".dat";
    BasenameOfJoin(dir, base + ".dat");
    assert base + ".dat" == base + "." + "dat";
    StemOfExtension(base, "dat");
  }

  /** The conversion loop's state: the events so far and the output paths
      that exist. */
  datatype Progress = Progress(log: seq<Event>, outputs: set<string>)

  /** One iteration of the conversion loop (lines 57-83). */
  function Step(pr: Progress, filePath: string, outputFolder: string, ldviewPath: string,
                run: seq<string> -> Outcome): Progress
  {
    var outputPath := OutputPath(outputFolder, filePath);
    if outputPath in pr.outputs then
      Progress(pr.log + [Skipped(filePath, outputPath)], pr.outputs)
    else
      var command := Command(ldviewPath, filePath, outputPath);
      var outcome := run(command);
      Progress(pr.log + [Attempted(filePath, outputPath, command, outcome)],
               if outcome == Ok then pr.outputs + {outputPath} else pr.outputs)
  }

  /** The conversion loop run over the files in the order `order`, starting
      from the outputs in `existing`. */
  function RunPlan(order: seq<string>, outputFolder: string, ldviewPath: string,
                   existing: set<string>, run: seq<string> -> Outcome): Progress
  {
    if order == [] then Progress([], existing)
    else Step(RunPlan(order[..|order| - 1], outputFolder, ldviewPath, existing, run),
              order[|order| - 1], outputFolder, ldviewPath, run)
  }

  /** The outputs that the successful conversions of a log wrote. */
  function Written(log: seq<Event>): set<string>
  {
    if log == [] then {}
    else
      var e := log[|log| - 1];
      Written(log[..|log| - 1]) + (if e.Attempted? && e.outcome == Ok then {e.output} else {})
  }

  /** Event `k` of the log is a successful conversion that wrote `out`. */
  ghost predicate WroteAt(log: seq<Event>, k: int, out: string)
  {
    0 <= k < |log| && log[k].Attempted? && log[k].outcome == Ok && log[k].output == out
  }

  /** A path is written by a log exactly when one of its events is a
      successful conversion to that path. */
  lemma {:induction false} WrittenMembers(log: seq<Event>, out: string)
    ensures out in Written(log) <==> exists k :: WroteAt(log, k, out)
  {
    if log != [] {
      var init := log[..|log| - 1];
      WrittenMembers(init, out);
      if out in Written(init) {
        var k :| WroteAt(init, k, out);
        assert WroteAt(log, k, out);
      } else if out in Written(log) {
        assert WroteAt(log, |log| - 1, out);
      }
      if exists k :: WroteAt(log, k, out) {
        var k :| WroteAt(log, k, out);
        if k < |init| {
          assert WroteAt(init, k, out);
        } else {
          assert log[..|log| - 1] == init;
        }
      }
    }
  }

  /** One event per file: the loop never stops early, whatever the outcomes. */
  lemma {:induction false} RunPlanLength(order: seq<string>, outputFolder: string, ldviewPath: string,
                                         existing: set<string>, run: seq<string> -> Outcome)
    ensures |RunPlan(order, outputFolder, ldviewPath, existing, run).log| == |order|
  {
    if order != [] {
      RunPlanLength(order[..|order| - 1], outputFolder, ldviewPath, existing, run);
    }
  }

  /** Running the loop over a prefix of the files gives a prefix of the log. */
  lemma {:induction false} RunPlanPrefix(order: seq<string>, outputFolder: string, ldviewPath: string,
                                         existing: set<string>, run: seq<string> -> Outcome, n: nat)
    requires n <= |order|
    ensures |RunPlan(order, outputFolder, ldviewPath, existing, run).log| == |order|
    ensures RunPlan(order[..n], outputFolder, ldviewPath, existing, run).log
            == RunPlan(order, outputFolder, ldviewPath, existing, run).log[..n]
    decreases |order|
  {
    RunPlanLength(order, outputFolder, ldviewPath, existing, run);
    if n < |order| {
      var init := order[..|order| - 1];
      RunPlanPrefix(init, outputFolder, ldviewPath, existing, run, n);
      assert init[..n] == order[..n];
    } else {
      assert order[..n] == order;
    }
  }

  /** The outputs after the loop are those that existed before plus those
      the successful conversions wrote. */
  lemma {:induction false} RunPlanOutputs(order: seq<string>, outputFolder: string, ldviewPath: string,
                                          existing: set<string>, run: seq<string> -> Outcome)
    ensures var r := RunPlan(order, outputFolder, ldviewPath, existing, run);
            r.outputs == existing + Written(r.log)
  {
    if order != [] {
      var init := order[..|order| - 1];
      var p := RunPlan(init, outputFolder, ldviewPath, existing, run);
      RunPlanOutputs(init, outputFolder, ldviewPath, existing, run);
      StepShape(p, order[|order| - 1], outputFolder, ldviewPath, run);
    }
  }

  /** One step appends one event and adds to the outputs exactly what that
      event wrote. */
  lemma StepShape(pr: Progress, filePath: string, outputFolder: string, ldviewPath: string,
                  run: seq<string> -> Outcome)
    ensures var s := Step(pr, filePath, outputFolder, ldviewPath, run);
      var e := s.log[|s.log| - 1];
      && |s.log| == |pr.log| + 1 && s.log[..|pr.log|] == pr.log
      && s.outputs == pr.outputs + (if e.Attempted? && e.outcome == Ok then {e.output} else {})
  {
    var out := OutputPath(outputFolder, filePath);
    if out !in pr.outputs {
      var command := Command(ldviewPath, filePath, out);
      assert Step(pr, filePath, outputFolder, ldviewPath, run).log
          == pr.log + [Attempted(filePath, out, command, run(command))];
    }
  }

  /** The loop over the first `k + 1` files is the loop over the first `k`
      followed by one step on file `k`. */
  lemma RunPlanSnoc(order: seq<string>, outputFolder: string, ldviewPath: string,
                    existing: set<string>, run: seq<string> -> Outcome, k: nat)
    requires k < |order|
    ensures RunPlan(order[..k + 1], outputFolder, ldviewPath, existing, run)
            == Step(RunPlan(order[..k], outputFolder, ldviewPath, existing, run),
                    order[k], outputFolder, ldviewPath, run)
  {
    assert order[..k + 1][..k] == order[..k];
  }

  /** Event `k` is the step taken on file `k` from the state the first `k`
      files left. */
  lemma RunPlanAt(order: seq<string>, outputFolder: string, ldviewPath: string,
                  existing: set<string>, run: seq<string> -> Outcome, k: nat)
    requires k < |order|
    ensures var r := RunPlan(order, outputFolder, ldviewPath, existing, run);
      var before := RunPlan(order[..k], outputFolder, ldviewPath, existing, run);
      && |r.log| == |order|
      && before.log == r.log[..k]
      && before.outputs == existing + Written(r.log[..k])
      && r.log[k] == Step(before, order[k], outputFolder, ldviewPath, run).log[k]
  {
    var r := RunPlan(order, outputFolder, ldviewPath, existing, run);
    var upto := RunPlan(order[..k + 1], outputFolder, ldviewPath, existing, run);
    RunPlanPrefix(order, outputFolder, ldviewPath, existing, run, k);
    RunPlanPrefix(order, outputFolder, ldviewPath, existing, run, k + 1);
    RunPlanOutputs(order[..k], outputFolder, ldviewPath, existing, run);
    RunPlanSnoc(order, outputFolder, ldviewPath, existing, run, k);
    assert upto.log == r.log[..k + 1];
    assert r.log[k] == upto.log[k];
  }

  /** The event one step appends: a skip when the output exists, otherwise
      one LDView run. */
  lemma StepEvent(pr: Progress, filePath: string, outputFolder: string, ldviewPath: string,
                  run: seq<string> -> Outcome)
    ensures var out := OutputPath(outputFolder, filePath);
      var command := Command(ldviewPath, filePath, out);
      var e := Step(pr, filePath, outputFolder, ldviewPath, run).log[|pr.log|];
      if out in pr.outputs then e == Skipped(filePath, out)
      else e == Attempted(filePath, out, command, run(command))
  {
  }

  /** A path is written by the first `k` events exactly when one of them
      is a successful conversion to it. */
  lemma WrittenBefore(log: seq<Event>, k: nat, out: string)
    requires k <= |log|
    ensures out in Written(log[..k]) <==> exists k' :: 0 <= k' < k && WroteAt(log, k', out)
  {
    var prefix := log[..k];
    WrittenMembers(prefix, out);
    if exists k' :: 0 <= k' < k && WroteAt(log, k', out) {
      var k' :| 0 <= k' < k && WroteAt(log, k', out);
      assert WroteAt(prefix, k', out);
    }
    if exists k' :: WroteAt(prefix, k', out) {
      var k' :| WroteAt(prefix, k', out);
      assert WroteAt(log, k', out);
    }
  }

  /** What happens to the `k`-th file: it is skipped exactly when its output
      existed before the run or a conversion of an earlier file wrote it;
      otherwise LDView is run once on the fixed seven-argument command line,
      whatever happened to the files before it. */
  lemma RunPlanEvent(order: seq<string>, outputFolder: string, ldviewPath: string,
                     existing: set<string>, run: seq<string> -> Outcome, k: nat)
    requires k < |order|
    ensures var r := RunPlan(order, outputFolder, ldviewPath, existing, run);
      var out := OutputPath(outputFolder, order[k]);
      var command := Command(ldviewPath, order[k], out);
      && |r.log| == |order|
      && if out in existing || exists k' :: 0 <= k' < k && WroteAt(r.log, k', out)
         then r.log[k] == Skipped(order[k], out)
         else r.log[k] == Attempted(order[k], out, command, run(command))
  {
    var r := RunPlan(order, outputFolder, ldviewPath, existing, run);
    var before := RunPlan(order[..k], outputFolder, ldviewPath, existing, run);
    RunPlanAt(order, outputFolder, ldviewPath, existing, run, k);
    StepEvent(before, order[k], outputFolder, ldviewPath, run);
    WrittenBefore(r.log, k, OutputPath(outputFolder, order[k]));
  }

  /** No output file is written twice: once a conversion has produced a
      path, every later file that maps to the same path is skipped. */
  lemma NoSecondConversion(order: seq<string>, outputFolder: string, ldviewPath: string,
                           existing: set<string>, run: seq<string> -> Outcome, k1: nat, k2: nat)
    requires k1 < k2 < |order|
    requires WroteAt(RunPlan(order, outputFolder, ldviewPath, existing, run).log, k1,
                     OutputPath(outputFolder, order[k2]))
    ensures var r := RunPlan(order, outputFolder, ldviewPath, existing, run);
            |r.log| == |order| && r.log[k2] == Skipped(order[k2], OutputPath(outputFolder, order[k2]))
  {
    RunPlanEvent(order, outputFolder, ldviewPath, existing, run, k2);
  }

  /** The conversion loop (lines 57-83) over the collected set, visited in
      the order in which the set happens to be iterated, returned as
      `order`. Every collected path is visited exactly once. */
  method ConvertAll(datFiles: set<string>, outputFolder: string, ldviewPath: string,
                    existing: set<string>, run: seq<string> -> Outcome)
    returns (order: seq<string>, log: seq<Event>, outputs: set<string>)
    ensures Distinct(order) && Elems(order) == datFiles
    ensures Progress(log, outputs) == RunPlan(order, outputFolder, ldviewPath, existing, run)
  {
    order, log, outputs := [], [], existing;
    var remaining := datFiles;
    while remaining != {}
      invariant Distinct(order)
      invariant Elems(order) + remaining == datFiles
      invariant Elems(order) !! remaining
      invariant Progress(log, outputs) == RunPlan(order, outputFolder, ldviewPath, existing, run)
      decreases remaining
    {
      var filePath :| filePath in remaining;
      remaining := remaining - {filePath};
      ghost var visited := order;
      order := order + [filePath];
      assert order[..|order| - 1] == visited;
      assert filePath !in Elems(visited);
      assert Elems(order) == Elems(visited) + {filePath};
      assert Distinct(order) by {
        forall i, j | 0 <= i < j < |order| ensures order[i] != order[j] {
          if j == |visited| {
            assert order[i] in Elems(visited);
          } else {
            assert order[i] == visited[i] && order[j] == visited[j];
          }
        }
      }
      var outputPath := OutputPath(outputFolder, filePath);
      if outputPath in outputs {
        log := log + [Skipped(filePath, outputPath)];
        continue;
      }
      var command := Command(ldviewPath, filePath, outputPath);
      var outcome := run(command);
      log := log + [Attempted(filePath, outputPath, command, outcome)];
      if outcome == Ok {
        outputs := outputs + {outputPath};
      }
    }
  }

  /** `convert_dat_from_specific_folders_to_stl_with_ldview` from the
      collection passes on: the list of the first pass is discarded, the set
      of the second is converted, and when it is empty the function returns
      before converting anything. */
  method ConvertDatFolders(walk: seq<WalkEntry>, outputFolder: string, allowed: seq<string>,
                           ldviewPath: string, existing: set<string>, run: seq<string> -> Outcome)
    returns (order: seq<string>, log: seq<Event>, outputs: set<string>)
    ensures Distinct(order) && Elems(order) == Elems(DatList(walk, allowed))
    ensures Progress(log, outputs) == RunPlan(order, outputFolder, ldviewPath, existing, run)
    ensures DatList(walk, allowed) == [] ==> log == [] && outputs == existing
  {
    var firstPass := CollectDatList(walk, allowed);
    var datFiles := CollectDatSet(walk, allowed);
    if datFiles == {} {
      return [], [], existing;
    }
    order, log, outputs := ConvertAll(datFiles, outputFolder, ldviewPath, existing, run);
  }
}
