# LEGO part renderer and dataset splitter, modelled in Dafny

The repository turns LDraw part files into labelled training images for a
LEGO brick classifier. Four scripts make up its pipeline, and this project
models each one:

- `scripts/ldview_convert.py` walks an LDraw library. It collects the `.dat`
  part files of a few allowed folders, skipping sub-part and pattern files
  (names holding `s0`, `--` or `p0`). It runs LDView once per file to
  export `<out>\<stem>.stl`, and skips any file whose STL already exists.
- `scripts/blender_render.py` runs inside Blender:
  - it clears the scene, then adds a camera and a sun lamp;
  - it reads a comma-separated whitelist of part names;
  - for every `.stl` file whose case-folded, stripped stem is on the
    whitelist, it imports the mesh;
  - it renders the mesh at 91 rotations into
    `<out>\<name>\<name>_view_<i>.png`, then removes it.
- `render_stls.py` is the simpler variant. It adds a camera and renders
  every `.stl` file at 8 fixed rotations into `<out>\<stem>_view_<i>.png`.
- `scripts/lego_scanner.py` (lines 12-64) prepares an image-classification
  dataset:
  - it empties (or creates) `<output>\train` and `<output>\val`;
  - it mirrors every class folder of the rendered dataset into both;
  - it shuffles each class's `.png`/`.jpg`/`.jpeg` images and copies the
    first `int(0.8 * n)` to `train`, the rest to `val`.

## Modules

- **Pure modules**, written as functions and lemmas: the Python string and
  path built-ins the scripts rely on.
  - `Text`: `endswith`, `in`, `strip`, `lower`, `split(',')`, decimal
    formatting.
  - `Paths`: `os.path.join`, `os.path.basename`, `os.path.splitext`, and the
    `<stem>_view_<i>.png` names.
- **Stateful classes**, for the two kinds of state the scripts change:
  - `Scenes.Studio` is a Blender session: its objects, their rotations,
    the render output path, the images written so far, and the directories
    created.
  - `Files.FileSystem` is a tree of directories and files.
- **One module per script**:
  - Its loops become methods whose `ensures` tie the final state to a
    specification function, such as `PlannedShots`, `RunPlan` or
    `SplitFiles`.
  - Lemmas prove what the pipeline relies on: which files are processed,
    that no two images share a path under stated conditions, that every
    image lands in exactly one of `train` and `val`, and that the dataset
    itself is untouched.

Inputs the scripts get from outside are parameters of the model:

- directory listings (in the order `os.listdir` returns them) and the
  `os.walk` sequence;
- the whitelist text;
- the outcome of running LDView, as a function from command line to
  outcome;
- the random source of `random.shuffle`, as `rng: nat -> nat`.

Paths are strings joined with `\` (the scripts run on Windows), except in
`Files`, where a path is a sequence of names.

## Model

| member | source | states |
|---|---|---|
| Text.EndsWith | scripts/ldview_convert.py:30 | `s.endswith(suffix)`: the last `len(suffix)` characters of `s` are `suffix`, false when `s` is shorter; the same test filters `.stl` files (`scripts/blender_render.py:52`, `render_stls.py:19`) and images (`scripts/lego_scanner.py:45`) |
| Text.ContainsIff | scripts/ldview_convert.py:30 | `x in name` holds exactly when `x` occurs at some index of `name` |
| Text.IsSpace | scripts/blender_render.py:20 | the characters `str.isspace()` accepts, which `str.strip()` removes: ASCII space, tab to carriage return, the separators 0x1C-0x1F, and the Unicode spaces and line and paragraph separators (also `scripts/blender_render.py:53`) |
| Text.SkipSpaces | scripts/blender_render.py:20 | the index where leading whitespace ends lies between the start index and the end |
| Text.SkipSpacesSpec | scripts/blender_render.py:20 | every skipped character is whitespace, and the character where skipping stops is not |
| Text.SkipSpacesBack | scripts/blender_render.py:20 | the index where trailing whitespace begins lies between the lower bound and the end |
| Text.SkipSpacesBackSpec | scripts/blender_render.py:20 | every character skipped from the back is whitespace, and the one before the stop is not |
| Text.Strip | scripts/blender_render.py:20 | `str.strip()` never lengthens a string |
| Text.StripSpec | scripts/blender_render.py:20 | the stripped string is the slice between the first and last non-whitespace characters, and it neither starts nor ends with whitespace |
| Text.StripTrimmed | scripts/blender_render.py:53 | stripping a string that neither starts nor ends with whitespace leaves it unchanged |
| Text.StripIdempotent | scripts/blender_render.py:20 | stripping twice is stripping once |
| Text.Lower | scripts/blender_render.py:20 | `lower()` keeps the length |
| Text.LowerFacts | scripts/blender_render.py:20 | lowering is idempotent and keeps which positions are whitespace |
| Text.Normalize | scripts/blender_render.py:20 | the normal form of a name is `name.strip().lower()`, the form both the whitelist and the object names are compared in |
| Text.NormalizeIdempotent | scripts/blender_render.py:53 | `strip().lower()` applied twice equals once, so a normalized name is its own normal form |
| Text.IndexFrom | scripts/blender_render.py:20 | the search for a separator from a position stays within the string |
| Text.IndexFromSpec | scripts/blender_render.py:20 | no separator occurs before the index found, and the index is the separator when inside the string |
| Text.IndexFromUnique | scripts/blender_render.py:20 | any index with no separator before it and a separator (or the end) at it is the one found |
| Text.IndexOf | scripts/blender_render.py:20 | the first separator is at most the length |
| Text.IndexOfSpec | scripts/blender_render.py:20 | the first separator has no separator before it |
| Text.IndexOfUnique | scripts/blender_render.py:20 | the first separator is unique |
| Text.IndexOfConcat | scripts/blender_render.py:20 | the first separator of `a + b` is the one of `a`, or lies in `b` when `a` has none |
| Text.Split | scripts/blender_render.py:20 | `split(',')` returns at least one field |
| Text.SplitNoSep | scripts/blender_render.py:20 | no field holds a comma |
| Text.SplitJoin | scripts/blender_render.py:20 | joining the fields with commas gives back the text |
| Text.SplitAppend | scripts/blender_render.py:20 | splitting `a,b` gives the fields of `a` followed by those of `b` |
| Text.NatToString | scripts/blender_render.py:97 | the decimal form of `i` is nonempty, all digits, and has no leading zero |
| Text.ParseNatToString | scripts/blender_render.py:97 | reading the decimal form back gives the number |
| Text.NatToStringInjective | scripts/blender_render.py:97 | distinct view indices have distinct decimal forms |
| Seqs.Enumerate | scripts/ldview_convert.py:57 | iterating a set visits each element exactly once, in some order |
| Paths.LastIndexBefore | scripts/ldview_convert.py:58 | the last separator before `n` is `-1` or an index below `n` |
| Paths.LastIndexBeforeSpec | scripts/ldview_convert.py:58 | the index found holds the separator, and none lies between it and `n` |
| Paths.LastIndexOf | scripts/ldview_convert.py:58 | the last separator is `-1` or an index of the string |
| Paths.LastIndexOfSpec | scripts/ldview_convert.py:58 | the index found holds the separator, and none follows it |
| Paths.LastIndexOfUnique | scripts/ldview_convert.py:58 | a separator with no separator after it is the last one |
| Paths.Basename | scripts/ldview_convert.py:58 | `os.path.basename` is no longer than the path |
| Paths.BasenameSpec | scripts/ldview_convert.py:58 | the base name is a separator-free suffix of the path, preceded by a separator unless it is the whole path |
| Paths.Join | scripts/ldview_convert.py:31 | `os.path.join(dir, name)` as `dir\name`, the join used at every path the scripts build (`scripts/ldview_convert.py:40,59`, `scripts/blender_render.py:61,72,98`, `render_stls.py:20,43`, `scripts/lego_scanner.py:13-14,19,37-62`); it is undone by `Paths.BasenameOfJoin` and cancelled by `Paths.JoinCancel` and `Paths.JoinSplit` |
| Paths.BasenameOfJoin | scripts/ldview_convert.py:58 | the base name of `join(dir, name)` is `name` when `name` holds no separator |
| Paths.Stem | scripts/ldview_convert.py:59 | `splitext(name)[0]` is no longer than the name |
| Paths.StemSpec | scripts/ldview_convert.py:59 | the stem is a prefix of the name; it is the whole name, or a dot follows it, with no dot after that and the stem not all dots |
| Paths.StemOfExtension | scripts/ldview_convert.py:59 | `splitext(base + "." + ext)[0] == base` when `ext` has no dot and `base` is not all dots |
| Paths.StemOfDotName | scripts/blender_render.py:53 | a name whose part before its last dot is all dots has no extension: its stem is the whole name |
| Paths.ViewName | scripts/blender_render.py:97 | the image name `f"{name}_view_{i}.png"`, with `i` in decimal |
| Paths.ViewNameInjective | scripts/blender_render.py:97 | `f"{name}_view_{i}.png"` determines both the name and `i` |
| Paths.JoinCancel | scripts/blender_render.py:98 | joining two names onto the same directory gives equal paths only for equal names |
| Paths.JoinSplit | scripts/blender_render.py:98 | two joins with separator-free heads are equal only when heads and tails are equal |
| Scenes.DistinctPathsAppend | scripts/blender_render.py:97-100 | image lists with distinct paths and no shared path concatenate to one with distinct paths |
| Scenes.FlattenDistinctPaths | scripts/blender_render.py:94-100 | per-object image lists with distinct paths and no path shared between objects flatten to distinct paths |
| Scenes.Studio.constructor | scripts/blender_render.py:1-9 | a session starts with its startup objects, no rotations, no images and nothing imported |
| Scenes.Studio.DeleteAll | scripts/blender_render.py:8-9 | selecting all and deleting leaves an empty scene and changes nothing else |
| Scenes.Studio.Link | scripts/blender_render.py:26 | linking adds exactly that object to the scene |
| Scenes.Studio.Rotate | scripts/blender_render.py:96 | setting `rotation_euler` changes that object's rotation only |
| Scenes.Studio.ImportStl | scripts/blender_render.py:62-63 | importing adds one new mesh, tagged with its file and numbered by import order |
| Scenes.Studio.Remove | scripts/blender_render.py:104 | removing an object drops it and its rotation from the scene |
| Scenes.Studio.SetOutput | scripts/blender_render.py:99 | the render output path becomes the given path |
| Scenes.Studio.Render | scripts/blender_render.py:100 | rendering appends one image of the current scene at the current output path |
| Scenes.Studio.MakeDirs | scripts/blender_render.py:73 | `makedirs(d, exist_ok=True)` leaves `d` among the existing directories |
| Files.AncestorsAreDirs | scripts/lego_scanner.py:20-23 | in a well-formed tree every proper prefix of an existing path is a directory |
| Files.NothingBelowNonDir | scripts/lego_scanner.py:20-23 | nothing exists below a path that is not a directory |
| Files.ChildNamesIff | scripts/lego_scanner.py:18 | a name is listed in `d` exactly when `d\name` is a directory or a file |
| Files.BelowListed | scripts/lego_scanner.py:18 | everything below `d` lies under one of the names listed in `d` |
| Files.UnderChild | scripts/lego_scanner.py:19-21 | a path is under `d\x` exactly when it is below `d` through entry `x` |
| Files.PrefixesOfChild | scripts/lego_scanner.py:39 | the directories `makedirs(d\x)` needs are those of `d` plus `d\x` |
| Files.DirPrefixes | scripts/lego_scanner.py:39 | an existing directory has all its ancestors as directories and no file on its path |
| Files.NoFileOnChild | scripts/lego_scanner.py:39 | when no file blocks `d`, `d\x` is blocked only by a file named `d\x` |
| Files.FileSystem.constructor | scripts/lego_scanner.py:9-10 | a file system starts from a well-formed tree |
| Files.FileSystem.ListDir | scripts/lego_scanner.py:18 | `os.listdir` fails exactly on non-directories, and otherwise lists every entry once |
| Files.FileSystem.RemoveTree | scripts/lego_scanner.py:21 | `shutil.rmtree` removes the directory and everything under it and nothing else |
| Files.FileSystem.Remove | scripts/lego_scanner.py:23 | `os.remove` removes exactly that file |
| Files.FileSystem.MakeDirs | scripts/lego_scanner.py:29 | `makedirs` creates the path and its ancestors, failing exactly when a file blocks the path or it exists and `exist_ok` is false |
| Files.FileSystem.Copy | scripts/lego_scanner.py:59 | `shutil.copy` succeeds exactly when the source is a file and the target's parent is a directory, and writes the source's bytes to the target |
| LdviewConvert.Selected | scripts/ldview_convert.py:30 | the file-name test: ends in ".dat" and contains none of "s0", "--", "p0" |
| LdviewConvert.SelectedIff | scripts/ldview_convert.py:30 | a name is converted exactly when it ends in ".dat" and holds none of "s0", "--", "p0" |
| LdviewConvert.KeptPathsMembers | scripts/ldview_convert.py:29-31 | the inner loop keeps exactly `join(root, name)` for the selected names |
| LdviewConvert.DatListMembers | scripts/ldview_convert.py:26-31 | a path is collected exactly when some walk step in an allowed folder holds a selected name joining to it |
| LdviewConvert.CollectDatList | scripts/ldview_convert.py:25-31 | the first pass builds the collected list, in walk order with duplicates |
| LdviewConvert.CollectDatSet | scripts/ldview_convert.py:34-42 | the second pass holds exactly the paths of the first pass, each once |
| LdviewConvert.OutputPath | scripts/ldview_convert.py:58-59 | the STL path of a part file: the output folder joined with the stem of its base name plus ".stl" |
| LdviewConvert.Command | scripts/ldview_convert.py:67-75 | the seven LDView arguments: executable, input file, `-ExportFile=<output>`, `-ExportFormat=STL`, `-AutoCrop`, `-SaveWidth=800`, `-SaveHeight=600` |
| LdviewConvert.Step | scripts/ldview_convert.py:58-83 | one iteration: skip when the output path exists, else run the command and record its outcome, the output existing afterwards only on success |
| LdviewConvert.RunPlan | scripts/ldview_convert.py:57-83 | the conversion loop as a fold of `Step` over the files in iteration order, from the outputs that existed before |
| LdviewConvert.OutputPathOfDat | scripts/ldview_convert.py:58-59 | for a base name with no separator that is not all dots, `<dir>\<base>.dat` converts to `<out>\<base>.stl`, whatever the directory (the file `.dat` instead goes to `<out>\.dat.stl`) |
| LdviewConvert.WrittenMembers | scripts/ldview_convert.py:78-79 | an output is written exactly when some event is a successful conversion to it |
| LdviewConvert.RunPlanLength | scripts/ldview_convert.py:57-83 | the loop records one event per file: no outcome stops it early |
| LdviewConvert.RunPlanPrefix | scripts/ldview_convert.py:57-83 | running over a prefix of the files gives the matching prefix of the events |
| LdviewConvert.RunPlanOutputs | scripts/ldview_convert.py:62-79 | the outputs after the loop are the ones existing before plus the ones written |
| LdviewConvert.StepShape | scripts/ldview_convert.py:57-83 | each iteration appends one event and adds only the output it wrote successfully |
| LdviewConvert.RunPlanSnoc | scripts/ldview_convert.py:57 | the loop over `k + 1` files is the loop over `k` files followed by one iteration |
| LdviewConvert.RunPlanAt | scripts/ldview_convert.py:57-83 | event `k` is decided by the outputs existing before plus those written by events before `k` |
| LdviewConvert.StepEvent | scripts/ldview_convert.py:62-78 | an iteration skips when the STL exists and otherwise runs exactly the LDView command line |
| LdviewConvert.WrittenBefore | scripts/ldview_convert.py:62 | an output exists among those written before `k` exactly when an earlier event wrote it |
| LdviewConvert.RunPlanEvent | scripts/ldview_convert.py:57-83 | file `k` is skipped exactly when its STL existed or an earlier file converted to it, and otherwise is converted |
| LdviewConvert.NoSecondConversion | scripts/ldview_convert.py:62-64 | once a file's STL has been written, a later file with the same output is skipped |
| LdviewConvert.ConvertAll | scripts/ldview_convert.py:57-83 | the loop visits every collected file once, and its events and outputs are the loop's specification in that order |
| LdviewConvert.ConvertDatFolders | scripts/ldview_convert.py:24-83 | the whole function converts each collected path once and does nothing when none is found |
| BlenderRender.ParseWhitelist | scripts/blender_render.py:19-20 | the whitelist is the set of normalized comma-separated fields of the file text |
| BlenderRender.WhitelistField | scripts/blender_render.py:20 | a comma-free text is a whitelist of its one normalized name |
| BlenderRender.WhitelistAppend | scripts/blender_render.py:20 | the whitelist of `a,b` is the union of the whitelists of `a` and `b` |
| BlenderRender.WhitelistTrailingComma | scripts/blender_render.py:20 | a trailing comma puts the empty name on the whitelist |
| BlenderRender.WhitelistNormalized | scripts/blender_render.py:20 | every whitelisted name is stripped and lower-case |
| BlenderRender.ObjectName | scripts/blender_render.py:53 | an STL file is known by `splitext(file)[0].strip().lower()` |
| BlenderRender.Accepted | scripts/blender_render.py:52-58 | a file is rendered when its name ends in ".stl" and its object name is whitelisted |
| BlenderRender.AcceptedJobsIff | scripts/blender_render.py:51-58 | a file is rendered under a name exactly when it is listed, ends in ".stl", its normalized stem is whitelisted and the name is that stem |
| BlenderRender.AcceptedJobsStep | scripts/blender_render.py:51-58 | each listing entry adds one job when accepted and none otherwise |
| BlenderRender.ObjectFoldersSnoc | scripts/blender_render.py:72-73 | each rendered object adds exactly its own folder |
| BlenderRender.ShotsStep | scripts/blender_render.py:51-105 | a rendered file appends its views to the planned images, and a skipped one leaves them unchanged |
| BlenderRender.StateStep | scripts/blender_render.py:51-105 | after each entry the import count, the folders made and the output path agree with the accepted prefix |
| BlenderRender.AnglesRepeat | scripts/blender_render.py:81-92 | the table has 91 rotations, and four of them appear twice (views 31-34 equal views 51-54) |
| BlenderRender.ObjectFolder | scripts/blender_render.py:72 | the folder of one object's images is `<out>\<name>`, which `RenderObject` creates and `ViewPath` writes into |
| BlenderRender.ViewPath | scripts/blender_render.py:72-98 | view `i` of object `name` goes to `<out>\<name>\<name>_view_<i>.png` |
| BlenderRender.Views | scripts/blender_render.py:94-100 | the images of one object: view `i` shows the camera, the lamp and the mesh turned to table entry `i` |
| BlenderRender.PlannedShots | scripts/blender_render.py:51-105 | the images of a run: the views of each accepted file in listing order, the meshes numbered by import order |
| BlenderRender.ViewPathsOfObjectDiffer | scripts/blender_render.py:97-98 | the views of one object go to distinct paths |
| BlenderRender.ViewPathInjective | scripts/blender_render.py:72-98 | a view path determines the object name and the view index |
| BlenderRender.ObjectNameNoSep | scripts/blender_render.py:53 | a name from a separator-free file name holds no separator |
| BlenderRender.AcceptedNamesNoSep | scripts/blender_render.py:51-53 | no accepted object name holds a separator when the listing's names hold none |
| BlenderRender.CaseFoldedNamesMeet | scripts/blender_render.py:53 | "A.stl" and "a .stl" normalize to the same object name, so they render to the same paths |
| BlenderRender.PlannedShotsLength | scripts/blender_render.py:94-100 | each rendered object contributes one image per rotation |
| BlenderRender.PlannedShotsSnoc | scripts/blender_render.py:51-105 | one more object appends exactly its views |
| BlenderRender.PlannedShotsAround | scripts/blender_render.py:51-105 | the images of object `k` sit between those of the objects before and after it |
| BlenderRender.ViewsMember | scripts/blender_render.py:94-100 | every image of one object is one of its views |
| BlenderRender.PlannedShotIsView | scripts/blender_render.py:51-105 | every image is view `i` of some rendered object `k` |
| BlenderRender.ViewIsPlanned | scripts/blender_render.py:51-105 | every view of every rendered object is among the images |
| BlenderRender.PlannedShotsMembers | scripts/blender_render.py:51-105 | the images are exactly the views of the rendered objects |
| BlenderRender.ViewsDistinctPaths | scripts/blender_render.py:94-100 | one object's images have distinct paths |
| BlenderRender.ViewsOfNamesDiffer | scripts/blender_render.py:72-98 | objects with different separator-free names never share an image path |
| BlenderRender.ShotPathsDistinct | scripts/blender_render.py:51-105 | when the rendered names are distinct and separator-free, no image overwrites another |
| BlenderRender.SameNameCollides | scripts/blender_render.py:72-98 | two rendered objects under one name write to the same paths, so the distinct names `ShotPathsDistinct` asks for are needed |
| BlenderRender.SameObjectNameCollides | scripts/blender_render.py:51-98 | two different accepted files with one object name, such as "A.stl" and "a .stl", make the run overwrite images |
| BlenderRender.SkippedLeavesNothing | scripts/blender_render.py:56-58 | a non-whitelisted file gets no folder and no image |
| BlenderRender.ViewsSnoc | scripts/blender_render.py:94 | the views up to `i + 1` are those up to `i` and then view `i` |
| BlenderRender.RenderView | scripts/blender_render.py:95-100 | one view sets the object's rotation and the output path, then appends exactly that view's image |
| BlenderRender.RenderViews | scripts/blender_render.py:94-101 | the view loop appends one object's views in order and leaves the last rotation set |
| BlenderRender.RenderObject | scripts/blender_render.py:60-105 | one object is imported, gets its folder, is rendered at every rotation and is removed, restoring the scene |
| BlenderRender.RenderStep | scripts/blender_render.py:52-105 | one listing entry renders exactly when it is accepted, and otherwise changes nothing |
| BlenderRender.RenderListing | scripts/blender_render.py:50-105 | the loop renders the accepted files in listing order and ends with `object_id` one above their count |
| BlenderRender.RenderWhitelisted | scripts/blender_render.py:6-107 | the script leaves only camera and lamp, makes the output and object folders, and writes exactly the planned images |
| RenderStls.StlFiles | render_stls.py:18-19 | the files the loop renders: the listed names ending in ".stl", in listing order |
| RenderStls.ObjectAnglesDistinct | render_stls.py:30-39 | the table has eight rotations, all different |
| RenderStls.StlFilesIff | render_stls.py:18-19 | a file is rendered exactly when it is listed and ends in ".stl" |
| RenderStls.StlFilesStep | render_stls.py:18-19 | each listing entry adds itself when it ends in ".stl" and nothing otherwise |
| RenderStls.StlFilesDistinct | render_stls.py:18-19 | a listing without repeats renders no file twice |
| RenderStls.PlannedShots | render_stls.py:18-48 | the images of a run: the eight views of each ".stl" file in listing order, over the scene as it stood before the loop |
| RenderStls.PlannedShotsLength | render_stls.py:30-45 | each file contributes exactly 8 images |
| RenderStls.PlannedShotsSnoc | render_stls.py:18-48 | one more file appends exactly its 8 views |
| RenderStls.FileViewsMember | render_stls.py:41-45 | every image of one file is one of its views |
| RenderStls.PlannedShotIsView | render_stls.py:18-48 | every image is view `i` of some rendered file `k` |
| RenderStls.ViewIsPlanned | render_stls.py:18-48 | every view of every rendered file is among the images |
| RenderStls.PlannedShotsMembers | render_stls.py:18-48 | the images are exactly the views of the rendered files |
| RenderStls.OutputFile | render_stls.py:43 | view `i` of a file goes to `<out>\<stem>_view_<i>.png`, the stem unchanged |
| RenderStls.OutputFileInjective | render_stls.py:43 | an output path determines the file's stem and the view index |
| RenderStls.StlStemsDiffer | render_stls.py:43 | distinct ".stl" names whose base is not all dots have distinct stems |
| RenderStls.DotStlNamesMeet | render_stls.py:19-43 | ".stl" and ".stl.stl" are both rendered, and to the same paths |
| RenderStls.FileViewsDistinctPaths | render_stls.py:41-45 | one file's images have distinct paths |
| RenderStls.ViewsOfStemsDiffer | render_stls.py:43 | files with different stems never share an image path |
| RenderStls.ShotPathsDistinct | render_stls.py:18-48 | when the rendered files' stems are pairwise distinct, no image overwrites another |
| RenderStls.ListingPathsDistinct | render_stls.py:18-48 | a listing without repeats and without all-dot base names yields images with distinct paths |
| RenderStls.SameStemCollides | render_stls.py:41-45 | two rendered files with one stem write to the same paths, so the distinct stems `ShotPathsDistinct` asks for are needed |
| RenderStls.SameStemFilesCollide | render_stls.py:18-45 | two different listed ".stl" files with one stem, such as ".stl" and ".stl.stl", make the run overwrite images |
| RenderStls.ShotsStep | render_stls.py:18-48 | a rendered file appends its views to the planned images, and a skipped one leaves them unchanged |
| RenderStls.StateStep | render_stls.py:18-48 | after each entry the import count and the output path agree with the ".stl" prefix |
| RenderStls.FileViewsSnoc | render_stls.py:41 | the views up to `i + 1` are those up to `i` and then view `i` |
| RenderStls.RenderFileView | render_stls.py:42-45 | one view sets the mesh's rotation and the output path, then appends that view's image |
| RenderStls.RenderFileViews | render_stls.py:41-45 | the view loop appends one file's 8 views in order |
| RenderStls.RenderFile | render_stls.py:20-48 | one file is imported, rendered at the 8 rotations and removed, restoring the scene |
| RenderStls.RenderEntry | render_stls.py:19-48 | one listing entry renders exactly when it ends in ".stl", and otherwise changes nothing |
| RenderStls.RenderListing | render_stls.py:18-48 | the loop renders the ".stl" files in listing order over an unchanged scene |
| RenderStls.RenderStlFolder | render_stls.py:6-48 | the script adds a tilted camera, makes the output folder, and writes exactly the planned images |
| LegoScanner.ClearDirectory | scripts/lego_scanner.py:17-23 | `clear_directory` fails exactly on a non-directory, and otherwise removes everything below it and keeps the directory |
| LegoScanner.RemoveEntry | scripts/lego_scanner.py:19-23 | one entry is removed with all it holds, whether directory or file |
| LegoScanner.PrepareDir | scripts/lego_scanner.py:26-34 | the tree is emptied when it exists and created otherwise, failing exactly when a file blocks its path |
| LegoScanner.IsImageName | scripts/lego_scanner.py:45 | an image is a name ending in ".png", ".jpg" or ".jpeg", the case compared as written |
| LegoScanner.ImageNameExamples | scripts/lego_scanner.py:45 | ".png", ".jpg" and ".jpeg" names are images; upper-case and other extensions are not |
| LegoScanner.ImageFiles | scripts/lego_scanner.py:45 | the filter keeps exactly the listed image names |
| LegoScanner.ImageFilesDistinct | scripts/lego_scanner.py:45 | the filter keeps a listing's names distinct |
| LegoScanner.SubDirs | scripts/lego_scanner.py:37 | the class folders are exactly the listed names that are directories |
| LegoScanner.SubDirsDistinct | scripts/lego_scanner.py:37 | no class folder is listed twice |
| LegoScanner.TrainSize | scripts/lego_scanner.py:51 | `int(0.8 * n)` (for `n` below 2^50) is the largest `k` with `5k <= 4n`; it leaves at least one image for `val` and, from two images up, takes at least one for `train` |
| LegoScanner.TrainPart | scripts/lego_scanner.py:54 | the first `train_size` names of the shuffled list |
| LegoScanner.ValPart | scripts/lego_scanner.py:55 | the names after the first `train_size` |
| LegoScanner.SplitPartition | scripts/lego_scanner.py:51-55 | `train` and `val` together are the shuffled list, `val` has `n - train_size` images, and distinct images fall in exactly one part |
| LegoScanner.Swapped | scripts/lego_scanner.py:48 | a swap permutes the list and keeps it free of repeats |
| LegoScanner.Shuffle | scripts/lego_scanner.py:48 | the shuffle returns a permutation of the images and draws one number per position but the first |
| LegoScanner.MirroredNext | scripts/lego_scanner.py:38-40 | each class adds its folder in a tree |
| LegoScanner.MirrorClasses | scripts/lego_scanner.py:38-40 | mirroring succeeds exactly when no file blocks a class folder, and then creates each class folder in both trees |
| LegoScanner.CopyMap | scripts/lego_scanner.py:58-62 | what a copy loop writes: `dst\x` gets the bytes of `src\x` for each name `x` that is a file |
| LegoScanner.CopyMapStep | scripts/lego_scanner.py:58-59 | each copied image adds its target with the source's bytes |
| LegoScanner.CopyMapKeys | scripts/lego_scanner.py:58-62 | every copy target is `dst\x` for a copied image `x`, holding `src\x`'s bytes |
| LegoScanner.CopyMapHas | scripts/lego_scanner.py:58-62 | every copied image that exists gets its target |
| LegoScanner.CopyMapSources | scripts/lego_scanner.py:58-62 | copies depend only on the source files |
| LegoScanner.CopyMapAgree | scripts/lego_scanner.py:58-62 | copies from a class folder depend only on the dataset's files |
| LegoScanner.CopyImages | scripts/lego_scanner.py:58-62 | copying succeeds exactly when every image is a file, and then adds exactly the copies |
| LegoScanner.SplitClass | scripts/lego_scanner.py:44-62 | one class is listed, shuffled and split, with the first `train_size` images copied to `train` and the rest to `val` |
| LegoScanner.TrainDir | scripts/lego_scanner.py:13 | `train_dir` is the output folder's child `train` |
| LegoScanner.ValDir | scripts/lego_scanner.py:14 | `val_dir` is the output folder's child `val` |
| LegoScanner.SiblingTrees | scripts/lego_scanner.py:13-14 | `train` and `val` are separate trees |
| LegoScanner.PrepareOutput | scripts/lego_scanner.py:26-34 | both trees are prepared, failing exactly when a file blocks one of them |
| LegoScanner.SameUnderChildNames | scripts/lego_scanner.py:37 | a folder left unchanged lists the same entries |
| LegoScanner.Apart | scripts/lego_scanner.py:9-14 | a dataset apart from the output folder shares no path with the two trees |
| LegoScanner.PlacedAlongKeys | scripts/lego_scanner.py:58-62 | every copy lies at `train\class\image` or `val\class\image` |
| LegoScanner.PlacedAlongFrame | scripts/lego_scanner.py:43-62 | the copies depend only on the shuffled lists of the classes done |
| LegoScanner.PlacedAlongSources | scripts/lego_scanner.py:43-62 | the copies depend only on the dataset's files |
| LegoScanner.PlacedAlongNext | scripts/lego_scanner.py:43-62 | each class adds its `train` and `val` copies |
| LegoScanner.PlacedAlongApart | scripts/lego_scanner.py:58-62 | no copy lands inside the dataset |
| LegoScanner.SameUnderAfterPlacing | scripts/lego_scanner.py:58-62 | copying outside the dataset leaves every class folder unchanged |
| LegoScanner.ClassTargets | scripts/lego_scanner.py:38-44 | every class has its source folder and two empty target folders |
| LegoScanner.ClassFolderUntouched | scripts/lego_scanner.py:43-62 | splitting the earlier classes leaves the next class folder as it was |
| LegoScanner.SameUnderClass | scripts/lego_scanner.py:44-45 | an unchanged class folder lists the same images and is equally present |
| LegoScanner.SplitSoFarNext | scripts/lego_scanner.py:43-62 | splitting one more class extends the files placed so far by its copies |
| LegoScanner.ListsNext | scripts/lego_scanner.py:43-48 | each class's shuffled list holds exactly its images |
| LegoScanner.FilesNext | scripts/lego_scanner.py:43-62 | the files after one more class are those before plus its copies |
| LegoScanner.SplitNextClass | scripts/lego_scanner.py:43-62 | one iteration of the class loop keeps the split-so-far invariant |
| LegoScanner.SplitClasses | scripts/lego_scanner.py:43-62 | the class loop succeeds exactly when every class folder lists and holds its images as files, and then places every class's split |
| LegoScanner.ClassPresentIff | scripts/lego_scanner.py:45-59 | a class splits without error exactly when no image-named entry of it is a directory |
| LegoScanner.ApartFromTrees | scripts/lego_scanner.py:26-40 | dataset paths are not in the trees or their class folders |
| LegoScanner.DatasetUntouched | scripts/lego_scanner.py:26-40 | preparing the trees and mirroring the classes leaves the dataset unchanged |
| LegoScanner.SameUnderNarrow | scripts/lego_scanner.py:44 | an unchanged dataset has unchanged class folders |
| LegoScanner.ListsSame | scripts/lego_scanner.py:43-48 | the class lists agree with the original dataset when it is unchanged |
| LegoScanner.PresentSame | scripts/lego_scanner.py:43-45 | class presence agrees with the original dataset when it is unchanged |
| LegoScanner.ClassNamesOf | scripts/lego_scanner.py:37 | the class folders found are the original dataset's class folders |
| LegoScanner.PreparedTreesEmpty | scripts/lego_scanner.py:26-34 | after preparing, both trees exist and no class name is taken by a file |
| LegoScanner.MirroredShape | scripts/lego_scanner.py:37-40 | after mirroring, every class has its two empty target folders |
| LegoScanner.SplitDirs | scripts/lego_scanner.py:26-40 | the directories after the split: those left by preparing `train` and `val` (each emptied or created with its ancestors), plus one folder per class in each tree; copying adds no directory |
| LegoScanner.SplitFiles | scripts/lego_scanner.py:12-62 | the files after the split: those left by preparing the trees, plus each class's `train` and `val` copies |
| LegoScanner.Feasible | scripts/lego_scanner.py:26-62 | the run raises nothing exactly when no file stands on the path of `train` or `val` (where `makedirs` would fail), the dataset is a directory (`os.listdir` at line 37), and every image name listed in a class folder is a file (`shutil.copy` at lines 59 and 62) |
| LegoScanner.SplitDataset | scripts/lego_scanner.py:12-62 | the split succeeds exactly when feasible, and then lists each class once, shuffles exactly its images, and leaves the trees holding the class folders and copies |
| LegoScanner.ClearedIsEmpty | scripts/lego_scanner.py:17-23 | a cleared directory lists nothing |
| LegoScanner.CopyMapEntry | scripts/lego_scanner.py:58-62 | `d\x` is a copy exactly when `d` is the target folder and `x` a copied image that exists, and it holds the source's bytes |
| LegoScanner.PlacedInTrain | scripts/lego_scanner.py:54-59 | `train\c\x` is placed exactly when `x` is in the first part of class `c`'s shuffled list and exists, with the source's bytes |
| LegoScanner.PlacedInVal | scripts/lego_scanner.py:55-62 | `val\c\x` is placed exactly when `x` is in the second part of class `c`'s shuffled list and exists, with the source's bytes |
| LegoScanner.PreparedNothingBelow | scripts/lego_scanner.py:26-34 | after preparing, no file lies below either tree |
| LegoScanner.ImagePlacedOnce | scripts/lego_scanner.py:54-62 | every image of every class lands in exactly one of `train` and `val`, with its own bytes |
| LegoScanner.NothingElsePlaced | scripts/lego_scanner.py:58-62 | every file in the trees is `class\image` for an image of that class's chosen part |
| LegoScanner.DatasetKept | scripts/lego_scanner.py:12-62 | the split leaves the dataset unchanged |
| LegoScanner.TreesListClasses | scripts/lego_scanner.py:38-40 | afterwards both trees list exactly the class folders |

## Left out

- Blender's rendering itself is not modelled: lighting, materials, pixels
  and the render resolution (`scripts/blender_render.py:76-79`). An image is
  the path it went to, the objects in the scene and their rotations.
- Object and camera placement is not modelled: the camera and lamp
  locations, centring the mesh (`origin_set`), resetting its location and
  scale, and `scale_camera_to_object` (`scripts/blender_render.py:39-47`,
  `:65-70`; `render_stls.py:13`, `:25-27`). These are floating-point
  geometry that does not change which images are written or where.
- `math.radians` is not modelled: rotations stay in the whole degrees of the
  scripts' tables.
- The active camera (`bpy.context.scene.camera = camera`) is not modelled:
  an image does not record which camera took it. This matters only in
  `render_stls.py`, which does not clear the startup scene: line 15 makes
  the camera it adds the active one, over any camera the session started
  with. `scripts/blender_render.py` clears the scene first, so its camera
  is the only one.
- RenderStls.RenderStlFolder: the constructor `Camera` names the camera
  the script adds. A camera from the startup scene is an `Other(name)`
  object. A caller that passes a scene already holding `Camera` gets the
  new camera's tilt written over that object's rotation, as one map key;
  the contract does not separate the two cameras in that case.
- All `print` calls are left out. So is the debug walk of
  `scripts/ldview_convert.py:17-22`, which only prints.
- `scripts/ldview_convert.py:14-15` (`makedirs` of the output folder) is
  left out. The conversion model keeps only the set of output paths that
  exist.
- LDView itself is the parameter `run`, which maps a command line to an
  outcome. A conversion that fails is assumed to write nothing, and one
  that succeeds (`Ok`) is assumed to leave its output file. The script
  never checks that LDView wrote the file; `Step`, `RunPlanEvent` and
  `NoSecondConversion` rely on both halves.
- `os.walk` and `os.listdir` are inputs. The model does not derive them
  from a file system, except in `lego_scanner`, where `ListDir` is derived
  from `Files.FileSystem`. Their order is any order.
- The order in which Python iterates a set is chosen by `Seqs.Enumerate`
  and returned as `order`. Results are stated for that order.
- Text.Lower: `str.lower` is modelled on ASCII letters only; other letters
  are left as they are. `Text.Strip` uses Python's full whitespace set.
- LegoScanner.TrainSize: `int(0.8 * n)` is computed in floating point. It
  equals the integer `(4 * n) / 5` for every `n` below 2^50; the model does
  not state the float result for larger counts.
- Scenes.Studio.MakeDirs: the directory set of `Scenes` records only the
  folder named, not its ancestors. A file standing in its way is not
  modelled there. `Files.FileSystem.MakeDirs`, used for the dataset split,
  models both.
- `render_stls.py` does not clear the startup scene. Its images therefore
  show whatever objects the session started with. The model keeps those
  objects: `RenderStls.RenderStlFolder` states the images over
  `old(objects) + {Camera}`.
- `scripts/lego_scanner.py:66-125` (the TensorFlow model, its training and
  saving) and `model.py` are not part of this model.
- LegoScanner.SplitDataset: it requires that the dataset and the output
  folder are not inside one another (`!Under(dataset, output) &&
  !Under(output, dataset)`). The script's two hard-coded folders are
  siblings. With nested folders the clearing and copying would touch the
  dataset, and the model does not state that case.
- LegoScanner.Shuffle: `random.shuffle` is modelled as a Fisher-Yates
  shuffle drawing from `rng`. Its contract states a permutation and the
  number of draws, not the uniform distribution.
- Paths.Basename: its own contract states only the length bound. The
  suffix and separator facts are stated in `Paths.BasenameSpec`.
- Paths.LastIndexBefore, Paths.LastIndexOf, Paths.Stem, Text.IndexFrom,
  Text.IndexOf, Text.Split, Text.Strip, Text.SkipSpaces and
  Text.SkipSpacesBack: their own contracts state bounds only. Their
  meaning is stated in the lemmas beside them: the `...Spec` and
  `...Unique` lemmas, `Paths.StemSpec`, `Text.SplitJoin` and
  `Text.SplitNoSep`.
- Paths.Join: paths are compared as exact strings and joined as
  `dir + "\" + name`. Windows path rules are not modelled:
  - file names match case-insensitively;
  - `/` is a second separator;
  - `ntpath.join` does not add a separator after a part that is empty or
    already ends in one, and restarts at an absolute second part.
  The three lines below follow from this.
- LdviewConvert.StepEvent, LdviewConvert.RunPlanEvent and
  LdviewConvert.NoSecondConversion: an output counts as existing only when
  the exact string was written or existed before.
  - On Windows, `os.path.exists` at `scripts/ldview_convert.py:62` also
    finds `<out>\abc.stl` once `<out>\Abc.stl` exists.
  - So the script skips a second part file that differs only in case,
    where these lemmas say it is converted again.
- BlenderRender.ViewPath: for the empty object name (the file " .stl" with
  a whitelist ending in a comma), the script writes `<out>\_view_0.png`,
  where the model gives `<out>\\_view_0.png`. `Scenes.Studio.MakeDirs` then
  records `<out>\` as a folder of its own.
- Scenes.Studio.ImportStl: every import and every render is assumed to
  succeed. In the scripts, the run stops after the images written so far
  when one of these fails:
  - `bpy.ops.import_mesh.stl` raises;
  - `bpy.context.selected_objects[0]` raises `IndexError` because the
    import selected nothing (`scripts/blender_render.py:62-63`,
    `render_stls.py:21-22`);
  - a render fails.
  `BlenderRender.RenderWhitelisted` and `RenderStls.RenderStlFolder` state
  the images of a run in which nothing fails. The abort is not modelled.
