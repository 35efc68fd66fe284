/** The part of a Blender session the render scripts drive, reduced to
    bookkeeping: which objects the scene holds, the rotation set on each,
    the render output path, the images written so far and the directories
    created on disk. A render writes one image, recorded together with the
    scene it showed; what the image looks like is not modelled. */
module Scenes {
  import opened Seqs

  /** An Euler rotation in whole degrees, as written in the scripts' tables;
      the conversion to radians is not modelled. */
  type Angle = (int, int, int)

  /** The objects in a scene: the camera and the sun lamp the scripts
      create, meshes imported from STL files (each a new object, numbered in
      import order and tagged with the file it came from) and whatever else
      the session started with, such as the default cube. */
  datatype SceneObject = Camera | Lamp | Mesh(id: nat, source: string) | Other(name: string)

  /** One written image: where it went, the objects in the scene and the
      rotation of each object that had one set. */
  datatype Shot = Shot(path: string, objects: multiset<SceneObject>, rotations: map<SceneObject, Angle>)

  /** No two of the images went to the same file. */
  predicate DistinctPaths(shots: seq<Shot>)
  {
    forall p, q :: 0 <= p < q < |shots| ==> shots[p].path != shots[q].path
  }

  /** Two lists of images with distinct paths, no path shared between them,
      together have distinct paths. */
  lemma DistinctPathsAppend(a: seq<Shot>, b: seq<Shot>)
    requires DistinctPaths(a) && DistinctPaths(b)
    requires forall s, t :: s in a && t in b ==> s.path != t.path
    ensures DistinctPaths(a + b)
  {
    var ab := a + b;
    forall p, q | 0 <= p < q < |ab|
      ensures ab[p].path != ab[q].path
    {
      if q < |a| {
        assert ab[p] == a[p] && ab[q] == a[q];
      } else if p >= |a| {
        assert ab[p] == b[p - |a|] && ab[q] == b[q - |a|];
      } else {
        assert ab[p] in a && ab[q] in b;
      }
    }
  }

  /** Lists of images, each with distinct paths and no path shared between
      two of them, have distinct paths one after the other. */
  lemma {:induction false} FlattenDistinctPaths(parts: seq<seq<Shot>>)
    requires forall k :: 0 <= k < |parts| ==> DistinctPaths(parts[k])
    requires forall k1, k2, s: Shot, t: Shot :: 0 <= k1 < k2 < |parts| && s in parts[k1] && t in parts[k2] ==> s.path != t.path
    ensures DistinctPaths(Flatten(parts))
  {
    if parts != [] {
      var n := |parts| - 1;
      var init := parts[..n];
      FlattenDistinctPaths(init);
      forall s: Shot, t: Shot | s in Flatten(init) && t in parts[n]
        ensures s.path != t.path
      {
        FlattenMember(init, s);
      }
      DistinctPathsAppend(Flatten(init), parts[n]);
    }
  }

  class Studio {
    var objects: multiset<SceneObject>
    var rotations: map<SceneObject, Angle>
    var filepath: string
    var shots: seq<Shot>
    var dirs: set<string>
    var imported: nat

    /** Every mesh in the scene, or with a rotation, was numbered by an
        earlier import, so the next import is a new object. */
    ghost predicate Valid()
      reads this
    {
      forall o :: (o in objects || o in rotations) && o.Mesh? ==> o.id < imported
    }

    /** A session whose startup scene holds `objects0`, on a disk where the
        directories `dirs0` exist. */
    constructor (objects0: multiset<SceneObject>, dirs0: set<string>)
      requires forall o :: o in objects0 ==> o.Other?
      ensures Valid()
      ensures objects == objects0 && rotations == map[] && filepath == ""
      ensures shots == [] && dirs == dirs0 && imported == 0
    {
      objects, rotations, filepath, shots, dirs, imported := objects0, map[], "", [], dirs0, 0;
    }

    /** `select_all(action='SELECT')` followed by `object.delete()`. */
    method DeleteAll()
      requires Valid()
      modifies this
      ensures Valid() && imported == old(imported)
      ensures objects == multiset{} && rotations == map[]
      ensures filepath == old(filepath) && shots == old(shots) && dirs == old(dirs)
    {
      objects, rotations := multiset{}, map[];
    }

    /** `scene.collection.objects.link(obj)` */
    method Link(obj: SceneObject)
      requires Valid() && !obj.Mesh?
      modifies this
      ensures Valid() && imported == old(imported)
      ensures objects == old(objects) + multiset{obj}
      ensures rotations == old(rotations) && filepath == old(filepath)
      ensures shots == old(shots) && dirs == old(dirs)
    {
      objects := objects + multiset{obj};
    }

    /** `obj.rotation_euler = angle` */
    method Rotate(obj: SceneObject, angle: Angle)
      requires Valid() && obj in objects
      modifies this
      ensures Valid() && imported == old(imported)
      ensures rotations == old(rotations)[obj := angle]
      ensures objects == old(objects) && filepath == old(filepath)
      ensures shots == old(shots) && dirs == old(dirs)
    {
      rotations := rotations[obj := angle];
    }

    /** `import_mesh.stl(filepath=path)` followed by taking the selected
        object: the new mesh, now in the scene. */
    method ImportStl(path: string) returns (obj: SceneObject)
      requires Valid()
      modifies this
      ensures Valid() && imported == old(imported) + 1
      ensures obj == Mesh(old(imported), path)
      ensures objects == old(objects) + multiset{obj}
      ensures rotations == old(rotations) && filepath == old(filepath)
      ensures shots == old(shots) && dirs == old(dirs)
    {
      obj := Mesh(imported, path);
      objects := objects + multiset{obj};
      imported := imported + 1;
    }

    /** `bpy.data.objects.remove(obj, do_unlink=True)`: the object leaves the
        scene, its rotation with it. */
    method Remove(obj: SceneObject)
      requires Valid()
      modifies this
      ensures Valid() && imported == old(imported)
      ensures objects == old(objects) - multiset{obj}
      ensures rotations == old(rotations) - {obj}
      ensures filepath == old(filepath) && shots == old(shots) && dirs == old(dirs)
    {
      objects := objects - multiset{obj};
      rotations := rotations - {obj};
    }

    /** `scene.render.filepath = path` */
    method SetOutput(path: string)
      requires Valid()
      modifies this
      ensures Valid() && imported == old(imported)
      ensures filepath == path
      ensures objects == old(objects) && rotations == old(rotations)
      ensures shots == old(shots) && dirs == old(dirs)
    {
      filepath := path;
    }

    /** `render.render(write_still=True)`: one image of the current scene,
        written to the current output path. */
    method Render()
      requires Valid()
      modifies this
      ensures Valid() && imported == old(imported)
      ensures shots == old(shots) + [Shot(filepath, objects, rotations)]
      ensures objects == old(objects) && rotations == old(rotations)
      ensures filepath == old(filepath) && dirs == old(dirs)
    {
      shots := shots + [Shot(filepath, objects, rotations)];
    }

    /** `os.makedirs(d, exist_ok=True)`; the directories above `d` and the
        case of a file in the way are not modelled. */
    method MakeDirs(d: string)
      requires Valid()
      modifies this
      ensures Valid() && imported == old(imported)
      ensures dirs == old(dirs) + {d}
      ensures objects == old(objects) && rotations == old(rotations)
      ensures filepath == old(filepath) && shots == old(shots)
    {
      dirs := dirs + {d};
    }
  }
}
