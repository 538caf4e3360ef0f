/** An organ: a mesh loaded from a file, named after the file, and — when it
    is one of the reference organs listed under `RUI` in the atlas paths —
    loaded from the reference file and given the transform that carries it
    to its place in the reference frame. */
module Organs {
  import opened Wrappers
  import opened Linalg
  import opened Geometry
  import opened Conversions
  import opened Dataclass
  import opened Paths

  /** An entry of the reference-organ transforms: a scale (one number or
      one per axis), Euler angles in degrees and a translation. */
  datatype HraTransform = HraTransform(scaling: ScaleArg, rotation: Vec3, translation: Vec3)

  /** What the mesh loader returns for a path and a file type. */
  datatype Loaded = Loaded(faces: seq<Face>, vertices: seq<Vec3>)

  /** A vector divided by a unit factor, component by component. */
  function Divided(v: Vec3, factor: real): Vec3
    requires factor != 0.0
  {
    Vec3(v.x / factor, v.y / factor, v.z / factor)
  }

  /** Dividing by a factor is undone by scaling with that factor. */
  lemma DividedScaled(v: Vec3, factor: real)
    requires factor != 0.0
    ensures Scale(factor, Divided(v, factor)) == v
  {
  }

  /** `Transform(scaling, rotation, translation / factor)`: the transform of a
      reference entry with its translation brought to the model's unit. */
  function PlacementParams(h: HraTransform, factor: real, euler: (string, Vec3) -> Mat3): Params
    requires factor != 0.0
  {
    var t := Divided(h.translation, factor);
    Params(h.scaling, Angles(h.rotation), t, None, BuildMatrix(h.scaling, Angles(h.rotation), t, "xyz", euler), "xyz", true)
  }

  /** The placement transform scales, then rotates by the entry's angles,
      then translates by the entry's translation divided by the factor; so
      it carries the origin to that translation, and multiplying it back by
      the factor recovers the entry's translation. */
  lemma PlacementApplies(h: HraTransform, factor: real, euler: (string, Vec3) -> Mat3, p: Vec3)
    requires factor != 0.0
    ensures ApplyAffine(PlacementParams(h, factor, euler).matrix, p)
            == Add(MulMV(euler("xyz", h.rotation), Stretch(ScaleVector(h.scaling), p)), Divided(h.translation, factor))
    ensures ApplyAffine(PlacementParams(h, factor, euler).matrix, Origin) == Divided(h.translation, factor)
    ensures Scale(factor, PlacementParams(h, factor, euler).translate) == h.translation
  {
    var t := Divided(h.translation, factor);
    BuildMatrixApplies(h.scaling, Angles(h.rotation), t, "xyz", euler, p);
    BuildMatrixApplies(h.scaling, Angles(h.rotation), t, "xyz", euler, Origin);
    var r := euler("xyz", h.rotation);
    var o := Stretch(ScaleVector(h.scaling), Origin);
    assert o == Origin;
    assert MulMV(r, Origin) == Origin by {
      assert Dot(r.r0, Origin) == 0.0 && Dot(r.r1, Origin) == 0.0 && Dot(r.r2, Origin) == 0.0;
    }
    DividedScaled(h.translation, factor);
  }

  /** `_get_transform` with a given unit factor: the reference entry of
      `name`, missing entries being a key error, as a fresh transform. */
  method PlacementTransform(name: string, hra: map<string, HraTransform>, factor: real,
                            euler: (string, Vec3) -> Mat3) returns (r: Result<Transform, Error>)
    requires factor != 0.0
    ensures r.Ok? <==> name in hra
    ensures r.Err? ==> r.error == KeyError(name)
    ensures r.Ok? ==> fresh(r.value) && r.value.AsParams() == PlacementParams(hra[name], factor, euler)
                      && r.value.State() == Unused
  {
    if name !in hra {
      return Err(KeyError(name));
    }
    var h := hra[name];
    var t := new Transform(h.scaling, Angles(h.rotation), Divided(h.translation, factor), None, None, "xyz", true, euler);
    r := Ok(t);
  }

  /** `file_type`: the path's suffix, `.glb` when it has none. */
  function FileType(path: string): (t: string)
    ensures |t| >= 2 && t[0] == '.'
    ensures Suffix(path) != "" ==> t == Suffix(path)
  {
    StemSuffix(path);
    if Suffix(path) != "" then Suffix(path) else ".glb"
  }

  /** A loaded organ. The mesh is the organ's own trimesh part: its vertices
      can be rewritten in place by a projection. */
  class Organ {
    const path: string
    const name: string
    const fileType: string
    const metadata: map<string, string>
    const mesh: Mesh
    const targetTransform: Option<Transform>

    constructor (path: string, name: string, fileType: string, metadata: map<string, string>,
                 mesh: Mesh, targetTransform: Option<Transform>)
      ensures this.path == path && this.name == name && this.fileType == fileType
      ensures this.metadata == metadata && this.mesh == mesh && this.targetTransform == targetTransform
    {
      this.path := path;
      this.name := name;
      this.fileType := fileType;
      this.metadata := metadata;
      this.mesh := mesh;
      this.targetTransform := targetTransform;
    }

    /** `Organ(path, metadata)`: the name is the path's stem and the file
        type its suffix (`.glb` by default). Metadata that is missing or
        empty is not stored; the organ keeps trimesh's own empty dictionary. A reference organ — a name
        listed in `rui` — is loaded from the listed file and gets the
        transform of its reference entry, with the translation in metres
        (divided by 1e3); a name listed there without an entry is a key
        error. Any other organ is loaded from its own path and gets no
        target transform. */
    static method Open(path: string, metadata: Option<map<string, string>>, rui: map<string, string>,
                       hra: map<string, HraTransform>, load: (string, string) -> Loaded,
                       euler: (string, Vec3) -> Mat3) returns (r: Result<Organ, Error>)
      ensures Stem(path) in rui && Stem(path) !in hra <==> r.Err?
      ensures r.Err? ==> r.error == KeyError(Stem(path))
      ensures r.Ok? ==>
                var o := r.value;
                var loaded := load(if Stem(path) in rui then rui[Stem(path)] else path, FileType(path));
                fresh(o) && fresh(o.mesh)
                && o.path == path && o.name == Stem(path) && o.fileType == FileType(path)
                && o.metadata == (if Truthy(metadata).Some? then metadata.value else map[])
                && o.mesh.vertices == loaded.vertices && o.mesh.faces == loaded.faces
                && (o.targetTransform.Some? <==> Stem(path) in rui)
                && (o.targetTransform.Some? ==>
                      fresh(o.targetTransform.value)
                      && o.targetTransform.value.AsParams() == PlacementParams(hra[Stem(path)], 1000.0, euler)
                      && o.targetTransform.value.State() == Unused)
    {
      var name := Stem(path);
      var fileType := if Suffix(path) != "" then Suffix(path) else ".glb";
      var kept: map<string, string> := map[];
      if metadata.Some? && |metadata.value| > 0 {
        kept := metadata.value;
      }
      var target: Option<Transform> := None;
      var loaded: Loaded;
      if name in rui {
        loaded := load(rui[name], fileType);
        var t := PlacementTransform(name, hra, 1000.0, euler);
        if t.Err? {
          return Err(t.error);
        }
        target := Some(t.value);
      } else {
        loaded := load(path, fileType);
      }
      var mesh := new Mesh(loaded.vertices, loaded.faces, true);
      var o := new Organ(path, name, fileType, kept, mesh, target);
      r := Ok(o);
    }

    /** The organ as `project` sees it: a mesh with its target transform.
        Its `pointcloud` and `array` properties are `to_pointcloud` and
        `to_array` of its mesh. */
    function AsSubject(): (s: Subject)
      reads mesh
      ensures s.Placed? && s.mesh == mesh && s.target == targetTransform
      ensures StartPoints(s) == ToArray(Surface(mesh))
    {
      Placed(mesh, targetTransform)
    }
  }
}
