/** A tissue block: a box cut from an organ, described by a sample record of
    the registration user interface (its dimensions in some unit, and its
    placement on a reference organ), and written back into such a record.
    Lengths inside the model are in metres; the record's lengths are in the
    unit named by `dimension_units`. */
module Tissue {
  import opened Wrappers
  import opened Linalg
  import opened Geometry
  import opened Conversions
  import opened Preprocess
  import opened Dataclass
  import opened Paths
  import opened Organs

  /** The JSON values a sample record and a block's metadata are made of. */
  datatype Json = Null | Str(s: string) | Num(n: real) | Obj(fields: map<string, Json>)

  /** `j[key]`: a missing key is a key error; subscripting anything but a
      dictionary with a string is a type error. */
  function Field(j: Json, key: string): (r: Result<Json, Error>)
    ensures r.Ok? <==> j.Obj? && key in j.fields
    ensures r.Ok? ==> r.value == j.fields[key]
    ensures r.Err? ==> r.error == if j.Obj? then KeyError(key) else TypeError
  {
    if !j.Obj? then Err(TypeError)
    else if key !in j.fields then Err(KeyError(key))
    else Ok(j.fields[key])
  }

  /** `j[key] / factor`: the entry must exist and be a number. */
  function Divide(j: Json, key: string, factor: real): (r: Result<real, Error>)
    requires factor != 0.0
    ensures r.Ok? <==> Field(j, key).Ok? && Field(j, key).value.Num?
    ensures r.Ok? ==> r.value * factor == j.fields[key].n
  {
    match Field(j, key)
    case Err(e) => Err(e)
    case Ok(v) => if v.Num? then Ok(v.n / factor) else Err(TypeError)
  }

  /** `j` is a dictionary whose entries `x`, `y` and `z` are numbers. */
  predicate NumbersAt(j: Json, x: string, y: string, z: string)
  {
    j.Obj? && x in j.fields && y in j.fields && z in j.fields
    && j.fields[x].Num? && j.fields[y].Num? && j.fields[z].Num?
  }

  /** Those three numbers as a vector. */
  function VecAt(j: Json, x: string, y: string, z: string): Vec3
    requires NumbersAt(j, x, y, z)
  {
    Vec3(j.fields[x].n, j.fields[y].n, j.fields[z].n)
  }

  /** `(j[x] / factor, j[y] / factor, j[z] / factor)`, read in that order. */
  function DivideVec(j: Json, x: string, y: string, z: string, factor: real): (r: Result<Vec3, Error>)
    requires factor != 0.0
    ensures r.Ok? <==> NumbersAt(j, x, y, z)
    ensures r.Ok? ==> Scale(factor, r.value) == VecAt(j, x, y, z)
  {
    match Divide(j, x, factor)
    case Err(e) => Err(e)
    case Ok(a) =>
      match Divide(j, y, factor)
      case Err(e) => Err(e)
      case Ok(b) =>
        match Divide(j, z, factor)
        case Err(e) => Err(e)
        case Ok(c) => Ok(Vec3(a, b, c))
  }

  /** `(j[x], j[y], j[z])`, read in that order; the values are checked to be
      numbers only when a transform is built from them. */
  function Triple(j: Json, x: string, y: string, z: string): (r: Result<(Json, Json, Json), Error>)
    ensures r.Ok? <==> j.Obj? && x in j.fields && y in j.fields && z in j.fields
    ensures r.Ok? ==> r.value == (j.fields[x], j.fields[y], j.fields[z])
  {
    match Field(j, x)
    case Err(e) => Err(e)
    case Ok(a) =>
      match Field(j, y)
      case Err(e) => Err(e)
      case Ok(b) =>
        match Field(j, z)
        case Err(e) => Err(e)
        case Ok(c) => Ok((a, b, c))
  }

  /** The three values as a vector, when they are all numbers. */
  function Numbers(t: (Json, Json, Json)): Option<Vec3>
  {
    if t.0.Num? && t.1.Num? && t.2.Num? then Some(Vec3(t.0.n, t.1.n, t.2.n)) else None
  }

  /** The members of `DivisionFactor`: how many of a unit make a metre. */
  const Units: map<string, real> := map["millimeter" := 1000.0, "centimeter" := 100.0, "meter" := 1.0]

  /** `getattr(DivisionFactor, unit).value`: a unit that is not a member is
      an attribute error, a name that is not a string a type error. */
  function DivisionFactor(unit: Json): (r: Result<real, Error>)
    ensures r.Ok? <==> unit.Str? && unit.s in Units
    ensures r.Ok? ==> r.value == Units[unit.s] && r.value >= 1.0
    ensures r.Err? ==> r.error == if unit.Str? then AttributeError(unit.s) else TypeError
  {
    if !unit.Str? then Err(TypeError)
    else if unit.s == "millimeter" then Ok(1000.0)
    else if unit.s == "centimeter" then Ok(100.0)
    else if unit.s == "meter" then Ok(1.0)
    else Err(AttributeError(unit.s))
  }

  /** A length divided by a unit's factor and multiplied by it again is the
      length it was: converting into metres and back loses nothing. */
  lemma UnitRoundTrip(unit: Json, v: Vec3)
    requires DivisionFactor(unit).Ok?
    ensures var f := DivisionFactor(unit).value; Scale(f, Divided(v, f)) == v
  {
    DividedScaled(v, DivisionFactor(unit).value);
  }

  /** `_get_block_transform`: scaling and rotation (degrees) pass through,
      the translation is divided by the factor. The nine entries of the
      placement are read scaling first, then translation, then rotation; a
      scaling or rotation that is not a number fails when the transform is
      built. */
  function BlockParams(metadata: map<string, Json>, factor: real, euler: (string, Vec3) -> Mat3): (r: Result<Params, Error>)
    requires factor != 0.0
    ensures r.Ok? <==>
              && "placement" in metadata
              && NumbersAt(metadata["placement"], "x_scaling", "y_scaling", "z_scaling")
              && NumbersAt(metadata["placement"], "x_translation", "y_translation", "z_translation")
              && NumbersAt(metadata["placement"], "x_rotation", "y_rotation", "z_rotation")
    ensures r.Ok? ==>
              var pl := metadata["placement"];
              && r.value.scale == PerAxis(VecAt(pl, "x_scaling", "y_scaling", "z_scaling"))
              && r.value.rotate == Angles(VecAt(pl, "x_rotation", "y_rotation", "z_rotation"))
              && Scale(factor, r.value.translate) == VecAt(pl, "x_translation", "y_translation", "z_translation")
              && r.value.dvf.None? && r.value.apply && r.value.rotateAxes == "xyz"
              && r.value.matrix == BuildMatrix(r.value.scale, r.value.rotate, r.value.translate, "xyz", euler)
    ensures "placement" !in metadata ==> r == Err(KeyError("placement"))
  {
    match Field(Obj(metadata), "placement")
    case Err(e) => Err(e)
    case Ok(pl) =>
      match Triple(pl, "x_scaling", "y_scaling", "z_scaling")
      case Err(e) => Err(e)
      case Ok(s) =>
        match DivideVec(pl, "x_translation", "y_translation", "z_translation", factor)
        case Err(e) => Err(e)
        case Ok(t) =>
          match Triple(pl, "x_rotation", "y_rotation", "z_rotation")
          case Err(e) => Err(e)
          case Ok(a) =>
            if Numbers(s).None? || Numbers(a).None? then Err(TypeError)
            else
              var scale, rotate := PerAxis(Numbers(s).value), Angles(Numbers(a).value);
              Ok(Params(scale, rotate, t, None, BuildMatrix(scale, rotate, t, "xyz", euler), "xyz", true))
  }

  /** The prefix of a reference organ's IRI. */
  const OntologyPrefix := "http://purl.org/ccf/latest/ccf.owl#"

  /** The name `_get_target_transform` looks the reference organ up by: the
      block's own, or else the part after the last `#` of the placement's
      target IRI (a target that is not a string has no `split`). */
  function TargetNameOf(targetName: Option<string>, metadata: map<string, Json>): (r: Result<string, Error>)
    ensures targetName.Some? ==> r == Ok(targetName.value)
    ensures r.Ok? ==> forall j :: 0 <= j < |r.value| ==> r.value[j] != '#' || targetName.Some?
  {
    if targetName.Some? then Ok(targetName.value)
    else
      match Field(Obj(metadata), "placement")
      case Err(e) => Err(e)
      case Ok(pl) =>
        match Field(pl, "target")
        case Err(e) => Err(e)
        case Ok(t) =>
          if !t.Str? then Err(AttributeError("split"))
          else
            var parts := Paths.Split(t.s, '#');
            Ok(parts[|parts| - 1])
  }

  /** What `from_sample` reads from a sample and computes: the location
      record, its unit's factor, the label, both transforms, the box and
      where it ends up. */
  datatype SampleBlock = SampleBlock(rui: map<string, Json>, factor: real, size: Vec3, blockLabel: Json,
                                     target: Params, block: Params, inverse: Mat4,
                                     faces: seq<Face>, vertices: seq<Vec3>)

  /** The second half of `from_sample` on values, once the location record
      `rui`, its unit's factor and the block's size are known: the
      reference entry of `targetName` (its translation divided by the
      factor), the block transform, and the inverse of the target
      transform. The box is moved by the block transform and then by the
      inverse of the target transform. `box` stands for
      `trimesh.creation.box`. */
  function PlaceSpec(rui: map<string, Json>, factor: real, size: Vec3, blockLabel: Json, targetName: string,
                     hra: map<string, HraTransform>, box: Vec3 -> Loaded, euler: (string, Vec3) -> Mat3)
    : (r: Result<SampleBlock, Error>)
    requires factor != 0.0
    ensures targetName !in hra ==> r == Err(KeyError(targetName))
    ensures r.Ok? ==>
              var b := r.value;
              && targetName in hra
              && b.rui == rui && b.factor == factor && b.size == size && b.blockLabel == blockLabel
              && b.target == PlacementParams(hra[targetName], factor, euler)
              && BlockParams(rui, factor, euler) == Ok(b.block)
              && Inverse4(b.target.matrix) == Some(b.inverse)
              && b.faces == box(size).faces
              && b.vertices == MapAffine(b.inverse, MapAffine(b.block.matrix, box(size).vertices))
  {
    if targetName !in hra then Err(KeyError(targetName))
    else
      var target := PlacementParams(hra[targetName], factor, euler);
      match BlockParams(rui, factor, euler)
      case Err(e) => Err(e)
      case Ok(block) =>
        match Inverse4(target.matrix)
        case None => Err(LinAlgError)
        case Some(inv) =>
          var loaded := box(size);
          Ok(SampleBlock(rui, factor, size, blockLabel, target, block, inv, loaded.faces,
                         MapAffine(inv, MapAffine(block.matrix, loaded.vertices))))
  }

  /** `PlaceSpec` when every step succeeds. */
  lemma PlaceSpecOk(rui: map<string, Json>, factor: real, size: Vec3, blockLabel: Json, targetName: string,
                    hra: map<string, HraTransform>, box: Vec3 -> Loaded, euler: (string, Vec3) -> Mat3, block: Params)
    requires factor != 0.0 && targetName in hra && BlockParams(rui, factor, euler) == Ok(block)
    requires Inverse4(PlacementParams(hra[targetName], factor, euler).matrix).Some?
    ensures var target := PlacementParams(hra[targetName], factor, euler);
            var inv := Inverse4(target.matrix).value;
            PlaceSpec(rui, factor, size, blockLabel, targetName, hra, box, euler)
            == Ok(SampleBlock(rui, factor, size, blockLabel, target, block, inv, box(size).faces,
                              MapAffine(inv, MapAffine(block.matrix, box(size).vertices))))
  {
  }

  /** `from_sample` on values, the first failing lookup ending it: the
      location record, its unit, the three dimensions divided by the unit's
      factor, then `PlaceSpec`. */
  function SampleSpec(sample: map<string, Json>, targetName: string, hra: map<string, HraTransform>,
                      box: Vec3 -> Loaded, euler: (string, Vec3) -> Mat3): (r: Result<SampleBlock, Error>)
    ensures "rui_location" !in sample ==> r == Err(KeyError("rui_location"))
    ensures "rui_location" in sample && sample["rui_location"].Obj? && "dimension_units" !in sample["rui_location"].fields
            ==> r == Err(KeyError("dimension_units"))
    ensures "rui_location" in sample && Field(sample["rui_location"], "dimension_units").Ok?
            && DivisionFactor(sample["rui_location"].fields["dimension_units"]).Err?
            ==> r == Err(DivisionFactor(sample["rui_location"].fields["dimension_units"]).error)
    ensures r.Ok? ==>
              && "rui_location" in sample && Field(sample["rui_location"], "dimension_units").Ok?
              && DivisionFactor(sample["rui_location"].fields["dimension_units"]).Ok?
              && NumbersAt(sample["rui_location"], "x_dimension", "y_dimension", "z_dimension")
              && Obj(r.value.rui) == sample["rui_location"]
              && r.value.factor == DivisionFactor(r.value.rui["dimension_units"]).value
              && Scale(r.value.factor, r.value.size) == VecAt(Obj(r.value.rui), "x_dimension", "y_dimension", "z_dimension")
              && r.value.blockLabel == (if "label" in sample then sample["label"] else Null)
              && r.value.factor >= 1.0
              && r == PlaceSpec(r.value.rui, r.value.factor, r.value.size, r.value.blockLabel, targetName, hra, box, euler)
  {
    match Field(Obj(sample), "rui_location")
    case Err(e) => Err(e)
    case Ok(rui) =>
      match Field(rui, "dimension_units")
      case Err(e) => Err(e)
      case Ok(unit) =>
        match DivisionFactor(unit)
        case Err(e) => Err(e)
        case Ok(factor) =>
          match DivideVec(rui, "x_dimension", "y_dimension", "z_dimension", factor)
          case Err(e) => Err(e)
          case Ok(size) =>
            PlaceSpec(rui.fields, factor, size, if "label" in sample then sample["label"] else Null,
                      targetName, hra, box, euler)
  }

  /** The record a block reports its dimensions, scaling, rotation and
      translation into is filled with these defaults when the block has no
      metadata. */
  const Context := "https://hubmapconsortium.github.io/ccf-ontology/ccf-context.jsonld"

  /** `f"{value}"`: a string is itself, `None` is "None"; any other value is
      rendered by `show`. */
  function Format(j: Json, show: Json -> string): (s: string)
    ensures j.Str? ==> s == j.s
    ensures j.Null? ==> s == "None"
  {
    match j
    case Str(s) => s
    case Null => "None"
    case _ => show(j)
  }

  /** The outcome of `to_sample` and the metadata it leaves behind, which
      is also what it writes when it succeeds. */
  datatype Written = Written(result: Result<(), Error>, metadata: map<string, Json>)

  /** The default entity record of a block without metadata: its `@id` is
      the donor's id, `#` and the label. */
  function EntityDefaults(id: string, blockLabel: Json, today: string): (m: map<string, Json>)
    ensures "@id" in m && m["@id"] == Str(id)
    ensures "dimension_units" in m && m["dimension_units"] == Str("millimeter")
    ensures "label" in m && m["label"] == blockLabel
    ensures "placement" !in m
  {
    map["@context" := Str(Context), "@id" := Str(id), "@type" := Str("SpatialEntity"),
        "creator" := Str("Bhargav Snehal Desai"), "creator_first_name" := Str("Bhargav Snehal"),
        "creator_last_name" := Str("Desai"), "creator_orcid" := Str("https://orcid.org/0009-0008-6509-7698"),
        "label" := blockLabel, "creation_date" := Str(today), "dimension_units" := Str("millimeter")]
  }

  /** The default placement record: its `@id` is the entity's with
      `_placement` appended, its target the reference organ's IRI. */
  function PlacementDefaults(id: string, targetName: string, today: string): (m: map<string, Json>)
    ensures "@id" in m && m["@id"] == Str(id + "_placement")
    ensures "target" in m && m["target"] == Str(OntologyPrefix + targetName)
  {
    map["@context" := Str(Context), "@id" := Str(id + "_placement"), "@type" := Str("SpatialPlacement"),
        "target" := Str(OntologyPrefix + targetName), "placement_date" := Str(today),
        "scaling_units" := Str("ratio"), "rotation_order" := Str("XYZ"),
        "rotation_units" := Str("degree"), "translation_units" := Str("millimeter")]
  }

  /** The first part of `to_sample`: metadata that is not empty is kept;
      empty metadata is filled with the defaults, key by key, so a missing
      donor, label or target name fails after the keys written before it. */
  function DefaultsSpec(metadata: map<string, Json>, donor: Option<map<string, Json>>, blockLabel: Option<Json>,
                        targetName: Option<string>, today: string, show: Json -> string): (w: Written)
    ensures |metadata| > 0 ==> w == Written(Ok(()), metadata)
    ensures |metadata| == 0 ==> (w.result.Ok? <==> donor.Some? && "id" in donor.value && blockLabel.Some? && targetName.Some?)
    ensures w.result.Ok? && |metadata| == 0 ==> donor.Some? && "id" in donor.value && blockLabel.Some? && targetName.Some?
    ensures w.result.Ok? && |metadata| == 0 ==>
              var id := Format(donor.value["id"], show) + "#" + Format(blockLabel.value, show);
              && w.metadata == EntityDefaults(id, blockLabel.value, today)["placement" := Obj(PlacementDefaults(id, targetName.value, today))]
  {
    if |metadata| > 0 then Written(Ok(()), metadata)
    else
      var m := metadata["@context" := Str(Context)];
      if donor.None? then Written(Err(AttributeError("donor")), m)
      else if "id" !in donor.value then Written(Err(KeyError("id")), m)
      else if blockLabel.None? then Written(Err(AttributeError("label")), m)
      else
        var id := Format(donor.value["id"], show) + "#" + Format(blockLabel.value, show);
        var e := EntityDefaults(id, blockLabel.value, today);
        var pl := map["@context" := Str(Context), "@id" := Str(id + "_placement"), "@type" := Str("SpatialPlacement")];
        if targetName.None? then Written(Err(AttributeError("target_name")), e["placement" := Obj(pl)])
        else Written(Ok(()), e["placement" := Obj(PlacementDefaults(id, targetName.value, today))])
  }

  /** The translation of trimesh's axis-aligned bounding box: the centre of
      the bounds. The box neither rotates nor scales. */
  function BoxCentre(b: Box): Vec3
  {
    Scale(0.5, Add(b.lo, b.hi))
  }

  /** The dimensions `to_sample` writes, already multiplied by the factor. */
  function WithDimensions(m: map<string, Json>, dims: Vec3): (r: map<string, Json>)
    ensures r.Keys == m.Keys + {"x_dimension", "y_dimension", "z_dimension"}
    ensures NumbersAt(Obj(r), "x_dimension", "y_dimension", "z_dimension")
            && VecAt(Obj(r), "x_dimension", "y_dimension", "z_dimension") == dims
    ensures forall k :: k in m && k != "x_dimension" && k != "y_dimension" && k != "z_dimension" ==> r[k] == m[k]
  {
    m["x_dimension" := Num(dims.x)]["y_dimension" := Num(dims.y)]["z_dimension" := Num(dims.z)]
  }

  /** The placement entries `to_sample` measures anew. */
  const PlacementMeasures: set<string> := {"x_scaling", "y_scaling", "z_scaling", "x_rotation", "y_rotation", "z_rotation",
                                           "x_translation", "y_translation", "z_translation"}

  /** The placement `to_sample` writes: scale, rotation and translation
      (the latter already multiplied by the factor); no other entry
      changes. */
  function WithMeasures(pl: map<string, Json>, scale: Vec3, rotation: Vec3, translation: Vec3): (r: map<string, Json>)
    ensures r.Keys == pl.Keys + PlacementMeasures
    ensures NumbersAt(Obj(r), "x_scaling", "y_scaling", "z_scaling") && VecAt(Obj(r), "x_scaling", "y_scaling", "z_scaling") == scale
    ensures NumbersAt(Obj(r), "x_rotation", "y_rotation", "z_rotation") && VecAt(Obj(r), "x_rotation", "y_rotation", "z_rotation") == rotation
    ensures NumbersAt(Obj(r), "x_translation", "y_translation", "z_translation")
            && VecAt(Obj(r), "x_translation", "y_translation", "z_translation") == translation
    ensures forall k :: k in pl && k !in PlacementMeasures ==> r[k] == pl[k]
  {
    pl["x_scaling" := Num(scale.x)]["y_scaling" := Num(scale.y)]["z_scaling" := Num(scale.z)]
      ["x_rotation" := Num(rotation.x)]["y_rotation" := Num(rotation.y)]["z_rotation" := Num(rotation.z)]
      ["x_translation" := Num(translation.x)]["y_translation" := Num(translation.y)]
      ["z_translation" := Num(translation.z)]
  }

  /** What `split_transform` finds in the transform of the bounding box of
      `pts`: the box translates to the centre of the bounds. */
  function BoxSplit(pts: seq<Vec3>, sqrt: real -> real, asEuler: Mat3 -> Vec3): Split
    requires |pts| > 0
  {
    SplitTransform(Mat4(Identity3, BoxCentre(Bounds(pts)), AffineBottom), sqrt, asEuler)
  }

  /** The extents of the bounding box of `pts`. */
  function Extents(pts: seq<Vec3>): Vec3
    requires |pts| > 0
  {
    Sub(Bounds(pts).hi, Bounds(pts).lo)
  }

  /** The second part of `to_sample`, given the bounding box's extents and
      what `split_transform` finds in its transform: the extents times the
      factor as the dimensions; then, in the placement, the scale, the
      rotation and the translation times the factor. */
  function MeasuresSpec(metadata: map<string, Json>, factor: Option<real>, ext: Vec3, sp: Split): (w: Written)
    ensures factor.None? ==> w == Written(Err(AttributeError("division_factor")), metadata)
    ensures factor.Some? ==>
              && NumbersAt(Obj(w.metadata), "x_dimension", "y_dimension", "z_dimension")
              && VecAt(Obj(w.metadata), "x_dimension", "y_dimension", "z_dimension") == Scale(factor.value, ext)
    ensures w.result.Ok? <==> factor.Some? && "placement" in metadata && metadata["placement"].Obj?
    ensures forall k :: k in metadata && k != "x_dimension" && k != "y_dimension" && k != "z_dimension" && k != "placement"
              ==> k in w.metadata && w.metadata[k] == metadata[k]
    ensures w.result.Ok? ==>
              "placement" in w.metadata
              && w.metadata["placement"] == Obj(WithMeasures(metadata["placement"].fields, sp.scale, sp.rotation,
                                                             Scale(factor.value, sp.translation)))
  {
    if factor.None? then Written(Err(AttributeError("division_factor")), metadata)
    else
      var dims := Scale(factor.value, ext);
      assert |"placement"| == 9 && |"x_dimension"| == |"y_dimension"| == |"z_dimension"| == 11;
      var m := WithDimensions(metadata, dims);
      if "placement" !in m then Written(Err(KeyError("placement")), m)
      else if !m["placement"].Obj? then Written(Err(TypeError), m)
      else
        var pl := WithMeasures(m["placement"].fields, sp.scale, sp.rotation, Scale(factor.value, sp.translation));
        Written(Ok(()), m["placement" := Obj(pl)])
  }
  /** `to_sample` on values: the defaults, then the measures. */
  function ToSampleSpec(metadata: map<string, Json>, donor: Option<map<string, Json>>, blockLabel: Option<Json>,
                        targetName: Option<string>, factor: Option<real>, pts: seq<Vec3>,
                        sqrt: real -> real, asEuler: Mat3 -> Vec3, today: string, show: Json -> string): (w: Written)
    requires |pts| > 0
  {
    var d := DefaultsSpec(metadata, donor, blockLabel, targetName, today, show);
    if d.result.Err? then d else MeasuresSpec(d.metadata, factor, Extents(pts), BoxSplit(pts, sqrt, asEuler))
  }

  /** A record of a block `id` in millimetres, placed on the reference
      organ `targetName` under the id `id` with `_placement` appended. */
  predicate Identifies(m: map<string, Json>, id: string, targetName: string)
  {
    && "@id" in m && m["@id"] == Str(id)
    && "dimension_units" in m && m["dimension_units"] == Str("millimeter")
    && "placement" in m && m["placement"].Obj?
    && "@id" in m["placement"].fields && m["placement"].fields["@id"] == Str(id + "_placement")
    && "target" in m["placement"].fields && m["placement"].fields["target"] == Str(OntologyPrefix + targetName)
  }

  /** Filling empty metadata with the defaults succeeds given a donor
      with an id, a label and a target name, and identifies the block as
      `donor#label`. */
  lemma DefaultsFilled(donor: map<string, Json>, blockLabel: Json, targetName: string, today: string, show: Json -> string)
    requires "id" in donor
    ensures var d := DefaultsSpec(map[], Some(donor), Some(blockLabel), Some(targetName), today, show);
            && d.result.Ok?
            && Identifies(d.metadata, Format(donor["id"], show) + "#" + Format(blockLabel, show), targetName)
  {
    var id := Format(donor["id"], show) + "#" + Format(blockLabel, show);
    var d := DefaultsSpec(map[], Some(donor), Some(blockLabel), Some(targetName), today, show);
    var e, p := EntityDefaults(id, blockLabel, today), PlacementDefaults(id, targetName, today);
    assert d.metadata == e["placement" := Obj(p)];
    assert |"@id"| == 3 && |"dimension_units"| == 15 && |"placement"| == 9;
  }

  /** The placement entries measured anew are named by at least nine
      characters, so a shorter key keeps its entry. */
  lemma ShortKeysKept(pl: map<string, Json>, scale: Vec3, rotation: Vec3, translation: Vec3, k: string)
    requires k in pl && |k| < 9
    ensures k in WithMeasures(pl, scale, rotation, translation)
    ensures WithMeasures(pl, scale, rotation, translation)[k] == pl[k]
  {
    assert |"x_scaling"| == |"y_scaling"| == |"z_scaling"| == 9;
    assert |"x_rotation"| == |"y_rotation"| == |"z_rotation"| == 10;
    assert |"x_translation"| == |"y_translation"| == |"z_translation"| == 13;
  }

  /** Measuring succeeds on an identified record and keeps what
      identifies it. */
  lemma MeasuresKeepIds(metadata: map<string, Json>, id: string, targetName: string, factor: real, ext: Vec3, sp: Split)
    requires Identifies(metadata, id, targetName)
    ensures var w := MeasuresSpec(metadata, Some(factor), ext, sp);
            w.result.Ok? && Identifies(w.metadata, id, targetName)
  {
    assert |"@id"| == 3 && |"dimension_units"| == 15 && |"placement"| == 9;
    assert |"x_dimension"| == |"y_dimension"| == |"z_dimension"| == 11;
    var pl := metadata["placement"].fields;
    ShortKeysKept(pl, sp.scale, sp.rotation, Scale(factor, sp.translation), "@id");
    ShortKeysKept(pl, sp.scale, sp.rotation, Scale(factor, sp.translation), "target");
  }

  /** The name read back from an identified record is the reference
      organ's name, when the name holds no `#`. */
  lemma TargetReadBack(metadata: map<string, Json>, id: string, targetName: string)
    requires Identifies(metadata, id, targetName)
    requires forall j :: 0 <= j < |targetName| ==> targetName[j] != '#'
    ensures TargetNameOf(None, metadata) == Ok(targetName)
  {
    assert OntologyPrefix == "http://purl.org/ccf/latest/ccf.owl" + ['#'];
    SplitSuffix("http://purl.org/ccf/latest/ccf.owl", '#', targetName);
  }

  /** A block without metadata reports itself under the id `donor#label`,
      its placement under that id with `_placement` appended, in
      millimetres, on the IRI of its reference organ; and the name read back
      from that IRI is the block's target name, when the name holds no
      `#`. */
  lemma DefaultRecord(donor: map<string, Json>, blockLabel: Json, targetName: string, factor: real, pts: seq<Vec3>,
                      sqrt: real -> real, asEuler: Mat3 -> Vec3, today: string, show: Json -> string)
    requires "id" in donor && |pts| > 0
    requires forall j :: 0 <= j < |targetName| ==> targetName[j] != '#'
    ensures var w := ToSampleSpec(map[], Some(donor), Some(blockLabel), Some(targetName), Some(factor), pts, sqrt, asEuler, today, show);
            && w.result.Ok?
            && Identifies(w.metadata, Format(donor["id"], show) + "#" + Format(blockLabel, show), targetName)
            && TargetNameOf(None, w.metadata) == Ok(targetName)
  {
    var id := Format(donor["id"], show) + "#" + Format(blockLabel, show);
    var d := DefaultsSpec(map[], Some(donor), Some(blockLabel), Some(targetName), today, show);
    DefaultsFilled(donor, blockLabel, targetName, today, show);
    MeasuresKeepIds(d.metadata, id, targetName, factor, Extents(pts), BoxSplit(pts, sqrt, asEuler));
    TargetReadBack(MeasuresSpec(d.metadata, Some(factor), Extents(pts), BoxSplit(pts, sqrt, asEuler)).metadata, id, targetName);
  }

  /** trimesh's bounding box is axis-aligned, so what `to_sample` records
      when it succeeds is: the extents of the block's bounds times the
      factor as its dimensions, a scaling of 1 on every axis, the angles of
      the identity rotation, and the centre of the bounds times the factor
      as the translation. */
  lemma MeasuresAxisAligned(metadata: map<string, Json>, factor: real, pts: seq<Vec3>,
                            sqrt: real -> real, asEuler: Mat3 -> Vec3)
    requires |pts| > 0 && sqrt(1.0) == 1.0
    requires MeasuresSpec(metadata, Some(factor), Extents(pts), BoxSplit(pts, sqrt, asEuler)).result.Ok?
    ensures var w := MeasuresSpec(metadata, Some(factor), Extents(pts), BoxSplit(pts, sqrt, asEuler));
            && NumbersAt(Obj(w.metadata), "x_dimension", "y_dimension", "z_dimension")
            && VecAt(Obj(w.metadata), "x_dimension", "y_dimension", "z_dimension") == Scale(factor, Extents(pts))
            && "placement" in w.metadata
            && var pl := w.metadata["placement"];
            && NumbersAt(pl, "x_scaling", "y_scaling", "z_scaling")
            && VecAt(pl, "x_scaling", "y_scaling", "z_scaling") == Vec3(1.0, 1.0, 1.0)
            && NumbersAt(pl, "x_rotation", "y_rotation", "z_rotation")
            && VecAt(pl, "x_rotation", "y_rotation", "z_rotation") == asEuler(Identity3)
            && NumbersAt(pl, "x_translation", "y_translation", "z_translation")
            && VecAt(pl, "x_translation", "y_translation", "z_translation") == Scale(factor, BoxCentre(Bounds(pts)))
  {
    TranslationSplits(BoxCentre(Bounds(pts)), sqrt, asEuler);
  }

  /** The dimensions `from_sample` reads come back from `to_sample`: a
      block whose extents are the size `from_sample` computed records the
      sample's own dimensions. */
  lemma DimensionsRoundTrip(sample: map<string, Json>, targetName: string, hra: map<string, HraTransform>,
                            box: Vec3 -> Loaded, euler: (string, Vec3) -> Mat3, metadata: map<string, Json>, sp: Split)
    requires SampleSpec(sample, targetName, hra, box, euler).Ok?
    ensures var b := SampleSpec(sample, targetName, hra, box, euler).value;
            var w := MeasuresSpec(metadata, Some(b.factor), b.size, sp);
            VecAt(Obj(w.metadata), "x_dimension", "y_dimension", "z_dimension")
            == VecAt(sample["rui_location"], "x_dimension", "y_dimension", "z_dimension")
  {
  }

  /** A tissue block: the trimesh part of the block is its mesh; the
      attributes set after construction are options, `None` while unset.
      `hra` is the reference organs' transforms the block was built with.
      Its `pointcloud` and `array` properties are `to_pointcloud` and
      `to_array` of its mesh. */
  class TissueBlock {
    const mesh: Mesh
    const hra: map<string, HraTransform>
    const donor: Option<map<string, Json>>
    var metadata: map<string, Json>
    var factor: Option<real>
    var blockLabel: Option<Json>
    var targetName: Option<string>
    var targetTransform: Option<Transform>
    var blockTransform: Option<Transform>

    /** `TissueBlock(vertices, faces, donor, metadata)`: a donor or metadata
        that is missing or empty is not kept; the metadata is then trimesh's
        own empty dictionary. */
    constructor (vertices: seq<Vec3>, faces: seq<Face>, donor: Option<map<string, Json>>,
                 metadata: Option<map<string, Json>>, hra: map<string, HraTransform>)
      ensures fresh(mesh) && mesh.vertices == vertices && mesh.faces == faces
      ensures this.donor == Truthy(donor) && this.hra == hra
      ensures this.metadata == (if Truthy(metadata).Some? then metadata.value else map[])
      ensures factor.None? && blockLabel.None? && targetName.None?
      ensures targetTransform.None? && blockTransform.None?
    {
      mesh := new Mesh(vertices, faces, true);
      this.hra := hra;
      this.donor := if donor.Some? && |donor.value| > 0 then donor else None;
      this.metadata := if metadata.Some? && |metadata.value| > 0 then metadata.value else map[];
      factor := None;
      blockLabel := None;
      targetName := None;
      targetTransform := None;
      blockTransform := None;
    }

    /** `_get_target_transform`: without a target name of its own the block
        takes the one its placement's target IRI ends with, and keeps it;
        then the reference entry of that name, a missing entry being a key
        error, becomes a fresh transform with its translation divided by the
        unit factor, which must have been set. */
    method GetTargetTransform(euler: (string, Vec3) -> Mat3) returns (r: Result<Transform, Error>)
      requires factor.None? || factor.value != 0.0
      modifies this
      ensures metadata == old(metadata) && factor == old(factor) && blockLabel == old(blockLabel)
      ensures targetTransform == old(targetTransform) && blockTransform == old(blockTransform)
      ensures var name := TargetNameOf(old(targetName), metadata);
              && targetName == (if name.Ok? then Some(name.value) else old(targetName))
              && (r.Ok? <==> name.Ok? && name.value in hra && factor.Some?)
              && (name.Err? ==> r == Err(name.error))
              && (name.Ok? && name.value !in hra ==> r == Err(KeyError(name.value)))
              && (name.Ok? && name.value in hra && factor.None? ==> r == Err(AttributeError("division_factor")))
              && (r.Ok? ==> fresh(r.value) && r.value.State() == Unused
                            && r.value.AsParams() == PlacementParams(hra[name.value], factor.value, euler))
    {
      var name := TargetNameOf(targetName, metadata);
      if name.Err? {
        return Err(name.error);
      }
      targetName := Some(name.value);
      if name.value !in hra {
        return Err(KeyError(name.value));
      }
      if factor.None? {
        return Err(AttributeError("division_factor"));
      }
      r := PlacementTransform(name.value, hra, factor.value, euler);
    }

    /** The block `from_sample` builds from `b`: the box moved into place,
        the location record as metadata, the unit's factor, the label, the
        target name and both transforms, the target one having computed its
        inverse. */
    predicate Holds(b: SampleBlock, targetName: string)
      reads this, mesh, if targetTransform.Some? then {targetTransform.value} else {}
    {
      && mesh.vertices == b.vertices && mesh.faces == b.faces
      && metadata == b.rui && factor == Some(b.factor) && blockLabel == Some(b.blockLabel)
      && this.targetName == Some(targetName)
      && targetTransform.Some? && targetTransform.value.AsParams() == b.target
      && targetTransform.value.State() == Unused.(inverse := Some(b.inverse))
      && blockTransform.Some? && blockTransform.value.AsParams() == b.block
    }

    /** `block.transform(block)` followed by
        `block.target_transform.invert(block)`: the mesh is moved in place
        by the block's transform and then by the inverse of the target
        transform, which keeps that inverse; a singular target transform is
        a linear algebra error. */
    static method MoveBlock(block: Transform, target: Transform, mesh: Mesh) returns (r: Result<(), Error>)
      requires block != target
      requires block.dvf.None? && block.State() == Unused
      requires target.dvf.None? && target.State() == Unused
      modifies block, target, mesh
      ensures r.Ok? <==> Inverse4(target.matrix).Some?
      ensures r.Err? ==> r.error == LinAlgError
      ensures r.Ok? ==> mesh.vertices == MapAffine(Inverse4(target.matrix).value, MapAffine(block.matrix, old(mesh.vertices)))
      ensures r.Ok? ==> target.State() == Unused.(inverse := Inverse4(target.matrix)) && block.State() == Unused
    {
      var moved := block.Call(Surface(mesh), false);
      var placed := target.Invert(Surface(mesh));
      if placed.Err? {
        return Err(placed.error);
      }
      r := Ok(());
    }

    /** The end of `from_sample`: the block transform is read from the
        placement, and the block is moved by it and then by the inverse of
        the target transform. */
    method Settle(euler: (string, Vec3) -> Mat3) returns (r: Result<(), Error>)
      requires factor.Some? && factor.value != 0.0
      requires targetTransform.Some? && targetTransform.value.dvf.None? && targetTransform.value.State() == Unused
      modifies this, mesh, targetTransform.value
      ensures metadata == old(metadata) && factor == old(factor) && blockLabel == old(blockLabel)
      ensures targetName == old(targetName) && targetTransform == old(targetTransform)
      ensures var bp := BlockParams(metadata, factor.value, euler);
              var inv := Inverse4(targetTransform.value.matrix);
              && (r.Ok? <==> bp.Ok? && inv.Some?)
              && (bp.Err? ==> r == Err(bp.error))
              && (bp.Ok? && inv.None? ==> r == Err(LinAlgError))
              && (r.Ok? ==>
                    && blockTransform.Some? && fresh(blockTransform.value)
                    && blockTransform.value.AsParams() == bp.value && blockTransform.value.State() == Unused
                    && mesh.vertices == MapAffine(inv.value, MapAffine(bp.value.matrix, old(mesh.vertices)))
                    && targetTransform.value.State() == Unused.(inverse := inv))
    {
      var bp := BlockParams(metadata, factor.value, euler);
      if bp.Err? {
        return Err(bp.error);
      }
      var block := new Transform(bp.value.scale, bp.value.rotate, bp.value.translate, None, None, "xyz", true, euler);
      blockTransform := Some(block);
      r := MoveBlock(block, targetTransform.value, mesh);
    }

    /** The second half of `from_sample`, as `PlaceSpec` states it: the
        box becomes a block, which is moved by its own transform and then
        by the inverse of its reference organ's transform. */
    static method Place(rui: map<string, Json>, factor: real, size: Vec3, blockLabel: Json,
                        donor: Option<map<string, Json>>, targetName: string,
                        hra: map<string, HraTransform>, box: Vec3 -> Loaded,
                        euler: (string, Vec3) -> Mat3) returns (r: Result<TissueBlock, Error>)
      requires factor != 0.0 && |rui| > 0
      ensures var spec := PlaceSpec(rui, factor, size, blockLabel, targetName, hra, box, euler);
              && (r.Ok? <==> spec.Ok?)
              && (r.Err? ==> r.error == spec.error)
              && (r.Ok? ==> fresh(r.value) && fresh(r.value.mesh) && r.value.Holds(spec.value, targetName))
              && (r.Ok? ==> r.value.donor == Truthy(donor) && r.value.hra == hra)
              && (r.Ok? ==> fresh(r.value.targetTransform.value) && fresh(r.value.blockTransform.value)
                            && r.value.blockTransform.value.State() == Unused)
    {
      var loaded := box(size);
      var t := new TissueBlock(loaded.vertices, loaded.faces, donor, Some(rui), hra);
      t.factor := Some(factor);
      t.blockLabel := Some(blockLabel);
      t.targetName := Some(targetName);
      var target := t.GetTargetTransform(euler);
      if target.Err? {
        return Err(target.error);
      }
      t.targetTransform := Some(target.value);
      var placed := t.Settle(euler);
      if placed.Err? {
        return Err(placed.error);
      }
      PlaceSpecOk(rui, factor, size, blockLabel, targetName, hra, box, euler, t.blockTransform.value.AsParams());
      r := Ok(t);
    }

    /** `from_sample`: a block of the sample's size, measured in the unit of
        its location record and brought into metres, moved by the placement
        the record holds and then by the inverse of its reference organ's
        transform; what it reads, builds and computes is `SampleSpec`'s.
        The block keeps the location record as its metadata. */
    static method FromSample(sample: map<string, Json>, donor: Option<map<string, Json>>, targetName: string,
                             hra: map<string, HraTransform>, box: Vec3 -> Loaded,
                             euler: (string, Vec3) -> Mat3) returns (r: Result<TissueBlock, Error>)
      ensures var spec := SampleSpec(sample, targetName, hra, box, euler);
              && (r.Ok? <==> spec.Ok?)
              && (r.Err? ==> r.error == spec.error)
              && (r.Ok? ==> fresh(r.value) && fresh(r.value.mesh) && r.value.Holds(spec.value, targetName))
              && (r.Ok? ==> r.value.donor == Truthy(donor) && r.value.hra == hra)
              && (r.Ok? ==> fresh(r.value.targetTransform.value) && fresh(r.value.blockTransform.value)
                            && r.value.blockTransform.value.State() == Unused)
    {
      var rui := Field(Obj(sample), "rui_location");
      if rui.Err? {
        return Err(rui.error);
      }
      var unit := Field(rui.value, "dimension_units");
      if unit.Err? {
        return Err(unit.error);
      }
      var f := DivisionFactor(unit.value);
      if f.Err? {
        return Err(f.error);
      }
      var size := DivideVec(rui.value, "x_dimension", "y_dimension", "z_dimension", f.value);
      if size.Err? {
        return Err(size.error);
      }
      r := Place(rui.value.fields, f.value, size.value, if "label" in sample then sample["label"] else Null,
                 donor, targetName, hra, box, euler);
    }

    /** `from_millitome`: a block with the millitome's mesh, in millimetres,
        and the transform of its reference organ; the block is not moved. */
    static method FromMillitome(vertices: seq<Vec3>, faces: seq<Face>, donor: Option<map<string, Json>>,
                                metadata: Option<map<string, Json>>, targetName: string, blockLabel: Json,
                                hra: map<string, HraTransform>, euler: (string, Vec3) -> Mat3)
      returns (r: Result<TissueBlock, Error>)
      ensures r.Ok? <==> targetName in hra
      ensures r.Err? ==> r.error == KeyError(targetName)
      ensures r.Ok? ==>
                var t := r.value;
                && fresh(t) && fresh(t.mesh) && t.mesh.vertices == vertices && t.mesh.faces == faces
                && t.donor == Truthy(donor) && t.hra == hra
                && t.metadata == (if Truthy(metadata).Some? then metadata.value else map[])
                && t.factor == Some(1000.0) && t.blockLabel == Some(blockLabel) && t.targetName == Some(targetName)
                && t.targetTransform.Some? && fresh(t.targetTransform.value)
                && t.targetTransform.value.AsParams() == PlacementParams(hra[targetName], 1000.0, euler)
                && t.targetTransform.value.State() == Unused
                && t.blockTransform.None?
    {
      var t := new TissueBlock(vertices, faces, donor, metadata, hra);
      t.blockLabel := Some(blockLabel);
      t.targetName := Some(targetName);
      t.factor := Some(1000.0);
      var target := t.GetTargetTransform(euler);
      if target.Err? {
        return Err(target.error);
      }
      t.targetTransform := Some(target.value);
      r := Ok(t);
    }

    /** The measuring half of `to_sample`, given the bounding box's extents
        and what `split_transform` finds in its transform: the dimensions,
        then the placement's scale, rotation and translation, as
        `MeasuresSpec` states them. */
    method Measure(ext: Vec3, sp: Split) returns (r: Result<(), Error>)
      modifies this
      ensures Written(r, metadata) == MeasuresSpec(old(metadata), factor, ext, sp)
      ensures factor == old(factor) && blockLabel == old(blockLabel) && targetName == old(targetName)
      ensures targetTransform == old(targetTransform) && blockTransform == old(blockTransform)
    {
      if factor.None? {
        return Err(AttributeError("division_factor"));
      }
      metadata := WithDimensions(metadata, Scale(factor.value, ext));
      if "placement" !in metadata {
        return Err(KeyError("placement"));
      }
      if !metadata["placement"].Obj? {
        return Err(TypeError);
      }
      var pl := WithMeasures(metadata["placement"].fields, sp.scale, sp.rotation, Scale(factor.value, sp.translation));
      metadata := metadata["placement" := Obj(pl)];
      r := Ok(());
    }

    /** `to_sample`: the record of the block, filled with the defaults when
        the block has no metadata, then measured from the block's bounding
        box. The record is left in the block's metadata as far as it got;
        writing it out is not modelled. */
    method ToSample(today: string, show: Json -> string, sqrt: real -> real, asEuler: Mat3 -> Vec3)
      returns (r: Result<(), Error>)
      requires |mesh.vertices| > 0
      modifies this
      ensures Written(r, metadata) == ToSampleSpec(old(metadata), donor, blockLabel, targetName, factor, mesh.vertices,
                                                   sqrt, asEuler, today, show)
      ensures factor == old(factor) && blockLabel == old(blockLabel) && targetName == old(targetName)
      ensures targetTransform == old(targetTransform) && blockTransform == old(blockTransform)
    {
      var pts := mesh.vertices;
      var d := DefaultsSpec(metadata, donor, blockLabel, targetName, today, show);
      metadata := d.metadata;
      if d.result.Err? {
        r := d.result;
      } else {
        r := Measure(Extents(pts), BoxSplit(pts, sqrt, asEuler));
      }
    }
  }
}
