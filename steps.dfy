/** The registration steps. Each step function builds its transforms, applies
    them to its inputs and returns the outputs and transforms keyed by role;
    decorated, it records them on its shared `PipelineStep`. The effect of
    each step is first stated on coordinates and transform states, then the
    decorated steps are proved against those statements.

    The numerical solvers are parameters: `ransac` stands for open3d's
    feature-matching RANSAC on the voxel-downsampled clouds, `icp` for its
    point-to-plane ICP, `bcpd` for the BCPD executable with its text-file
    exchange, `euler` for scipy's Euler-angle rotation and `sqrt` for the
    square root. */
module Steps {
  import opened Wrappers
  import opened Linalg
  import opened Geometry
  import opened Conversions
  import opened Preprocess
  import opened Dataclass
  import opened Decorators

  /** The solvers and numerical routines a run depends on. */
  datatype Oracles = Oracles(
    sqrt: real -> real,
    euler: (string, Vec3) -> Mat3,
    ransac: (seq<Vec3>, seq<Vec3>, real, real) -> Mat4,
    icp: (seq<Vec3>, seq<Vec3>, real, Mat4) -> Mat4,
    bcpd: (seq<string>, seq<Vec3>, seq<Vec3>) -> BcpdResult)

  /** The files BCPD writes: the deformed source `u`, the downsampled source
      `normY`, the similarity transform (translation, scale, rotation) and the
      registered cloud, plain or interpolated back from the downsampled one. */
  datatype BcpdResult = BcpdResult(u: seq<Vec3>, normY: seq<Vec3>, translation: Vec3, scale: real,
                                   rotation: Mat3, y: seq<Vec3>, yInterpolated: seq<Vec3>)

  /** The rigid-registration settings the two rigid steps read. */
  datatype RigidConfig = RigidConfig(voxelSize: real, globalDistanceFactor: real, refineDistanceFactor: real)

  /** A registration distance threshold: the voxel size times a factor. */
  function Threshold(config: RigidConfig, factor: real): real
  {
    config.voxelSize * factor
  }

  /** A transform as a step leaves it, and the coordinates it produced. */
  datatype Applied = Applied(params: Params, cache: Cache, points: seq<Vec3>)

  /** The source and target transforms of a normalisation step. */
  datatype Pair = Pair(source: Applied, target: Applied)

  /** The nonrigid step: its transform and BCPD's own registered cloud. */
  datatype Nonrigid = Nonrigid(source: Applied, registered: seq<Vec3>)

  /** A denormalisation step: the state of the inverted transform and the
      two inverted geometries. */
  datatype Inverted = Inverted(cache: Cache, source: seq<Vec3>, target: seq<Vec3>)

  /** `Transform(scale=k)`: a uniform scale, zero Euler angles about 'xyz',
      no translation, no DVF. */
  function ScaleParams(k: real, euler: (string, Vec3) -> Mat3): Params
  {
    Params(Uniform(k), Angles(Origin), Origin, None,
           BuildMatrix(Uniform(k), Angles(Origin), Origin, "xyz", euler), "xyz", true)
  }

  /** `Transform(matrix=m, apply=a)`: the matrix is kept, the rest defaults. */
  function MatrixParams(m: Mat4, apply: bool): Params
  {
    Params(PerAxis(Vec3(1.0, 1.0, 1.0)), Angles(Origin), Origin, None, m, "xyz", apply)
  }

  /** Both normalisation steps: a scale per geometry by the named method,
      both scales computed before either transform is applied, then each
      transform called on its geometry with `center=True`. */
  function NormalizeSpec(src: seq<Vec3>, srcKind: Kind, tgt: seq<Vec3>, tgtKind: Kind, name: string,
                         sqrt: real -> real, euler: (string, Vec3) -> Mat3): Result<Pair, Error>
  {
    match ScaleFactor(src, name, sqrt)
    case Err(e) => Err(e)
    case Ok(ks) =>
      match ScaleFactor(tgt, name, sqrt)
      case Err(e) => Err(e)
      case Ok(kt) =>
        var os := CallSpec(ScaleParams(ks, euler), Unused, src, srcKind, true);
        var ot := CallSpec(ScaleParams(kt, euler), Unused, tgt, tgtKind, true);
        if os.result.Err? then Err(os.result.error)
        else if ot.result.Err? then Err(ot.result.error)
        else Ok(Pair(Applied(ScaleParams(ks, euler), os.cache, os.result.value),
                     Applied(ScaleParams(kt, euler), ot.cache, ot.result.value)))
  }

  /** With zero angles giving the identity rotation, the scale transform is a
      plain multiplication of every coordinate. */
  lemma ScaleParamsScale(k: real, euler: (string, Vec3) -> Mat3, pts: seq<Vec3>)
    requires euler("xyz", Origin) == Identity3
    ensures MapAffine(ScaleParams(k, euler).matrix, pts) == Scaled(k, pts)
  {
    var m := ScaleParams(k, euler).matrix;
    forall i | 0 <= i < |pts|
      ensures MapAffine(m, pts)[i] == Scaled(k, pts)[i]
    {
      BuildMatrixApplies(Uniform(k), Angles(Origin), Origin, "xyz", euler, pts[i]);
      assert MulMV(Identity3, Scale(k, pts[i])) == Scale(k, pts[i]);
    }
  }

  /** A successful normalisation centres each geometry on its own mean, which
      the transform keeps, and then scales it by its own factor. */
  lemma NormalizeCentresThenScales(src: seq<Vec3>, tgt: seq<Vec3>, name: string,
                                   sqrt: real -> real, euler: (string, Vec3) -> Mat3)
    requires euler("xyz", Origin) == Identity3
    requires NormalizeSpec(src, CloudKind, tgt, CloudKind, name, sqrt, euler).Ok?
    ensures var pr := NormalizeSpec(src, CloudKind, tgt, CloudKind, name, sqrt, euler).value;
            ScaleFactor(src, name, sqrt).Ok? && ScaleFactor(tgt, name, sqrt).Ok?
            && pr.source.cache == Cache(true, Some(Mean(src)), None, None)
            && pr.target.cache == Cache(true, Some(Mean(tgt)), None, None)
            && pr.source.points == Scaled(ScaleFactor(src, name, sqrt).value, Centered(src, Mean(src)))
            && pr.target.points == Scaled(ScaleFactor(tgt, name, sqrt).value, Centered(tgt, Mean(tgt)))
  {
    ScaleParamsScale(ScaleFactor(src, name, sqrt).value, euler, Centered(src, Mean(src)));
    ScaleParamsScale(ScaleFactor(tgt, name, sqrt).value, euler, Centered(tgt, Mean(tgt)));
  }

  /** After the rigid normalisation both geometries span exactly one unit
      along their longest bounding-box side. */
  lemma UnitNormalisation(src: seq<Vec3>, tgt: seq<Vec3>, sqrt: real -> real, euler: (string, Vec3) -> Mat3)
    requires euler("xyz", Origin) == Identity3
    requires NormalizeSpec(src, CloudKind, tgt, CloudKind, "unit", sqrt, euler).Ok?
    ensures var pr := NormalizeSpec(src, CloudKind, tgt, CloudKind, "unit", sqrt, euler).value;
            |pr.source.points| > 0 && |pr.target.points| > 0
            && MaxExtent(pr.source.points) == 1.0 && MaxExtent(pr.target.points) == 1.0
  {
    NormalizeCentresThenScales(src, tgt, "unit", sqrt, euler);
    UnitScaleNormalises(src, Mean(src));
    UnitScaleNormalises(tgt, Mean(tgt));
  }

  /** The global step's transform: RANSAC's matrix, found with the distance
      threshold `voxel_size * global_distance_threshold_factor`, and marked
      inactive so that nothing ever applies it. */
  function GlobalSpec(src: seq<Vec3>, tgt: seq<Vec3>, config: RigidConfig,
                      ransac: (seq<Vec3>, seq<Vec3>, real, real) -> Mat4): (p: Params)
    ensures !p.apply && p.dvf.None?
    ensures p.matrix == ransac(src, tgt, config.voxelSize, Threshold(config, config.globalDistanceFactor))
  {
    MatrixParams(ransac(src, tgt, config.voxelSize, Threshold(config, config.globalDistanceFactor)), false)
  }

  /** The refine step: ICP seeded with the global matrix, with threshold
      `voxel_size * refine_distance_threshold_factor`, then a forward call of
      the resulting active transform on the source. ICP accepts only point
      clouds. */
  function RefineSpec(src: seq<Vec3>, srcKind: Kind, tgt: seq<Vec3>, tgtKind: Kind, seed: Mat4, config: RigidConfig,
                      icp: (seq<Vec3>, seq<Vec3>, real, Mat4) -> Mat4): Result<Applied, Error>
  {
    if !srcKind.CloudKind? || !tgtKind.CloudKind? then Err(TypeError)
    else
      var p := MatrixParams(icp(src, tgt, Threshold(config, config.refineDistanceFactor), seed), true);
      var o := CallSpec(p, Unused, src, CloudKind, false);
      if o.result.Err? then Err(o.result.error) else Ok(Applied(p, o.cache, o.result.value))
  }

  /** The refined source is the ICP matrix applied to every source point, and
      the transform is left without any cached state. */
  lemma RefineApplies(src: seq<Vec3>, tgt: seq<Vec3>, seed: Mat4, config: RigidConfig,
                      icp: (seq<Vec3>, seq<Vec3>, real, Mat4) -> Mat4)
    ensures var m := icp(src, tgt, Threshold(config, config.refineDistanceFactor), seed);
            RefineSpec(src, CloudKind, tgt, CloudKind, seed, config, icp) == Ok(Applied(MatrixParams(m, true), Unused, MapAffine(m, src)))
  {
  }

  /** The fixed part of BCPD's command line. */
  function BcpdPrefix(params: map<string, string>): seq<string>
    requires "distance_threshold" in params && "seed" in params && "max_iterations" in params
    requires "lambda" in params && "beta" in params
  {
    ["./bcpd", "-x", "../bcpd/target.txt", "-y", "../bcpd/source.txt", "-J", "300", "-K", "70",
     "-p", "-u", "n", "-c", params["distance_threshold"], "-r", params["seed"],
     "-n", params["max_iterations"], "-l", params["lambda"], "-b", params["beta"], "-s", "yxuveTY"]
  }

  /** BCPD's argument list: the fixed prefix, `-g` with gamma when gamma is
      set, then `-D` with the downsampling when that is set. The five
      required settings are looked up in list order; the first one missing is
      a key error. */
  function BcpdArgs(params: map<string, string>): Result<seq<string>, Error>
  {
    if "distance_threshold" !in params then Err(KeyError("distance_threshold"))
    else if "seed" !in params then Err(KeyError("seed"))
    else if "max_iterations" !in params then Err(KeyError("max_iterations"))
    else if "lambda" !in params then Err(KeyError("lambda"))
    else if "beta" !in params then Err(KeyError("beta"))
    else
      Ok(BcpdPrefix(params)
         + (if "gamma" in params then ["-g", params["gamma"]] else [])
         + (if "downsampling" in params then ["-D", params["downsampling"]] else []))
  }

  /** The shape of the argument list: 24 fixed entries, then the two optional
      pairs, gamma first; nothing else is ever added. */
  lemma BcpdArgsShape(params: map<string, string>)
    ensures var r := BcpdArgs(params);
            r.Ok? <==> "distance_threshold" in params && "seed" in params && "max_iterations" in params
                       && "lambda" in params && "beta" in params
    ensures var r := BcpdArgs(params);
            r.Ok? ==>
              var g := if "gamma" in params then 2 else 0;
              var d := if "downsampling" in params then 2 else 0;
              |r.value| == 24 + g + d
              && r.value[..24] == BcpdPrefix(params)
              && r.value[0] == "./bcpd"
              && ("gamma" in params ==> r.value[24] == "-g" && r.value[25] == params["gamma"])
              && ("downsampling" in params ==> r.value[24 + g] == "-D" && r.value[25 + g] == params["downsampling"])
  {
  }

  /** `a - b` on two arrays of points; arrays of different lengths do not
      broadcast. */
  function Difference(a: seq<Vec3>, b: seq<Vec3>): (r: Result<seq<Vec3>, Error>)
    ensures r.Ok? <==> |a| == |b|
    ensures r.Ok? ==> |r.value| == |a| && forall i :: 0 <= i < |a| ==> r.value[i] == Sub(a[i], b[i])
  {
    if |a| != |b| then Err(ValueError("operands could not be broadcast together"))
    else Ok(seq(|a|, i requires 0 <= i < |a| => Sub(a[i], b[i])))
  }

  /** The nonrigid transform: BCPD's scale, rotation matrix and translation,
      carrying the DVF. */
  function DeformParams(out: BcpdResult, dvf: seq<Vec3>, euler: (string, Vec3) -> Mat3): Params
  {
    Params(Uniform(out.scale), RotMatrix(out.rotation), out.translation, Some(dvf),
           BuildMatrix(Uniform(out.scale), RotMatrix(out.rotation), out.translation, "xyz", euler), "xyz", true)
  }

  /** The calls of the nonrigid transform: on the downsampled array first
      when there is one, which builds the interpolator on it, then forward on
      the source cloud. */
  function DeformSteps(p: Params, proxy: Option<seq<Vec3>>, src: seq<Vec3>): Result<Applied, Error>
  {
    var first := if proxy.Some? then CallSpec(p, Unused, proxy.value, ArrayKind, false) else Outcome(Unused, Ok([]));
    if first.result.Err? then Err(first.result.error)
    else
      var o := CallSpec(p, first.cache, src, CloudKind, false);
      if o.result.Err? then Err(o.result.error) else Ok(Applied(p, o.cache, o.result.value))
  }

  /** The nonrigid step after BCPD has run, from its output files `out`.
      The DVF is BCPD's deformed source minus the source it saw: the
      downsampled one when downsampling is set, the full source otherwise.
      With downsampling the transform is first called on the downsampled
      array, which is what its interpolator is built on. */
  function NonrigidFrom(out: BcpdResult, down: bool, src: seq<Vec3>, euler: (string, Vec3) -> Mat3): Result<Nonrigid, Error>
  {
    match Difference(out.u, if down then out.normY else src)
    case Err(e) => Err(e)
    case Ok(dvf) =>
      match DeformSteps(DeformParams(out, dvf, euler), if down then Some(out.normY) else None, src)
      case Err(e) => Err(e)
      case Ok(a) => Ok(Nonrigid(a, if down then out.yInterpolated else out.y))
  }

  /** The nonrigid step: both inputs are read as point clouds, BCPD runs on
      them with the argument list `BcpdArgs` builds, and its output is turned
      into the transform and the outputs. */
  function NonrigidSpec(src: seq<Vec3>, srcKind: Kind, tgt: seq<Vec3>, tgtKind: Kind, params: map<string, string>,
                        bcpd: (seq<string>, seq<Vec3>, seq<Vec3>) -> BcpdResult,
                        euler: (string, Vec3) -> Mat3): Result<Nonrigid, Error>
  {
    if !srcKind.CloudKind? || !tgtKind.CloudKind? then Err(AttributeError("points"))
    else
      match BcpdArgs(params)
      case Err(e) => Err(e)
      case Ok(args) => NonrigidFrom(bcpd(args, src, tgt), "downsampling" in params, src, euler)
  }

  /** The interpolator of the nonrigid transform is built on the downsampled
      source when downsampling is set and on the full source otherwise, and
      the reported registered cloud is the matching BCPD output. */
  lemma NonrigidNodes(src: seq<Vec3>, tgt: seq<Vec3>, params: map<string, string>,
                      bcpd: (seq<string>, seq<Vec3>, seq<Vec3>) -> BcpdResult, euler: (string, Vec3) -> Mat3)
    requires NonrigidSpec(src, CloudKind, tgt, CloudKind, params, bcpd, euler).Ok?
    ensures var n := NonrigidSpec(src, CloudKind, tgt, CloudKind, params, bcpd, euler).value;
            var out := bcpd(BcpdArgs(params).value, src, tgt);
            BcpdArgs(params).Ok?
            && n.source.cache.nodes == Some(if "downsampling" in params then out.normY else src)
            && !n.source.cache.centered && n.source.cache.inverse.None?
            && n.registered == (if "downsampling" in params then out.yInterpolated else out.y)
  {
  }

  /** Without downsampling the nonrigid step's source output is the forward
      call of the nonrigid transform on the full source, whose DVF is BCPD's
      deformed source minus that source. */
  lemma NonrigidSourceCalled(src: seq<Vec3>, tgt: seq<Vec3>, params: map<string, string>,
                             bcpd: (seq<string>, seq<Vec3>, seq<Vec3>) -> BcpdResult, euler: (string, Vec3) -> Mat3)
    requires "downsampling" !in params
    requires NonrigidSpec(src, CloudKind, tgt, CloudKind, params, bcpd, euler).Ok?
    ensures var out := bcpd(BcpdArgs(params).value, src, tgt);
            var dvf := Difference(out.u, src);
            dvf.Ok? && NonrigidSpec(src, CloudKind, tgt, CloudKind, params, bcpd, euler).value.source.points
                       == CallSpec(DeformParams(out, dvf.value, euler), Unused, src, CloudKind, false).result.value
  {
    var out := bcpd(BcpdArgs(params).value, src, tgt);
    assert NonrigidSpec(src, CloudKind, tgt, CloudKind, params, bcpd, euler) == NonrigidFrom(out, false, src, euler);
  }

  /** Without downsampling, a source of distinct points is carried point by
      point to BCPD's deformed source `u`, then scaled, rotated and
      translated — the translation added before the scale and rotation. */
  lemma NonrigidFollowsBcpd(src: seq<Vec3>, tgt: seq<Vec3>, params: map<string, string>,
                            bcpd: (seq<string>, seq<Vec3>, seq<Vec3>) -> BcpdResult, euler: (string, Vec3) -> Mat3)
    requires "downsampling" !in params && |src| > 0
    requires forall j, k :: 0 <= j < |src| && 0 <= k < |src| && j != k ==> src[j] != src[k]
    requires NonrigidSpec(src, CloudKind, tgt, CloudKind, params, bcpd, euler).Ok?
    ensures var n := NonrigidSpec(src, CloudKind, tgt, CloudKind, params, bcpd, euler).value;
            var out := bcpd(BcpdArgs(params).value, src, tgt);
            |out.u| == |src| == |n.source.points|
            && forall i :: 0 <= i < |src| ==>
                 n.source.points[i] == MulMV(ScaleM(out.scale, out.rotation), Add(out.u[i], out.translation))
  {
    var out := bcpd(BcpdArgs(params).value, src, tgt);
    var dvf := Difference(out.u, src).value;
    var p := DeformParams(out, dvf, euler);
    NonrigidSourceCalled(src, tgt, params, bcpd, euler);
    DeformAtOwnNodes(p, src, CloudKind);
    var xs := CallSpec(p, Unused, src, CloudKind, false).result.value;
    assert Blend(p.scale, p.rotate).value == ScaleM(out.scale, out.rotation);
    DisplacedBack(xs, src, out.u, dvf, ScaleM(out.scale, out.rotation), out.translation);
  }

  /** Points displaced by `u - src` from `src` are the points of `u`. */
  lemma DisplacedBack(xs: seq<Vec3>, src: seq<Vec3>, u: seq<Vec3>, dvf: seq<Vec3>, m: Mat3, t: Vec3)
    requires |xs| == |src| == |u| == |dvf|
    requires forall i :: 0 <= i < |src| ==> dvf[i] == Sub(u[i], src[i])
    requires forall i :: 0 <= i < |src| ==> xs[i] == MulMV(m, Add(Add(src[i], dvf[i]), t))
    ensures forall i :: 0 <= i < |src| ==> xs[i] == MulMV(m, Add(u[i], t))
  {
    forall i | 0 <= i < |src|
      ensures xs[i] == MulMV(m, Add(u[i], t))
    {
      assert Add(src[i], dvf[i]) == u[i];
    }
  }

  /** Both denormalisation steps: the normalisation's target transform
      inverted on the source and then on the target. */
  function DenormalizeSpec(p: Params, c: Cache, src: seq<Vec3>, srcKind: Kind,
                           tgt: seq<Vec3>, tgtKind: Kind): Result<Inverted, Error>
  {
    var os := InvertSpec(p, c, src, srcKind);
    if os.result.Err? then Err(os.result.error)
    else
      var ot := InvertSpec(p, os.cache, tgt, tgtKind);
      if ot.result.Err? then Err(ot.result.error)
      else Ok(Inverted(ot.cache, os.result.value, ot.result.value))
  }

  /** Denormalising with the target transform of a normalisation takes that
      normalisation's target output back to the original target exactly:
      the inverse matrix and the cached mean undo the scale and the centring. */
  lemma DenormalizeUndoesNormalize(src: seq<Vec3>, tgt: seq<Vec3>, name: string,
                                   sqrt: real -> real, euler: (string, Vec3) -> Mat3)
    requires NormalizeSpec(src, CloudKind, tgt, CloudKind, name, sqrt, euler).Ok?
    requires Inverse4(NormalizeSpec(src, CloudKind, tgt, CloudKind, name, sqrt, euler).value.target.params.matrix).Some?
    ensures var t := NormalizeSpec(src, CloudKind, tgt, CloudKind, name, sqrt, euler).value.target;
            var d := DenormalizeSpec(t.params, t.cache, t.points, CloudKind, t.points, CloudKind);
            d.Ok? && d.value.source == tgt && d.value.target == tgt
  {
    var t := NormalizeSpec(src, CloudKind, tgt, CloudKind, name, sqrt, euler).value.target;
    var kt := ScaleFactor(tgt, name, sqrt).value;
    InvertAfterCall(ScaleParams(kt, euler), Unused, tgt, CloudKind, true);
    InvertRepeat(t.params, t.cache, t.points, CloudKind);
  }

  /** The transform `t` has parameters `p` and state `c`. */
  ghost predicate Holds(t: Transform, p: Params, c: Cache)
    reads t
  {
    t.AsParams() == p && t.State() == c
  }

  /** `NormalizeSpec` spelled out once its two scale factors are known. */
  lemma NormalizeSpecSteps(src: seq<Vec3>, srcKind: Kind, tgt: seq<Vec3>, tgtKind: Kind, name: string,
                           sqrt: real -> real, euler: (string, Vec3) -> Mat3)
    requires ScaleFactor(src, name, sqrt).Ok? && ScaleFactor(tgt, name, sqrt).Ok?
    ensures var ks, kt := ScaleFactor(src, name, sqrt).value, ScaleFactor(tgt, name, sqrt).value;
            var os := CallSpec(ScaleParams(ks, euler), Unused, src, srcKind, true);
            var ot := CallSpec(ScaleParams(kt, euler), Unused, tgt, tgtKind, true);
            NormalizeSpec(src, srcKind, tgt, tgtKind, name, sqrt, euler)
            == if os.result.Err? then Err(os.result.error)
               else if ot.result.Err? then Err(ot.result.error)
               else Ok(Pair(Applied(ScaleParams(ks, euler), os.cache, os.result.value),
                            Applied(ScaleParams(kt, euler), ot.cache, ot.result.value)))
  {
  }

  /** The objects a step's outputs refer to. */
  function OutputObjects(o: Outputs): set<object>
  {
    Objects(o.source)
    + (if o.target.Some? then Objects(o.target.value) else {})
    + (if o.registered.Some? then Objects(o.registered.value) else {})
  }

  /** The transforms a step reports. */
  function TransformObjects(t: Transforms): set<object>
  {
    {t.source} + (if t.target.Some? then {t.target.value} else {})
  }

  /** Everything a step's record refers to once it has run. */
  function Produced(s: PipelineStep): set<object>
    reads s
  {
    (if s.output.Some? then OutputObjects(s.output.value) else {})
    + (if s.transform.Some? then TransformObjects(s.transform.value) else {})
  }

  /** `g` is a geometry of kind `k` whose coordinates are `pts`. */
  ghost predicate Holding(g: Geometry, k: Kind, pts: seq<Vec3>)
    reads Objects(g)
  {
    KindOf(g) == k && ToArray(g) == pts
  }

  /** The record of a normalisation: both geometries came out as `pr` says,
      from two different transforms in the states `pr` gives. */
  ghost predicate RecordsPair(s: PipelineStep, pr: Pair, sk: Kind, tk: Kind)
    reads s, Produced(s)
  {
    s.output.Some? && s.transform.Some?
    && s.output.value.target.Some? && s.output.value.registered.None? && s.transform.value.target.Some?
    && s.transform.value.source != s.transform.value.target.value
    && Holding(s.output.value.source, sk, pr.source.points)
    && Holding(s.output.value.target.value, tk, pr.target.points)
    && Holds(s.transform.value.source, pr.source.params, pr.source.cache)
    && Holds(s.transform.value.target.value, pr.target.params, pr.target.cache)
  }

  /** One half of a normalisation: a fresh uniform-scale transform, called on
      `g` with centring. The argument is left as it is. */
  method ApplyScale(k: real, g: Geometry, ghost pts: seq<Vec3>, euler: (string, Vec3) -> Mat3)
      returns (t: Transform, r: Result<Geometry, Error>, ghost o: Outcome)
    requires ToArray(g) == pts
    ensures o == CallSpec(ScaleParams(k, euler), Unused, pts, KindOf(g), true)
    ensures fresh(t) && Holds(t, ScaleParams(k, euler), o.cache)
    ensures r.Ok? <==> o.result.Ok?
    ensures r.Err? ==> r.error == o.result.error
    ensures r.Ok? ==> fresh(Objects(r.value)) && Holding(r.value, KindOf(g), o.result.value)
  {
    t := new Transform(Uniform(k), Angles(Origin), Origin, None, None, "xyz", true, euler);
    r := t.Call(g, true);
    o := CallSpec(ScaleParams(k, euler), Unused, pts, KindOf(g), true);
  }

  /** The decorator's second half for a step that returns both geometries,
      each with its own transform. */
  method RecordPair(d: Decorated, ts: Transform, gs: Geometry, tt: Transform, gt: Geometry,
                    ghost pr: Pair, ghost sk: Kind, ghost tk: Kind) returns (s: PipelineStep)
    requires ts != tt
    requires Holds(ts, pr.source.params, pr.source.cache) && Holds(tt, pr.target.params, pr.target.cache)
    requires Holding(gs, sk, pr.source.points) && Holding(gt, tk, pr.target.points)
    modifies d.step
    ensures s == d.step && d.step.inputs == old(d.step.inputs)
    ensures Produced(d.step) == Objects(gs) + Objects(gt) + {ts, tt}
    ensures RecordsPair(d.step, pr, sk, tk)
  {
    s := d.RecordResult(Some(Outputs(gs, Some(gt), None)), Transforms(ts, Some(tt)));
  }

  /** The second half of a normalisation, once both scale factors are known:
      source first, then target, each by its own fresh transform. */
  method NormalizeScaled(d: Decorated, ks: real, kt: real, source: Geometry, target: Geometry,
                         ghost src: seq<Vec3>, ghost tgt: seq<Vec3>,
                         euler: (string, Vec3) -> Mat3) returns (r: Result<PipelineStep, Error>)
    requires ToArray(source) == src && ToArray(target) == tgt
    modifies d.step
    ensures d.step.inputs == old(d.step.inputs)
    ensures var os := CallSpec(ScaleParams(ks, euler), Unused, src, KindOf(source), true);
            var ot := CallSpec(ScaleParams(kt, euler), Unused, tgt, KindOf(target), true);
            && (r.Ok? <==> os.result.Ok? && ot.result.Ok?)
            && (r.Err? ==> r.error == if os.result.Err? then os.result.error else ot.result.error)
            && (r.Ok? ==>
                  r.value == d.step && fresh(Produced(d.step))
                  && RecordsPair(d.step, Pair(Applied(ScaleParams(ks, euler), os.cache, os.result.value),
                                              Applied(ScaleParams(kt, euler), ot.cache, ot.result.value)),
                                 KindOf(source), KindOf(target)))
  {
    var ts, gs, os := ApplyScale(ks, source, src, euler);
    if gs.Err? {
      return Err(gs.error);
    }
    var tt, gt, ot := ApplyScale(kt, target, tgt, euler);
    if gt.Err? {
      return Err(gt.error);
    }
    var s := RecordPair(d, ts, gs.value, tt, gt.value, Pair(Applied(ScaleParams(ks, euler), os.cache, os.result.value),
                                                            Applied(ScaleParams(kt, euler), ot.cache, ot.result.value)),
                        KindOf(source), KindOf(target));
    assert fresh(Objects(gs.value) + Objects(gt.value) + {ts, tt});
    r := Ok(s);
  }

  /** Both normalisation steps, decorated by `d`, with scale method `name`:
      both scale factors are computed before either geometry is touched. */
  method Normalize(d: Decorated, name: string, source: Geometry, target: Geometry,
                   sqrt: real -> real, euler: (string, Vec3) -> Mat3) returns (r: Result<PipelineStep, Error>)
    modifies d.step
    ensures d.step.inputs == Some(Roles(source, target))
    ensures var spec := NormalizeSpec(ToArray(source), KindOf(source), ToArray(target), KindOf(target), name, sqrt, euler);
            && (r.Ok? <==> spec.Ok?)
            && (r.Err? ==> r.error == spec.error)
            && (r.Ok? ==>
                  r.value == d.step && fresh(Produced(d.step))
                  && RecordsPair(d.step, spec.value, KindOf(source), KindOf(target)))
  {
    var _ := d.RecordInputs(StepKwargs(source, target));
    var ks := ScaleFactor(ToArray(source), name, sqrt);
    if ks.Err? {
      return Err(ks.error);
    }
    var kt := ScaleFactor(ToArray(target), name, sqrt);
    if kt.Err? {
      return Err(kt.error);
    }
    NormalizeSpecSteps(ToArray(source), KindOf(source), ToArray(target), KindOf(target), name, sqrt, euler);
    r := NormalizeScaled(d, ks.value, kt.value, source, target, ToArray(source), ToArray(target), euler);
  }

  /** `flip`: not implemented; the decorator has already recorded the
      inputs when the error is raised. */
  method Flip(d: Decorated, source: Geometry, target: Geometry) returns (r: Result<PipelineStep, Error>)
    modifies d.step
    ensures d.step.inputs == Some(Roles(source, target))
    ensures d.step.output == old(d.step.output) && d.step.transform == old(d.step.transform)
    ensures r == Err(NotImplementedError)
  {
    var _ := d.RecordInputs(StepKwargs(source, target));
    r := Err(NotImplementedError);
  }

  /** The record of a step that reports one transform, `Source`, with
      parameters `p` and state `c`, and no `Target` transform. */
  ghost predicate RecordsSourceTransform(s: PipelineStep, p: Params, c: Cache)
    reads s, Produced(s)
  {
    s.transform.Some? && s.transform.value.target.None?
    && Holds(s.transform.value.source, p, c)
  }

  /** `global_registration`: both clouds are voxel-downsampled (only a point
      cloud can be), RANSAC finds a matrix, and the step returns no outputs
      and one inactive transform. */
  method GlobalRegistration(d: Decorated, source: Geometry, target: Geometry, config: RigidConfig,
                            ransac: (seq<Vec3>, seq<Vec3>, real, real) -> Mat4,
                            euler: (string, Vec3) -> Mat3) returns (r: Result<PipelineStep, Error>)
    modifies d.step
    ensures d.step.inputs == Some(Roles(source, target))
    ensures !source.Cloud? || !target.Cloud? <==> r == Err(AttributeError("voxel_down_sample"))
    ensures r.Ok? <==> source.Cloud? && target.Cloud?
    ensures r.Ok? ==>
              r.value == d.step && d.step.output.None? && fresh(Produced(d.step))
              && RecordsSourceTransform(d.step, GlobalSpec(ToArray(source), ToArray(target), config, ransac), Unused)
  {
    var _ := d.RecordInputs(StepKwargs(source, target));
    if !source.Cloud? || !target.Cloud? {
      return Err(AttributeError("voxel_down_sample"));
    }
    var m := ransac(ToArray(source), ToArray(target), config.voxelSize, Threshold(config, config.globalDistanceFactor));
    var t := new Transform(PerAxis(Vec3(1.0, 1.0, 1.0)), Angles(Origin), Origin, None, Some(m), "xyz", false, euler);
    var s := d.RecordResult(None, Transforms(t, None));
    r := Ok(s);
  }

  /** `refine_registration`: ICP seeded with the matrix of the global step's
      `Source` transform; the new transform is applied to the source in
      place, so the output is the argument object itself. */
  method RefineRegistration(d: Decorated, source: Geometry, target: Geometry, config: RigidConfig,
                            transform: Transforms, icp: (seq<Vec3>, seq<Vec3>, real, Mat4) -> Mat4,
                            euler: (string, Vec3) -> Mat3) returns (r: Result<PipelineStep, Error>)
    modifies d.step, Objects(source)
    ensures d.step.inputs == Some(Roles(source, target))
    ensures var spec := RefineSpec(old(ToArray(source)), KindOf(source), old(ToArray(target)), KindOf(target),
                                   transform.source.matrix, config, icp);
            && (r.Ok? <==> spec.Ok?)
            && (r.Err? ==> r.error == spec.error)
            && (r.Ok? ==>
                  r.value == d.step && d.step.output == Some(Outputs(source, None, None))
                  && RecordsSourceTransform(d.step, spec.value.params, spec.value.cache)
                  && fresh(d.step.transform.value.source)
                  && Holding(source, CloudKind, spec.value.points))
  {
    var _ := d.RecordInputs(StepKwargs(source, target));
    if !source.Cloud? || !target.Cloud? {
      return Err(TypeError);
    }
    var m := icp(ToArray(source), ToArray(target), Threshold(config, config.refineDistanceFactor), transform.source.matrix);
    var t := new Transform(PerAxis(Vec3(1.0, 1.0, 1.0)), Angles(Origin), Origin, None, Some(m), "xyz", true, euler);
    var g := t.Call(source, false);
    if g.Err? {
      // a matrix always applies to a point cloud
      assert false;
    }
    var s := d.RecordResult(Some(Outputs(g.value, None, None)), Transforms(t, None));
    r := Ok(s);
  }

  /** The record of the nonrigid step: the deformed source and BCPD's own
      registered cloud, as `n` says, and the one transform. */
  ghost predicate RecordsNonrigid(s: PipelineStep, n: Nonrigid)
    reads s, Produced(s)
  {
    RecordsSourceTransform(s, n.source.params, n.source.cache)
    && s.output.Some? && s.output.value.target.None? && s.output.value.registered.Some?
    && Holding(s.output.value.source, CloudKind, n.source.points)
    && Holding(s.output.value.registered.value, CloudKind, n.registered)
  }

  /** The calls of the fresh nonrigid transform `t`: on the downsampled
      array first when there is one, then on the source. */
  method ApplyDeformation(t: Transform, proxy: Option<seq<Vec3>>, source: Geometry, ghost src: seq<Vec3>)
      returns (r: Result<Geometry, Error>)
    requires t.State() == Unused && t.dvf.Some?
    requires source.Cloud? && ToArray(source) == src
    modifies t
    ensures var spec := DeformSteps(t.AsParams(), proxy, src);
            && (r.Ok? <==> spec.Ok?)
            && (r.Err? ==> r.error == spec.error)
            && (r.Ok? ==> fresh(Objects(r.value)) && Holds(t, spec.value.params, spec.value.cache)
                          && Holding(r.value, CloudKind, spec.value.points))
  {
    if proxy.Some? {
      var first := t.Call(Array(proxy.value), false);
      if first.Err? {
        return Err(first.error);
      }
    }
    r := t.Call(source, false);
  }

  /** BCPD's argument list, built as the step builds it: the fixed part
      with the five required settings looked up in order, then extended by
      gamma and by the downsampling when they are set. */
  method BcpdCommand(params: map<string, string>) returns (r: Result<seq<string>, Error>)
    ensures r == BcpdArgs(params)
  {
    if "distance_threshold" !in params {
      return Err(KeyError("distance_threshold"));
    } else if "seed" !in params {
      return Err(KeyError("seed"));
    } else if "max_iterations" !in params {
      return Err(KeyError("max_iterations"));
    } else if "lambda" !in params {
      return Err(KeyError("lambda"));
    } else if "beta" !in params {
      return Err(KeyError("beta"));
    }
    var args := BcpdPrefix(params);
    if "gamma" in params {
      args := args + ["-g", params["gamma"]];
    }
    assert args == BcpdPrefix(params) + (if "gamma" in params then ["-g", params["gamma"]] else []);
    if "downsampling" in params {
      args := args + ["-D", params["downsampling"]];
    }
    assert args == BcpdPrefix(params) + (if "gamma" in params then ["-g", params["gamma"]] else [])
                   + (if "downsampling" in params then ["-D", params["downsampling"]] else []);
    r := Ok(args);
  }

  /** The part of the nonrigid step after BCPD has run: the transform is
      built from BCPD's output files, applied, and recorded. */
  method NonrigidApply(d: Decorated, source: Geometry, out: BcpdResult, down: bool,
                       euler: (string, Vec3) -> Mat3) returns (r: Result<PipelineStep, Error>)
    requires source.Cloud?
    modifies d.step
    ensures d.step.inputs == old(d.step.inputs)
    ensures var spec := NonrigidFrom(out, down, ToArray(source), euler);
            && (r.Ok? <==> spec.Ok?)
            && (r.Err? ==> r.error == spec.error)
            && (r.Ok? ==> r.value == d.step && fresh(Produced(d.step)) && RecordsNonrigid(d.step, spec.value))
  {
    var dvf := Difference(out.u, if down then out.normY else ToArray(source));
    if dvf.Err? {
      return Err(dvf.error);
    }
    var t := new Transform(Uniform(out.scale), RotMatrix(out.rotation), out.translation, Some(dvf.value), None, "xyz", true, euler);
    var g := ApplyDeformation(t, if down then Some(out.normY) else None, source, ToArray(source));
    if g.Err? {
      return Err(g.error);
    }
    var registered := ToPointCloud(Array(if down then out.yInterpolated else out.y));
    var s := d.RecordResult(Some(Outputs(g.value, None, Some(registered))), Transforms(t, None));
    assert Produced(d.step) == Objects(g.value) + Objects(registered) + {t};
    r := Ok(s);
  }

  /** `nonrigid_registration`: both clouds are read as arrays, BCPD runs on
      them, and the rest is `NonrigidApply`. */
  method NonrigidRegistration(d: Decorated, source: Geometry, target: Geometry, params: map<string, string>,
                              bcpd: (seq<string>, seq<Vec3>, seq<Vec3>) -> BcpdResult,
                              euler: (string, Vec3) -> Mat3) returns (r: Result<PipelineStep, Error>)
    modifies d.step
    ensures d.step.inputs == Some(Roles(source, target))
    ensures var spec := NonrigidSpec(ToArray(source), KindOf(source), ToArray(target), KindOf(target), params, bcpd, euler);
            && (r.Ok? <==> spec.Ok?)
            && (r.Err? ==> r.error == spec.error)
            && (r.Ok? ==> r.value == d.step && fresh(Produced(d.step)) && RecordsNonrigid(d.step, spec.value))
  {
    var _ := d.RecordInputs(StepKwargs(source, target));
    if !source.Cloud? || !target.Cloud? {
      return Err(AttributeError("points"));
    }
    var sourceArray, targetArray := ToArray(source), ToArray(target);
    var args := BcpdCommand(params);
    if args.Err? {
      return Err(args.error);
    }
    var out := bcpd(args.value, sourceArray, targetArray);
    r := NonrigidApply(d, source, out, "downsampling" in params, euler);
  }

  /** The record of a denormalisation: both inverted geometries as `inv`
      says, and the one transform `t`, in the state `inv` gives, reported in
      both roles. */
  ghost predicate RecordsInverted(s: PipelineStep, t: Transform, inv: Inverted, sk: Kind, tk: Kind)
    reads s, Produced(s)
  {
    s.transform == Some(Transforms(t, Some(t))) && t.State() == inv.cache
    && s.output.Some? && s.output.value.target.Some? && s.output.value.registered.None?
    && Holding(s.output.value.source, sk, inv.source)
    && Holding(s.output.value.target.value, tk, inv.target)
  }

  /** The two inversions of a denormalisation: the source first, then the
      target, by the same transform. */
  method InvertPair(t: Transform, source: Geometry, target: Geometry, ghost src: seq<Vec3>, ghost tgt: seq<Vec3>)
      returns (gs: Geometry, gt: Geometry, r: Result<Inverted, Error>)
    requires Objects(source) !! Objects(target)
    requires ToArray(source) == src && ToArray(target) == tgt
    modifies t, Objects(source), Objects(target)
    ensures r == DenormalizeSpec(t.AsParams(), old(t.State()), src, KindOf(source), tgt, KindOf(target))
    ensures r.Ok? ==> t.State() == r.value.cache && Holding(gs, KindOf(source), r.value.source)
                      && Holding(gt, KindOf(target), r.value.target)
  {
    gs, gt := source, target;
    var os := t.Invert(source);
    if os.Err? {
      return gs, gt, Err(os.error);
    }
    assert Objects(os.value) !! Objects(target);
    var ot := t.Invert(target);
    if ot.Err? {
      return gs, gt, Err(ot.error);
    }
    gs, gt := os.value, ot.value;
    r := Ok(Inverted(t.State(), ToArray(gs), ToArray(gt)));
  }

  /** Both denormalisation steps: the `Target` transform of the given
      transforms inverts the source and then the target, and is reported as
      both the `Source` and the `Target` transform. Without a `Target`
      transform there is nothing to call `invert` on. */
  method Denormalize(d: Decorated, source: Geometry, target: Geometry, transforms: Transforms)
      returns (r: Result<PipelineStep, Error>)
    requires Objects(source) !! Objects(target)
    modifies d.step, Objects(source), Objects(target)
    modifies if transforms.target.Some? then {transforms.target.value} else {}
    ensures d.step.inputs == Some(Roles(source, target))
    ensures transforms.target.None? ==> r == Err(AttributeError("invert"))
    ensures transforms.target.Some? ==>
              var t := transforms.target.value;
              var spec := DenormalizeSpec(t.AsParams(), old(t.State()), old(ToArray(source)), KindOf(source),
                                          old(ToArray(target)), KindOf(target));
              && (r.Ok? <==> spec.Ok?)
              && (r.Err? ==> r.error == spec.error)
              && (r.Ok? ==> r.value == d.step && RecordsInverted(d.step, t, spec.value, KindOf(source), KindOf(target)))
  {
    var _ := d.RecordInputs(StepKwargs(source, target));
    if transforms.target.None? {
      return Err(AttributeError("invert"));
    }
    var t := transforms.target.value;
    var gs, gt, inv := InvertPair(t, source, target, ToArray(source), ToArray(target));
    if inv.Err? {
      return Err(inv.error);
    }
    var s := d.RecordResult(Some(Outputs(gs, Some(gt), None)), Transforms(t, Some(t)));
    r := Ok(s);
  }

  /** The decorated step functions of this module. Each was decorated once,
      when the module was loaded, so each owns one record that all of its
      calls write to and return. */
  class StepFunctions {
    const normalizeRigid: Decorated
    const flip: Decorated
    const globalRegistration: Decorated
    const refineRegistration: Decorated
    const normalizeNonrigid: Decorated
    const nonrigidRegistration: Decorated
    const denormalizeNonrigid: Decorated
    const denormalizeRigid: Decorated

    /** The records, in the order the steps are defined. */
    function Records(): (rs: seq<PipelineStep>)
      ensures |rs| == 8
    {
      [normalizeRigid.step, flip.step, globalRegistration.step, refineRegistration.step,
       normalizeNonrigid.step, nonrigidRegistration.step, denormalizeNonrigid.step, denormalizeRigid.step]
    }

    /** No two step functions share a record. */
    predicate Valid()
    {
      forall i, j :: 0 <= i < j < |Records()| ==> Records()[i] != Records()[j]
    }

    /** Loading the module: each function is decorated with its own name and
        description, which makes eight new records with nothing recorded. */
    constructor ()
      ensures Valid() && fresh(Records()[0]) && fresh(Records()[1]) && fresh(Records()[2]) && fresh(Records()[3])
      ensures fresh(Records()[4]) && fresh(Records()[5]) && fresh(Records()[6]) && fresh(Records()[7])
      ensures forall i :: 0 <= i < |Records()| ==> Records()[i].inputs.None? && Records()[i].transform.None?
      ensures normalizeRigid.step.name == "Normalize ICP"
      ensures normalizeRigid.step.description == Some("Scale organs to a common range about the centre")
      ensures flip.step.name == "Flip"
      ensures flip.step.description == Some("Flip organ about the Y-axis to account for Left and Reft organ differences")
      ensures globalRegistration.step.name == "Global Registration"
      ensures globalRegistration.step.description == Some("Initial, fast registration before rigid registration")
      ensures refineRegistration.step.name == "Rigid Registration"
      ensures refineRegistration.step.description == Some("Registeration using only rigid transformations (scale, translation and rotation)")
      ensures normalizeNonrigid.step.name == "Normalize BCPD"
      ensures normalizeNonrigid.step.description == Some("Normalize location and scale before nonrigid registration")
      ensures nonrigidRegistration.step.name == "Non-rigid Registration"
      ensures nonrigidRegistration.step.description == Some("Registration using rigid and non-rigid (local deformations) with BCPD algorithm")
      ensures denormalizeNonrigid.step.name == "Denormalization BCPD"
      ensures denormalizeNonrigid.step.description == Some("Denormalize the organ after projection")
      ensures denormalizeRigid.step.name == "Denormalization ICP"
      ensures denormalizeRigid.step.description == Some("Denormalize the organ after projection")
    {
      normalizeRigid := new Decorated("Normalize ICP", "Scale organs to a common range about the centre");
      flip := new Decorated("Flip", "Flip organ about the Y-axis to account for Left and Reft organ differences");
      globalRegistration := new Decorated("Global Registration", "Initial, fast registration before rigid registration");
      refineRegistration := new Decorated("Rigid Registration", "Registeration using only rigid transformations (scale, translation and rotation)");
      normalizeNonrigid := new Decorated("Normalize BCPD", "Normalize location and scale before nonrigid registration");
      nonrigidRegistration := new Decorated("Non-rigid Registration", "Registration using rigid and non-rigid (local deformations) with BCPD algorithm");
      denormalizeNonrigid := new Decorated("Denormalization BCPD", "Denormalize the organ after projection");
      denormalizeRigid := new Decorated("Denormalization ICP", "Denormalize the organ after projection");
    }
  }
}
