/** `Transform`, `PipelineStep` and `Projection`.

    A `Transform` is a 4x4 affine transform built from scale, rotation and
    translation, optionally carrying a deformation vector field (DVF). It keeps
    state that it picks up the first time it is used: whether it centres its
    input and on which mean, the inverse computed by the last `invert`, and the
    nodes its nearest-neighbour DVF interpolator was built on. The behaviour of
    each operation is first given as a function of that state (`Cache`) and of
    the input coordinates, then the class's methods are proved against those
    functions. */
module Dataclass {
  import opened Wrappers
  import opened Linalg
  import opened Geometry
  import opened Conversions
  import opened Preprocess

  /** `scale`: one number for all three axes, or one per axis. */
  datatype ScaleArg = Uniform(k: real) | PerAxis(v: Vec3)

  /** `rotate`: a tuple of Euler angles in degrees, or a rotation matrix. */
  datatype RotateArg = Angles(degrees: Vec3) | RotMatrix(r: Mat3)

  /** `[scale] * 3` for a number, the tuple itself otherwise. */
  function ScaleVector(s: ScaleArg): Vec3
  {
    match s
    case Uniform(k) => Vec3(k, k, k)
    case PerAxis(v) => v
  }

  /** The rotation matrix of `rotate`; `euler(axes, angles)` stands for
      scipy's `Rotation.from_euler(axes, angles, degrees=True).as_matrix()`. */
  function RotationMatrix(rot: RotateArg, axes: string, euler: (string, Vec3) -> Mat3): Mat3
  {
    match rot
    case Angles(a) => euler(axes, a)
    case RotMatrix(r) => r
  }

  /** The matrix `__post_init__` fills in when none is given: rotation times
      diag(scale) in the upper-left block, the translation in the last column,
      [0, 0, 0, 1] as the bottom row. */
  function BuildMatrix(s: ScaleArg, rot: RotateArg, t: Vec3, axes: string, euler: (string, Vec3) -> Mat3): Mat4
  {
    Mat4(MulMM(RotationMatrix(rot, axes, euler), Diag(ScaleVector(s))), t, AffineBottom)
  }

  /** Component-wise product: the effect of diag(s) on a point. */
  function Stretch(s: Vec3, p: Vec3): Vec3 { Vec3(s.x * p.x, s.y * p.y, s.z * p.z) }

  lemma MulDiag(r: Mat3, s: Vec3, p: Vec3)
    ensures MulMV(MulMM(r, Diag(s)), p) == MulMV(r, Stretch(s, p))
  {
    assert Dot(r.r0, Stretch(s, p)) == r.r0.x * (s.x * p.x) + r.r0.y * (s.y * p.y) + r.r0.z * (s.z * p.z);
    assert Dot(r.r1, Stretch(s, p)) == r.r1.x * (s.x * p.x) + r.r1.y * (s.y * p.y) + r.r1.z * (s.z * p.z);
    assert Dot(r.r2, Stretch(s, p)) == r.r2.x * (s.x * p.x) + r.r2.y * (s.y * p.y) + r.r2.z * (s.z * p.z);
  }

  /** The built matrix scales each axis first, then rotates, then translates;
      a single number scales all three axes alike. */
  lemma BuildMatrixApplies(s: ScaleArg, rot: RotateArg, t: Vec3, axes: string,
                           euler: (string, Vec3) -> Mat3, p: Vec3)
    ensures ApplyAffine(BuildMatrix(s, rot, t, axes, euler), p)
            == Add(MulMV(RotationMatrix(rot, axes, euler), Stretch(ScaleVector(s), p)), t)
    ensures BuildMatrix(s, rot, t, axes, euler).bottom == AffineBottom
    ensures s.Uniform? ==> Stretch(ScaleVector(s), p) == Scale(s.k, p)
  {
    MulDiag(RotationMatrix(rot, axes, euler), ScaleVector(s), p);
  }

  /** `split_transform` takes a built matrix apart again: for a proper
      rotation and positive scales it returns the scale per axis, the Euler
      angles of the rotation and the translation. */
  lemma BuildMatrixSplits(s: ScaleArg, rot: RotateArg, t: Vec3, axes: string,
                          euler: (string, Vec3) -> Mat3, sqrt: real -> real, asEuler: Mat3 -> Vec3)
    requires SqrtExact(sqrt) && UnitColumns(RotationMatrix(rot, axes, euler))
    requires ScaleVector(s).x > 0.0 && ScaleVector(s).y > 0.0 && ScaleVector(s).z > 0.0
    ensures SplitTransform(BuildMatrix(s, rot, t, axes, euler), sqrt, asEuler)
            == Split(ScaleVector(s), asEuler(RotationMatrix(rot, axes, euler)), t)
  {
    SplitRecovers(RotationMatrix(rot, axes, euler), ScaleVector(s), t, sqrt, asEuler);
  }

  /** The dataclass fields of a `Transform`; none of them changes after
      construction. */
  datatype Params = Params(scale: ScaleArg, rotate: RotateArg, translate: Vec3,
                           dvf: Option<seq<Vec3>>, matrix: Mat4, rotateAxes: string, apply: bool)

  /** The attributes a `Transform` acquires on first use: `centered`, `mean`,
      `inverse` and the nodes of `interpolated_dvf`. */
  datatype Cache = Cache(centered: bool, mean: Option<Vec3>, inverse: Option<Mat4>, nodes: Option<seq<Vec3>>)

  const Unused := Cache(false, None, None, None)

  /** The state after an operation and the coordinates it returned. */
  datatype Outcome = Outcome(cache: Cache, result: Result<seq<Vec3>, Error>)

  /** `center`: mark the transform as centring, keep the first mean ever
      computed, and subtract it. An array has no `faces` to rebuild a mesh
      from, which fails after the state has changed. */
  function CenterSpec(c: Cache, pts: seq<Vec3>, kind: Kind): Outcome
  {
    var m := if c.mean.Some? then c.mean.value else Mean(pts);
    var c' := c.(centered := true, mean := Some(m));
    if kind == ArrayKind then Outcome(c', Err(AttributeError("faces")))
    else Outcome(c', Ok(Centered(pts, m)))
  }

  /** `transform`: the matrix (or the cached inverse) applied to every point.
      An array has no `apply_transform`; an inverse never computed is a
      missing attribute. */
  function TransformSpec(m: Option<Mat4>, pts: seq<Vec3>, kind: Kind): Result<seq<Vec3>, Error>
  {
    if kind == ArrayKind then Err(AttributeError("apply_transform"))
    else if m.None? then Err(AttributeError("inverse"))
    else Ok(MapAffine(m.value, pts))
  }

  /** `self.scale * self.rotate` as the DVF branch evaluates it: a number
      times a matrix, or a tuple broadcast over the columns of a matrix.
      Multiplying by a tuple of angles is a type error. */
  function Blend(s: ScaleArg, rot: RotateArg): Result<Mat3, Error>
  {
    match rot
    case Angles(_) => Err(TypeError)
    case RotMatrix(r) =>
      match s
      case Uniform(k) => Ok(ScaleM(k, r))
      case PerAxis(v) => Ok(MulMM(r, Diag(v)))
  }

  /** The interpolated DVF at each query point: the row of `dvf` belonging to
      the nearest node. Querying an interpolator without nodes, or whose
      nodes and rows differ in number, is an index error. */
  function Interpolate(nodes: seq<Vec3>, dvf: seq<Vec3>, pts: seq<Vec3>): (r: Result<seq<Vec3>, Error>)
    ensures r.Ok? <==> |pts| == 0 || (|nodes| > 0 && |nodes| == |dvf|)
    ensures r.Ok? ==> |r.value| == |pts|
  {
    if |pts| == 0 then Ok([])
    else if |nodes| == 0 || |nodes| != |dvf| then Err(IndexError)
    else Ok(seq(|pts|, i requires 0 <= i < |pts| => dvf[Nearest(nodes, pts[i])]))
  }

  /** `(scale·rotate) @ (x + d + translate)` for every point. */
  function Deform(m: Mat3, pts: seq<Vec3>, d: seq<Vec3>, t: Vec3): (r: seq<Vec3>)
    requires |d| == |pts|
    ensures |r| == |pts|
    ensures forall i :: 0 <= i < |pts| ==> r[i] == MulMV(m, Add(Add(pts[i], d[i]), t))
  {
    seq(|pts|, i requires 0 <= i < |pts| => MulMV(m, Add(Add(pts[i], d[i]), t)))
  }

  /** The DVF branch of `__call__`: the interpolator is built on the first
      points seen (a field with a different number of rows is a value error)
      and reused from then on. */
  function DeformSpec(p: Params, c: Cache, pts: seq<Vec3>): Outcome
    requires p.dvf.Some?
  {
    var dvf := p.dvf.value;
    if c.nodes.None? && |pts| != |dvf| then
      Outcome(c, Err(ValueError("different number of values and points")))
    else
      var c' := if c.nodes.None? then c.(nodes := Some(pts)) else c;
      match Blend(p.scale, p.rotate)
      case Err(e) => Outcome(c', Err(e))
      case Ok(m) =>
        match Interpolate(c'.nodes.value, dvf, pts)
        case Err(e) => Outcome(c', Err(e))
        case Ok(d) => Outcome(c', Ok(Deform(m, pts, d, p.translate)))
  }

  /** `__call__`: centre when the transform already centres or when asked to,
      then either the DVF branch or the matrix. */
  function CallSpec(p: Params, c: Cache, pts: seq<Vec3>, kind: Kind, center: bool): Outcome
  {
    var o := if c.centered || center then CenterSpec(c, pts, kind) else Outcome(c, Ok(pts));
    if o.result.Err? then o
    else if p.dvf.Some? then DeformSpec(p, o.cache, o.result.value)
    else Outcome(o.cache, TransformSpec(Some(p.matrix), o.result.value, kind))
  }

  /** The kind of geometry `__call__` returns: the DVF branch always builds a
      point cloud. */
  function CallKind(p: Params, kind: Kind): Kind
  {
    if p.dvf.Some? then CloudKind else kind
  }

  /** `invert`: refused outright for a DVF transform; otherwise the inverse is
      computed and stored, applied, and the cached mean added back when the
      transform centres. */
  function InvertSpec(p: Params, c: Cache, pts: seq<Vec3>, kind: Kind): Outcome
  {
    if p.dvf.Some? then Outcome(c, Err(ValueError("Inversion not supported on DVF transformations")))
    else
      match Inverse4(p.matrix)
      case None => Outcome(c, Err(LinAlgError))
      case Some(inv) =>
        var c' := c.(inverse := Some(inv));
        var r := TransformSpec(Some(inv), pts, kind);
        if r.Err? || !c'.centered then Outcome(c', r)
        else if c'.mean.None? then Outcome(c', Err(AttributeError("mean")))
        else Outcome(c', Ok(Shifted(r.value, c'.mean.value)))
  }

  /** What the cached attributes can hold: a centring transform has a mean,
      an inverse is the inverse of the matrix and only a transform without a
      DVF has one, and interpolator nodes exist only for a DVF, one per row. */
  predicate Valid(p: Params, c: Cache)
  {
    (c.centered ==> c.mean.Some?)
    && (c.inverse.Some? ==> p.dvf.None? && c.inverse == Inverse4(p.matrix))
    && (c.nodes.Some? ==> p.dvf.Some? && |c.nodes.value| == |p.dvf.value|)
  }

  /** A fresh transform is valid, and centring keeps it valid. */
  lemma ValidKept(p: Params, c: Cache, pts: seq<Vec3>, kind: Kind)
    requires Valid(p, c)
    ensures Valid(p, Unused)
    ensures Valid(p, CenterSpec(c, pts, kind).cache)
  {
  }

  /** A call keeps a transform valid. */
  lemma CallKeepsValid(p: Params, c: Cache, pts: seq<Vec3>, kind: Kind, center: bool)
    requires Valid(p, c)
    ensures Valid(p, CallSpec(p, c, pts, kind, center).cache)
  {
  }

  /** Inverting keeps a transform valid; a DVF transform never acquires an
      inverse. */
  lemma InvertKeepsValid(p: Params, c: Cache, pts: seq<Vec3>, kind: Kind)
    requires Valid(p, c)
    ensures Valid(p, InvertSpec(p, c, pts, kind).cache)
    ensures p.dvf.Some? ==> InvertSpec(p, c, pts, kind).cache.inverse.None?
  {
  }

  /** The mean is computed by the first centring only: the first call with
      `center=True` records the mean of its input, and from then on every call
      centres, whatever its `center` argument, on that same mean. */
  lemma MeanFrozen(p: Params, c: Cache, pts: seq<Vec3>, kind: Kind, center: bool)
    requires Valid(p, c)
    ensures !c.centered && c.mean.None? ==> CallSpec(p, c, pts, kind, true).cache.mean == Some(Mean(pts))
    ensures c.centered ==> CallSpec(p, c, pts, kind, center) == CallSpec(p, c, pts, kind, true)
    ensures c.centered ==> CallSpec(p, c, pts, kind, center).cache.mean == c.mean
    ensures c.centered || center ==> CallSpec(p, c, pts, kind, center).cache.centered
  {
  }

  /** Once built, the interpolator is never rebuilt, and every point, seen
      before or not, receives the displacement of its nearest node. */
  lemma NodesFrozen(p: Params, c: Cache, pts: seq<Vec3>, kind: Kind)
    requires p.dvf.Some? && c.nodes.Some? && !c.centered
    ensures CallSpec(p, c, pts, kind, false).cache.nodes == c.nodes
    ensures var o := CallSpec(p, c, pts, kind, false);
      o.result.Ok? ==>
        Blend(p.scale, p.rotate).Ok? && |o.result.value| == |pts|
        && forall i :: 0 <= i < |pts| ==>
             0 < |c.nodes.value| && Nearest(c.nodes.value, pts[i]) < |p.dvf.value|
             && o.result.value[i] == MulMV(Blend(p.scale, p.rotate).value,
                  Add(Add(pts[i], p.dvf.value[Nearest(c.nodes.value, pts[i])]), p.translate))
  {
    var o := CallSpec(p, c, pts, kind, false);
    if o.result.Ok? {
      var d := Interpolate(c.nodes.value, p.dvf.value, pts);
      assert d.Ok?;
      forall i | 0 <= i < |pts|
        ensures 0 < |c.nodes.value| && Nearest(c.nodes.value, pts[i]) < |p.dvf.value|
        ensures o.result.value[i] == MulMV(Blend(p.scale, p.rotate).value,
                  Add(Add(pts[i], p.dvf.value[Nearest(c.nodes.value, pts[i])]), p.translate))
      {
        assert d.value[i] == p.dvf.value[Nearest(c.nodes.value, pts[i])];
      }
    }
  }

  /** On its first call (not centring) a DVF transform built on pairwise
      distinct points moves each of them by exactly its own row of the field. */
  lemma DeformAtOwnNodes(p: Params, pts: seq<Vec3>, kind: Kind)
    requires p.dvf.Some? && |p.dvf.value| == |pts| > 0
    requires p.rotate.RotMatrix?
    requires forall j, k :: 0 <= j < |pts| && 0 <= k < |pts| && j != k ==> pts[j] != pts[k]
    ensures var o := CallSpec(p, Unused, pts, kind, false);
      o.cache.nodes == Some(pts)
      && o.result.Ok? && |o.result.value| == |pts|
      && forall i :: 0 <= i < |pts| ==>
           o.result.value[i] == MulMV(Blend(p.scale, p.rotate).value, Add(Add(pts[i], p.dvf.value[i]), p.translate))
  {
    var o := CallSpec(p, Unused, pts, kind, false);
    var d := Interpolate(pts, p.dvf.value, pts).value;
    forall i | 0 <= i < |pts|
      ensures o.result.value[i] == MulMV(Blend(p.scale, p.rotate).value, Add(Add(pts[i], p.dvf.value[i]), p.translate))
    {
      NearestAtNode(pts, i);
      assert d[i] == p.dvf.value[i];
    }
  }

  /** The DVF branch computes (s·R)(x + d + t): the translation is added
      before scaling and rotating. With a zero displacement it therefore
      differs from the matrix branch, R·diag(s)·x + t, by (s·R)t − t. */
  lemma DeformVersusMatrix(k: real, r: Mat3, t: Vec3, axes: string, euler: (string, Vec3) -> Mat3, x: Vec3)
    ensures MulMV(ScaleM(k, r), Add(Add(x, Origin), t))
            == Add(ApplyAffine(BuildMatrix(Uniform(k), RotMatrix(r), t, axes, euler), x),
                   Sub(MulMV(ScaleM(k, r), t), t))
  {
    var u, v := MulMV(r, x), MulMV(r, t);
    BuildMatrixApplies(Uniform(k), RotMatrix(r), t, axes, euler, x);
    MulMVScale(r, k, x);
    assert ApplyAffine(BuildMatrix(Uniform(k), RotMatrix(r), t, axes, euler), x) == Add(Scale(k, u), t);
    MulMVScaleM(k, r, t);
    MulMVScaleM(k, r, Add(x, t));
    MulMVAdd(r, x, t);
    assert Add(Add(x, Origin), t) == Add(x, t);
    assert MulMV(ScaleM(k, r), Add(x, t)) == Scale(k, Add(u, v));
    ScaleSplits(k, u, v, t);
  }

  /** For a transform without a DVF, `invert` undoes a forward call: the
      inverse matrix undoes the matrix and the cached mean is added back
      exactly when the call subtracted it. */
  lemma InvertAfterCall(p: Params, c: Cache, pts: seq<Vec3>, kind: Kind, center: bool)
    requires Valid(p, c) && p.dvf.None? && Inverse4(p.matrix).Some?
    requires CallSpec(p, c, pts, kind, center).result.Ok?
    ensures var o := CallSpec(p, c, pts, kind, center);
      InvertSpec(p, o.cache, o.result.value, kind).result == Ok(pts)
  {
    var o := CallSpec(p, c, pts, kind, center);
    if c.centered || center {
      var m := o.cache.mean.value;
      MapAffineInverse(p.matrix, Centered(pts, m));
      CenteredShifted(pts, m);
    } else {
      MapAffineInverse(p.matrix, pts);
    }
  }

  /** A call fixes everything the transform will remember: calling it again,
      without asking to centre, on the coordinates of a successful first call
      reproduces that call and leaves the state as the first call left it. */
  lemma CallRepeat(p: Params, c: Cache, pts: seq<Vec3>, kind: Kind, center: bool)
    requires CallSpec(p, c, pts, kind, center).result.Ok?
    ensures var o := CallSpec(p, c, pts, kind, center);
            CallSpec(p, o.cache, pts, kind, false) == o
  {
  }

  /** A call never computes an inverse. */
  lemma CallKeepsInverse(p: Params, c: Cache, pts: seq<Vec3>, kind: Kind, center: bool)
    ensures CallSpec(p, c, pts, kind, center).cache.inverse == c.inverse
  {
  }

  /** Inverting again on the same coordinates reproduces a successful
      inversion and leaves the state as it was. */
  lemma InvertRepeat(p: Params, c: Cache, pts: seq<Vec3>, kind: Kind)
    requires InvertSpec(p, c, pts, kind).result.Ok?
    ensures var o := InvertSpec(p, c, pts, kind);
            InvertSpec(p, o.cache, pts, kind) == o && o.cache.inverse.Some?
  {
  }

  /** The coordinates a geometry-valued result holds. */
  function Coords(r: Result<Geometry, Error>): Result<seq<Vec3>, Error>
    reads if r.Ok? then Objects(r.value) else {}
  {
    match r
    case Ok(g) => Ok(ToArray(g))
    case Err(e) => Err(e)
  }

  class Transform {
    const scale: ScaleArg
    const rotate: RotateArg
    const translate: Vec3
    const dvf: Option<seq<Vec3>>
    const matrix: Mat4
    const rotateAxes: string
    const apply: bool

    var centered: bool
    var mean: Option<Vec3>
    var inverse: Option<Mat4>
    var interpNodes: Option<seq<Vec3>>

    function AsParams(): Params
    {
      Params(scale, rotate, translate, dvf, matrix, rotateAxes, apply)
    }

    function State(): Cache
      reads this
    {
      Cache(centered, mean, inverse, interpNodes)
    }

    /** The dataclass constructor and `__post_init__`: a given matrix is kept
        as it is, otherwise it is built from scale, rotation and translation. */
    constructor (scale: ScaleArg, rotate: RotateArg, translate: Vec3, dvf: Option<seq<Vec3>>,
                 matrix: Option<Mat4>, rotateAxes: string, apply: bool, euler: (string, Vec3) -> Mat3)
      ensures AsParams() == Params(scale, rotate, translate, dvf,
        if matrix.Some? then matrix.value else BuildMatrix(scale, rotate, translate, rotateAxes, euler),
        rotateAxes, apply)
      ensures State() == Unused
    {
      this.scale := scale;
      this.rotate := rotate;
      this.translate := translate;
      this.dvf := dvf;
      this.matrix := if matrix.Some? then matrix.value else BuildMatrix(scale, rotate, translate, rotateAxes, euler);
      this.rotateAxes := rotateAxes;
      this.apply := apply;
      centered := false;
      mean := None;
      inverse := None;
      interpNodes := None;
    }

    /** `center`: returns a new cloud or mesh; the argument is left as it is. */
    method Center(g: Geometry) returns (r: Result<Geometry, Error>)
      modifies this
      ensures State() == CenterSpec(old(State()), ToArray(g), KindOf(g)).cache
      ensures Coords(r) == CenterSpec(old(State()), ToArray(g), KindOf(g)).result
      ensures r.Ok? ==> fresh(Objects(r.value)) && (if g.Cloud? then r.value.Cloud?
                          else r.value.Surface? && r.value.mesh.faces == g.mesh.faces && r.value.mesh.process)
    {
      centered := true;
      if mean.None? {
        mean := Some(GeometryMean(g));
      }
      var arr := Centered(ToArray(g), mean.value);
      match g
      case Cloud(_) =>
        var h := ToPointCloud(Array(arr));
        r := Ok(h);
      case Surface(m) =>
        var h := ToMesh(Array(arr), m.faces, true);
        r := Ok(h);
      case Array(_) =>
        r := Err(AttributeError("faces"));
    }

    /** `transform`: applies the matrix, or the stored inverse, to the
        geometry in place and returns that same object. */
    method TransformGeometry(g: Geometry, invert: bool) returns (r: Result<Geometry, Error>)
      modifies Objects(g)
      ensures Coords(r) == TransformSpec(if invert then inverse else Some(matrix), old(ToArray(g)), KindOf(g))
      ensures r.Ok? ==> r.value == g && !g.Array?
      ensures r.Err? ==> unchanged(Objects(g))
    {
      var m := if invert then inverse else Some(matrix);
      match g
      case Array(_) =>
        r := Err(AttributeError("apply_transform"));
      case Cloud(c) =>
        if m.None? {
          r := Err(AttributeError("inverse"));
        } else {
          c.points := MapAffine(m.value, c.points);
          r := Ok(g);
        }
      case Surface(s) =>
        if m.None? {
          r := Err(AttributeError("inverse"));
        } else {
          s.vertices := MapAffine(m.value, s.vertices);
          r := Ok(g);
        }
    }

    /** `__call__`. Without centring and without a DVF the geometry is
        transformed in place and returned; otherwise the result is a new
        object and the argument is left untouched. */
    method Call(g: Geometry, center: bool) returns (r: Result<Geometry, Error>)
      modifies this, if centered || center || dvf.Some? then {} else Objects(g)
      ensures State() == CallSpec(AsParams(), old(State()), old(ToArray(g)), KindOf(g), center).cache
      ensures Coords(r) == CallSpec(AsParams(), old(State()), old(ToArray(g)), KindOf(g), center).result
      ensures r.Ok? ==> KindOf(r.value) == CallKind(AsParams(), KindOf(g))
      ensures r.Ok? && !old(centered) && !center && dvf.None? ==> r.value == g
      ensures old(centered) || center || dvf.Some? ==> unchanged(Objects(g))
      ensures r.Ok? && (old(centered) || center || dvf.Some?) ==> fresh(Objects(r.value))
    {
      var h := g;
      if centered || center {
        r := Center(g);
        if r.Err? {
          return;
        }
        h := r.value;
      }
      if dvf.Some? {
        var pts := ToArray(h);
        if interpNodes.None? {
          if |pts| != |dvf.value| {
            return Err(ValueError("different number of values and points"));
          }
          interpNodes := Some(pts);
        }
        var blend := Blend(scale, rotate);
        if blend.Err? {
          return Err(blend.error);
        }
        var d := Interpolate(interpNodes.value, dvf.value, pts);
        if d.Err? {
          return Err(d.error);
        }
        var out := ToPointCloud(Array(Deform(blend.value, pts, d.value, translate)));
        r := Ok(out);
      } else {
        r := TransformGeometry(h, false);
      }
    }

    /** `invert`: the result is the argument itself unless the transform
        centres, in which case a new object holds the coordinates. Once the
        inverse exists, a cloud or mesh argument is moved by it in place,
        even when the transform centres; a refused inversion, or an array,
        leaves the argument as it was. */
    method Invert(g: Geometry) returns (r: Result<Geometry, Error>)
      modifies this, Objects(g)
      ensures State() == InvertSpec(AsParams(), old(State()), old(ToArray(g)), KindOf(g)).cache
      ensures Coords(r) == InvertSpec(AsParams(), old(State()), old(ToArray(g)), KindOf(g)).result
      ensures r.Ok? ==> KindOf(r.value) == KindOf(g)
      ensures r.Ok? && !centered ==> r.value == g
      ensures r.Ok? && centered ==> fresh(Objects(r.value))
      ensures dvf.None? && Inverse4(matrix).Some? && !g.Array? ==>
                ToArray(g) == MapAffine(Inverse4(matrix).value, old(ToArray(g)))
      ensures dvf.Some? || Inverse4(matrix).None? || g.Array? ==> unchanged(Objects(g))
    {
      if dvf.Some? {
        return Err(ValueError("Inversion not supported on DVF transformations"));
      }
      var inv := Inverse4(matrix);
      if inv.None? {
        return Err(LinAlgError);
      }
      inverse := inv;
      r := TransformGeometry(g, true);
      if r.Err? || !centered {
        return;
      }
      if mean.None? {
        return Err(AttributeError("mean"));
      }
      var h := r.value;
      var arr := Shifted(ToArray(h), mean.value);
      if h.Cloud? {
        var out := ToPointCloud(Array(arr));
        r := Ok(out);
      } else {
        var out := ToMesh(Array(arr), h.mesh.faces, true);
        r := Ok(out);
      }
    }
  }

  /** A `{'Source': …, 'Target': …}` dictionary. */
  datatype Roles<T> = Roles(source: T, target: T)

  /** The outputs dictionary of a step: the transformed source, the
      transformed target when the step has one, and the cloud BCPD itself
      registered, which only the nonrigid step reports. */
  datatype Outputs = Outputs(source: Geometry, target: Option<Geometry>, registered: Option<Geometry>)

  /** The transforms dictionary of a step: always a `'Source'` transform, a
      `'Target'` transform or `None`. */
  datatype Transforms = Transforms(source: Transform, target: Option<Transform>)

  /** The record of one pipeline step. The dataclass field `input` is never
      written: the step decorator stores what it was given in the separate
      attribute `inputs`, which is absent (`None` here) until the step runs. */
  class PipelineStep {
    const name: string
    const description: Option<string>
    var input: Option<Geometry>
    var inputs: Option<Roles<Geometry>>
    var output: Option<Outputs>
    var transform: Option<Transforms>
    var logs: Option<string>

    constructor (name: string, description: Option<string>)
      ensures this.name == name && this.description == description
      ensures input.None? && inputs.None? && output.None? && transform.None? && logs.None?
    {
      this.name := name;
      this.description := description;
      input := None;
      inputs := None;
      output := None;
      transform := None;
      logs := None;
    }
  }

  /** What `project` is given: a bare array, cloud or mesh, or an organ or a
      tissue block, which is a mesh with a `pointcloud` view and a
      `target_transform` that is absent or `None` for `target == None`. */
  datatype Subject = Plain(geometry: Geometry) | Placed(mesh: Mesh, target: Option<Transform>)

  function TargetOf(s: Subject): Option<Transform>
  {
    if s.Placed? then s.target else None
  }

  function TargetSet(s: Subject): set<Transform>
  {
    if TargetOf(s).Some? then {TargetOf(s).value} else {}
  }

  /** The parameters and state of the subject's target transform, if any. */
  function TargetEntry(s: Subject): Option<(Params, Cache)>
    reads TargetSet(s)
  {
    if TargetOf(s).Some? then Some((TargetOf(s).value.AsParams(), TargetOf(s).value.State())) else None
  }

  /** The cloud `project` may rewrite in place: a cloud it was given. */
  function InPlace(s: Subject): set<PointCloud>
  {
    if s.Plain? && s.geometry.Cloud? then {s.geometry.cloud} else {}
  }

  function SubjectObjects(s: Subject): set<object>
  {
    match s
    case Plain(g) => Objects(g)
    case Placed(m, _) => {m}
  }

  /** The coordinates `project` starts from. */
  function StartPoints(s: Subject): seq<Vec3>
    reads SubjectObjects(s)
  {
    match s
    case Plain(g) => ToArray(g)
    case Placed(m, _) => m.vertices
  }

  /** One entry of the replay in `project`: skipped when `apply` is false,
      inverted when an inverse was computed earlier, applied forward
      otherwise. The replayed geometry is always a point cloud. */
  function StepSpec(p: Params, c: Cache, pts: seq<Vec3>): Outcome
  {
    if !p.apply then Outcome(c, Ok(pts))
    else if c.inverse.Some? then InvertSpec(p, c, pts, CloudKind)
    else CallSpec(p, c, pts, CloudKind, false)
  }

  /** The cloud `project` was given, followed through the replay: whether
      the loop still works on that very object, and the points it holds. */
  datatype Tracked = Tracked(attached: bool, points: seq<Vec3>)

  /** What one entry of the replay does to the cloud it is handed, `pts`
      being its points. A skipped entry leaves it; an inversion moves it by
      the inverse in place and goes on with it unless the transform centres;
      a forward call moves it in place unless the transform centres or has a
      DVF, in which case it is left as it was and a new cloud goes on. */
  function StepTracked(p: Params, c: Cache, pts: seq<Vec3>): Tracked
  {
    if !p.apply then Tracked(true, pts)
    else if c.inverse.Some? then
      if p.dvf.Some? || Inverse4(p.matrix).None? then Tracked(true, pts)
      else Tracked(!c.centered, MapAffine(Inverse4(p.matrix).value, pts))
    else if c.centered || p.dvf.Some? then Tracked(false, pts)
    else Tracked(true, MapAffine(p.matrix, pts))
  }

  /** The given cloud after a replay that succeeded: moved by each entry
      while the loop still holds it, untouched once a new cloud replaced it. */
  function Follow(ps: seq<Params>, cs: seq<Cache>, pts: seq<Vec3>): Tracked
    requires |ps| == |cs|
    decreases |ps|
  {
    if |ps| == 0 then Tracked(true, pts)
    else
      var n := |ps| - 1;
      var prev := Follow(ps[..n], cs[..n], pts);
      if !prev.attached then prev else StepTracked(ps[n], cs[n], prev.points)
  }

  /** An entry that rewrites the cloud it is handed rather than building a
      new one: skipped, an inversion of a transform that does not centre, or
      a forward call of one that neither centres nor has a DVF. */
  predicate StepInPlace(p: Params, c: Cache)
  {
    !p.apply || (!c.centered && (c.inverse.Some? || p.dvf.None?))
  }

  /** The states of the replayed transforms and the coordinates reached. */
  datatype Replayed = Replayed(caches: seq<Cache>, result: Result<seq<Vec3>, Error>)

  /** The loop of `project` over transforms with parameters `ps` and states
      `cs`, in list order; the first error ends it and leaves the remaining
      transforms as they were. */
  function Replay(ps: seq<Params>, cs: seq<Cache>, pts: seq<Vec3>): (r: Replayed)
    requires |ps| == |cs|
    ensures |r.caches| == |cs|
    decreases |ps|
  {
    if |ps| == 0 then Replayed([], Ok(pts))
    else
      var n := |ps| - 1;
      var prev := Replay(ps[..n], cs[..n], pts);
      if prev.result.Err? then Replayed(prev.caches + [cs[n]], prev.result)
      else
        var o := StepSpec(ps[n], cs[n], prev.result.value);
        Replayed(prev.caches + [o.cache], o.result)
  }

  /** Replaying two lists one after the other is replaying their
      concatenation. */
  lemma {:induction false} ReplayComposes(ps1: seq<Params>, cs1: seq<Cache>, ps2: seq<Params>, cs2: seq<Cache>, pts: seq<Vec3>)
    requires |ps1| == |cs1| && |ps2| == |cs2|
    ensures var a := Replay(ps1, cs1, pts);
            Replay(ps1 + ps2, cs1 + cs2, pts) ==
              if a.result.Err? then Replayed(a.caches + cs2, a.result)
              else var b := Replay(ps2, cs2, a.result.value); Replayed(a.caches + b.caches, b.result)
    decreases |ps2|
  {
    var a := Replay(ps1, cs1, pts);
    if |ps2| == 0 {
      assert ps1 + ps2 == ps1 && cs1 + cs2 == cs1;
    } else {
      var n := |ps2| - 1;
      ReplayComposes(ps1, cs1, ps2[..n], cs2[..n], pts);
      assert (ps1 + ps2)[..|ps1| + n] == ps1 + ps2[..n];
      assert (cs1 + cs2)[..|cs1| + n] == cs1 + cs2[..n];
      assert (ps1 + ps2)[|ps1| + n] == ps2[n];
      assert (cs1 + cs2)[|cs1| + n] == cs2[n];
      if a.result.Err? {
        assert cs2[..n] + [cs2[n]] == cs2;
        assert a.caches + cs2[..n] + [cs2[n]] == a.caches + cs2;
      } else {
        var b := Replay(ps2[..n], cs2[..n], a.result.value);
        if b.result.Err? {
          assert a.caches + b.caches + [cs2[n]] == a.caches + (b.caches + [cs2[n]]);
        } else {
          var o := StepSpec(ps2[n], cs2[n], b.result.value);
          assert a.caches + b.caches + [o.cache] == a.caches + (b.caches + [o.cache]);
        }
      }
    }
  }

  /** Once an entry fails, the rest of the list is left as it was. */
  lemma ReplayStops(ps: seq<Params>, cs: seq<Cache>, pts: seq<Vec3>, k: nat)
    requires |ps| == |cs| && k <= |ps|
    requires Replay(ps[..k], cs[..k], pts).result.Err?
    ensures Replay(ps, cs, pts) == Replayed(Replay(ps[..k], cs[..k], pts).caches + cs[k..], Replay(ps[..k], cs[..k], pts).result)
  {
    ReplayComposes(ps[..k], cs[..k], ps[k..], cs[k..], pts);
    assert ps[..k] + ps[k..] == ps && cs[..k] + cs[k..] == cs;
  }

  /** An entry with `apply == False` neither changes the coordinates nor its
      transform: replaying with it is replaying without it. */
  lemma ReplaySkipsInactive(ps: seq<Params>, cs: seq<Cache>, pts: seq<Vec3>, k: nat)
    requires |ps| == |cs| && k < |ps|
    requires !ps[k].apply
    ensures Replay(ps, cs, pts).caches[k] == cs[k]
    ensures Replay(ps, cs, pts).result == Replay(ps[..k] + ps[k + 1..], cs[..k] + cs[k + 1..], pts).result
  {
    var ps1, cs1, ps3, cs3 := ps[..k], cs[..k], ps[k + 1..], cs[k + 1..];
    assert ps1 + [ps[k]] + ps3 == ps;
    assert cs1 + [cs[k]] + cs3 == cs;
    var a := Replay(ps1, cs1, pts);
    ReplayComposes(ps1, cs1, [ps[k]], [cs[k]], pts);
    if a.result.Ok? {
      ReplayInactive(ps[k], cs[k], a.result.value);
    }
    var b := Replay(ps1 + [ps[k]], cs1 + [cs[k]], pts);
    assert b.result == a.result && b.caches == a.caches + [cs[k]];
    ReplayComposes(ps1 + [ps[k]], cs1 + [cs[k]], ps3, cs3, pts);
    ReplayComposes(ps1, cs1, ps3, cs3, pts);
  }

  /** Replaying a single inactive entry changes nothing. */
  lemma ReplayInactive(p: Params, c: Cache, pts: seq<Vec3>)
    requires !p.apply
    ensures Replay([p], [c], pts) == Replayed([c], Ok(pts))
  {
    assert [p][..0] == [] && [c][..0] == [];
  }

  /** A transform that has been used the way a pipeline run uses it: it is
      valid, and a DVF transform has built its interpolator. */
  predicate Settled(p: Params, c: Cache)
  {
    Valid(p, c) && (p.dvf.Some? ==> c.nodes.Some?)
  }

  /** Replaying settled transforms changes none of them, whatever the
      geometry; so a projection through settled transforms does not depend on
      what was projected before it. */
  lemma {:induction false} ReplaySettled(ps: seq<Params>, cs: seq<Cache>, pts: seq<Vec3>)
    requires |ps| == |cs|
    requires forall i :: 0 <= i < |ps| ==> Settled(ps[i], cs[i])
    ensures Replay(ps, cs, pts).caches == cs
    decreases |ps|
  {
    if |ps| > 0 {
      var n := |ps| - 1;
      ReplaySettled(ps[..n], cs[..n], pts);
      assert cs[..n] + [cs[n]] == cs;
    }
  }

  /** The part of `project` after the replay: the subject's own target
      transform, applied forward, when there is one. */
  datatype Projected = Projected(caches: seq<Cache>, targetCache: Option<Cache>, result: Result<seq<Vec3>, Error>)

  function ProjectSpec(ps: seq<Params>, cs: seq<Cache>, target: Option<(Params, Cache)>, pts: seq<Vec3>): Projected
    requires |ps| == |cs|
  {
    var r := Replay(ps, cs, pts);
    var tc := if target.Some? then Some(target.value.1) else None;
    if r.result.Err? || target.None? then Projected(r.caches, tc, r.result)
    else
      var o := CallSpec(target.value.0, target.value.1, r.result.value, CloudKind, false);
      Projected(r.caches, Some(o.cache), o.result)
  }

  /** `ProjectSpec` in its two parts: the replay, then the target
      transform on a replay that succeeded. */
  lemma ProjectSpecSplits(ps: seq<Params>, cs: seq<Cache>, target: Option<(Params, Cache)>, pts: seq<Vec3>)
    requires |ps| == |cs|
    ensures var r := Replay(ps, cs, pts);
            var p := ProjectSpec(ps, cs, target, pts);
            && p.caches == r.caches
            && (target.None? ==> p.targetCache == None && p.result == r.result)
            && (target.Some? && r.result.Err? ==> p.targetCache == Some(target.value.1) && p.result == r.result)
            && (target.Some? && r.result.Ok? ==>
                  var o := CallSpec(target.value.0, target.value.1, r.result.value, CloudKind, false);
                  p.targetCache == Some(o.cache) && p.result == o.result)
  {
  }

  /** Replaying one more entry after a prefix that succeeded. */
  lemma ReplayNext(ps: seq<Params>, cs: seq<Cache>, pts: seq<Vec3>, i: nat, prev: Replayed)
    requires |ps| == |cs| && i < |ps|
    requires prev == Replay(ps[..i], cs[..i], pts) && prev.result.Ok?
    ensures var o := StepSpec(ps[i], cs[i], prev.result.value);
            Replay(ps[..i + 1], cs[..i + 1], pts) == Replayed(prev.caches + [o.cache], o.result)
  {
    assert ps[..i + 1][..i] == ps[..i] && cs[..i + 1][..i] == cs[..i];
  }

  /** Following the given cloud through one more entry. */
  lemma FollowNext(ps: seq<Params>, cs: seq<Cache>, pts: seq<Vec3>, i: nat)
    requires |ps| == |cs| && i < |ps|
    ensures var prev := Follow(ps[..i], cs[..i], pts);
            Follow(ps[..i + 1], cs[..i + 1], pts) ==
              if !prev.attached then prev else StepTracked(ps[i], cs[i], prev.points)
  {
    assert ps[..i + 1][..i] == ps[..i] && cs[..i + 1][..i] == cs[..i];
  }

  /** A step that rewrites the cloud in place and succeeds leaves its result
      in the cloud it was handed. */
  lemma StepInPlaceHolds(p: Params, c: Cache, pts: seq<Vec3>)
    requires StepInPlace(p, c) && StepSpec(p, c, pts).result.Ok?
    ensures StepTracked(p, c, pts) == Tracked(true, StepSpec(p, c, pts).result.value)
  {
  }

  /** When every entry rewrites the cloud in place, the cloud `project` was
      given ends up holding the replayed coordinates. */
  lemma {:induction false} FollowInPlace(ps: seq<Params>, cs: seq<Cache>, pts: seq<Vec3>)
    requires |ps| == |cs|
    requires forall i :: 0 <= i < |ps| ==> StepInPlace(ps[i], cs[i])
    requires Replay(ps, cs, pts).result.Ok?
    ensures Follow(ps, cs, pts) == Tracked(true, Replay(ps, cs, pts).result.value)
    decreases |ps|
  {
    if |ps| > 0 {
      var n := |ps| - 1;
      var prev := Replay(ps[..n], cs[..n], pts);
      assert prev.result.Ok?;
      FollowInPlace(ps[..n], cs[..n], pts);
      StepInPlaceHolds(ps[n], cs[n], prev.result.value);
    }
  }

  /** States that agree with a replay up to entry `i`, hold that entry's
      failed step at `i`, and are untouched after it, are the states of the
      whole replay, which fails with that step's error. */
  lemma ReplayFails(cur: seq<Cache>, ps: seq<Params>, cs: seq<Cache>, pts: seq<Vec3>, i: nat, prev: Replayed)
    requires |ps| == |cs| == |cur| && i < |ps|
    requires prev == Replay(ps[..i], cs[..i], pts) && prev.result.Ok?
    requires var o := StepSpec(ps[i], cs[i], prev.result.value);
             o.result.Err?
             && (forall j :: 0 <= j < i ==> cur[j] == prev.caches[j])
             && cur[i] == o.cache
             && (forall j :: i < j < |cur| ==> cur[j] == cs[j])
    ensures Replay(ps, cs, pts) == Replayed(cur, StepSpec(ps[i], cs[i], prev.result.value).result)
  {
    ReplayNext(ps, cs, pts, i, prev);
    ReplayStops(ps, cs, pts, i + 1);
    var full := Replay(ps, cs, pts);
    assert forall j :: 0 <= j < |cur| ==> full.caches[j] == cur[j];
  }

  lemma SeqPointwise<T>(a: seq<T>, b: seq<T>)
    requires |a| == |b|
    requires forall j :: 0 <= j < |a| ==> a[j] == b[j]
    ensures a == b
  {
  }

  /** One turn of the loop in `project`: skip, invert or call the transform
      on the cloud, whose parameters, state and points are `p`, `c` and `pts`. */
  method ReplayEntry(t: Transform, pc: PointCloud, ghost p: Params, ghost c: Cache, ghost pts: seq<Vec3>)
      returns (r: Result<PointCloud, Error>)
    requires p == t.AsParams() && c == t.State() && pts == pc.points
    modifies t, pc
    ensures t.State() == StepSpec(p, c, pts).cache
    ensures r.Ok? <==> StepSpec(p, c, pts).result.Ok?
    ensures r.Ok? ==> r.value.points == StepSpec(p, c, pts).result.value
    ensures r.Err? ==> r.error == StepSpec(p, c, pts).result.error
    ensures r.Ok? ==> r.value == pc || fresh(r.value)
    ensures r.Ok? ==> var f := StepTracked(p, c, pts);
                      pc.points == f.points && (f.attached <==> r.value == pc)
  {
    if !t.apply {
      return Ok(pc);
    }
    var g: Result<Geometry, Error>;
    if t.inverse.Some? {
      g := t.Invert(Cloud(pc));
    } else {
      g := t.Call(Cloud(pc), false);
    }
    if g.Err? {
      return Err(g.error);
    }
    r := Ok(g.value.cloud);
  }

  /** The cloud `project` starts from: the subject converted to a point
      cloud, or a deep copy of the cloud view of an organ or tissue block. */
  method StartCloud(subject: Subject) returns (pc: PointCloud)
    ensures pc.points == StartPoints(subject)
    ensures pc in InPlace(subject) || fresh(pc)
    ensures subject.Plain? && subject.geometry.Cloud? ==> pc == subject.geometry.cloud
  {
    var start: Geometry;
    match subject {
      case Plain(g) =>
        start := ToPointCloud(g);
      case Placed(m, _) =>
        var view := ToPointCloud(Surface(m));
        start := DeepCopy(view);
    }
    pc := start.cloud;
  }

  /** The last move of `project`: an organ or tissue block with a target
      transform is carried to its place in the reference organ by a forward
      call of that transform; any other cloud is passed on as it is. */
  method PlaceTarget(subject: Subject, pc: PointCloud) returns (r: Result<PointCloud, Error>)
    modifies TargetSet(subject), pc
    ensures TargetOf(subject).None? ==> r == Ok(pc) && pc.points == old(pc.points)
    ensures TargetOf(subject).Some? ==>
              var (p, c) := old(TargetEntry(subject)).value;
              var o := CallSpec(p, c, old(pc.points), CloudKind, false);
              TargetOf(subject).value.State() == o.cache
              && (r.Ok? <==> o.result.Ok?)
              && (r.Ok? ==> r.value.points == o.result.value)
              && (r.Err? ==> r.error == o.result.error)
  {
    if !(subject.Placed? && subject.target.Some?) {
      return Ok(pc);
    }
    var g := subject.target.value.Call(Cloud(pc), false);
    if g.Err? {
      return Err(g.error);
    }
    r := Ok(g.value.cloud);
  }

  /** The consolidated result of a pipeline run. */
  class Projection {
    const id: string
    const description: string
    const source: Subject
    const target: Subject
    const transformations: seq<(string, Transform)>
    const registration: Mesh

    constructor (id: string, description: string, source: Subject, target: Subject,
                 transformations: seq<(string, Transform)>, registration: Mesh)
      ensures this.id == id && this.description == description
      ensures this.source == source && this.target == target
      ensures this.transformations == transformations && this.registration == registration
    {
      this.id := id;
      this.description := description;
      this.source := source;
      this.target := target;
      this.transformations := transformations;
      this.registration := registration;
    }

    function Footprint(): set<Transform>
    {
      set i | 0 <= i < |transformations| :: transformations[i].1
    }

    /** The parameters of the listed transforms, in list order. */
    function Plan(): (ps: seq<Params>)
      ensures |ps| == |transformations|
      ensures forall i :: 0 <= i < |ps| ==> ps[i] == transformations[i].1.AsParams()
    {
      seq(|transformations|, i requires 0 <= i < |transformations| => transformations[i].1.AsParams())
    }

    /** The current states of the listed transforms, in list order. */
    function States(): (cs: seq<Cache>)
      reads Footprint()
      ensures |cs| == |transformations|
      ensures forall i :: 0 <= i < |cs| ==> cs[i] == transformations[i].1.State()
    {
      seq(|transformations|, i requires 0 <= i < |transformations| reads Footprint() => transformations[i].1.State())
    }

    /** The listed transforms are distinct objects. */
    predicate Distinct()
    {
      forall i, j :: 0 <= i < j < |transformations| ==> transformations[i].1 != transformations[j].1
    }

    /** The listed transforms are distinct objects, and the subject's target
        transform is not one of them. */
    predicate Apart(s: Subject)
    {
      Distinct() && (TargetOf(s).Some? ==> TargetOf(s).value !in Footprint())
    }

    /** The loop of `project` has run the first `i` entries, starting from
        states `cs` and points `pts`: the cloud `cur` and the states agree
        with the replay of that prefix, and the rest are untouched. */
    ghost predicate Reached(i: nat, cur: PointCloud, ps: seq<Params>, cs: seq<Cache>, pts: seq<Vec3>)
      reads Footprint(), cur
    {
      ps == Plan() && |cs| == |ps| && i <= |ps|
      && var done := Replay(ps[..i], cs[..i], pts);
         done.result == Ok(cur.points)
         && (forall j :: 0 <= j < i ==> transformations[j].1.State() == done.caches[j])
         && (forall j :: i <= j < |ps| ==> transformations[j].1.State() == cs[j])
    }

    /** Before the loop nothing has run. */
    lemma ReachedStart(cur: PointCloud)
      ensures Reached(0, cur, Plan(), States(), cur.points)
    {
      assert Plan()[..0] == [] && States()[..0] == [];
    }

    /** After the loop the states are those of the whole replay. */
    lemma ReachedEnd(cur: PointCloud, ps: seq<Params>, cs: seq<Cache>, pts: seq<Vec3>)
      requires Reached(|transformations|, cur, ps, cs, pts)
      ensures Replay(ps, cs, pts) == Replayed(States(), Ok(cur.points))
    {
      assert ps[..|ps|] == ps && cs[..|cs|] == cs;
      SeqPointwise(States(), Replay(ps, cs, pts).caches);
    }

    /** One turn of the loop of `project`, on entry `i`. */
    method Advance(cur: PointCloud, ghost ps: seq<Params>, ghost cs: seq<Cache>, ghost pts: seq<Vec3>, i: nat)
      returns (next: Result<PointCloud, Error>)
      requires Distinct() && i < |transformations| && Reached(i, cur, ps, cs, pts)
      modifies transformations[i].1, cur
      ensures next.Ok? ==> Reached(i + 1, next.value, ps, cs, pts) && (next.value == cur || fresh(next.value))
      ensures next.Err? ==> Replay(ps, cs, pts) == Replayed(States(), Err(next.error))
      ensures next.Ok? ==> var f := StepTracked(ps[i], cs[i], old(cur.points));
                           cur.points == f.points && (f.attached <==> next.value == cur)
    {
      ghost var done := Replay(ps[..i], cs[..i], pts);
      next := ReplayEntry(transformations[i].1, cur, ps[i], cs[i], cur.points);
      if next.Err? {
        ReplayFails(States(), ps, cs, pts, i, done);
        return;
      }
      ReplayNext(ps, cs, pts, i, done);
    }

    /** The loop of `project`: every listed transform in turn on the cloud. */
    method ReplayAll(pc: PointCloud) returns (r: Result<PointCloud, Error>)
      requires Distinct()
      modifies Footprint(), pc
      ensures var p := Replay(Plan(), old(States()), old(pc.points));
              States() == p.caches
              && (r.Ok? <==> p.result.Ok?)
              && (r.Ok? ==> r.value.points == p.result.value)
              && (r.Err? ==> r.error == p.result.error)
      ensures r.Ok? ==> r.value == pc || fresh(r.value)
      ensures r.Ok? ==> var f := Follow(Plan(), old(States()), old(pc.points));
                        pc.points == f.points && (f.attached <==> r.value == pc)
    {
      ghost var ps := Plan();
      ghost var cs := States();
      ghost var pts := pc.points;
      ReachedStart(pc);
      var cur := pc;
      var i := 0;
      while i < |transformations|
        invariant i <= |transformations|
        invariant cur == pc || fresh(cur)
        invariant Reached(i, cur, ps, cs, pts)
        invariant var f := Follow(ps[..i], cs[..i], pts);
                  pc.points == f.points && (f.attached <==> cur == pc)
      {
        var next := Advance(cur, ps, cs, pts, i);
        if next.Err? {
          return Err(next.error);
        }
        FollowNext(ps, cs, pts, i);
        cur := next.value;
        i := i + 1;
      }
      ReachedEnd(cur, ps, cs, pts);
      assert ps[..i] == ps && cs[..i] == cs;
      r := Ok(cur);
    }

    /** The point cloud view of the subject, the replay and the target
        transform; the returned cloud holds the projected coordinates. */
    method Walk(subject: Subject) returns (r: Result<PointCloud, Error>)
      requires Apart(subject)
      modifies Footprint(), InPlace(subject), TargetSet(subject)
      ensures var p := ProjectSpec(Plan(), old(States()), old(TargetEntry(subject)), old(StartPoints(subject)));
              States() == p.caches
              && (TargetOf(subject).Some? ==> Some(TargetOf(subject).value.State()) == p.targetCache)
              && (r.Ok? <==> p.result.Ok?)
              && (r.Ok? ==> r.value.points == p.result.value)
              && (r.Err? ==> r.error == p.result.error)
      ensures r.Ok? && subject.Plain? && subject.geometry.Cloud? ==>
                subject.geometry.cloud.points == Follow(Plan(), old(States()), old(StartPoints(subject))).points
    {
      ghost var ps, cs, te, pts := Plan(), States(), TargetEntry(subject), StartPoints(subject);
      ProjectSpecSplits(ps, cs, te, pts);
      var start := StartCloud(subject);
      assert States() == cs && start.points == pts;
      r := ReplayAll(start);
      ghost var after := States();
      assert unchanged(TargetSet(subject));
      assert TargetEntry(subject) == te;
      if r.Ok? {
        r := PlaceTarget(subject, r.value);
        assert States() == after;
      }
    }

    /** `project` as written: it returns the object it was given. Only a
        mesh (a plain one, an organ or a tissue block) receives the projected
        coordinates, as its new vertices; an array comes back as it was. */
    method Project(subject: Subject) returns (r: Result<Subject, Error>)
      requires Apart(subject)
      modifies Footprint(), InPlace(subject), TargetSet(subject), SubjectObjects(subject)
      ensures var p := ProjectSpec(Plan(), old(States()), old(TargetEntry(subject)), old(StartPoints(subject)));
              States() == p.caches
              && (TargetOf(subject).Some? ==> Some(TargetOf(subject).value.State()) == p.targetCache)
              && (r.Ok? <==> p.result.Ok?)
              && (r.Err? ==> r.error == p.result.error)
              && (r.Ok? && subject.Placed? ==> subject.mesh.vertices == p.result.value)
              && (r.Ok? && subject.Plain? && subject.geometry.Surface? ==> subject.geometry.mesh.vertices == p.result.value)
      ensures r.Ok? && subject.Plain? && subject.geometry.Cloud? ==>
                subject.geometry.cloud.points == Follow(Plan(), old(States()), old(StartPoints(subject))).points
      ensures r.Ok? ==> r.value == subject
    {
      var w := Walk(subject);
      if w.Err? {
        return Err(w.error);
      }
      match subject {
        case Plain(Surface(m)) =>
          m.vertices := w.value.points;
        case Placed(m, _) =>
          m.vertices := w.value.points;
        case Plain(_) =>
      }
      r := Ok(subject);
    }

    /** What `project` evidently means to do for every kind of subject: return
        the projected geometry, a cloud for an array or a cloud, the mesh with
        its vertices replaced otherwise. */
    method ProjectGeometry(subject: Subject) returns (r: Result<Geometry, Error>)
      requires Apart(subject)
      modifies Footprint(), InPlace(subject), TargetSet(subject), SubjectObjects(subject)
      ensures var p := ProjectSpec(Plan(), old(States()), old(TargetEntry(subject)), old(StartPoints(subject)));
              States() == p.caches
              && (TargetOf(subject).Some? ==> Some(TargetOf(subject).value.State()) == p.targetCache)
              && Coords(r) == p.result
      ensures r.Ok? && subject.Placed? ==> r.value == Surface(subject.mesh)
      ensures r.Ok? && subject.Plain? ==> KindOf(r.value) == (if subject.geometry.Surface? then KindOf(subject.geometry) else CloudKind)
    {
      var w := Walk(subject);
      if w.Err? {
        return Err(w.error);
      }
      match subject
      case Plain(Surface(m)) =>
        m.vertices := w.value.points;
        r := Ok(Surface(m));
      case Placed(m, _) =>
        m.vertices := w.value.points;
        r := Ok(Surface(m));
      case Plain(_) =>
        r := Ok(Cloud(w.value));
    }
  }

  /** A replay of one entry is that entry's step. */
  lemma ReplaySingle(p: Params, c: Cache, pts: seq<Vec3>)
    ensures Replay([p], [c], pts) == Replayed([StepSpec(p, c, pts).cache], StepSpec(p, c, pts).result)
  {
    assert [p][..0] == [] && [c][..0] == [];
  }

  /** A pure translation by `t` moves the origin to `t`. */
  lemma TranslatesOrigin(t: Vec3)
    ensures MapAffine(Mat4(Identity3, t, AffineBottom), [Origin]) == [t]
  {
    var m := Mat4(Identity3, t, AffineBottom);
    MapAffineSingle(m, Origin);
    MulMVOrigin(Identity3);
    assert ApplyAffine(m, Origin) == Add(Origin, t);
  }

  /** The projection is lost for an array: one transform translating by a
      non-zero `t` moves the origin to `t`, yet `project` hands back the array
      it was given, still at the origin. */
  lemma ArrayProjectionLost(t: Vec3)
    requires t != Origin
    ensures var p := Params(PerAxis(Vec3(1.0, 1.0, 1.0)), Angles(Origin), Origin, None,
                            Mat4(Identity3, t, AffineBottom), "xyz", true);
            ProjectSpec([p], [Unused], None, [Origin]).result == Ok([t]) && [t] != [Origin]
  {
    var p := Params(PerAxis(Vec3(1.0, 1.0, 1.0)), Angles(Origin), Origin, None,
                    Mat4(Identity3, t, AffineBottom), "xyz", true);
    ReplaySingle(p, Unused, [Origin]);
    TranslatesOrigin(t);
    assert [t][0] != [Origin][0];
  }

  /** The projection is lost for a point cloud as soon as a transform builds
      a new cloud: a centring transform whose cached mean is the origin and
      which translates by a non-zero `t` projects the origin to `t`, yet the
      cloud `project` was given, and returns, still holds the origin. */
  lemma CloudProjectionLost(t: Vec3)
    requires t != Origin
    ensures var p := Params(PerAxis(Vec3(1.0, 1.0, 1.0)), Angles(Origin), Origin, None,
                            Mat4(Identity3, t, AffineBottom), "xyz", true);
            var c := Cache(true, Some(Origin), None, None);
            ProjectSpec([p], [c], None, [Origin]).result == Ok([t])
            && Follow([p], [c], [Origin]) == Tracked(false, [Origin]) && [t] != [Origin]
  {
    var p := Params(PerAxis(Vec3(1.0, 1.0, 1.0)), Angles(Origin), Origin, None,
                    Mat4(Identity3, t, AffineBottom), "xyz", true);
    var c := Cache(true, Some(Origin), None, None);
    var m := Mat4(Identity3, t, AffineBottom);
    assert Centered([Origin], Origin) == [Origin] by {
      assert Sub(Origin, Origin) == Origin;
    }
    assert CenterSpec(c, [Origin], CloudKind) == Outcome(c, Ok([Origin]));
    TranslatesOrigin(t);
    assert TransformSpec(Some(m), [Origin], CloudKind) == Ok([t]);
    assert StepSpec(p, c, [Origin]) == Outcome(c, Ok([t]));
    ReplaySingle(p, c, [Origin]);
    assert StepTracked(p, c, [Origin]) == Tracked(false, [Origin]);
    assert [p][..0] == [] && [c][..0] == [];
    assert [t][0] != [Origin][0];
  }
}
