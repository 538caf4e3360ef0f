/** Normalisation arithmetic: the column-wise mean of a geometry and the two
    scale factors (`'unit'`: one over the largest bounding-box extent;
    `'stddev'`: one over the root-mean-square deviation per coordinate). */
module Preprocess {
  import opened Wrappers
  import opened Linalg
  import opened Geometry
  import opened Conversions

  function Sum(pts: seq<Vec3>): Vec3
  {
    if |pts| == 0 then Origin else Add(Sum(pts[..|pts| - 1]), pts[|pts| - 1])
  }

  /** The column-wise arithmetic mean; an empty set of points has the origin
      as its mean here, where numpy yields NaN. */
  function Mean(pts: seq<Vec3>): Vec3
  {
    if |pts| == 0 then Origin else Scale(1.0 / |pts| as real, Sum(pts))
  }

  /** `mean(geometry)`. */
  function GeometryMean(g: Geometry): Vec3
    reads Objects(g)
  {
    Mean(ToArray(g))
  }

  lemma {:induction false} SumShifted(pts: seq<Vec3>, v: Vec3)
    ensures Sum(Shifted(pts, v)) == Add(Sum(pts), Scale(|pts| as real, v))
    decreases |pts|
  {
    if |pts| > 0 {
      var n := |pts| - 1;
      assert Shifted(pts, v)[..n] == Shifted(pts[..n], v);
      SumShifted(pts[..n], v);
      ScaleSucc(n as real, v);
    }
  }

  lemma ScaleSucc(a: real, v: Vec3)
    ensures Add(Scale(a, v), v) == Scale(a + 1.0, v)
  {
  }

  lemma ScaleSum(n: real, s: Vec3, v: Vec3)
    requires n > 0.0
    ensures Scale(1.0 / n, Add(s, Scale(n, v))) == Add(Scale(1.0 / n, s), v)
  {
    var k := 1.0 / n;
    assert k * n == 1.0;
    assert k * (n * v.x) == (k * n) * v.x;
    assert k * (n * v.y) == (k * n) * v.y;
    assert k * (n * v.z) == (k * n) * v.z;
  }

  /** The mean times the number of points is the coordinate sum. */
  lemma MeanTimesCount(pts: seq<Vec3>)
    requires |pts| > 0
    ensures Scale(|pts| as real, Mean(pts)) == Sum(pts)
  {
    var n := |pts| as real;
    var s := Sum(pts);
    var k := 1.0 / n;
    assert n * k == 1.0;
    assert n * (k * s.x) == (n * k) * s.x;
    assert n * (k * s.y) == (n * k) * s.y;
    assert n * (k * s.z) == (n * k) * s.z;
  }

  /** Translating every point translates the mean by the same vector. */
  lemma MeanShifted(pts: seq<Vec3>, v: Vec3)
    requires |pts| > 0
    ensures Mean(Shifted(pts, v)) == Add(Mean(pts), v)
  {
    SumShifted(pts, v);
    ScaleSum(|pts| as real, Sum(pts), v);
  }

  function Min(a: real, b: real): real { if a <= b then a else b }

  function Max(a: real, b: real): real { if a < b then b else a }

  function MinV(a: Vec3, b: Vec3): Vec3 { Vec3(Min(a.x, b.x), Min(a.y, b.y), Min(a.z, b.z)) }

  function MaxV(a: Vec3, b: Vec3): Vec3 { Vec3(Max(a.x, b.x), Max(a.y, b.y), Max(a.z, b.z)) }

  /** An axis-aligned box: its smallest and its largest corner. */
  datatype Box = Box(lo: Vec3, hi: Vec3)

  predicate Within(p: Vec3, b: Box)
  {
    b.lo.x <= p.x <= b.hi.x && b.lo.y <= p.y <= b.hi.y && b.lo.z <= p.z <= b.hi.z
  }

  /** Box `a` lies inside box `b`. */
  predicate Inside(a: Box, b: Box)
  {
    b.lo.x <= a.lo.x && b.lo.y <= a.lo.y && b.lo.z <= a.lo.z
    && a.hi.x <= b.hi.x && a.hi.y <= b.hi.y && a.hi.z <= b.hi.z
  }

  /** The bounding box of the points (open3d `get_min_bound` and
      `get_max_bound`). */
  function Bounds(pts: seq<Vec3>): Box
    requires |pts| > 0
  {
    if |pts| == 1 then Box(pts[0], pts[0])
    else
      var n := |pts| - 1;
      var b := Bounds(pts[..n]);
      Box(MinV(b.lo, pts[n]), MaxV(b.hi, pts[n]))
  }

  /** The bounding box holds every point. */
  lemma {:induction false} BoundsHold(pts: seq<Vec3>)
    requires |pts| > 0
    ensures forall j :: 0 <= j < |pts| ==> Within(pts[j], Bounds(pts))
    decreases |pts|
  {
    if |pts| > 1 {
      var n := |pts| - 1;
      assert forall j :: 0 <= j < n ==> pts[..n][j] == pts[j];
      BoundsHold(pts[..n]);
    }
  }

  /** The bounding box is the least box holding every point. */
  lemma {:induction false} BoundsLeast(pts: seq<Vec3>, b: Box)
    requires |pts| > 0
    requires forall j :: 0 <= j < |pts| ==> Within(pts[j], b)
    ensures Inside(Bounds(pts), b)
    decreases |pts|
  {
    if |pts| > 1 {
      var n := |pts| - 1;
      assert forall j :: 0 <= j < n ==> pts[..n][j] == pts[j];
      BoundsLeast(pts[..n], b);
    }
  }

  /** The largest component of a vector. */
  function MaxComponent(v: Vec3): real
  {
    Max(Max(v.x, v.y), v.z)
  }

  /** The largest side of a box. */
  function BoxExtent(b: Box): real
  {
    MaxComponent(Sub(b.hi, b.lo))
  }

  /** `np.max(max_bound - min_bound)`: the largest bounding-box extent. */
  function MaxExtent(pts: seq<Vec3>): real
    requires |pts| > 0
  {
    BoxExtent(Bounds(pts))
  }

  /** The `'unit'` scale, 1 / largest extent. A geometry with no points or
      no extent would give an infinite scale: `NonFinite`. */
  function UnitScale(pts: seq<Vec3>): Result<real, Error>
  {
    if |pts| == 0 || MaxExtent(pts) == 0.0 then Err(NonFinite)
    else Ok(1.0 / MaxExtent(pts))
  }

  function SumSq(pts: seq<Vec3>): real
  {
    if |pts| == 0 then 0.0 else SumSq(pts[..|pts| - 1]) + Dot(pts[|pts| - 1], pts[|pts| - 1])
  }

  /** Σ‖x − mean‖² / (n·3), the variance per coordinate; 0 for no points. */
  function Variance(pts: seq<Vec3>): real
  {
    if |pts| == 0 then 0.0 else SumSq(Centered(pts, Mean(pts))) / (3 * |pts|) as real
  }

  /** The `'stddev'` scale, 1 / sqrt(variance); an infinite result is
      `NonFinite`. */
  function StddevScale(pts: seq<Vec3>, sqrt: real -> real): Result<real, Error>
  {
    var sd := sqrt(Variance(pts));
    if sd == 0.0 then Err(NonFinite) else Ok(1.0 / sd)
  }

  /** `scale(geometry, method)`: any method other than `'unit'` and
      `'stddev'` leaves the local `scale` unassigned. */
  function ScaleFactor(pts: seq<Vec3>, name: string, sqrt: real -> real): (r: Result<real, Error>)
    ensures name != "unit" && name != "stddev" <==> r == Err(UnboundLocalError("scale"))
  {
    if name == "unit" then UnitScale(pts)
    else if name == "stddev" then StddevScale(pts, sqrt)
    else Err(UnboundLocalError("scale"))
  }

  /** Every extent is non-negative. */
  lemma MaxExtentNonNegative(pts: seq<Vec3>)
    requires |pts| > 0
    ensures MaxExtent(pts) >= 0.0
  {
    BoundsHold(pts);
    assert Within(pts[0], Bounds(pts));
  }

  /** Translating every point translates the bounding box. */
  lemma {:induction false} BoundsShifted(pts: seq<Vec3>, v: Vec3)
    requires |pts| > 0
    ensures Bounds(Shifted(pts, v)) == Box(Add(Bounds(pts).lo, v), Add(Bounds(pts).hi, v))
    decreases |pts|
  {
    if |pts| > 1 {
      var n := |pts| - 1;
      assert Shifted(pts, v)[..n] == Shifted(pts[..n], v);
      BoundsShifted(pts[..n], v);
    }
  }

  /** Translating a geometry leaves every extent unchanged. */
  lemma MaxExtentShifted(pts: seq<Vec3>, v: Vec3)
    requires |pts| > 0
    ensures MaxExtent(Shifted(pts, v)) == MaxExtent(pts)
  {
    BoundsShifted(pts, v);
    assert Sub(Add(Bounds(pts).hi, v), Add(Bounds(pts).lo, v)) == Sub(Bounds(pts).hi, Bounds(pts).lo);
  }

  /** Translating a geometry leaves the `'unit'` scale unchanged. */
  lemma UnitScaleShifted(pts: seq<Vec3>, v: Vec3)
    ensures UnitScale(Shifted(pts, v)) == UnitScale(pts)
  {
    if |pts| > 0 {
      MaxExtentShifted(pts, v);
    }
  }

  /** Translating a geometry leaves the variance, hence the `'stddev'`
      scale, unchanged. */
  lemma StddevScaleShifted(pts: seq<Vec3>, v: Vec3, sqrt: real -> real)
    ensures StddevScale(Shifted(pts, v), sqrt) == StddevScale(pts, sqrt)
  {
    if |pts| > 0 {
      MeanShifted(pts, v);
      var m := Mean(pts);
      assert Centered(Shifted(pts, v), Add(m, v)) == Centered(pts, m) by {
        forall i | 0 <= i < |pts|
          ensures Centered(Shifted(pts, v), Add(m, v))[i] == Centered(pts, m)[i]
        {
        }
      }
    }
  }

  /** Multiplying by a positive factor keeps the order of two reals. */
  lemma MulMonotone(k: real, a: real, b: real)
    requires k > 0.0
    ensures a <= b <==> k * a <= k * b
  {
    assert k * b - k * a == k * (b - a);
    if a > b {
      assert k * (a - b) > 0.0;
    }
  }

  lemma MinScaled(k: real, a: real, b: real)
    requires k > 0.0
    ensures Min(k * a, k * b) == k * Min(a, b)
  {
    MulMonotone(k, a, b);
    if a <= b {
      MulEq(k, k, a, Min(a, b));
    } else {
      MulEq(k, k, b, Min(a, b));
    }
  }

  lemma MaxScaled(k: real, a: real, b: real)
    requires k > 0.0
    ensures Max(k * a, k * b) == k * Max(a, b)
  {
    MulMonotone(k, a, b);
    if a < b {
      MulEq(k, k, b, Max(a, b));
    } else {
      MulEq(k, k, a, Max(a, b));
    }
  }

  lemma MinVScaled(k: real, a: Vec3, b: Vec3)
    requires k > 0.0
    ensures MinV(Scale(k, a), Scale(k, b)) == Scale(k, MinV(a, b))
  {
    MinScaled(k, a.x, b.x);
    MinScaled(k, a.y, b.y);
    MinScaled(k, a.z, b.z);
  }

  lemma MaxVScaled(k: real, a: Vec3, b: Vec3)
    requires k > 0.0
    ensures MaxV(Scale(k, a), Scale(k, b)) == Scale(k, MaxV(a, b))
  {
    MaxScaled(k, a.x, b.x);
    MaxScaled(k, a.y, b.y);
    MaxScaled(k, a.z, b.z);
  }

  /** Multiplying every point by a positive factor multiplies the bounding
      box by it. */
  lemma {:induction false} BoundsScaled(k: real, pts: seq<Vec3>)
    requires |pts| > 0 && k > 0.0
    ensures Bounds(Scaled(k, pts)) == Box(Scale(k, Bounds(pts).lo), Scale(k, Bounds(pts).hi))
    decreases |pts|
  {
    if |pts| > 1 {
      var n := |pts| - 1;
      assert Scaled(k, pts)[..n] == Scaled(k, pts[..n]);
      BoundsScaled(k, pts[..n]);
      MinVScaled(k, Bounds(pts[..n]).lo, pts[n]);
      MaxVScaled(k, Bounds(pts[..n]).hi, pts[n]);
    }
  }

  lemma MaxComponentScaled(k: real, v: Vec3)
    requires k > 0.0
    ensures MaxComponent(Scale(k, v)) == k * MaxComponent(v)
  {
    MaxScaled(k, v.x, v.y);
    MaxScaled(k, Max(v.x, v.y), v.z);
    MulEq(k, k, Max(Max(v.x, v.y), v.z), MaxComponent(v));
  }

  lemma SubScaled(k: real, a: Vec3, b: Vec3)
    ensures Sub(Scale(k, a), Scale(k, b)) == Scale(k, Sub(a, b))
  {
  }

  /** `k·x` as a function term: an equation between two of these follows
      from equal arguments alone, where the bare product of terms that are
      only provably equal does not. */
  function Mul(k: real, x: real): real { k * x }

  lemma BoxExtentScaled(k: real, b: Box)
    requires k > 0.0
    ensures BoxExtent(Box(Scale(k, b.lo), Scale(k, b.hi))) == Mul(k, BoxExtent(b))
  {
    SubScaled(k, b.hi, b.lo);
    MaxComponentScaled(k, Sub(b.hi, b.lo));
  }

  lemma MaxExtentScaled(k: real, pts: seq<Vec3>)
    requires |pts| > 0 && k > 0.0
    ensures MaxExtent(Scaled(k, pts)) == Mul(k, MaxExtent(pts))
  {
    BoundsScaled(k, pts);
    BoxExtentScaled(k, Bounds(pts));
  }

  /** Multiplying by a positive factor multiplies the largest extent by it. */
  lemma ExtentScaled(k: real, pts: seq<Vec3>)
    requires |pts| > 0 && k > 0.0
    ensures MaxExtent(Scaled(k, pts)) == k * MaxExtent(pts)
  {
    MaxExtentScaled(k, pts);
  }

  lemma MulRecip(e: real)
    requires e != 0.0
    ensures Mul(1.0 / e, e) == 1.0
  {
  }

  /** Centring a geometry and then multiplying by its `'unit'` scale gives a
      geometry whose largest bounding-box extent is exactly 1. */
  lemma UnitScaleNormalises(pts: seq<Vec3>, m: Vec3)
    requires UnitScale(pts).Ok?
    ensures |pts| > 0
    ensures MaxExtent(Scaled(UnitScale(pts).value, Centered(pts, m))) == 1.0
  {
    var k := UnitScale(pts).value;
    assert Centered(pts, m) == Shifted(pts, Scale(-1.0, m));
    MaxExtentShifted(pts, Scale(-1.0, m));
    MaxExtentNonNegative(pts);
    MaxExtentScaled(k, Centered(pts, m));
    MulRecip(MaxExtent(pts));
  }
}
