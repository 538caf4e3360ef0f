/** Geometry adapters (`to_array`, `to_pointcloud`, `to_mesh`), the
    decomposition of a 4x4 transform into scale, rotation and translation, and
    the 1-based to 0-based shift of BCPD correspondence indices. */
module Conversions {
  import opened Wrappers
  import opened Linalg
  import opened Geometry

  /** `to_array`: the coordinates of a cloud or a mesh, in order; an array
      is returned as it is. */
  function ToArray(g: Geometry): seq<Vec3>
    reads Objects(g)
  {
    match g
    case Array(pts) => pts
    case Cloud(c) => c.points
    case Surface(m) => m.vertices
  }

  /** `to_pointcloud`: a new cloud holding the points of an array or of a
      mesh's vertices, in order; a cloud is returned as the same object. */
  method ToPointCloud(g: Geometry) returns (r: Geometry)
    ensures r.Cloud?
    ensures ToArray(r) == ToArray(g)
    ensures g.Cloud? ==> r == g
    ensures !g.Cloud? ==> fresh(r.cloud)
  {
    match g
    case Cloud(_) =>
      r := g;
    case Array(pts) =>
      var c := new PointCloud(pts);
      r := Cloud(c);
    case Surface(m) =>
      var c := new PointCloud(m.vertices);
      r := Cloud(c);
  }

  /** `to_mesh`: a new mesh with the points of an array or cloud as its
      vertices and exactly the given faces and `process` flag; a mesh is
      returned as the same object and the faces are then ignored. Every
      point is kept, in order, even under `process=True`, where trimesh
      would merge duplicate vertices. */
  method ToMesh(g: Geometry, faces: seq<Face>, process: bool) returns (r: Geometry)
    ensures r.Surface?
    ensures ToArray(r) == ToArray(g)
    ensures g.Surface? ==> r == g
    ensures !g.Surface? ==> fresh(r.mesh) && r.mesh.faces == faces && r.mesh.process == process
  {
    match g
    case Surface(_) =>
      r := g;
    case Array(pts) =>
      var m := new Mesh(pts, faces, process);
      r := Surface(m);
    case Cloud(c) =>
      var m := new Mesh(c.points, faces, process);
      r := Surface(m);
  }

  /** `copy.deepcopy` of a geometry: new objects of the same kind holding the
      same coordinates. */
  method DeepCopy(g: Geometry) returns (h: Geometry)
    ensures KindOf(h) == KindOf(g)
    ensures ToArray(h) == ToArray(g)
    ensures fresh(Objects(h))
    ensures h.Surface? ==> h.mesh.process == g.mesh.process
  {
    match g
    case Array(pts) =>
      h := g;
    case Cloud(c) =>
      var d := new PointCloud(c.points);
      h := Cloud(d);
    case Surface(m) =>
      var n := new Mesh(m.vertices, m.faces, m.process);
      h := Surface(n);
  }

  /** Converting an array to a cloud and back gives the array. */
  method ArrayCloudRoundTrip(a: seq<Vec3>) returns (b: seq<Vec3>)
    ensures b == a
  {
    var c := ToPointCloud(Array(a));
    b := ToArray(c);
  }

  /** The output of `split_transform`. */
  datatype Split = Split(scale: Vec3, rotation: Vec3, translation: Vec3)

  /** sklearn's l2 `normalize` of one column: a zero column is left as it is. */
  function NormalizeColumn(c: Vec3, norm: real): Vec3
  {
    if norm == 0.0 then c else Scale(1.0 / norm, c)
  }

  function FromColumns(c0: Vec3, c1: Vec3, c2: Vec3): (m: Mat3)
    ensures Column(m, 0) == c0 && Column(m, 1) == c1 && Column(m, 2) == c2
  {
    Mat3(Vec3(c0.x, c1.x, c2.x), Vec3(c0.y, c1.y, c2.y), Vec3(c0.z, c1.z, c2.z))
  }

  /** The euclidean norm of a column, through the square root `sqrt`. */
  function Norm(c: Vec3, sqrt: real -> real): real
  {
    sqrt(Dot(c, c))
  }

  /** `split_transform`: translation from the last column, scale as the
      column norms of the upper 3x3 block, rotation as the Euler angles
      (`asEuler`, scipy's `as_euler('xyz', degrees=True)`) of the block with
      normalised columns. */
  function SplitTransform(m: Mat4, sqrt: real -> real, asEuler: Mat3 -> Vec3): Split
  {
    var c0, c1, c2 := Column(m.block, 0), Column(m.block, 1), Column(m.block, 2);
    var n0, n1, n2 := Norm(c0, sqrt), Norm(c1, sqrt), Norm(c2, sqrt);
    var rot := FromColumns(NormalizeColumn(c0, n0), NormalizeColumn(c1, n1), NormalizeColumn(c2, n2));
    Split(Vec3(n0, n1, n2), asEuler(rot), m.col)
  }

  /** The square root the model is given is exact on squares of
      non-negative reals. */
  ghost predicate SqrtExact(sqrt: real -> real)
  {
    forall x :: x >= 0.0 ==> sqrt(Sq(x)) == x
  }

  /** The unit columns of a rotation. */
  ghost predicate UnitColumns(r: Mat3)
  {
    Dot(Column(r, 0), Column(r, 0)) == 1.0
    && Dot(Column(r, 1), Column(r, 1)) == 1.0
    && Dot(Column(r, 2), Column(r, 2)) == 1.0
  }

  lemma DotScaleBoth(k: real, c: Vec3)
    ensures Dot(Scale(k, c), Scale(k, c)) == Sq(k) * Dot(c, c)
  {
    DotScaleLeft(k, c, Scale(k, c));
    DotScale(c, k, c);
    assert Dot(Scale(k, c), Scale(k, c)) == k * (k * Dot(c, c));
  }

  /** A column `k·c` of unit `c` and positive `k` has norm `k` and
      normalises back to `c`. */
  lemma ScaledUnitColumn(k: real, c: Vec3, sqrt: real -> real)
    requires SqrtExact(sqrt)
    requires k > 0.0 && Dot(c, c) == 1.0
    ensures Norm(Scale(k, c), sqrt) == k
    ensures NormalizeColumn(Scale(k, c), k) == c
  {
    DotScaleBoth(k, c);
    assert Dot(Scale(k, c), Scale(k, c)) == Sq(k);
    assert sqrt(Sq(k)) == k;
    ScaleCancel(k, c);
  }

  lemma ScaledColumns(r: Mat3, s: Vec3)
    ensures Column(MulMM(r, Diag(s)), 0) == Scale(s.x, Column(r, 0))
    ensures Column(MulMM(r, Diag(s)), 1) == Scale(s.y, Column(r, 1))
    ensures Column(MulMM(r, Diag(s)), 2) == Scale(s.z, Column(r, 2))
  {
  }

  lemma ColumnsDetermine(r: Mat3)
    ensures FromColumns(Column(r, 0), Column(r, 1), Column(r, 2)) == r
  {
  }

  /** For a matrix R·diag(s) with translation t, R a rotation and every
      scale positive, `split_transform` recovers t exactly, s as the column
      norms, and the Euler angles of R itself. */
  lemma SplitRecovers(r: Mat3, s: Vec3, t: Vec3, sqrt: real -> real, asEuler: Mat3 -> Vec3)
    requires SqrtExact(sqrt) && UnitColumns(r)
    requires s.x > 0.0 && s.y > 0.0 && s.z > 0.0
    ensures SplitTransform(Mat4(MulMM(r, Diag(s)), t, AffineBottom), sqrt, asEuler)
            == Split(s, asEuler(r), t)
  {
    ScaledColumns(r, s);
    ScaledUnitColumn(s.x, Column(r, 0), sqrt);
    ScaledUnitColumn(s.y, Column(r, 1), sqrt);
    ScaledUnitColumn(s.z, Column(r, 2), sqrt);
    ColumnsDetermine(r);
  }

  /** `split_transform` of a pure translation: no scaling (1 on every
      axis), the angles of the identity rotation, and the translation,
      given only that the square root of 1 is 1. */
  lemma TranslationSplits(t: Vec3, sqrt: real -> real, asEuler: Mat3 -> Vec3)
    requires sqrt(1.0) == 1.0
    ensures SplitTransform(Mat4(Identity3, t, AffineBottom), sqrt, asEuler)
            == Split(Vec3(1.0, 1.0, 1.0), asEuler(Identity3), t)
  {
  }

  /** One row of the BCPD correspondence table: the reference index, the
      source index and the match probability. */
  datatype Correspondence = Correspondence(reference: real, source: real, prob: real)

  /** `txt_to_pandas` after parsing: both index columns lose 1, `prob` is kept. */
  function TxtToPandas(rows: seq<Correspondence>): seq<Correspondence>
  {
    seq(|rows|, i requires 0 <= i < |rows| =>
      rows[i].(reference := rows[i].reference - 1.0, source := rows[i].source - 1.0))
  }

  /** The inverse shift, back to the 1-based numbering BCPD writes. */
  function OneBased(rows: seq<Correspondence>): seq<Correspondence>
  {
    seq(|rows|, i requires 0 <= i < |rows| =>
      rows[i].(reference := rows[i].reference + 1.0, source := rows[i].source + 1.0))
  }

  /** The shift keeps row count, order and probabilities, and undoes
      BCPD's 1-based numbering: a 1-based index in 1..n becomes a 0-based
      index in 0..n-1. */
  lemma TxtToPandasShift(rows: seq<Correspondence>, n: int)
    requires forall i :: 0 <= i < |rows| ==> 1.0 <= rows[i].reference <= n as real
    ensures |TxtToPandas(rows)| == |rows|
    ensures OneBased(TxtToPandas(rows)) == rows
    ensures forall i :: 0 <= i < |rows| ==>
      TxtToPandas(rows)[i].prob == rows[i].prob
      && 0.0 <= TxtToPandas(rows)[i].reference <= (n - 1) as real
  {
  }
}
