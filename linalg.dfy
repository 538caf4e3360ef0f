/** The numpy/scipy linear algebra the core relies on, over exact reals:
    3-vectors, 3x3 and 4x4 matrices, the affine inverse that stands for
    `np.linalg.inv`, and the nearest-neighbour query behind scipy's
    `NearestNDInterpolator`. */
module Linalg {
  import opened Wrappers

  datatype Vec3 = Vec3(x: real, y: real, z: real)

  const Origin := Vec3(0.0, 0.0, 0.0)

  function Add(a: Vec3, b: Vec3): Vec3 { Vec3(a.x + b.x, a.y + b.y, a.z + b.z) }
  function Sub(a: Vec3, b: Vec3): Vec3 { Vec3(a.x - b.x, a.y - b.y, a.z - b.z) }
  function Scale(k: real, a: Vec3): Vec3 { Vec3(k * a.x, k * a.y, k * a.z) }
  function Dot(a: Vec3, b: Vec3): real { a.x * b.x + a.y * b.y + a.z * b.z }
  function Cross(a: Vec3, b: Vec3): Vec3 {
    Vec3(a.y * b.z - a.z * b.y, a.z * b.x - a.x * b.z, a.x * b.y - a.y * b.x)
  }
  function Coord(a: Vec3, i: nat): real
    requires i < 3
  {
    if i == 0 then a.x else if i == 1 then a.y else a.z
  }

  /** A 3x3 matrix given by its rows. */
  datatype Mat3 = Mat3(r0: Vec3, r1: Vec3, r2: Vec3)

  const Identity3 := Mat3(Vec3(1.0, 0.0, 0.0), Vec3(0.0, 1.0, 0.0), Vec3(0.0, 0.0, 1.0))

  function Row(m: Mat3, i: nat): Vec3
    requires i < 3
  {
    if i == 0 then m.r0 else if i == 1 then m.r1 else m.r2
  }
  function At(m: Mat3, i: nat, j: nat): real
    requires i < 3 && j < 3
  {
    Coord(Row(m, i), j)
  }
  function Column(m: Mat3, j: nat): Vec3
    requires j < 3
  {
    Vec3(Coord(m.r0, j), Coord(m.r1, j), Coord(m.r2, j))
  }

  function MulMV(m: Mat3, v: Vec3): Vec3 { Vec3(Dot(m.r0, v), Dot(m.r1, v), Dot(m.r2, v)) }
  function ScaleM(k: real, m: Mat3): Mat3 { Mat3(Scale(k, m.r0), Scale(k, m.r1), Scale(k, m.r2)) }
  function Diag(s: Vec3): Mat3 { Mat3(Vec3(s.x, 0.0, 0.0), Vec3(0.0, s.y, 0.0), Vec3(0.0, 0.0, s.z)) }

  /** Row-by-column product. */
  function MulMM(a: Mat3, b: Mat3): Mat3 {
    var c0, c1, c2 := Column(b, 0), Column(b, 1), Column(b, 2);
    Mat3(Vec3(Dot(a.r0, c0), Dot(a.r0, c1), Dot(a.r0, c2)),
         Vec3(Dot(a.r1, c0), Dot(a.r1, c1), Dot(a.r1, c2)),
         Vec3(Dot(a.r2, c0), Dot(a.r2, c1), Dot(a.r2, c2)))
  }

  /** numpy broadcasting `s * R` for a 3-vector `s` scales column j of R by s[j]:
      it is R·diag(s). */
  lemma ColumnScalingIsDiagProduct(r: Mat3, s: Vec3, i: nat, j: nat)
    requires i < 3 && j < 3
    ensures At(MulMM(r, Diag(s)), i, j) == At(r, i, j) * Coord(s, j)
  {
  }

  function Det3(m: Mat3): real { Dot(m.r0, Cross(m.r1, m.r2)) }

  /** The adjugate: its columns are the cross products of the rows of `m`. */
  function Adj3(m: Mat3): Mat3 {
    var c0, c1, c2 := Cross(m.r1, m.r2), Cross(m.r2, m.r0), Cross(m.r0, m.r1);
    Mat3(Vec3(c0.x, c1.x, c2.x), Vec3(c0.y, c1.y, c2.y), Vec3(c0.z, c1.z, c2.z))
  }

  function Inv3(m: Mat3): Mat3
    requires Det3(m) != 0.0
  {
    ScaleM(1.0 / Det3(m), Adj3(m))
  }

  lemma MulMVAdd(m: Mat3, a: Vec3, b: Vec3)
    ensures MulMV(m, Add(a, b)) == Add(MulMV(m, a), MulMV(m, b))
  {
  }

  /** Scaling distributes over a sum, whatever is added and taken away
      in between. */
  lemma ScaleSplits(k: real, a: Vec3, b: Vec3, t: Vec3)
    ensures Add(Add(Scale(k, a), t), Sub(Scale(k, b), t)) == Scale(k, Add(a, b))
  {
    assert k * (a.x + b.x) == k * a.x + k * b.x;
    assert k * (a.y + b.y) == k * a.y + k * b.y;
    assert k * (a.z + b.z) == k * a.z + k * b.z;
  }

  lemma MulMVOrigin(m: Mat3)
    ensures MulMV(m, Origin) == Origin
  {
    assert Dot(m.r0, Origin) == 0.0 && Dot(m.r1, Origin) == 0.0 && Dot(m.r2, Origin) == 0.0;
  }

  lemma DotScaleLeft(k: real, a: Vec3, w: Vec3)
    ensures Dot(Scale(k, a), w) == k * Dot(a, w)
  {
  }

  lemma MulMVScaleM(k: real, m: Mat3, v: Vec3)
    ensures MulMV(ScaleM(k, m), v) == Scale(k, MulMV(m, v))
  {
    DotScaleLeft(k, m.r0, v);
    DotScaleLeft(k, m.r1, v);
    DotScaleLeft(k, m.r2, v);
  }

  lemma DotScale(a: Vec3, k: real, w: Vec3)
    ensures Dot(a, Scale(k, w)) == k * Dot(a, w)
  {
  }

  lemma MulMVScale(m: Mat3, k: real, w: Vec3)
    ensures MulMV(m, Scale(k, w)) == Scale(k, MulMV(m, w))
  {
    DotScale(m.r0, k, w);
    DotScale(m.r1, k, w);
    DotScale(m.r2, k, w);
  }

  /** Equal factors give equal products: the solver does not rewrite inside a
      product of two compound terms on its own. */
  lemma MulEq(p: real, p2: real, q: real, q2: real)
    requires p == p2 && q == q2
    ensures p * q == p2 * q2
  {
  }

  /** The cofactor expansion behind adj(M)·(M·v) = det(M)·v, written out over
      scalars for M with rows a, b, c. */
  lemma CofactorRow(a0: real, a1: real, a2: real, b0: real, b1: real, b2: real,
                    c0: real, c1: real, c2: real, v0: real, v1: real, v2: real)
    ensures (b1 * c2 - b2 * c1) * (a0 * v0 + a1 * v1 + a2 * v2)
          + (c1 * a2 - c2 * a1) * (b0 * v0 + b1 * v1 + b2 * v2)
          + (a1 * b2 - a2 * b1) * (c0 * v0 + c1 * v1 + c2 * v2)
         == (a0 * (b1 * c2 - b2 * c1) + a1 * (b2 * c0 - b0 * c2) + a2 * (b0 * c1 - b1 * c0)) * v0
  {
  }

  /** The same with the cofactors named p, the coordinates of M·v named q and
      the determinant named d. */
  lemma CofactorRowNamed(a0: real, a1: real, a2: real, b0: real, b1: real, b2: real,
                         c0: real, c1: real, c2: real, v0: real, v1: real, v2: real,
                         p0: real, p1: real, p2: real, q0: real, q1: real, q2: real, d: real)
    requires p0 == b1 * c2 - b2 * c1 && p1 == c1 * a2 - c2 * a1 && p2 == a1 * b2 - a2 * b1
    requires q0 == a0 * v0 + a1 * v1 + a2 * v2 && q1 == b0 * v0 + b1 * v1 + b2 * v2
    requires q2 == c0 * v0 + c1 * v1 + c2 * v2
    requires d == a0 * (b1 * c2 - b2 * c1) + a1 * (b2 * c0 - b0 * c2) + a2 * (b0 * c1 - b1 * c0)
    ensures p0 * q0 + p1 * q1 + p2 * q2 == d * v0
  {
    CofactorRow(a0, a1, a2, b0, b1, b2, c0, c1, c2, v0, v1, v2);
    MulEq(p0, b1 * c2 - b2 * c1, q0, a0 * v0 + a1 * v1 + a2 * v2);
    MulEq(p1, c1 * a2 - c2 * a1, q1, b0 * v0 + b1 * v1 + b2 * v2);
    MulEq(p2, a1 * b2 - a2 * b1, q2, c0 * v0 + c1 * v1 + c2 * v2);
    MulEq(d, a0 * (b1 * c2 - b2 * c1) + a1 * (b2 * c0 - b0 * c2) + a2 * (b0 * c1 - b1 * c0), v0, v0);
  }

  /** The determinant as a polynomial in the entries of M. */
  lemma DetExpanded(m: Mat3)
    ensures var a, b, c := m.r0, m.r1, m.r2;
      Det3(m) == a.x * (b.y * c.z - b.z * c.y) + a.y * (b.z * c.x - b.x * c.z) + a.z * (b.x * c.y - b.y * c.x)
  {
    var a, b, c, x := m.r0, m.r1, m.r2, Cross(m.r1, m.r2);
    MulEq(a.x, a.x, x.x, b.y * c.z - b.z * c.y);
    MulEq(a.y, a.y, x.y, b.z * c.x - b.x * c.z);
    MulEq(a.z, a.z, x.z, b.x * c.y - b.y * c.x);
  }

  /** The cofactor expansion over vectors, with the cofactors p, the product
      q = M·v and the determinant d of M with rows a, b, c given by formula. */
  lemma CofactorDotNamed(a: Vec3, b: Vec3, c: Vec3, v: Vec3, p: Vec3, q: Vec3, d: real)
    requires p == Vec3(b.y * c.z - b.z * c.y, c.y * a.z - c.z * a.y, a.y * b.z - a.z * b.y)
    requires q == Vec3(a.x * v.x + a.y * v.y + a.z * v.z, b.x * v.x + b.y * v.y + b.z * v.z,
                       c.x * v.x + c.y * v.y + c.z * v.z)
    requires d == a.x * (b.y * c.z - b.z * c.y) + a.y * (b.z * c.x - b.x * c.z) + a.z * (b.x * c.y - b.y * c.x)
    ensures Dot(p, q) == Scale(d, v).x
  {
    CofactorRowNamed(a.x, a.y, a.z, b.x, b.y, b.z, c.x, c.y, c.z, v.x, v.y, v.z,
                     p.x, p.y, p.z, q.x, q.y, q.z, d);
  }

  lemma FirstCofactorsExpanded(m: Mat3)
    ensures var a, b, c := m.r0, m.r1, m.r2;
      Vec3(Cross(b, c).x, Cross(c, a).x, Cross(a, b).x)
      == Vec3(b.y * c.z - b.z * c.y, c.y * a.z - c.z * a.y, a.y * b.z - a.z * b.y)
  {
  }

  lemma MulMVExpanded(m: Mat3, v: Vec3)
    ensures var a, b, c := m.r0, m.r1, m.r2;
      MulMV(m, v) == Vec3(a.x * v.x + a.y * v.y + a.z * v.z, b.x * v.x + b.y * v.y + b.z * v.z,
                          c.x * v.x + c.y * v.y + c.z * v.z)
  {
  }

  /** The first row of adj(M) dotted with M·v is det(M) times the first
      coordinate of v. */
  lemma CofactorDot(m: Mat3, v: Vec3)
    ensures Dot(Vec3(Cross(m.r1, m.r2).x, Cross(m.r2, m.r0).x, Cross(m.r0, m.r1).x), MulMV(m, v))
         == Scale(Det3(m), v).x
  {
    var a, b, c := m.r0, m.r1, m.r2;
    var p := Vec3(b.y * c.z - b.z * c.y, c.y * a.z - c.z * a.y, a.y * b.z - a.z * b.y);
    var q := Vec3(a.x * v.x + a.y * v.y + a.z * v.z, b.x * v.x + b.y * v.y + b.z * v.z,
                  c.x * v.x + c.y * v.y + c.z * v.z);
    var d := a.x * (b.y * c.z - b.z * c.y) + a.y * (b.z * c.x - b.x * c.z) + a.z * (b.x * c.y - b.y * c.x);
    CofactorDotNamed(a, b, c, v, p, q, d);
    FirstCofactorsExpanded(m);
    MulMVExpanded(m, v);
    DetExpanded(m);
  }

  /** Rotates the coordinates of a vector: (x, y, z) becomes (y, z, x). */
  function Rotate(a: Vec3): Vec3 { Vec3(a.y, a.z, a.x) }

  lemma DotRotate(a: Vec3, b: Vec3)
    ensures Dot(Rotate(a), Rotate(b)) == Dot(a, b)
  {
  }

  lemma CrossRotate(a: Vec3, b: Vec3)
    ensures Cross(Rotate(a), Rotate(b)) == Rotate(Cross(a, b))
  {
  }

  lemma ScaleRotate(k: real, a: Vec3)
    ensures Scale(k, Rotate(a)) == Rotate(Scale(k, a))
  {
  }

  /** Rotating the coordinates of every row leaves M·v (with v rotated too)
      and the determinant unchanged. */
  lemma RotateRows(m: Mat3, v: Vec3)
    ensures MulMV(Mat3(Rotate(m.r0), Rotate(m.r1), Rotate(m.r2)), Rotate(v)) == MulMV(m, v)
    ensures Det3(Mat3(Rotate(m.r0), Rotate(m.r1), Rotate(m.r2))) == Det3(m)
  {
    DotRotate(m.r0, v);
    DotRotate(m.r1, v);
    DotRotate(m.r2, v);
    CrossRotate(m.r1, m.r2);
    DotRotate(m.r0, Cross(m.r1, m.r2));
  }

  /** adj(M)·(M·v) = det(M)·v: each coordinate is the cofactor expansion with
      the coordinates rotated so that it comes first. */
  lemma AdjAfter(m: Mat3, v: Vec3)
    ensures MulMV(Adj3(m), MulMV(m, v)) == Scale(Det3(m), v)
  {
    var a, b, c := m.r0, m.r1, m.r2;
    var m1 := Mat3(Rotate(a), Rotate(b), Rotate(c));
    var m2 := Mat3(Rotate(m1.r0), Rotate(m1.r1), Rotate(m1.r2));
    RotateRows(m, v);
    RotateRows(m1, Rotate(v));
    CrossRotate(b, c);
    CrossRotate(c, a);
    CrossRotate(a, b);
    CrossRotate(m1.r1, m1.r2);
    CrossRotate(m1.r2, m1.r0);
    CrossRotate(m1.r0, m1.r1);
    ScaleRotate(Det3(m), v);
    ScaleRotate(Det3(m), Rotate(v));
    CofactorDot(m, v);
    CofactorDot(m1, Rotate(v));
    CofactorDot(m2, Rotate(Rotate(v)));
  }

  /** Scaling by d and then by 1/d is the identity when d is not zero. */
  lemma ScaleCancel(d: real, v: Vec3)
    requires d != 0.0
    ensures Scale(1.0 / d, Scale(d, v)) == v
  {
    var k := 1.0 / d;
    assert k * d == 1.0;
    assert k * (d * v.x) == (k * d) * v.x;
    assert k * (d * v.y) == (k * d) * v.y;
    assert k * (d * v.z) == (k * d) * v.z;
  }

  lemma Inv3After(m: Mat3, v: Vec3)
    requires Det3(m) != 0.0
    ensures MulMV(Inv3(m), MulMV(m, v)) == v
  {
    MulMVScaleM(1.0 / Det3(m), Adj3(m), MulMV(m, v));
    AdjAfter(m, v);
    ScaleCancel(Det3(m), v);
  }

  datatype Vec4 = Vec4(a: real, b: real, c: real, d: real)

  const AffineBottom := Vec4(0.0, 0.0, 0.0, 1.0)

  /** A 4x4 matrix: its upper-left 3x3 block, the first three entries of its
      last column, and its bottom row. */
  datatype Mat4 = Mat4(block: Mat3, col: Vec3, bottom: Vec4)

  function At4(m: Mat4, i: nat, j: nat): real
    requires i < 4 && j < 4
  {
    if i == 3 then (if j == 0 then m.bottom.a else if j == 1 then m.bottom.b
                    else if j == 2 then m.bottom.c else m.bottom.d)
    else if j == 3 then Coord(m.col, i)
    else At(m.block, i, j)
  }

  /** The 4x4 matrix applied to the homogeneous point (p, 1), last coordinate
      dropped; the bottom row is ignored, which is exact for the affine
      matrices the pipeline builds (no division by the last coordinate). */
  function ApplyAffine(m: Mat4, p: Vec3): Vec3 { Add(MulMV(m.block, p), m.col) }

  /** `np.linalg.inv` on an affine matrix: [A, t; 0, 1] has the inverse
      [A⁻¹, -A⁻¹t; 0, 1] exactly when A is invertible. A matrix with any
      other bottom row is outside this model and yields `None`. */
  function Inverse4(m: Mat4): Option<Mat4> {
    if m.bottom == AffineBottom && Det3(m.block) != 0.0 then
      var ai := Inv3(m.block);
      Some(Mat4(ai, Scale(-1.0, MulMV(ai, m.col)), AffineBottom))
    else None
  }

  /** inv(M) composed with M is the identity on points. */
  lemma InverseAfter(m: Mat4, p: Vec3)
    requires Inverse4(m).Some?
    ensures ApplyAffine(Inverse4(m).value, ApplyAffine(m, p)) == p
  {
    var ai := Inv3(m.block);
    MulMVAdd(ai, MulMV(m.block, p), m.col);
    Inv3After(m.block, p);
  }

  function Sq(r: real): real { r * r }

  lemma SqNonNegative(r: real)
    ensures Sq(r) >= 0.0
  {
  }

  lemma SqPositive(r: real)
    requires r != 0.0
    ensures Sq(r) > 0.0
  {
    if r > 0.0 {
      calc {
        Sq(r);
      ==
        r * r;
      >
        0.0;
      }
    } else {
      calc {
        Sq(r);
      ==
        (-r) * (-r);
      >
        0.0;
      }
    }
  }

  /** Squared Euclidean distance, the quantity a k-d tree query minimises. */
  function SqDist(a: Vec3, b: Vec3): real
  {
    Sq(a.x - b.x) + Sq(a.y - b.y) + Sq(a.z - b.z)
  }

  /** A point is at distance zero from itself and only from itself. */
  lemma SqDistZeroIff(a: Vec3, b: Vec3)
    ensures SqDist(a, b) >= 0.0
    ensures SqDist(a, b) == 0.0 <==> a == b
  {
    SqNonNegative(a.x - b.x);
    SqNonNegative(a.y - b.y);
    SqNonNegative(a.z - b.z);
    if a.x != b.x {
      SqPositive(a.x - b.x);
    } else if a.y != b.y {
      SqPositive(a.y - b.y);
    } else if a.z != b.z {
      SqPositive(a.z - b.z);
    }
  }

  /** The row of `nodes` nearest to `q`: the first index of least squared distance. */
  function Nearest(nodes: seq<Vec3>, q: Vec3): (i: nat)
    requires |nodes| > 0
    ensures i < |nodes|
    ensures forall j :: 0 <= j < |nodes| ==> SqDist(nodes[i], q) <= SqDist(nodes[j], q)
    ensures forall j :: 0 <= j < i ==> SqDist(nodes[i], q) < SqDist(nodes[j], q)
    decreases |nodes|
  {
    if |nodes| == 1 then 0
    else
      var last := |nodes| - 1;
      var k := Nearest(nodes[..last], q);
      if SqDist(nodes[last], q) < SqDist(nodes[k], q) then last else k
  }

  /** Queried at one of its own nodes, the nearest-neighbour lookup returns that
      node's row when the nodes are pairwise distinct. */
  lemma NearestAtNode(nodes: seq<Vec3>, i: nat)
    requires i < |nodes|
    requires forall j, k :: 0 <= j < |nodes| && 0 <= k < |nodes| && j != k ==> nodes[j] != nodes[k]
    ensures Nearest(nodes, nodes[i]) == i
  {
    var n := Nearest(nodes, nodes[i]);
    if n != i {
      SqDistZeroIff(nodes[n], nodes[i]);
      assert false;
    }
  }
}
