/** The three geometry representations the pipeline passes around — a numpy
    array of points, an open3d `PointCloud` and a trimesh `Trimesh` — and the
    point-wise maps applied to them. */
module Geometry {
  import opened Linalg

  /** A triangle of a mesh, as three vertex indices. */
  datatype Face = Face(a: nat, b: nat, c: nat)

  /** An open3d point cloud. Its `transform` rewrites `points` in place. */
  class PointCloud {
    var points: seq<Vec3>

    constructor (points: seq<Vec3>)
      ensures this.points == points
    {
      this.points := points;
    }
  }

  /** A trimesh mesh. `apply_transform` rewrites `vertices` in place; the
      faces and the `process` flag are fixed when the mesh is built. The
      vertices are kept as given: the merging of duplicate vertices that
      `process=True` performs, and the reversal of face winding under a
      reflection, are not part of this model. */
  class Mesh {
    var vertices: seq<Vec3>
    const faces: seq<Face>
    const process: bool

    constructor (vertices: seq<Vec3>, faces: seq<Face>, process: bool)
      ensures this.vertices == vertices && this.faces == faces && this.process == process
    {
      this.vertices := vertices;
      this.faces := faces;
      this.process := process;
    }
  }

  /** A value the pipeline accepts where it expects a geometry. */
  datatype Geometry = Array(points: seq<Vec3>) | Cloud(cloud: PointCloud) | Surface(mesh: Mesh)

  /** Which of the three representations a geometry is; a mesh carries its faces. */
  datatype Kind = ArrayKind | CloudKind | MeshKind(faces: seq<Face>)

  function KindOf(g: Geometry): Kind
  {
    match g
    case Array(_) => ArrayKind
    case Cloud(_) => CloudKind
    case Surface(m) => MeshKind(m.faces)
  }

  /** The heap objects a geometry is made of. */
  function Objects(g: Geometry): set<object>
  {
    match g
    case Array(_) => {}
    case Cloud(c) => {c}
    case Surface(m) => {m}
  }

  /** `p ↦ p + v` on every point. */
  function Shifted(pts: seq<Vec3>, v: Vec3): (r: seq<Vec3>)
    ensures |r| == |pts|
    ensures forall i :: 0 <= i < |pts| ==> r[i] == Add(pts[i], v)
  {
    seq(|pts|, i requires 0 <= i < |pts| => Add(pts[i], v))
  }

  /** `p ↦ p - v` on every point. */
  function Centered(pts: seq<Vec3>, v: Vec3): (r: seq<Vec3>)
    ensures |r| == |pts|
    ensures forall i :: 0 <= i < |pts| ==> r[i] == Sub(pts[i], v)
  {
    seq(|pts|, i requires 0 <= i < |pts| => Sub(pts[i], v))
  }

  /** `p ↦ k·p` on every point. */
  function Scaled(k: real, pts: seq<Vec3>): (r: seq<Vec3>)
    ensures |r| == |pts|
    ensures forall i :: 0 <= i < |pts| ==> r[i] == Scale(k, pts[i])
  {
    seq(|pts|, i requires 0 <= i < |pts| => Scale(k, pts[i]))
  }

  /** A 4x4 transform applied to every point. */
  function MapAffine(m: Mat4, pts: seq<Vec3>): (r: seq<Vec3>)
    ensures |r| == |pts|
    ensures forall i :: 0 <= i < |pts| ==> r[i] == ApplyAffine(m, pts[i])
  {
    seq(|pts|, i requires 0 <= i < |pts| => ApplyAffine(m, pts[i]))
  }

  lemma MapAffineSingle(m: Mat4, x: Vec3)
    ensures MapAffine(m, [x]) == [ApplyAffine(m, x)]
  {
    var q := MapAffine(m, [x]);
    assert |q| == 1 && q[0] == ApplyAffine(m, x);
  }

  /** Shifting by `v` and centring on `v` undo each other. */
  lemma CenteredShifted(pts: seq<Vec3>, v: Vec3)
    ensures Shifted(Centered(pts, v), v) == pts
    ensures Centered(Shifted(pts, v), v) == pts
  {
  }

  /** Applying an affine and then its inverse gives back every point. */
  lemma MapAffineInverse(m: Mat4, pts: seq<Vec3>)
    requires Inverse4(m).Some?
    ensures MapAffine(Inverse4(m).value, MapAffine(m, pts)) == pts
  {
    forall i | 0 <= i < |pts|
      ensures MapAffine(Inverse4(m).value, MapAffine(m, pts))[i] == pts[i]
    {
      InverseAfter(m, pts[i]);
    }
  }
}
