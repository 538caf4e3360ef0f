/** The millitome conversion: the vertices of an ovary mesh carry the colour
    of the block they belong to; the blocks are found by grouping the
    vertices by colour, in the order the colours first appear, and are
    numbered "1", "2", … in that order. Loading the volume and exporting the
    scene are not modelled; a block is represented by the mask of faces
    that make it up. */
module Millitome {
  import opened Wrappers
  import opened Geometry
  import opened Paths

  /** The output path must name a `.glb` file. */
  function CheckOutput(path: string): (r: Result<(), Error>)
    ensures r.Ok? <==> Suffix(path) == ".glb"
    ensures r.Err? ==> r.error.ValueError?
  {
    if Suffix(path) != ".glb" then
      Err(ValueError("Please include the filename with the .glb extension as part of the path you provide"))
    else Ok(())
  }

  /** Position `k` holds a colour that does not occur before it. */
  predicate IsFirst<C(==)>(colors: seq<C>, k: nat)
  {
    k < |colors| && colors[k] !in colors[..k]
  }

  /** The positions below `n` where a colour appears for the first time,
      ascending. */
  function FirstsBelow<C(==)>(colors: seq<C>, n: nat): (r: seq<nat>)
    requires n <= |colors|
    ensures forall j :: 0 <= j < |r| ==> r[j] < n
    ensures forall i, j :: 0 <= i < j < |r| ==> r[i] < r[j]
    ensures forall j :: 0 <= j < |r| ==> IsFirst(colors, r[j])
    ensures forall k :: 0 <= k < n && IsFirst(colors, k) ==> k in r
  {
    if n == 0 then []
    else if !IsFirst(colors, n - 1) then FirstsBelow(colors, n - 1)
    else FirstsBelow(colors, n - 1) + [n - 1]
  }

  /** The indices `np.unique(colors, return_index=True)` reports, sorted:
      the index of each colour's first appearance, ascending. */
  function FirstAppearances<C(==)>(colors: seq<C>): (r: seq<nat>)
  {
    FirstsBelow(colors, |colors|)
  }

  /** `block_colors`: the distinct colours in order of first appearance. */
  function BlockColors<C(==)>(colors: seq<C>): (r: seq<C>)
  {
    var firsts := FirstAppearances(colors);
    seq(|firsts|, j requires 0 <= j < |firsts| => colors[firsts[j]])
  }

  /** The index of the first appearance of a colour that appears. */
  function FirstIndex<C(==)>(colors: seq<C>, c: C): (k: nat)
    requires c in colors
    ensures k < |colors| && colors[k] == c && c !in colors[..k]
  {
    if colors[0] == c then 0
    else
      assert c in colors[1..] by { var i :| 0 <= i < |colors| && colors[i] == c; assert colors[1..][i - 1] == c; }
      var k := 1 + FirstIndex(colors[1..], c);
      assert colors[..k] == [colors[0]] + colors[1..][..k - 1];
      k
  }

  /** Each colour of the mesh is a block colour, and each block colour is
      listed once, in the order the colours first appear. */
  lemma BlockColorsDistinctAndOrdered<C>(colors: seq<C>)
    ensures var bc := BlockColors(colors);
            && (forall c :: c in colors <==> c in bc)
            && (forall i, j :: 0 <= i < j < |bc| ==> bc[i] != bc[j])
            && (forall i, j :: 0 <= i < j < |bc| ==> FirstIndex(colors, bc[i]) < FirstIndex(colors, bc[j]))
  {
    var bc := BlockColors(colors);
    var firsts := FirstAppearances(colors);
    forall j | 0 <= j < |bc|
      ensures bc[j] in colors && FirstIndex(colors, bc[j]) == firsts[j]
    {
      FirstIndexUnique(colors, firsts[j]);
    }
    forall c | c in colors
      ensures c in bc
    {
      var k := FirstIndex(colors, c);
      assert IsFirst(colors, k);
      assert k in firsts;
      var j :| 0 <= j < |firsts| && firsts[j] == k;
      assert bc[j] == c;
    }
  }

  /** A position whose colour has not appeared before is that colour's
      first appearance. */
  lemma FirstIndexUnique<C>(colors: seq<C>, k: nat)
    requires IsFirst(colors, k)
    ensures FirstIndex(colors, colors[k]) == k
  {
  }

  /** The ascending indices below `n` of the vertices of colour `c`. */
  function IndicesBelow<C(==)>(colors: seq<C>, c: C, n: nat): (r: seq<nat>)
    requires n <= |colors|
    ensures forall j :: 0 <= j < |r| ==> r[j] < n && colors[r[j]] == c
    ensures forall i, j :: 0 <= i < j < |r| ==> r[i] < r[j]
    ensures forall k :: 0 <= k < n && colors[k] == c ==> k in r
  {
    if n == 0 then []
    else if colors[n - 1] == c then IndicesBelow(colors, c, n - 1) + [n - 1]
    else IndicesBelow(colors, c, n - 1)
  }

  /** `np.flatnonzero(np.all(colors == c, axis=1))`: the ascending indices
      of the vertices of colour `c`. */
  function IndicesOf<C(==)>(colors: seq<C>, c: C): (r: seq<nat>)
  {
    IndicesBelow(colors, c, |colors|)
  }

  /** `block_indices`: one index list per block colour. */
  function BlockIndices<C(==)>(colors: seq<C>): (r: seq<seq<nat>>)
    ensures |r| == |BlockColors(colors)|
  {
    var bc := BlockColors(colors);
    seq(|bc|, j requires 0 <= j < |bc| => IndicesOf(colors, bc[j]))
  }

  /** The index lists partition the vertices: every vertex is in the list
      of exactly one block, the one of its colour. */
  lemma {:induction false} BlockIndicesPartition<C>(colors: seq<C>, k: nat)
    requires k < |colors|
    ensures var bc, bi := BlockColors(colors), BlockIndices(colors);
            && (exists j :: 0 <= j < |bi| && k in bi[j])
            && (forall j :: 0 <= j < |bi| && k in bi[j] ==> bc[j] == colors[k])
            && (forall i, j :: 0 <= i < |bi| && 0 <= j < |bi| && k in bi[i] && k in bi[j] ==> i == j)
  {
    var bc, bi := BlockColors(colors), BlockIndices(colors);
    BlockColorsDistinctAndOrdered(colors);
    assert colors[k] in colors;
    var j :| 0 <= j < |bc| && bc[j] == colors[k];
    assert k in bi[j];
    forall i | 0 <= i < |bi| && k in bi[i]
      ensures bc[i] == colors[k]
    {
      var p :| 0 <= p < |bi[i]| && bi[i][p] == k;
    }
  }

  /** `np.any(np.isin(faces, indices), axis=1)`: a face belongs to a block
      when any of its corners does. */
  predicate Touches(f: Face, indices: seq<nat>)
  {
    f.a in indices || f.b in indices || f.c in indices
  }

  /** `block_faces`: the face mask of each block. */
  function BlockFaces(faces: seq<Face>, blockIndices: seq<seq<nat>>): (r: seq<seq<bool>>)
    ensures |r| == |blockIndices|
    ensures forall j :: 0 <= j < |r| ==> |r[j]| == |faces|
    ensures forall j, i :: 0 <= j < |r| && 0 <= i < |faces| ==> (r[j][i] <==> Touches(faces[i], blockIndices[j]))
  {
    seq(|blockIndices|, j requires 0 <= j < |blockIndices| =>
      seq(|faces|, i requires 0 <= i < |faces| => Touches(faces[i], blockIndices[j])))
  }

  /** Every face whose corners are vertices of the mesh belongs to the block
      of each of its corners' colours, so to at least one block; a face
      whose corners differ in colour belongs to more than one. */
  lemma FacesCovered<C>(colors: seq<C>, faces: seq<Face>, i: nat)
    requires i < |faces| && faces[i].a < |colors| && faces[i].b < |colors| && faces[i].c < |colors|
    ensures var masks := BlockFaces(faces, BlockIndices(colors));
            && (exists j :: 0 <= j < |masks| && masks[j][i])
            && (colors[faces[i].a] != colors[faces[i].b] ==>
                  exists j1, j2 :: 0 <= j1 < |masks| && 0 <= j2 < |masks| && j1 != j2 && masks[j1][i] && masks[j2][i])
  {
    var bc, bi := BlockColors(colors), BlockIndices(colors);
    var masks := BlockFaces(faces, bi);
    var f := faces[i];
    BlockIndicesPartition(colors, f.a);
    var ja :| 0 <= ja < |bi| && f.a in bi[ja];
    assert masks[ja][i];
    if colors[f.a] != colors[f.b] {
      BlockIndicesPartition(colors, f.b);
      var jb :| 0 <= jb < |bi| && f.b in bi[jb];
      assert bc[ja] == colors[f.a] && bc[jb] == colors[f.b];
      assert masks[jb][i];
    }
  }

  /** The digit character of `d`. */
  function Digit(d: nat): char
    requires d < 10
  {
    "0123456789"[d]
  }

  /** `str(n)`: the decimal digits of `n`, without leading zeros. */
  function NatToString(n: nat): (s: string)
    ensures |s| >= 1
    ensures n < 10 <==> |s| == 1
    decreases n
  {
    if n < 10 then [Digit(n)] else NatToString(n / 10) + [Digit(n % 10)]
  }

  /** Different numbers have different decimal names. */
  lemma {:induction false} NatToStringInjective(n: nat, m: nat)
    requires NatToString(n) == NatToString(m)
    ensures n == m
    decreases n
  {
    var s := NatToString(n);
    if n < 10 || m < 10 {
      assert n < 10 && m < 10;
      assert "0123456789"[n] == "0123456789"[m];
    } else {
      assert s[|s| - 1] == Digit(n % 10) == Digit(m % 10);
      assert "0123456789"[n % 10] == "0123456789"[m % 10];
      assert NatToString(n / 10) == s[..|s| - 1] == NatToString(m / 10);
      NatToStringInjective(n / 10, m / 10);
    }
  }

  /** The scene the blocks are added to: geometry by name, and the names in
      the order they were added. */
  class Scene {
    var geometry: map<string, seq<bool>>
    var names: seq<string>

    constructor ()
      ensures geometry == map[] && names == []
    {
      geometry := map[];
      names := [];
    }

    /** `add_geometry(block, geom_name=name, node_name=name)`. */
    method AddGeometry(name: string, block: seq<bool>)
      modifies this
      ensures geometry == old(geometry)[name := block]
      ensures names == old(names) + [name]
    {
      geometry := geometry[name := block];
      names := names + [name];
    }
  }

  /** The names of the first `n` blocks: "1" to `str(n)`. */
  function BlockNames(n: nat): (r: seq<string>)
    ensures |r| == n
  {
    seq(n, k requires 0 <= k < n => NatToString(k + 1))
  }

  /** The numbered blocks get pairwise different names. */
  lemma BlockNamesDistinct(n: nat)
    ensures forall i, j :: 0 <= i < j < n ==> BlockNames(n)[i] != BlockNames(n)[j]
  {
    forall i, j | 0 <= i < j < n
      ensures BlockNames(n)[i] != BlockNames(n)[j]
    {
      if BlockNames(n)[i] == BlockNames(n)[j] {
        NatToStringInjective(i + 1, j + 1);
      }
    }
  }

  /** The name of the next block is not among those given so far. */
  lemma NextNameFresh(k: nat)
    ensures NatToString(k + 1) !in BlockNames(k)
    ensures BlockNames(k) + [NatToString(k + 1)] == BlockNames(k + 1)
  {
    BlockNamesDistinct(k + 1);
    assert BlockNames(k + 1)[k] == NatToString(k + 1);
    assert forall j :: 0 <= j < k ==> BlockNames(k)[j] == BlockNames(k + 1)[j];
  }

  /** Adds the blocks to a fresh scene, numbered from "1" in order. */
  method NameBlocks(masks: seq<seq<bool>>) returns (scene: Scene)
    ensures fresh(scene)
    ensures scene.names == BlockNames(|masks|)
    ensures forall name :: name in scene.geometry <==> name in scene.names
    ensures forall k :: 0 <= k < |masks| ==> scene.geometry[scene.names[k]] == masks[k]
  {
    scene := new Scene();
    var k := 0;
    while k < |masks|
      invariant 0 <= k <= |masks|
      invariant scene.names == BlockNames(k)
      invariant forall name :: name in scene.geometry <==> name in scene.names
      invariant forall j :: 0 <= j < k ==> scene.geometry[scene.names[j]] == masks[j]
    {
      var name := NatToString(k + 1);
      NextNameFresh(k);
      scene.AddGeometry(name, masks[k]);
      k := k + 1;
    }
  }

  /** The script after loading: check the output path, group the vertices
      by colour, find each block's faces and add the blocks to a new scene
      as "1", "2", … in order of their colours' first appearance. */
  method Convert<C(==)>(path: string, colors: seq<C>, faces: seq<Face>) returns (r: Result<Scene, Error>)
    ensures r.Ok? <==> Suffix(path) == ".glb"
    ensures r.Err? ==> r.error == CheckOutput(path).error
    ensures r.Ok? ==>
              var masks := BlockFaces(faces, BlockIndices(colors));
              && fresh(r.value)
              && r.value.names == BlockNames(|masks|)
              && (forall name :: name in r.value.geometry <==> name in r.value.names)
              && forall k :: 0 <= k < |masks| ==> r.value.geometry[r.value.names[k]] == masks[k]
  {
    var check := CheckOutput(path);
    if check.Err? {
      return Err(check.error);
    }
    var scene := NameBlocks(BlockFaces(faces, BlockIndices(colors)));
    r := Ok(scene);
  }
}
