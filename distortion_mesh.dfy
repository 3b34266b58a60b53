/**
 * Conversion of a Cardboard SDK distortion mesh (a triangle strip over a
 * vertex grid with UVs) into the engine's distortion mesh: per-vertex records
 * with a flipped Y, one UV copied into the three colour channels, a vignette
 * factor and a zero time-warp factor, and a triangle list of 16-bit indices.
 */
module DistortionMesh {
  import opened CardboardMath

  /** FVector2D. */
  datatype Vec2 = Vec2(X: real, Y: real)

  /** FDistortionVertex. */
  datatype DistortionVertex = DistortionVertex(
    Position: Vec2,
    TexR: Vec2,
    TexG: Vec2,
    TexB: Vec2,
    VignetteFactor: real,
    TimewarpFactor: real)

  /** The SDK's CardboardMesh: `indices` is a triangle strip of `n_indices`
      entries, `vertices` and `uvs` hold `n_vertices` (x, y) pairs each. */
  datatype CardboardMesh = CardboardMesh(
    indices: seq<int>,
    n_indices: int,
    vertices: seq<real>,
    n_vertices: int,
    uvs: seq<real>)

  /** FDistorsionMesh: vertices and a triangle list of uint16 indices. */
  datatype DistorsionMesh = DistorsionMesh(Vertices: seq<DistortionVertex>, Indices: seq<int>)

  const EmptyMesh := DistorsionMesh([], [])

  /** The buffers hold as many entries as the counts announce, and the vertex
      count is not negative (SetNumUninitialized checks that). A strip count
      below 2 is allowed: it yields no triangle. */
  predicate WellFormed(m: CardboardMesh)
  {
    0 <= m.n_vertices &&
    2 * m.n_vertices <= |m.vertices| &&
    2 * m.n_vertices <= |m.uvs| &&
    m.n_indices <= |m.indices|
  }

  /** The implicit int to uint16 conversion when an index is added to the list. */
  function U16(x: int): (r: int)
    ensures 0 <= r < 65536
    ensures 0 <= x < 65536 ==> r == x
  {
    x % 65536
  }

  /** One of the four factors of the vignette: the distance to an edge of the
      UV square, scaled by the hardness and clamped to [0, 1]. */
  function EdgeFactor(t: real, hardness: real): (r: real)
    ensures 0.0 <= r <= 1.0
    ensures t == 0.0 ==> r == 0.0
  {
    Clamp(t * hardness, 0.0, 1.0)
  }

  /** The vignette of a vertex with texture coordinates (u, v). */
  function Vignette(u: real, v: real, hardness: real): (r: real)
    ensures 0.0 <= r <= 1.0
    ensures u == 0.0 || u == 1.0 || v == 0.0 || v == 1.0 ==> r == 0.0
  {
    var a := EdgeFactor(u, hardness);
    var b := EdgeFactor(1.0 - u, hardness);
    var c := EdgeFactor(v, hardness);
    var d := EdgeFactor(1.0 - v, hardness);
    UnitProduct(a, b);
    UnitProduct(a * b, c);
    UnitProduct(a * b * c, d);
    a * b * c * d
  }

  lemma UnitProduct(a: real, b: real)
    requires 0.0 <= a <= 1.0 && 0.0 <= b <= 1.0
    ensures 0.0 <= a * b <= b && a * b <= a
  {
    assert a * b <= 1.0 * b;
    assert a * b <= a * 1.0;
  }

  /** At the centre of the UV square the vignette is fully open exactly when
      the hardness is at least 2 (each factor is then min(hardness / 2, 1)). */
  lemma VignetteAtCentre(hardness: real)
    ensures Vignette(0.5, 0.5, hardness) == 1.0 <==> hardness >= 2.0
  {
    var c := EdgeFactor(0.5, hardness);
    assert EdgeFactor(1.0 - 0.5, hardness) == c;
    assert Vignette(0.5, 0.5, hardness) == c * c * c * c;
    if hardness < 2.0 {
      assert c < 1.0;
      UnitProduct(c, c);
      UnitProduct(c * c, c);
      UnitProduct(c * c * c, c);
      assert c * c * c * c <= c;
    } else {
      assert c == 1.0;
    }
  }

  /** The texture coordinates of vertex i; Metal flips v. */
  function UV(m: CardboardMesh, i: int, metal: bool): Vec2
    requires WellFormed(m) && 0 <= i < m.n_vertices
  {
    var v := m.uvs[2 * i + 1];
    Vec2(m.uvs[2 * i], if metal then 1.0 - v else v)
  }

  /** Vertex i of the converted mesh. */
  function VertexOf(m: CardboardMesh, i: int, vignetteEnabled: bool, hardness: real, metal: bool): DistortionVertex
    requires WellFormed(m) && 0 <= i < m.n_vertices
  {
    var y := -m.vertices[2 * i + 1];
    var uv := UV(m, i, metal);
    DistortionVertex(
      Vec2(m.vertices[2 * i], if metal then -y else y),
      uv, uv, uv,
      if vignetteEnabled then Vignette(uv.X, uv.Y, hardness) else 1.0,
      0.0)
  }

  /** The three indices of triangle k of a triangle list. */
  function Triangle(list: seq<int>, k: int): seq<int>
    requires 0 <= k && 3 * k + 3 <= |list|
  {
    list[3 * k .. 3 * k + 3]
  }

  /** The triangles of the first k strip positions: one triangle
      (s[j], s[j+1], s[j+2]) for every j < k, each index truncated to 16 bits;
      entry i of the list is corner i % 3 of triangle i / 3. */
  function TrianglesUpTo(s: seq<int>, k: int): (r: seq<int>)
    requires 0 <= k && (k == 0 || k + 2 <= |s|)
    ensures |r| == 3 * k
    ensures forall i :: 0 <= i < |r| ==> r[i] == U16(s[i / 3 + i % 3])
    decreases k
  {
    if k == 0 then []
    else
      var p := TrianglesUpTo(s, k - 1);
      p + [U16(s[k - 1]), U16(s[k]), U16(s[k + 1])]
  }

  /** The triangle list of a whole strip: |s| - 2 triangles, none for a
      strip of fewer than three indices. */
  function StripToList(s: seq<int>): (r: seq<int>)
    ensures |r| == if |s| >= 2 then 3 * (|s| - 2) else 0
    ensures forall i :: 0 <= i < |r| ==> r[i] == U16(s[i / 3 + i % 3])
  {
    TrianglesUpTo(s, if |s| >= 2 then |s| - 2 else 0)
  }

  /** Triangle k of the list of a strip is (s[k], s[k+1], s[k+2]). */
  lemma StripTriangle(s: seq<int>, k: int)
    requires 0 <= k < |s| - 2
    ensures Triangle(StripToList(s), k) == [U16(s[k]), U16(s[k + 1]), U16(s[k + 2])]
  {
    var r := StripToList(s);
    assert r[3 * k] == U16(s[k]);
    assert r[3 * k + 1] == U16(s[k + 1]);
    assert r[3 * k + 2] == U16(s[k + 2]);
  }

  /** Neighbouring triangles of the list share an edge: the last two indices
      of triangle k are the first two of triangle k + 1. */
  lemma StripTrianglesShareEdge(s: seq<int>, k: int)
    requires 0 <= k && k + 1 < |s| - 2
    ensures Triangle(StripToList(s), k)[1..] == Triangle(StripToList(s), k + 1)[..2]
  {
    StripTriangle(s, k);
    StripTriangle(s, k + 1);
  }

  /** When every strip index names a vertex and fits in 16 bits, every entry
      of the list is one of the strip's indices, so it names a vertex too. */
  lemma StripToListInRange(s: seq<int>, nVertices: int)
    requires nVertices <= 65536
    requires forall j :: 0 <= j < |s| ==> 0 <= s[j] < nVertices
    ensures forall i :: 0 <= i < |StripToList(s)| ==> StripToList(s)[i] in s
  {
    var r := StripToList(s);
    forall i | 0 <= i < |r|
      ensures r[i] in s
    {
      var j := i / 3 + i % 3;
      assert r[i] == U16(s[j]) == s[j];
    }
  }

  /** The strip the conversion reads: the first n_indices entries, none when
      the count is negative. */
  function Strip(m: CardboardMesh): (s: seq<int>)
    requires WellFormed(m)
    ensures |s| == if m.n_indices < 0 then 0 else m.n_indices
  {
    if m.n_indices < 0 then [] else m.indices[..m.n_indices]
  }

  /** out is the engine mesh converted from m: one record per SDK vertex and
      the triangle list of the strip. */
  ghost predicate IsConversionOf(out: DistorsionMesh, m: CardboardMesh, vignetteEnabled: bool, hardness: real, metal: bool)
    requires WellFormed(m)
  {
    |out.Vertices| == m.n_vertices &&
    (forall i :: 0 <= i < m.n_vertices ==> out.Vertices[i] == VertexOf(m, i, vignetteEnabled, hardness, metal)) &&
    out.Indices == StripToList(Strip(m))
  }

  /** ConvertCardboardMeshToUnrealDistorsionMesh: the vertex array, then
      the triangle list. */
  method ConvertCardboardMeshToUnrealDistorsionMesh(
    m: CardboardMesh, vignetteEnabled: bool, hardness: real, metal: bool)
    returns (out: DistorsionMesh)
    requires WellFormed(m)
    ensures |out.Vertices| == m.n_vertices
    ensures forall i :: 0 <= i < m.n_vertices ==>
      out.Vertices[i] == VertexOf(m, i, vignetteEnabled, hardness, metal)
    ensures out.Indices == StripToList(Strip(m))
    ensures IsConversionOf(out, m, vignetteEnabled, hardness, metal)
  {
    var vertices := ConvertVertices(m, vignetteEnabled, hardness, metal);
    var indices := ConvertIndices(m);
    out := DistorsionMesh(vertices, indices);
  }

  /** The vertex loop: SetNumUninitialized(n_vertices), then each entry is
      written from the SDK's position and UV pairs. */
  method ConvertVertices(m: CardboardMesh, vignetteEnabled: bool, hardness: real, metal: bool)
    returns (out: seq<DistortionVertex>)
    requires WellFormed(m)
    ensures |out| == m.n_vertices
    ensures forall i :: 0 <= i < m.n_vertices ==>
      out[i] == VertexOf(m, i, vignetteEnabled, hardness, metal)
    ensures forall i :: 0 <= i < m.n_vertices ==>
      out[i].Position.X == m.vertices[2 * i] &&
      out[i].Position.Y == (if metal then m.vertices[2 * i + 1] else -m.vertices[2 * i + 1]) &&
      out[i].TexR == out[i].TexG == out[i].TexB == UV(m, i, metal) &&
      out[i].TimewarpFactor == 0.0 &&
      (vignetteEnabled ==> 0.0 <= out[i].VignetteFactor <= 1.0) &&
      (!vignetteEnabled ==> out[i].VignetteFactor == 1.0)
  {
    var n := m.n_vertices;
    var init := DistortionVertex(Vec2(0.0, 0.0), Vec2(0.0, 0.0), Vec2(0.0, 0.0), Vec2(0.0, 0.0), 0.0, 0.0);
    var vertices := new DistortionVertex[n](_ => init);
    var i := 0;
    while i < n
      invariant 0 <= i <= n
      invariant forall j :: 0 <= j < i ==> vertices[j] == VertexOf(m, j, vignetteEnabled, hardness, metal)
    {
      var x := m.vertices[i * 2];
      var y := -m.vertices[i * 2 + 1];
      if metal {
        y := -y;
      }
      var u := m.uvs[i * 2];
      var v := m.uvs[i * 2 + 1];
      if metal {
        v := 1.0 - v;
      }
      var vignette := Vignette(u, v, hardness);
      vertices[i] := DistortionVertex(
        Vec2(x, y), Vec2(u, v), Vec2(u, v), Vec2(u, v),
        if vignetteEnabled then vignette else 1.0,
        0.0);
      i := i + 1;
    }
    out := vertices[..];
  }

  /** The index loop: Empty(), then for every strip position k the indices
      k, k + 1 and k + 2 are added. */
  method ConvertIndices(m: CardboardMesh) returns (indices: seq<int>)
    requires WellFormed(m)
    ensures |indices| == if m.n_indices >= 2 then 3 * (m.n_indices - 2) else 0
    ensures forall i :: 0 <= i < |indices| ==> indices[i] == U16(m.indices[i / 3 + i % 3])
    ensures indices == StripToList(Strip(m))
  {
    indices := [];
    ghost var s := Strip(m);
    var k := 0;
    while k < m.n_indices - 2
      invariant 0 <= k && (k == 0 || k + 2 <= |s|)
      invariant indices == TrianglesUpTo(s, k)
    {
      indices := indices + [U16(m.indices[k]), U16(m.indices[k + 1]), U16(m.indices[k + 2])];
      k := k + 1;
    }
  }
}
