/**
 * The batched mesh built once at start-up: for the i-th rectangle, four
 * vertices from a four-corner template and six `u16` indices (two triangles)
 * offset by `4 * i`, all rectangles in one vertex list and one index list.
 */
module MeshBuilder {
  import opened Ints

  /** A rectangle descriptor (centre, half width, half height); `f32` in the program. */
  datatype Rect = Rect(cx: real, cy: real, hw: real, hh: real)

  /**
   * A vertex, kept abstract: the template corner `corner` (0..3) placed over
   * rectangle number `rect`. Its `f32` position is a function of the two.
   */
  datatype Vertex = Vertex(rect: nat, corner: nat)

  /** The geometry handed to the GPU: both buffers and the count used by the draw call. */
  datatype Mesh = Mesh(vertices: seq<Vertex>, indices: seq<u16>, indexCount: u32)

  /** Corners of the quad template `base`. */
  const CORNERS: nat := 4

  /** `base_idx`: two counter-clockwise triangles over the four template corners. */
  const BASE_IDX: seq<u16> := [0, 1, 2, 0, 2, 3]

  /** The five compiled-in rectangles. */
  const DEMO_RECTS: seq<Rect> := [
    Rect(-0.6, -0.4, 0.18, 0.18),
    Rect(-0.1, -0.2, 0.12, 0.22),
    Rect(0.5, -0.3, 0.25, 0.10),
    Rect(-0.2, 0.5, 0.15, 0.15),
    Rect(0.6, 0.5, 0.10, 0.20)
  ]

  /** `(i * 4) as u16`: the index offset of rectangle `i`, truncated to 16 bits. */
  function Offset(i: nat): (off: u16)
    ensures off as int % 4 == 0 && off as int <= 0xFFFC
    ensures off as int <= 4 * i
    ensures 4 * i < 0x1_0000 ==> off as int == 4 * i
  {
    TruncateU16(4 * i)
  }

  /**
   * `base_idx[k] + off` for rectangle `i`. The `u16` addition never overflows:
   * the offset is a multiple of 4 below 0x1_0000 and `base_idx[k] <= 3`.
   */
  function IndexAt(i: nat, k: nat): (x: u16)
    requires k < 6
    ensures x as int <= 4 * i + 3
    ensures 4 * i < 0x1_0000 ==> x as int == 4 * i + BASE_IDX[k] as int
  {
    BASE_IDX[k] + Offset(i)
  }

  /** The four vertices emitted for rectangle `i`, in template order. */
  function QuadVertices(i: nat): seq<Vertex>
  {
    [Vertex(i, 0), Vertex(i, 1), Vertex(i, 2), Vertex(i, 3)]
  }

  /** The six indices emitted for rectangle `i`. */
  function QuadIndices(i: nat): seq<u16>
  {
    [IndexAt(i, 0), IndexAt(i, 1), IndexAt(i, 2), IndexAt(i, 3), IndexAt(i, 4), IndexAt(i, 5)]
  }

  /** The vertex list after the first `n` rectangles have been processed: four per rectangle. */
  function BatchVertices(n: nat): (r: seq<Vertex>)
    ensures |r| == 4 * n
  {
    if n == 0 then [] else BatchVertices(n - 1) + QuadVertices(n - 1)
  }

  /** The index list after the first `n` rectangles have been processed: six per rectangle. */
  function BatchIndices(n: nat): (r: seq<u16>)
    ensures |r| == 6 * n
  {
    if n == 0 then [] else BatchIndices(n - 1) + QuadIndices(n - 1)
  }

  /**
   * The mesh invariant: whole triangles, every index names an existing
   * vertex, and the draw count covers exactly the index list.
   */
  predicate WellFormed(m: Mesh)
  {
    && |m.indices| % 3 == 0
    && (forall j :: 0 <= j < |m.indices| ==> (m.indices[j] as int) < |m.vertices|)
    && m.indexCount as int == |m.indices|
  }

  /** The loop of `State::new` that fills `vertices` and `indices`, and `index_count`. */
  method BuildMesh(rects: seq<Rect>) returns (mesh: Mesh)
    ensures |mesh.vertices| == CORNERS * |rects| && |mesh.indices| == 6 * |rects|
    ensures mesh.indexCount == TruncateU32(|mesh.indices|)
    ensures mesh.vertices == BatchVertices(|rects|)
    ensures mesh.indices == BatchIndices(|rects|)
  {
    var vertices: seq<Vertex> := [];
    var indices: seq<u16> := [];
    for i := 0 to |rects|
      invariant vertices == BatchVertices(i)
      invariant indices == BatchIndices(i)
    {
      for c := 0 to CORNERS
        invariant vertices == BatchVertices(i) + QuadVertices(i)[..c]
      {
        vertices := vertices + [Vertex(i, c)];
      }
      var off := Offset(i);
      indices := indices + [BASE_IDX[0] + off, BASE_IDX[1] + off, BASE_IDX[2] + off,
                            BASE_IDX[3] + off, BASE_IDX[4] + off, BASE_IDX[5] + off];
    }
    mesh := Mesh(vertices, indices, TruncateU32(|indices|));
  }

  /** Vertex slot `j` holds corner `j % 4` of rectangle `j / 4`. */
  lemma {:induction false} BatchVertexAt(n: nat, j: nat)
    requires j < 4 * n
    ensures |BatchVertices(n)| == 4 * n
    ensures BatchVertices(n)[j] == Vertex(j / 4, j % 4)
  {
    if j < 4 * (n - 1) {
      BatchVertexAt(n - 1, j);
    } else {
      var c := j - 4 * (n - 1);
      assert j == 4 * (n - 1) + c && 0 <= c < 4;
      assert j / 4 == n - 1 && j % 4 == c;
    }
  }

  /** Index slot `j` holds entry `j % 6` of the index template of rectangle `j / 6`. */
  lemma {:induction false} BatchIndexAt(n: nat, j: nat)
    requires j < 6 * n
    ensures |BatchIndices(n)| == 6 * n
    ensures BatchIndices(n)[j] == IndexAt(j / 6, j % 6)
  {
    if j < 6 * (n - 1) {
      BatchIndexAt(n - 1, j);
    } else {
      var k := j - 6 * (n - 1);
      assert j == 6 * (n - 1) + k && 0 <= k < 6;
      assert j / 6 == n - 1 && j % 6 == k;
    }
  }

  /**
   * Every emitted index addresses one of the `4n` vertices. This holds for
   * every `n`: the truncating cast can only make an offset smaller.
   */
  lemma {:induction false} IndicesInRange(n: nat)
    ensures forall j :: 0 <= j < |BatchIndices(n)| ==> (BatchIndices(n)[j] as int) < 4 * n
  {
    if n > 0 {
      IndicesInRange(n - 1);
      var prev := BatchIndices(n - 1);
      var all := BatchIndices(n);
      assert all == prev + QuadIndices(n - 1);
      forall j | 0 <= j < |all|
        ensures (all[j] as int) < 4 * n
      {
        if j < |prev| {
          assert all[j] == prev[j];
        } else {
          var k := j - |prev|;
          assert all[j] == QuadIndices(n - 1)[k] == IndexAt(n - 1, k);
        }
      }
    }
  }

  /**
   * With at most 0x1_0000 vertices (no truncation), rectangle `i` owns index
   * slots `6i..6i+6`, holding `4i + [0, 1, 2, 0, 2, 3]`.
   */
  lemma RectangleIndices(n: nat, i: nat)
    requires i < n && 4 * n <= 0x1_0000
    ensures |BatchIndices(n)| == 6 * n
    ensures forall k :: 0 <= k < 6 ==> BatchIndices(n)[6 * i + k] as int == 4 * i + BASE_IDX[k] as int
  {
    forall k | 0 <= k < 6
      ensures BatchIndices(n)[6 * i + k] as int == 4 * i + BASE_IDX[k] as int
    {
      IndexSlot(n, i, k);
    }
  }

  /** Rectangle `i` owns vertex slots `4i..4i+4`, holding its corners 0..3 in template order. */
  lemma RectangleVertices(n: nat, i: nat)
    requires i < n
    ensures |BatchVertices(n)| == 4 * n
    ensures BatchVertices(n)[4 * i .. 4 * i + 4] == QuadVertices(i)
  {
    var all := BatchVertices(n);
    forall c | 0 <= c < 4
      ensures all[4 * i + c] == Vertex(i, c)
    {
      BatchVertexAt(n, 4 * i + c);
      assert (4 * i + c) / 4 == i && (4 * i + c) % 4 == c;
    }
  }

  /**
   * With at most 0x1_0000 vertices, every triangle stays inside its own
   * rectangle: index slot `j` names a vertex of rectangle `j / 6`.
   */
  lemma TrianglesStayInRectangle(n: nat, j: nat)
    requires 4 * n <= 0x1_0000 && j < 6 * n
    ensures |BatchIndices(n)| == 6 * n && |BatchVertices(n)| == 4 * n
    ensures (BatchIndices(n)[j] as int) < 4 * n
    ensures BatchVertices(n)[BatchIndices(n)[j] as int].rect == j / 6
  {
    BatchIndexAt(n, j);
    var x := BatchIndices(n)[j] as int;
    assert x == 4 * (j / 6) + BASE_IDX[j % 6] as int;
    BatchVertexAt(n, x);
    assert x / 4 == j / 6;
  }

  /**
   * Past 0x1_0000 vertices the offset wraps: rectangle 16384 gets the very
   * indices of rectangle 0.
   */
  lemma OffsetWrapAliases(n: nat)
    requires n > 0x4000
    ensures |BatchIndices(n)| == 6 * n
    ensures forall k :: 0 <= k < 6 ==> BatchIndices(n)[6 * 0x4000 + k] == BatchIndices(n)[k]
  {
    forall k | 0 <= k < 6
      ensures BatchIndices(n)[6 * 0x4000 + k] == BatchIndices(n)[k]
    {
      IndexSlot(n, 0x4000, k);
      IndexSlot(n, 0, k);
      IndexWraps(k);
    }
  }

  /**
   * So past 0x1_0000 vertices the triangles of rectangle 16384 are drawn over
   * rectangle 0's vertices, and its own vertices are never used.
   */
  lemma WrappedTrianglesLeaveRectangle(n: nat)
    requires n > 0x4000
    ensures |BatchIndices(n)| == 6 * n && |BatchVertices(n)| == 4 * n
    ensures BatchVertices(n)[BatchIndices(n)[6 * 0x4000] as int].rect == 0
  {
    OffsetWrapAliases(n);
    IndexSlot(n, 0, 0);
    BatchVertexAt(n, 0);
  }

  /** Rectangle 16384's offset `65536 as u16` is 0, rectangle 0's. */
  lemma IndexWraps(k: nat)
    requires k < 6
    ensures IndexAt(0x4000, k) == IndexAt(0, k)
  {
    assert TruncateU16(4 * 0x4000) == 0;
  }

  /** Index slot `6i + k` holds entry `k` of the index template of rectangle `i`. */
  lemma IndexSlot(n: nat, i: nat, k: nat)
    requires i < n && k < 6
    ensures |BatchIndices(n)| == 6 * n
    ensures BatchIndices(n)[6 * i + k] == IndexAt(i, k)
  {
    BatchIndexAt(n, 6 * i + k);
    assert (6 * i + k) / 6 == i && (6 * i + k) % 6 == k;
  }

  /**
   * The mesh built from any rectangle list satisfies the mesh invariant,
   * provided the index count fits the `u32` the draw call takes.
   */
  lemma BuiltMeshWellFormed(n: nat)
    requires 6 * n < 0x1_0000_0000
    ensures WellFormed(Mesh(BatchVertices(n), BatchIndices(n), TruncateU32(6 * n)))
  {
    IndicesInRange(n);
    MeshFromCounts(BatchVertices(n), BatchIndices(n), n);
  }

  /** `4n` vertices, `6n` indices below `4n` and the exact count make a well-formed mesh. */
  lemma MeshFromCounts(vs: seq<Vertex>, xs: seq<u16>, n: nat)
    requires |vs| == 4 * n && |xs| == 6 * n && 6 * n < 0x1_0000_0000
    requires forall j :: 0 <= j < |xs| ==> (xs[j] as int) < 4 * n
    ensures WellFormed(Mesh(vs, xs, TruncateU32(6 * n)))
  {
    assert 6 * n == 3 * (2 * n);
  }

  /** The compiled-in list: 20 vertices, 30 indices and a draw over all 30. */
  lemma DemoMesh()
    ensures |BatchVertices(|DEMO_RECTS|)| == 20 && |BatchIndices(|DEMO_RECTS|)| == 30
    ensures WellFormed(Mesh(BatchVertices(|DEMO_RECTS|), BatchIndices(|DEMO_RECTS|), TruncateU32(30)))
    ensures TruncateU32(30) == 30
  {
    BuiltMeshWellFormed(5);
  }
}
