/** The terrain: a raw 8-bit heightmap scaled to heights in [0, 10], a flat
    grid of `rows` x `cols` vertices centred on the origin, and the index list
    that splits every grid cell into two triangles. */
module Terrain {
  import opened Structures

  /** `m_NumPatchVertRows`, `m_NumPatchVertCols` */
  const PatchVertRows := 400
  const PatchVertCols := 400

  /** The heightmap the constructor loads is 513 x 513 samples. */
  const HeightmapSize := 513

  const HeightScale := 10.0

  // ---------------------------------------------------------------------
  // Heightmap

  /** Byte `k` of the sample buffer: the file's byte when the file opened and
      was long enough, otherwise the buffer's initial zero. */
  function RawSample(file: Option<seq<byte>>, k: nat): (b: byte)
    ensures file.None? ==> b == 0
    ensures file.Some? && k < |file.value| ==> b == file.value[k]
  {
    if file.Some? && k < |file.value| then file.value[k] else 0
  }

  /** One height: the byte normalised to [0, 1] and scaled. */
  function Height(b: byte): (h: real)
    ensures 0.0 <= h <= HeightScale
    ensures h == 0.0 <==> b == 0
    ensures h == HeightScale <==> b == 255
  {
    (b as real / 255.0) * HeightScale
  }

  /** A brighter sample is never lower. */
  lemma HeightMonotone(a: byte, b: byte)
    requires a <= b
    ensures Height(a) <= Height(b)
  {
  }

  // ---------------------------------------------------------------------
  // Index list

  /** The six indices of cell (i, j): the triangle (top-right, bottom-left,
      bottom-right) then the triangle (top-left, bottom-left, top-right). */
  function Cell(i: int, j: int, cols: int): seq<int>
  {
    var topLeft := i * cols + j;
    var topRight := i * cols + (j + 1);
    var bottomLeft := (i + 1) * cols + j;
    var bottomRight := (i + 1) * cols + (j + 1);
    [topRight, bottomLeft, bottomRight, topLeft, bottomLeft, topRight]
  }

  /** The indices of the first `n` cells of row `i`. */
  function RowCells(i: int, n: nat, cols: int): seq<int>
  {
    if n == 0 then [] else RowCells(i, n - 1, cols) + Cell(i, n - 1, cols)
  }

  /** The indices of the first `r` rows of cells of a grid `cols` vertices wide. */
  function GridIndices(r: nat, cols: nat): seq<int>
    requires cols >= 1
  {
    if r == 0 then [] else GridIndices(r - 1, cols) + RowCells(r - 1, cols - 1, cols)
  }

  /** The two triangles of a cell share its top-right/bottom-left diagonal and
      between them use exactly its four corners. */
  lemma CellSplitsOnDiagonal(i: int, j: int, cols: int)
    requires cols >= 2 && 0 <= j < cols - 1
    ensures var c := Cell(i, j, cols);
            var corners := {i * cols + j, i * cols + j + 1, (i + 1) * cols + j, (i + 1) * cols + j + 1};
            |corners| == 4 &&
            (set k | 0 <= k < 6 :: c[k]) == corners &&
            (set k | 0 <= k < 3 :: c[k]) * (set k | 3 <= k < 6 :: c[k]) == {i * cols + j + 1, (i + 1) * cols + j}
  {
    var c := Cell(i, j, cols);
    var tl, tr, bl, br := i * cols + j, i * cols + j + 1, (i + 1) * cols + j, (i + 1) * cols + j + 1;
    assert (i + 1) * cols == i * cols + cols;
    assert c == [tr, bl, br, tl, bl, tr];
    assert (set k | 0 <= k < 6 :: c[k]) == {tr, bl, br, tl} by {
      assert c[0] == tr && c[1] == bl && c[2] == br && c[3] == tl;
    }
    assert (set k | 0 <= k < 3 :: c[k]) == {tr, bl, br} by {
      assert c[0] == tr && c[1] == bl && c[2] == br;
    }
    assert (set k | 3 <= k < 6 :: c[k]) == {tl, bl, tr} by {
      assert c[3] == tl && c[4] == bl && c[5] == tr;
    }
  }

  lemma {:induction false} RowCellsLength(i: int, n: nat, cols: int)
    ensures |RowCells(i, n, cols)| == 6 * n
  {
    if n != 0 {
      RowCellsLength(i, n - 1, cols);
    }
  }

  /** Six indices per cell, `cols - 1` cells per row. */
  lemma {:induction false} GridIndicesLength(r: nat, cols: nat)
    requires cols >= 1
    ensures |GridIndices(r, cols)| == 6 * (r * (cols - 1))
  {
    if r != 0 {
      GridIndicesLength(r - 1, cols);
      RowCellsLength(r - 1, cols - 1, cols);
      assert (r - 1) * (cols - 1) + (cols - 1) == r * (cols - 1);
    }
  }

  /** The terrain's index count: 399 x 399 cells of six indices. */
  lemma TerrainIndexCount()
    ensures |GridIndices(PatchVertRows - 1, PatchVertCols)| == 955206
  {
    GridIndicesLength(PatchVertRows - 1, PatchVertCols);
  }

  /** Within row `i`, cell `j` occupies entries 6 * j to 6 * j + 5. */
  lemma {:induction false} RowCellsAt(i: int, n: nat, cols: int, j: nat)
    requires j < n
    ensures |RowCells(i, n, cols)| == 6 * n
    ensures forall k :: 0 <= k < 6 ==> RowCells(i, n, cols)[6 * j + k] == Cell(i, j, cols)[k]
  {
    RowCellsLength(i, n, cols);
    RowCellsLength(i, n - 1, cols);
    if j < n - 1 {
      RowCellsAt(i, n - 1, cols, j);
    }
  }

  /** The last row of cells comes after all the others. */
  lemma GridIndicesSplit(r: nat, cols: nat)
    requires r >= 1 && cols >= 1
    ensures GridIndices(r, cols) == GridIndices(r - 1, cols) + RowCells(r - 1, cols - 1, cols)
    ensures |GridIndices(r - 1, cols)| == 6 * ((r - 1) * (cols - 1))
    ensures |RowCells(r - 1, cols - 1, cols)| == 6 * (cols - 1)
  {
    GridIndicesLength(r - 1, cols);
    RowCellsLength(r - 1, cols - 1, cols);
  }

  /** A cell of an earlier row ends no later than the row it precedes. */
  lemma CellBeforeRow(i: nat, j: nat, w: nat, r: nat)
    requires i < r && j < w
    ensures i * w + j + 1 <= r * w
  {
    assert (i + 1) * w <= r * w;
  }

  /** In an index list for a grid `cols` vertices wide, cell (i, j) occupies
      the six entries starting at 6 * (i * (cols - 1) + j): rows of cells
      are laid out one after another, cells left to right. */
  lemma {:induction false} GridIndicesAt(r: nat, cols: nat, i: nat, j: nat)
    requires cols >= 2 && i < r && j < cols - 1
    ensures 6 * (i * (cols - 1) + j) + 6 <= |GridIndices(r, cols)|
    ensures forall k :: 0 <= k < 6 ==> GridIndices(r, cols)[6 * (i * (cols - 1) + j) + k] == Cell(i, j, cols)[k]
  {
    var w := cols - 1;
    GridIndicesSplit(r, cols);
    if i < r - 1 {
      GridIndicesAt(r - 1, cols, i, j);
      CellBeforeRow(i, j, w, r - 1);
    } else {
      RowCellsAt(i, w, cols, j);
      assert 6 * (i * w + j) == |GridIndices(r - 1, cols)| + 6 * j;
    }
  }

  lemma {:induction false} RowCellsInRange(i: int, n: nat, cols: int, bound: int)
    requires 0 <= i && n < cols && (i + 2) * cols <= bound
    ensures forall x :: x in RowCells(i, n, cols) ==> 0 <= x < bound
  {
    if n != 0 {
      RowCellsInRange(i, n - 1, cols, bound);
      assert (i + 1) * cols + n <= (i + 2) * cols;
      assert 0 <= i * cols;
    }
  }

  /** Every index names a vertex of the grid: an index list for `r` rows of
      cells refers only to the first `r + 1` rows of vertices. */
  lemma {:induction false} GridIndicesInRange(r: nat, cols: nat)
    requires cols >= 1
    ensures forall x :: x in GridIndices(r, cols) ==> 0 <= x < (r + 1) * cols
  {
    if r != 0 {
      GridIndicesInRange(r - 1, cols);
      RowCellsInRange(r - 1, cols - 1, cols, (r + 1) * cols);
      assert r * cols <= (r + 1) * cols;
    }
  }

  // ---------------------------------------------------------------------
  // Vertex grid

  /** The spacing between grid columns AS WRITTEN: both operands are `int`,
      so the quotient is truncated before it is stored in a float. */
  function PatchSpacingAsWritten(size: nat, verts: nat): real
    requires verts >= 2
  {
    (size / (verts - 1)) as real
  }

  /** The spacing that spreads `verts` vertices across `size` units. */
  function PatchSpacing(size: nat, verts: nat): (d: real)
    requires verts >= 2
    ensures d * (verts - 1) as real == size as real
  {
    size as real / (verts - 1) as real
  }

  /** As written, the grid's last column sits at x = 142.5, far short of the
      heightmap's right edge at 256.5. */
  lemma AsWrittenGridFallsShort()
    ensures PatchSpacingAsWritten(HeightmapSize, PatchVertCols) == 1.0
    ensures -0.5 * HeightmapSize as real + (PatchVertCols - 1) as real * PatchSpacingAsWritten(HeightmapSize, PatchVertCols) == 142.5
    ensures 0.5 * HeightmapSize as real == 256.5
  {
  }

  /** With real division the grid spans the heightmap exactly: the first
      column is at -size/2 and the last at +size/2. */
  lemma GridSpansHeightmap(size: nat, verts: nat)
    requires verts >= 2
    ensures -0.5 * size as real + (verts - 1) as real * PatchSpacing(size, verts) == 0.5 * size as real
  {
    var d := PatchSpacing(size, verts);
    assert (verts - 1) as real * d == size as real;
  }

  /** `SimpleVertex`: position, normal and texture coordinates. */
  datatype GridVertex = GridVertex(pos: Vec3, normal: Vec3, u: real, v: real)

  /** A value-initialised vertex. */
  const ZeroVertex := GridVertex(Origin, Origin, 0.0, 0.0)

  /** The vertex at row `i`, column `j` of a `rows` x `cols` grid laid over a
      `width` x `depth` heightmap with columns `dx` and rows `dz` apart: x
      runs left to right and z front to back, both starting half the
      heightmap's size before the origin; texture coordinates run from 0
      to 1. */
  function GridPoint(i: nat, j: nat, rows: nat, cols: nat, width: nat, depth: nat, dx: real, dz: real): GridVertex
    requires rows >= 2 && cols >= 2
  {
    var x := -0.5 * width as real + j as real * dx;
    var z := i as real * dz - 0.5 * depth as real;
    GridVertex(Vec3(x, 0.0, z), Origin, j as real * (1.0 / (cols - 1) as real), i as real * (1.0 / (rows - 1) as real))
  }

  /** The grid `BuildFlatGridVB` builds, with the truncated spacing. */
  function AsWrittenPoint(i: nat, j: nat, rows: nat, cols: nat, width: nat, depth: nat): GridVertex
    requires rows >= 2 && cols >= 2
  {
    GridPoint(i, j, rows, cols, width, depth, PatchSpacingAsWritten(width, cols), PatchSpacingAsWritten(depth, rows))
  }

  /** The grid the spacing evidently intends. */
  function IntendedPoint(i: nat, j: nat, rows: nat, cols: nat, width: nat, depth: nat): GridVertex
    requires rows >= 2 && cols >= 2
  {
    GridPoint(i, j, rows, cols, width, depth, PatchSpacing(width, cols), PatchSpacing(depth, rows))
  }

  /** In the intended grid the corners carry texture coordinates (0, 0) and
      (1, 1), and the far corner sits on the heightmap's far corner. */
  lemma GridCornersSpanTexture(rows: nat, cols: nat, width: nat, depth: nat)
    requires rows >= 2 && cols >= 2
    ensures IntendedPoint(0, 0, rows, cols, width, depth).u == 0.0
    ensures IntendedPoint(0, 0, rows, cols, width, depth).v == 0.0
    ensures IntendedPoint(rows - 1, cols - 1, rows, cols, width, depth).u == 1.0
    ensures IntendedPoint(rows - 1, cols - 1, rows, cols, width, depth).v == 1.0
    ensures IntendedPoint(rows - 1, cols - 1, rows, cols, width, depth).pos
         == Vec3(0.5 * width as real, 0.0, 0.5 * depth as real)
  {
    GridSpansHeightmap(width, cols);
    GridSpansHeightmap(depth, rows);
  }

  /** The grid the terrain actually builds: the near corner is where the
      intended one is, but the far corner stops at (142.5, 0, 142.5) instead
      of (256.5, 0, 256.5), and the texture still runs from 0 to 1. */
  lemma AsWrittenCorners()
    ensures AsWrittenPoint(0, 0, PatchVertRows, PatchVertCols, HeightmapSize, HeightmapSize)
         == IntendedPoint(0, 0, PatchVertRows, PatchVertCols, HeightmapSize, HeightmapSize)
    ensures var far := AsWrittenPoint(PatchVertRows - 1, PatchVertCols - 1, PatchVertRows, PatchVertCols, HeightmapSize, HeightmapSize);
            far.pos == Vec3(142.5, 0.0, 142.5) && far.u == 1.0 && far.v == 1.0
  {
    AsWrittenGridFallsShort();
  }

  /** `Terrain` */
  class Terrain {
    const rows: nat := PatchVertRows
    const cols: nat := PatchVertCols
    var heightmapWidth: nat
    var heightmapHeight: nat
    var heightMapData: seq<real>
    var gridVertices: seq<GridVertex>     // the contents of the grid vertex buffer
    var indices: seq<int>
    var matrix: Matrix

    /** Loads the 513 x 513 heightmap from `file` (`None` when it does not
        open), builds the grid vertices and indices and sets the terrain
        matrix to the identity.  The source builds the two buffers on two
        threads and joins both; they write disjoint fields. */
    constructor (file: Option<seq<byte>>)
      ensures heightmapWidth == HeightmapSize && heightmapHeight == HeightmapSize
      ensures |heightMapData| == HeightmapSize * HeightmapSize
      ensures forall k :: 0 <= k < |heightMapData| ==> heightMapData[k] == Height(RawSample(file, k))
      ensures |gridVertices| == rows * cols
      ensures forall i, j :: 0 <= i < rows && 0 <= j < cols ==>
        gridVertices[i * cols + j] == AsWrittenPoint(i, j, rows, cols, heightmapWidth, heightmapHeight)
      ensures indices == GridIndices(rows - 1, cols)
      ensures matrix == Identity
    {
      heightmapWidth, heightmapHeight := 0, 0;
      heightMapData, gridVertices, indices := [], [], [];
      matrix := Identity;
      new;
      LoadHeightmap(HeightmapSize, HeightmapSize, file);
      BuildFlatGridVB();
      ghost var built := gridVertices;
      BuildFlatGridIB();
      matrix := Identity;
      assert gridVertices == built;
    }

    /** `LoadHeightmap`: one height per sample, row by row. */
    method LoadHeightmap(width: nat, height: nat, file: Option<seq<byte>>)
      modifies this`heightmapWidth, this`heightmapHeight, this`heightMapData
      ensures heightmapWidth == width && heightmapHeight == height
      ensures |heightMapData| == width * height
      ensures forall k :: 0 <= k < |heightMapData| ==> heightMapData[k] == Height(RawSample(file, k))
    {
      heightmapWidth, heightmapHeight := width, height;
      var n := width * height;
      var samples := seq(n, k requires 0 <= k => RawSample(file, k));
      if |heightMapData| < n {
        heightMapData := heightMapData + seq(n - |heightMapData|, _ => 0.0);
      } else {
        heightMapData := heightMapData[..n];
      }
      var i := 0;
      while i < n
        invariant 0 <= i <= n
        invariant heightmapWidth == width && heightmapHeight == height
        invariant |heightMapData| == n
        invariant forall k :: 0 <= k < i ==> heightMapData[k] == Height(RawSample(file, k))
      {
        heightMapData := heightMapData[i := Height(samples[i])];
        i := i + 1;
      }
    }

    /** `BuildFlatGridVB`: fills a value-initialised vertex vector row by
        row, with the column and row spacing computed in integer
        arithmetic. */
    method BuildFlatGridVB()
      modifies this`gridVertices
      ensures |gridVertices| == rows * cols
      ensures forall i, j :: 0 <= i < rows && 0 <= j < cols ==>
        gridVertices[i * cols + j] == AsWrittenPoint(i, j, rows, cols, heightmapWidth, heightmapHeight)
    {
      var r, c, w, d := rows, cols, heightmapWidth, heightmapHeight;
      var patchWidth := (w / (c - 1)) as real;
      var patchDepth := (d / (r - 1)) as real;
      ghost var point := (i: nat, j: nat) => AsWrittenPoint(i, j, r, c, w, d);
      var vertices := new GridVertex[rows * cols](_ => ZeroVertex);
      var i := 0;
      while i < rows
        invariant 0 <= i <= rows
        invariant Placed(vertices[..], i, 0, point)
      {
        var j := 0;
        while j < cols
          invariant 0 <= j <= cols
          invariant Placed(vertices[..], i, j, point)
        {
          PlacedStep(vertices[..], i, j, point);
          vertices[i * cols + j] := GridPoint(i, j, rows, cols, w, d, patchWidth, patchDepth);
          assert vertices[i * cols + j] == point(i, j);
          j := j + 1;
        }
        PlacedNextRow(vertices[..], i, point);
        i := i + 1;
      }
      gridVertices := vertices[..];
      forall i, j | 0 <= i < rows && 0 <= j < cols
        ensures gridVertices[i * cols + j] == AsWrittenPoint(i, j, rows, cols, heightmapWidth, heightmapHeight)
      {
        assert gridVertices[i * cols + j] == point(i, j);
      }
    }

    /** `BuildFlatGridIB`: appends the six indices of every cell, row by row
        and left to right. */
    method BuildFlatGridIB()
      modifies this`indices
      ensures indices == old(indices) + GridIndices(rows - 1, cols)
    {
      var c := cols;
      var list := [];
      var i := 0;
      while i < rows - 1
        invariant 0 <= i <= rows - 1
        invariant list == GridIndices(i, c)
      {
        var j := 0;
        while j < c - 1
          invariant 0 <= j <= c - 1
          invariant list == GridIndices(i, c) + RowCells(i, j, c)
        {
          var topLeft := i * c + j;
          var topRight := i * c + (j + 1);
          var bottomLeft := (i + 1) * c + j;
          var bottomRight := (i + 1) * c + (j + 1);
          list := list + [topRight, bottomLeft, bottomRight];
          list := list + [topLeft, bottomLeft, topRight];
          j := j + 1;
        }
        i := i + 1;
      }
      indices := indices + list;
    }
  }

  /** Every grid point before (i, j) in row-major order is in its slot of
      the terrain's vertex vector. */
  ghost predicate Placed(a: seq<GridVertex>, i: nat, j: nat, point: (nat, nat) -> GridVertex)
  {
    |a| == PatchVertRows * PatchVertCols &&
    forall i', j' :: 0 <= i' < PatchVertRows && 0 <= j' < PatchVertCols && (i' < i || (i' == i && j' < j)) ==>
      a[i' * PatchVertCols + j'] == point(i', j')
  }

  /** Writing grid point (i, j) into its slot extends the placed prefix by
      one and disturbs no earlier slot. */
  lemma PlacedStep(a: seq<GridVertex>, i: nat, j: nat, point: (nat, nat) -> GridVertex)
    requires i < PatchVertRows && j < PatchVertCols
    requires Placed(a, i, j, point)
    ensures i * PatchVertCols + j < |a|
    ensures Placed(a[i * PatchVertCols + j := point(i, j)], i, j + 1, point)
  {
  }

  /** A finished row starts the next. */
  lemma PlacedNextRow(a: seq<GridVertex>, i: nat, point: (nat, nat) -> GridVertex)
    requires Placed(a, i, PatchVertCols, point)
    ensures Placed(a, i + 1, 0, point)
  {
  }
}
