/** Sphere::generateGeometry: a (stackCount + 1) x (sectorCount + 1) grid of
    vertices with random colours, and an index buffer of triangles over the
    grid. Vertex positions (cosf/sinf of the stack and sector angles) are an
    input function of the grid cell; colours are successive rand() draws. */
module SphereMesh {
  import opened Linear
  import opened Loops

  // ---------------------------------------------------------------------------
  // Vertex and colour buffers

  /** Number of vertices: the loops run i = 0..stackCount and j = 0..sectorCount. */
  function VertexCount(stackCount: int, sectorCount: int): nat
  {
    Iterations(stackCount + 1) * Iterations(sectorCount + 1)
  }

  /** Component c (x, y, z) of a point. */
  function Coord(v: Vec3, c: int): real
  {
    if c == 0 then v.x else if c == 1 then v.y else v.z
  }

  /** The first `count` vertices of stack i, flattened to x, y, z floats. */
  function RowFloats(position: (int, int) -> Vec3, i: int, count: nat): (r: seq<real>)
    ensures |r| == 3 * count
  {
    seq(3 * count, k requires 0 <= k < 3 * count => Coord(position(i, k / 3), k % 3))
  }

  /** The first `rows` stacks of `columns` vertices each, flattened. */
  function VertexRows(position: (int, int) -> Vec3, rows: nat, columns: nat): (r: seq<real>)
    ensures |r| == 3 * (rows * columns)
  {
    if rows == 0 then []
    else VertexRows(position, rows - 1, columns) + RowFloats(position, rows - 1, columns)
  }

  /** The vertex buffer generateGeometry writes. */
  function VertexFloats(position: (int, int) -> Vec3, stackCount: int, sectorCount: int): seq<real>
  {
    VertexRows(position, Iterations(stackCount + 1), Iterations(sectorCount + 1))
  }

  /** `count` successive rand() draws starting at draw `first`. */
  function RandRun(rand: nat -> real, first: nat, count: nat): (r: seq<real>)
    ensures |r| == count
  {
    seq(count, k requires 0 <= k < count => rand(first + k))
  }

  /** Vertex number i * (sectorCount + 1) + j of the buffer, the number the
      index buffer uses for it, is the point of stack i and sector j. */
  lemma {:induction false} VertexNumbering(position: (int, int) -> Vec3, rows: nat, columns: nat, i: nat, j: nat, c: nat)
    requires i < rows && j < columns && c < 3
    ensures 3 * (i * columns + j) + c < |VertexRows(position, rows, columns)|
    ensures VertexRows(position, rows, columns)[3 * (i * columns + j) + c] == Coord(position(i, j), c)
  {
    var before := VertexRows(position, rows - 1, columns);
    var k := 3 * (i * columns + j) + c;
    if i == rows - 1 {
      assert |before| == 3 * (i * columns);
      assert k - |before| == 3 * j + c;
      assert (3 * j + c) / 3 == j && (3 * j + c) % 3 == c;
    } else {
      assert i * columns + j < (i + 1) * columns <= (rows - 1) * columns;
      VertexNumbering(position, rows - 1, columns, i, j, c);
    }
  }

  // ---------------------------------------------------------------------------
  // Index buffer

  datatype Triangle = Triangle(a: int, b: int, c: int)

  /** The triangles of the cell at stack i, sector j: below the top stack the
      upper-left one (k1, k2, k1 + 1), above the bottom stack the lower-right
      one (k1 + 1, k2, k2 + 1), where k1 is the cell's vertex and k2 the one
      below it. */
  function CellTriangles(stackCount: int, sectorCount: int, i: int, j: int): seq<Triangle>
  {
    var k1 := i * (sectorCount + 1) + j;
    var k2 := k1 + sectorCount + 1;
    (if i != 0 then [Triangle(k1, k2, k1 + 1)] else [])
    + (if i != stackCount - 1 then [Triangle(k1 + 1, k2, k2 + 1)] else [])
  }

  /** The triangles of the first `count` cells of stack i. */
  function StackTriangles(stackCount: int, sectorCount: int, i: int, count: nat): seq<Triangle>
  {
    if count == 0 then []
    else StackTriangles(stackCount, sectorCount, i, count - 1) + CellTriangles(stackCount, sectorCount, i, count - 1)
  }

  /** The triangles of the first `stacks` stacks. */
  function MeshTriangles(stackCount: int, sectorCount: int, stacks: nat): seq<Triangle>
  {
    if stacks == 0 then []
    else MeshTriangles(stackCount, sectorCount, stacks - 1)
         + StackTriangles(stackCount, sectorCount, stacks - 1, Iterations(sectorCount))
  }

  function SphereTriangles(stackCount: int, sectorCount: int): seq<Triangle>
  {
    MeshTriangles(stackCount, sectorCount, Iterations(stackCount))
  }

  /** The triangles as GL_TRIANGLES indices, three per triangle. */
  function Flatten(ts: seq<Triangle>): (r: seq<int>)
    ensures |r| == 3 * |ts|
  {
    if ts == [] then []
    else
      var last := ts[|ts| - 1];
      Flatten(ts[..|ts| - 1]) + [last.a, last.b, last.c]
  }

  /** Index 3t + c of the buffer is corner c of triangle t. */
  lemma {:induction false} FlattenIndex(ts: seq<Triangle>, t: nat, c: nat)
    requires t < |ts| && c < 3
    ensures Flatten(ts)[3 * t + c] == if c == 0 then ts[t].a else if c == 1 then ts[t].b else ts[t].c
  {
    if t < |ts| - 1 {
      FlattenIndex(ts[..|ts| - 1], t, c);
    }
  }

  lemma {:induction false} FlattenAppend(s: seq<Triangle>, t: seq<Triangle>)
    ensures Flatten(s + t) == Flatten(s) + Flatten(t)
    decreases |t|
  {
    if t == [] {
      assert s + t == s;
    } else {
      assert (s + t)[..|s + t| - 1] == s + t[..|t| - 1];
      FlattenAppend(s, t[..|t| - 1]);
    }
  }

  /** Triangles per cell of stack i: one in the top and bottom stacks (none
      if the sphere has a single stack), two in between. */
  function CellTriangleCount(stackCount: int, i: int): nat
  {
    (if i != 0 then 1 else 0) + (if i != stackCount - 1 then 1 else 0)
  }

  lemma {:induction false} StackCount(stackCount: int, sectorCount: int, i: int, count: nat)
    ensures |StackTriangles(stackCount, sectorCount, i, count)| == count * CellTriangleCount(stackCount, i)
  {
    if count > 0 {
      StackCount(stackCount, sectorCount, i, count - 1);
    }
  }

  /** Every stack above the bottom one: one triangle per cell in the top
      stack, two in each of the others. */
  lemma {:induction false} MeshCount(stackCount: int, sectorCount: int, stacks: nat)
    requires 1 <= stacks < stackCount && sectorCount >= 0
    ensures |MeshTriangles(stackCount, sectorCount, stacks)| == sectorCount * (2 * stacks - 1)
  {
    var n := sectorCount;
    StackCount(stackCount, n, stacks - 1, n);
    if stacks == 1 {
      assert MeshTriangles(stackCount, n, 1) == StackTriangles(stackCount, n, 0, n);
    } else {
      MeshCount(stackCount, n, stacks - 1);
      AddTwoRows(n, stacks - 1);
    }
  }

  lemma AddTwoRows(n: int, m: int)
    ensures n * (2 * m - 1) + n * 2 == n * (2 * (m + 1) - 1)
  {
  }

  /** The index buffer holds 6 * sectorCount * (stackCount - 1) indices: a
      whole number of triangles, none for a single stack. */
  lemma IndexCount(stackCount: int, sectorCount: int)
    requires stackCount >= 1 && sectorCount >= 0
    ensures |SphereTriangles(stackCount, sectorCount)| == 2 * sectorCount * (stackCount - 1)
    ensures |Flatten(SphereTriangles(stackCount, sectorCount))| == 6 * sectorCount * (stackCount - 1)
  {
    var n, m := sectorCount, stackCount - 1;
    var bottom := StackTriangles(stackCount, n, m, n);
    StackCount(stackCount, n, m, n);
    assert SphereTriangles(stackCount, n) == MeshTriangles(stackCount, n, m) + bottom;
    if stackCount > 1 {
      assert CellTriangleCount(stackCount, m) == 1;
      MeshCount(stackCount, n, m);
      AddOneRow(n, m);
    } else {
      assert CellTriangleCount(stackCount, m) == 0;
      NoRows(n, m);
    }
    assert |SphereTriangles(stackCount, n)| == 2 * n * m;
    TripleRows(n, m);
  }

  lemma AddOneRow(n: int, m: int)
    ensures n * (2 * m - 1) + n * 1 == 2 * n * m
  {
  }

  lemma NoRows(n: int, m: int)
    requires m == 0
    ensures 0 + n * 0 == 2 * n * m
  {
  }

  lemma TripleRows(n: int, m: int)
    ensures 3 * (2 * n * m) == 6 * n * m
  {
  }

  /** A triangle over existing vertices with three different corners. */
  predicate WellFormed(t: Triangle, vertices: int)
  {
    && 0 <= t.a < vertices && 0 <= t.b < vertices && 0 <= t.c < vertices
    && t.a != t.b && t.b != t.c && t.a != t.c
  }

  lemma CellWellFormed(stackCount: int, sectorCount: int, i: int, j: int)
    requires 0 <= i < stackCount && 0 <= j < sectorCount
    ensures forall t <- CellTriangles(stackCount, sectorCount, i, j) :: WellFormed(t, VertexCount(stackCount, sectorCount))
  {
    var w := sectorCount + 1;
    var k1 := i * w + j;
    TwoRowsFit(i, stackCount, w);
    assert VertexCount(stackCount, sectorCount) == (stackCount + 1) * w;
    assert CellTriangles(stackCount, sectorCount, i, j)
           == (if i != 0 then [Triangle(k1, k1 + w, k1 + 1)] else [])
              + (if i != stackCount - 1 then [Triangle(k1 + 1, k1 + w, k1 + w + 1)] else []);
  }

  /** Stacks i and i + 1 lie within the stackCount + 1 rows of w vertices. */
  lemma TwoRowsFit(i: int, stackCount: int, w: int)
    requires 0 <= i < stackCount && w >= 1
    ensures 0 <= i * w && i * w + 2 * w <= (stackCount + 1) * w
  {
    var d := stackCount - 1 - i;
    calc {
      (stackCount + 1) * w;
      (i + 2 + d) * w;
      i * w + 2 * w + d * w;
    }
    MulNonneg(i, w);
    MulNonneg(d, w);
  }

  /** A product of two non-negative integers is non-negative. */
  lemma {:induction false} MulNonneg(a: int, b: int)
    requires a >= 0 && b >= 0
    ensures a * b >= 0
    decreases a
  {
    if a > 0 {
      MulNonneg(a - 1, b);
      assert a * b == (a - 1) * b + b;
    }
  }

  lemma {:induction false} StackWellFormed(stackCount: int, sectorCount: int, i: int, count: nat)
    requires 0 <= i < stackCount && count <= Iterations(sectorCount)
    ensures forall t <- StackTriangles(stackCount, sectorCount, i, count) :: WellFormed(t, VertexCount(stackCount, sectorCount))
  {
    if count > 0 {
      StackWellFormed(stackCount, sectorCount, i, count - 1);
      CellWellFormed(stackCount, sectorCount, i, count - 1);
    }
  }

  lemma {:induction false} MeshWellFormed(stackCount: int, sectorCount: int, stacks: nat)
    requires stacks <= Iterations(stackCount)
    ensures forall t <- MeshTriangles(stackCount, sectorCount, stacks) :: WellFormed(t, VertexCount(stackCount, sectorCount))
  {
    if stacks > 0 {
      MeshWellFormed(stackCount, sectorCount, stacks - 1);
      StackWellFormed(stackCount, sectorCount, stacks - 1, Iterations(sectorCount));
    }
  }

  /** Every index refers to an existing vertex, and no triangle repeats a
      corner. */
  lemma IndicesInRange(stackCount: int, sectorCount: int)
    ensures forall t <- SphereTriangles(stackCount, sectorCount) :: WellFormed(t, VertexCount(stackCount, sectorCount))
    ensures forall x <- Flatten(SphereTriangles(stackCount, sectorCount)) :: 0 <= x < VertexCount(stackCount, sectorCount)
  {
    var ts := SphereTriangles(stackCount, sectorCount);
    MeshWellFormed(stackCount, sectorCount, Iterations(stackCount));
    forall x <- Flatten(ts)
      ensures 0 <= x < VertexCount(stackCount, sectorCount)
    {
      var k :| 0 <= k < |Flatten(ts)| && Flatten(ts)[k] == x;
      var q, c := k / 3, k % 3;
      assert k == 3 * q + c;
      FlattenIndex(ts, q, c);
      assert ts[q] in ts;
    }
  }

  /** The cells of a stack, one triangle each when the stack is the top or the
      bottom one. */
  lemma {:induction false} StackOfOne(stackCount: int, sectorCount: int, i: int, count: nat, shape: int -> Triangle)
    requires CellTriangleCount(stackCount, i) == 1
    requires forall j :: 0 <= j < count ==> CellTriangles(stackCount, sectorCount, i, j) == [shape(j)]
    ensures StackTriangles(stackCount, sectorCount, i, count) == seq(count, j => shape(j))
  {
    if count > 0 {
      StackOfOne(stackCount, sectorCount, i, count - 1, shape);
      assert CellTriangles(stackCount, sectorCount, i, count - 1) == [shape(count - 1)];
      assert seq(count - 1, j => shape(j)) + [shape(count - 1)] == seq(count, j => shape(j));
    }
  }

  /** With at least two stacks, the top stack has only the triangles
      (k1 + 1, k2, k2 + 1) and the bottom stack only (k1, k2, k1 + 1). */
  lemma PoleStacks(stackCount: int, sectorCount: int)
    requires stackCount >= 2 && sectorCount >= 0
    ensures var w := sectorCount + 1;
            StackTriangles(stackCount, sectorCount, 0, sectorCount)
            == seq(sectorCount, j => Triangle(j + 1, w + j, w + j + 1))
    ensures var w := sectorCount + 1;
            var k := (stackCount - 1) * w;
            StackTriangles(stackCount, sectorCount, stackCount - 1, sectorCount)
            == seq(sectorCount, j => Triangle(k + j, k + j + w, k + j + 1))
  {
    var w := sectorCount + 1;
    var k := (stackCount - 1) * w;
    StackOfOne(stackCount, sectorCount, 0, sectorCount, j => Triangle(j + 1, w + j, w + j + 1));
    StackOfOne(stackCount, sectorCount, stackCount - 1, sectorCount, j => Triangle(k + j, k + j + w, k + j + 1));
  }

  const DefaultStacks: int := 20
  const DefaultSectors: int := 20

  /** initialize's generateGeometry(20, 20): 441 vertices (1323 floats) and
      2280 indices. */
  lemma DefaultSphere(position: (int, int) -> Vec3, stackCount: int, sectorCount: int)
    requires stackCount == DefaultStacks && sectorCount == DefaultSectors
    ensures VertexCount(stackCount, sectorCount) == 441
    ensures |VertexFloats(position, stackCount, sectorCount)| == 1323
    ensures |Flatten(SphereTriangles(stackCount, sectorCount))| == 2280
  {
    IndexCount(stackCount, sectorCount);
  }

  // ---------------------------------------------------------------------------
  // The Sphere object

  /** glDrawElements(GL_TRIANGLES, count, GL_UNSIGNED_INT, 0) with the MVP
      uniform set to mvp. */
  datatype DrawCall = DrawElements(count: int, mvp: Mat4)

  class Sphere {
    var vertexBuffer: seq<real>
    var colorBuffer: seq<real>
    var indexBuffer: seq<int>

    constructor ()
      ensures vertexBuffer == [] && colorBuffer == [] && indexBuffer == []
    {
      vertexBuffer := [];
      colorBuffer := [];
      indexBuffer := [];
    }

    /** Clears the three buffers and refills them. position(i, j) is the point
        computed for stack i and sector j; colours use successive rand() draws
        from firstDraw on, and the draw after the last one used is returned. */
    method GenerateGeometry(stackCount: int, sectorCount: int, position: (int, int) -> Vec3,
                            rand: nat -> real, firstDraw: nat) returns (nextDraw: nat)
      modifies this
      ensures vertexBuffer == VertexFloats(position, stackCount, sectorCount)
      ensures colorBuffer == RandRun(rand, firstDraw, 3 * VertexCount(stackCount, sectorCount))
      ensures indexBuffer == Flatten(SphereTriangles(stackCount, sectorCount))
      ensures nextDraw == firstDraw + 3 * VertexCount(stackCount, sectorCount)
    {
      vertexBuffer := [];
      colorBuffer := [];
      indexBuffer := [];
      nextDraw := firstDraw;

      var columns := Iterations(sectorCount + 1);
      var i := 0;
      while i <= stackCount
        invariant 0 <= i <= Iterations(stackCount + 1)
        invariant vertexBuffer == VertexRows(position, i, columns)
        invariant nextDraw == firstDraw + |vertexBuffer|
        invariant colorBuffer == RandRun(rand, firstDraw, |vertexBuffer|)
        invariant indexBuffer == []
      {
        ghost var draw := nextDraw;
        nextDraw := GenerateStackVertices(i, sectorCount, position, rand, nextDraw);
        RandRunAppend(rand, firstDraw, draw - firstDraw, 3 * columns);
        i := i + 1;
      }
      assert i == Iterations(stackCount + 1);
      ghost var vertices, colors := vertexBuffer, colorBuffer;

      i := 0;
      while i < stackCount
        invariant 0 <= i <= Iterations(stackCount)
        invariant vertexBuffer == vertices && colorBuffer == colors
        invariant indexBuffer == Flatten(MeshTriangles(stackCount, sectorCount, i))
      {
        GenerateStackIndices(stackCount, sectorCount, i);
        FlattenAppend(MeshTriangles(stackCount, sectorCount, i), StackTriangles(stackCount, sectorCount, i, Iterations(sectorCount)));
        i := i + 1;
      }
    }

    /** The inner loop over the sectors of stack i that pushes vertices and
        colours. */
    method GenerateStackVertices(i: int, sectorCount: int, position: (int, int) -> Vec3, rand: nat -> real, draw: nat)
      returns (nextDraw: nat)
      modifies this`vertexBuffer, this`colorBuffer
      ensures vertexBuffer == old(vertexBuffer) + RowFloats(position, i, Iterations(sectorCount + 1))
      ensures colorBuffer == old(colorBuffer) + RandRun(rand, draw, 3 * Iterations(sectorCount + 1))
      ensures nextDraw == draw + 3 * Iterations(sectorCount + 1)
    {
      nextDraw := draw;
      var j := 0;
      while j <= sectorCount
        invariant 0 <= j <= Iterations(sectorCount + 1)
        invariant vertexBuffer == old(vertexBuffer) + RowFloats(position, i, j)
        invariant colorBuffer == old(colorBuffer) + RandRun(rand, draw, 3 * j)
        invariant nextDraw == draw + 3 * j
      {
        var p := position(i, j);
        vertexBuffer := vertexBuffer + [p.x, p.y, p.z];
        colorBuffer := colorBuffer + [rand(nextDraw), rand(nextDraw + 1), rand(nextDraw + 2)];
        nextDraw := nextDraw + 3;
        assert RowFloats(position, i, j + 1) == RowFloats(position, i, j) + [p.x, p.y, p.z];
        assert RandRun(rand, draw, 3 * (j + 1)) == RandRun(rand, draw, 3 * j) + [rand(draw + 3 * j), rand(draw + 3 * j + 1), rand(draw + 3 * j + 2)];
        j := j + 1;
      }
    }

    /** The inner loop over the sectors of stack i that pushes indices, with
        the running vertex numbers k1 and k2. */
    method GenerateStackIndices(stackCount: int, sectorCount: int, i: int)
      requires 0 <= i
      modifies this`indexBuffer
      ensures indexBuffer == old(indexBuffer) + Flatten(StackTriangles(stackCount, sectorCount, i, Iterations(sectorCount)))
    {
      var k1 := i * (sectorCount + 1);
      var k2 := k1 + sectorCount + 1;
      var j := 0;
      while j < sectorCount
        invariant 0 <= j <= Iterations(sectorCount)
        invariant k1 == i * (sectorCount + 1) + j && k2 == k1 + sectorCount + 1
        invariant indexBuffer == old(indexBuffer) + Flatten(StackTriangles(stackCount, sectorCount, i, j))
      {
        ghost var before := indexBuffer;
        if i != 0 {
          indexBuffer := indexBuffer + [k1, k2, k1 + 1];
        }
        if i != stackCount - 1 {
          indexBuffer := indexBuffer + [k1 + 1, k2, k2 + 1];
        }
        NextCellIndices(stackCount, sectorCount, i, j, k1, k2, old(indexBuffer), before, indexBuffer);
        j, k1, k2 := j + 1, k1 + 1, k2 + 1;
      }
    }

    /** initialize: generateGeometry(20, 20); the GL buffer uploads and the
        shader loading are not part of this model. */
    method Initialize(position: (int, int) -> Vec3, rand: nat -> real, firstDraw: nat) returns (nextDraw: nat)
      modifies this
      ensures vertexBuffer == VertexFloats(position, DefaultStacks, DefaultSectors)
      ensures colorBuffer == RandRun(rand, firstDraw, 1323)
      ensures indexBuffer == Flatten(SphereTriangles(DefaultStacks, DefaultSectors))
      ensures |vertexBuffer| == |colorBuffer| == 1323 && |indexBuffer| == 2280
      ensures nextDraw == firstDraw + 1323
    {
      var stacks, sectors := DefaultStacks, DefaultSectors;
      nextDraw := GenerateGeometry(stacks, sectors, position, rand, firstDraw);
      DefaultSphere(position, stacks, sectors);
    }

    /** render: one indexed draw of indexBuffer.size() elements with the MVP
        cameraMatrix * modelMatrix. */
    method Render(cameraMatrix: Mat4, modelMatrix: Mat4) returns (call: DrawCall)
      ensures call.count == |indexBuffer| && call.mvp == Product(cameraMatrix, modelMatrix)
    {
      var mvp := Product(cameraMatrix, modelMatrix);
      call := DrawElements(|indexBuffer|, mvp);
    }
  }

  lemma RandRunAppend(rand: nat -> real, first: nat, a: nat, b: nat)
    ensures RandRun(rand, first, a) + RandRun(rand, first + a, b) == RandRun(rand, first, a + b)
  {
  }

  /** One inner iteration of the index loop appends the cell's triangles. */
  lemma NextCellIndices(stackCount: int, sectorCount: int, i: int, j: nat, k1: int, k2: int,
                        start: seq<int>, before: seq<int>, after: seq<int>)
    requires k1 == i * (sectorCount + 1) + j && k2 == k1 + sectorCount + 1
    requires before == start + Flatten(StackTriangles(stackCount, sectorCount, i, j))
    requires after == before + (if i != 0 then [k1, k2, k1 + 1] else []) + (if i != stackCount - 1 then [k1 + 1, k2, k2 + 1] else [])
    ensures after == start + Flatten(StackTriangles(stackCount, sectorCount, i, j + 1))
  {
    var done, cell := StackTriangles(stackCount, sectorCount, i, j), CellTriangles(stackCount, sectorCount, i, j);
    CellIndices(stackCount, sectorCount, i, j, k1, k2);
    FlattenAppend(done, cell);
    assert StackTriangles(stackCount, sectorCount, i, j + 1) == done + cell;
  }

  /** The indices one inner iteration pushes are the cell's triangles. */
  lemma CellIndices(stackCount: int, sectorCount: int, i: int, j: int, k1: int, k2: int)
    requires k1 == i * (sectorCount + 1) + j && k2 == k1 + sectorCount + 1
    ensures Flatten(CellTriangles(stackCount, sectorCount, i, j))
            == (if i != 0 then [k1, k2, k1 + 1] else []) + (if i != stackCount - 1 then [k1 + 1, k2, k2 + 1] else [])
  {
    var upper := if i != 0 then [Triangle(k1, k2, k1 + 1)] else [];
    var lower := if i != stackCount - 1 then [Triangle(k1 + 1, k2, k2 + 1)] else [];
    assert CellTriangles(stackCount, sectorCount, i, j) == upper + lower;
    FlattenAppend(upper, lower);
    FlattenOne(Triangle(k1, k2, k1 + 1));
    FlattenOne(Triangle(k1 + 1, k2, k2 + 1));
  }

  lemma FlattenOne(t: Triangle)
    ensures Flatten([t]) == [t.a, t.b, t.c]
  {
    assert [t][..0] == [];
  }

  /** What render draws after generateGeometry: whole triangles, each over
      vertices the vertex buffer holds. */
  lemma RenderDrawsWholeTriangles(stackCount: int, sectorCount: int, position: (int, int) -> Vec3, indexBuffer: seq<int>, vertexBuffer: seq<real>)
    requires indexBuffer == Flatten(SphereTriangles(stackCount, sectorCount))
    requires vertexBuffer == VertexFloats(position, stackCount, sectorCount)
    ensures |indexBuffer| % 3 == 0
    ensures forall x <- indexBuffer :: 0 <= 3 * x && 3 * x + 2 < |vertexBuffer|
  {
    IndicesInRange(stackCount, sectorCount);
    assert |vertexBuffer| == 3 * VertexCount(stackCount, sectorCount);
  }
}
