/** The papier-mache sketch: a triangular lattice of points laid out column by
    column over the canvas, stitched into triangles as the columns are walked,
    then jittered and warped in place. */
module Mache {
  import opened P5

  /** The sketch's own approximation of the square root of 3. */
  const SQRT_3: real := 1.732

  const DEFAULT_CANVAS_WIDTH: int := 1200
  const MIN_CANVAS_WIDTH: int := 10
  const DEFAULT_CANVAS_HEIGHT: int := 800
  const MIN_CANVAS_HEIGHT: int := 10
  const DEFAULT_TRIANGLE_SIDE_LENGTH: int := 50
  const MIN_TRIANGLE_SIDE_LENGTH: int := 20
  const MAX_TRIANGLE_SIDE_LENGTH: int := 150
  const DEFAULT_DISPLACEMENT_LIMIT: int := 15
  const MIN_DISPLACEMENT_LIMIT: int := 0
  const MAX_DISPLACEMENT_LIMIT: int := 75

  datatype Option<T> = None | Some(value: T)

  /** The four settings `setup` reads; in the sketch they are module-level variables. */
  datatype Config = Config(canvasWidth: int, canvasHeight: int, triangleSideLength: int, displacementLimit: int)

  /** The ranges `setup` leaves the settings in. */
  predicate Sanitised(cfg: Config)
  {
    && cfg.canvasWidth >= MIN_CANVAS_WIDTH
    && cfg.canvasHeight >= MIN_CANVAS_HEIGHT
    && MIN_TRIANGLE_SIDE_LENGTH <= cfg.triangleSideLength <= MAX_TRIANGLE_SIDE_LENGTH
    && MIN_DISPLACEMENT_LIMIT <= cfg.displacementLimit <= MAX_DISPLACEMENT_LIMIT
  }

  // ---------------------------------------------------------------------------
  // Configuration
  // ---------------------------------------------------------------------------

  /** The sketch's `constrain`: `max(a, min(x, b))`. */
  function Constrain(x: int, a: int, b: int): (r: int)
    ensures a <= b ==> a <= r <= b
    ensures a <= x <= b ==> r == x
    ensures x < a || b < a ==> r == a
    ensures a <= b < x ==> r == b
  {
    var m := if x < b then x else b;
    if a < m then m else a
  }

  /** Clamping twice is clamping once. */
  lemma ConstrainIdempotent(x: int, a: int, b: int)
    ensures Constrain(Constrain(x, a, b), a, b) == Constrain(x, a, b)
  {
  }

  /** `round(params[name])`, then the default when the result is NaN. A URL
      parameter that is missing or does not parse as a number arrives as None. */
  function ParseOrDefault(param: Option<real>, default: int): (v: int)
    ensures param.None? ==> v == default
    ensures param.Some? ==> v as real - 0.5 <= param.value < v as real + 0.5
  {
    match param
    case None => default
    case Some(x) => Round(x)
  }

  /** The parse-or-default-then-clamp steps of `setup`. The width and height are
      clamped with themselves as the upper bound, so they only have a minimum. */
  function Configure(width: Option<real>, height: Option<real>, side: Option<real>, displacement: Option<real>): (cfg: Config)
    ensures Sanitised(cfg)
    ensures width.None? ==> cfg.canvasWidth == DEFAULT_CANVAS_WIDTH
    ensures height.None? ==> cfg.canvasHeight == DEFAULT_CANVAS_HEIGHT
    ensures side.None? ==> cfg.triangleSideLength == DEFAULT_TRIANGLE_SIDE_LENGTH
    ensures displacement.None? ==> cfg.displacementLimit == DEFAULT_DISPLACEMENT_LIMIT
    ensures var w := ParseOrDefault(width, DEFAULT_CANVAS_WIDTH);
      cfg.canvasWidth == if w < MIN_CANVAS_WIDTH then MIN_CANVAS_WIDTH else w
    ensures var h := ParseOrDefault(height, DEFAULT_CANVAS_HEIGHT);
      cfg.canvasHeight == if h < MIN_CANVAS_HEIGHT then MIN_CANVAS_HEIGHT else h
    ensures var s := ParseOrDefault(side, DEFAULT_TRIANGLE_SIDE_LENGTH);
      (MIN_TRIANGLE_SIDE_LENGTH <= s <= MAX_TRIANGLE_SIDE_LENGTH ==> cfg.triangleSideLength == s)
      && (s < MIN_TRIANGLE_SIDE_LENGTH ==> cfg.triangleSideLength == MIN_TRIANGLE_SIDE_LENGTH)
      && (s > MAX_TRIANGLE_SIDE_LENGTH ==> cfg.triangleSideLength == MAX_TRIANGLE_SIDE_LENGTH)
    ensures var d := ParseOrDefault(displacement, DEFAULT_DISPLACEMENT_LIMIT);
      (MIN_DISPLACEMENT_LIMIT <= d <= MAX_DISPLACEMENT_LIMIT ==> cfg.displacementLimit == d)
      && (d < MIN_DISPLACEMENT_LIMIT ==> cfg.displacementLimit == MIN_DISPLACEMENT_LIMIT)
      && (d > MAX_DISPLACEMENT_LIMIT ==> cfg.displacementLimit == MAX_DISPLACEMENT_LIMIT)
  {
    var w := ParseOrDefault(width, DEFAULT_CANVAS_WIDTH);
    var h := ParseOrDefault(height, DEFAULT_CANVAS_HEIGHT);
    var s := ParseOrDefault(side, DEFAULT_TRIANGLE_SIDE_LENGTH);
    var d := ParseOrDefault(displacement, DEFAULT_DISPLACEMENT_LIMIT);
    Config(
      Constrain(w, MIN_CANVAS_WIDTH, w),
      Constrain(h, MIN_CANVAS_HEIGHT, h),
      Constrain(s, MIN_TRIANGLE_SIDE_LENGTH, MAX_TRIANGLE_SIDE_LENGTH),
      Constrain(d, MIN_DISPLACEMENT_LIMIT, MAX_DISPLACEMENT_LIMIT))
  }

  // ---------------------------------------------------------------------------
  // Points and triangles
  // ---------------------------------------------------------------------------

  /** A `Point`: its lattice coordinates and the coordinates it is drawn at. */
  datatype MeshPoint = MeshPoint(x: real, y: real, displayedX: real, displayedY: real)

  /** `new Point(x, y)`: drawn where it lies. */
  function NewPoint(x: real, y: real): MeshPoint
  {
    MeshPoint(x, y, x, y)
  }

  /** Where a point sits in the grid `points`: column, then row. Triangles in the
      sketch hold the very `Point` objects of the grid, so a grid position names
      the same point before and after `adjustPoints` moves it. */
  datatype Vertex = Vertex(col: nat, row: nat)

  datatype Triangle = Triangle(point1: Vertex, point2: Vertex, point3: Vertex)

  // ---------------------------------------------------------------------------
  // The lattice
  // ---------------------------------------------------------------------------

  /** Horizontal distance between columns, `round(S * SQRT_3 / 2)`. */
  function ColumnStep(cfg: Config): int
  {
    Round(cfg.triangleSideLength as real * SQRT_3 / 2.0)
  }

  /** The odd columns' downward offset, `round(S / 2)`. */
  function HalfSide(cfg: Config): int
  {
    Round(cfg.triangleSideLength as real / 2.0)
  }

  /** Columns are generated while their x is below this. */
  function XLimit(cfg: Config): int
  {
    cfg.canvasWidth + 2 * cfg.triangleSideLength
  }

  /** Rows are generated while their y is below this. */
  function YLimit(cfg: Config): int
  {
    cfg.canvasHeight + 2 * cfg.triangleSideLength
  }

  /** The x of column `col`: the first column at -S, each next one a step further right. */
  function ColumnX(cfg: Config, col: nat): int
  {
    if col == 0 then -cfg.triangleSideLength else ColumnX(cfg, col - 1) + ColumnStep(cfg)
  }

  lemma {:induction false} ColumnXClosed(cfg: Config, col: nat)
    ensures ColumnX(cfg, col) == -cfg.triangleSideLength + col * ColumnStep(cfg)
  {
    if col > 0 {
      ColumnXClosed(cfg, col - 1);
      assert col * ColumnStep(cfg) == (col - 1) * ColumnStep(cfg) + ColumnStep(cfg);
    }
  }

  function ColumnTop(cfg: Config, col: nat): int
  {
    if col % 2 == 0 then -cfg.triangleSideLength else -cfg.triangleSideLength + HalfSide(cfg)
  }

  /** The y of the point at `row` of column `col`: each row S below the one before. */
  function RowY(cfg: Config, col: nat, row: nat): int
  {
    if row == 0 then ColumnTop(cfg, col) else RowY(cfg, col, row - 1) + cfg.triangleSideLength
  }

  lemma {:induction false} RowYClosed(cfg: Config, col: nat, row: nat)
    ensures RowY(cfg, col, row) == ColumnTop(cfg, col) + row * cfg.triangleSideLength
  {
    if row > 0 {
      RowYClosed(cfg, col, row - 1);
      assert row * cfg.triangleSideLength == (row - 1) * cfg.triangleSideLength + cfg.triangleSideLength;
    }
  }

  function LatticePoint(cfg: Config, col: nat, row: nat): MeshPoint
  {
    NewPoint(ColumnX(cfg, col) as real, RowY(cfg, col, row) as real)
  }

  /** The first `n` points of column `col` of the lattice. */
  function LatticeColumn(cfg: Config, col: nat, n: nat): (column: seq<MeshPoint>)
    ensures |column| == n
  {
    if n == 0 then [] else LatticeColumn(cfg, col, n - 1) + [LatticePoint(cfg, col, n - 1)]
  }

  lemma {:induction false} LatticeColumnAt(cfg: Config, col: nat, n: nat)
    ensures forall r :: 0 <= r < n ==> LatticeColumn(cfg, col, n)[r] == LatticePoint(cfg, col, r)
  {
    if n > 0 {
      LatticeColumnAt(cfg, col, n - 1);
    }
  }

  /** Column `col` of the lattice: its points from the top, ending with the last
      one whose y is below the limit. */
  ghost predicate IsColumn(cfg: Config, col: nat, column: seq<MeshPoint>)
  {
    && |column| >= 1
    && column == LatticeColumn(cfg, col, |column|)
    && RowY(cfg, col, |column| - 1) < YLimit(cfg)
    && RowY(cfg, col, |column|) >= YLimit(cfg)
  }

  /** Every column of `points` is the lattice column of its number, and lies left of the limit. */
  ghost predicate LatticeColumns(cfg: Config, points: seq<seq<MeshPoint>>)
  {
    |points| > 0 ==>
      var c := |points| - 1;
      && LatticeColumns(cfg, points[..c])
      && IsColumn(cfg, c, points[c]) && ColumnX(cfg, c) < XLimit(cfg)
  }

  /** The whole lattice: every column whose x is below the limit, and no more. */
  ghost predicate IsLattice(cfg: Config, points: seq<seq<MeshPoint>>)
  {
    && LatticeColumns(cfg, points)
    && ColumnX(cfg, |points|) >= XLimit(cfg)
  }

  /** Each column of a lattice prefix is a lattice column. */
  lemma {:induction false} LatticeColumnsAt(cfg: Config, points: seq<seq<MeshPoint>>, c: nat)
    requires LatticeColumns(cfg, points) && c < |points|
    ensures IsColumn(cfg, c, points[c]) && ColumnX(cfg, c) < XLimit(cfg)
  {
    if c < |points| - 1 {
      LatticeColumnsAt(cfg, points[..|points| - 1], c);
    }
  }

  /** The column spacing and the odd-column offset of a sanitised configuration. */
  lemma SpacingBounds(cfg: Config)
    requires Sanitised(cfg)
    ensures ColumnStep(cfg) >= 17
    ensures 0 < HalfSide(cfg) < cfg.triangleSideLength
  {
  }

  /** Every lattice point has y below the row limit. */
  lemma {:induction false} LatticeRowsBelowLimit(cfg: Config, points: seq<seq<MeshPoint>>, c: nat, r: nat)
    requires Sanitised(cfg) && IsLattice(cfg, points)
    requires c < |points| && r < |points[c]|
    ensures points[c][r].y < YLimit(cfg) as real
    ensures points[c][r].x == (-cfg.triangleSideLength + c * ColumnStep(cfg)) as real
  {
    ColumnXClosed(cfg, c);
    LatticeColumnsAt(cfg, points, c);
    LatticeColumnAt(cfg, c, |points[c]|);
    RowYMonotone(cfg, c, r, |points[c]| - 1);
  }

  /** Rows further down a column have larger y. */
  lemma {:induction false} RowYMonotone(cfg: Config, c: nat, r: nat, s: nat)
    requires Sanitised(cfg) && r <= s
    ensures RowY(cfg, c, r) <= RowY(cfg, c, s)
  {
    if r < s {
      RowYMonotone(cfg, c, r, s - 1);
    }
  }

  // ---------------------------------------------------------------------------
  // Stitching triangles
  // ---------------------------------------------------------------------------

  /** Rows by which a column's row numbers run ahead of the previous column's:
      an even column starts half a row above its odd predecessor. */
  function Lag(col: nat): nat
  {
    if col % 2 == 0 then 1 else 0
  }

  /** `previousPointIndex` once the first `row` points of column `col` have
      been handled, when the previous column has `m` points. */
  function StitchIndex(col: nat, row: nat, m: nat): nat
  {
    if col == 0 || row < Lag(col) then 0
    else if row - Lag(col) < m then row - Lag(col)
    else m
  }

  /** The triangles pushed when the point at `row` of column `col` is created:
      the one above it, then the one to its left. */
  function PointTriangles(col: nat, row: nat, m: nat): seq<Triangle>
  {
    var k := StitchIndex(col, row, m);
    if col == 0 || k > m - 1 || (row == 0 && col % 2 == 0) then []
    else AboveTriangle(col, row, k) + LeftTriangle(col, row, k, m)
  }

  /** The triangle above the point at `row` of column `col`, if that is not the
      column's top point; `k` is the stitch index into the previous column. */
  function AboveTriangle(col: nat, row: nat, k: nat): seq<Triangle>
    requires col >= 1
  {
    if row >= 1 then [Triangle(Vertex(col, row), Vertex(col, row - 1), Vertex(col - 1, k))] else []
  }

  /** The triangle to the left of the point, if the previous column (of `m`
      points) has a point after `k`. */
  function LeftTriangle(col: nat, row: nat, k: nat, m: nat): seq<Triangle>
    requires col >= 1
  {
    if k < m - 1 then [Triangle(Vertex(col, row), Vertex(col - 1, k), Vertex(col - 1, k + 1))] else []
  }

  /** One step of the stitching: which triangles the point at `row` adds, and
      how the stitch index moves on. A skipped point adds nothing and leaves the
      index where it is; any other point adds its triangles and advances it. */
  lemma StitchStep(col: nat, row: nat, m: nat)
    ensures ColumnTriangles(col, row + 1, m) == ColumnTriangles(col, row, m) + PointTriangles(col, row, m)
    ensures var k := StitchIndex(col, row, m);
      if col == 0 || k > m - 1 || (row == 0 && col % 2 == 0) then
        PointTriangles(col, row, m) == [] && StitchIndex(col, row + 1, m) == k
      else
        PointTriangles(col, row, m) == AboveTriangle(col, row, k) + LeftTriangle(col, row, k, m)
        && StitchIndex(col, row + 1, m) == k + 1
  {
  }

  /** Stated on its own so that the triangle-list proofs below can call it
      at one point instead of carrying the fact through a whole method. */
  lemma AppendNothing<T>(a: seq<T>)
    ensures a + [] == a
  {
  }

  lemma AppendAssoc<T>(a: seq<T>, b: seq<T>, c: seq<T>)
    ensures a + b + c == a + (b + c)
  {
  }

  /** The triangles pushed while the first `n` points of column `col` are created. */
  function ColumnTriangles(col: nat, n: nat, m: nat): seq<Triangle>
  {
    if n == 0 then [] else ColumnTriangles(col, n - 1, m) + PointTriangles(col, n - 1, m)
  }

  /** The column lengths of a grid. */
  function Lengths(points: seq<seq<MeshPoint>>): (lens: seq<nat>)
    ensures |lens| == |points|
    ensures forall c :: 0 <= c < |points| ==> lens[c] == |points[c]|
  {
    seq(|points|, c requires 0 <= c < |points| => |points[c]|)
  }

  /** The length of the column before `col`, 0 for the first column. */
  function PreviousLength(lens: seq<nat>, col: nat): nat
    requires col < |lens|
  {
    if col >= 1 then lens[col - 1] else 0
  }

  /** All triangles of a grid whose columns have lengths `lens`, column by column. */
  function MeshTriangles(lens: seq<nat>): seq<Triangle>
  {
    if |lens| == 0 then []
    else
      var c := |lens| - 1;
      MeshTriangles(lens[..c]) + ColumnTriangles(c, lens[c], PreviousLength(lens, c))
  }

  /** The columns generated so far, extended by the next one. */
  lemma ColumnsSnoc(cfg: Config, points: seq<seq<MeshPoint>>, column: seq<MeshPoint>)
    requires LatticeColumns(cfg, points)
    requires IsColumn(cfg, |points|, column) && ColumnX(cfg, |points|) < XLimit(cfg)
    ensures LatticeColumns(cfg, points + [column])
  {
    assert (points + [column])[..|points|] == points;
  }

  /** The length of the last column of a grid, 0 for an empty grid. */
  function LastLength(points: seq<seq<MeshPoint>>): nat
  {
    if |points| >= 1 then |points[|points| - 1]| else 0
  }

  /** Appending a column appends that column's triangles. */
  lemma MeshTrianglesSnoc(points: seq<seq<MeshPoint>>, column: seq<MeshPoint>)
    ensures MeshTriangles(Lengths(points + [column])) ==
      MeshTriangles(Lengths(points)) + ColumnTriangles(|points|, |column|, LastLength(points))
  {
    assert Lengths(points + [column])[..|points|] == Lengths(points);
  }

  ghost predicate InMesh(v: Vertex, lens: seq<nat>)
  {
    v.col < |lens| && v.row < lens[v.col]
  }

  /** The triangle above point1: point2 sits right above point1 in its column and
      point3 is their neighbour in the previous column. */
  ghost predicate IsAbove(t: Triangle)
  {
    var c := t.point1.col;
    var r := t.point1.row;
    && c >= 1 && r >= 1 && r >= Lag(c)
    && t.point2 == Vertex(c, r - 1)
    && t.point3 == Vertex(c - 1, r - Lag(c))
  }

  /** The triangle left of point1: two consecutive points of the previous column. */
  ghost predicate IsLeft(t: Triangle)
  {
    var c := t.point1.col;
    var r := t.point1.row;
    && c >= 1 && r >= Lag(c)
    && t.point2 == Vertex(c - 1, r - Lag(c))
    && t.point3 == Vertex(c - 1, r - Lag(c) + 1)
  }

  /** A triangle of the grid with column lengths `lens`: all three vertices exist,
      and it is one of the two lattice shapes. */
  ghost predicate WellFormed(t: Triangle, lens: seq<nat>)
  {
    && InMesh(t.point1, lens) && InMesh(t.point2, lens) && InMesh(t.point3, lens)
    && (IsAbove(t) || IsLeft(t))
  }

  /** Every triangle the stitching emits for one point is well formed: every index
      it reads (`previousColumn[previousPointIndex]`, `[previousPointIndex + 1]`,
      `currentColumn[length - 2]`) is in bounds. */
  lemma PointTrianglesWellFormed(lens: seq<nat>, col: nat, row: nat)
    requires col < |lens| && row < lens[col]
    ensures forall t :: t in PointTriangles(col, row, PreviousLength(lens, col)) ==> WellFormed(t, lens)
  {
  }

  lemma {:induction false} ColumnTrianglesWellFormed(lens: seq<nat>, col: nat, n: nat)
    requires col < |lens| && n <= lens[col]
    ensures forall t :: t in ColumnTriangles(col, n, PreviousLength(lens, col)) ==> WellFormed(t, lens)
  {
    if n > 0 {
      var m := PreviousLength(lens, col);
      var before := ColumnTriangles(col, n - 1, m);
      var added := PointTriangles(col, n - 1, m);
      ColumnTrianglesWellFormed(lens, col, n - 1);
      PointTrianglesWellFormed(lens, col, n - 1);
      assert ColumnTriangles(col, n, m) == before + added;
      forall t | t in before + added ensures WellFormed(t, lens) {
        if t in before {
          assert WellFormed(t, lens);
        } else {
          assert t in added;
        }
      }
    }
  }

  /** Every triangle of the mesh is well formed; in particular column 0 creates
      none, and every triangle joins a column to the one before it. */
  lemma {:induction false} MeshTrianglesWellFormed(lens: seq<nat>)
    ensures forall t :: t in MeshTriangles(lens) ==> WellFormed(t, lens)
    ensures forall t :: t in MeshTriangles(lens) ==>
      t.point1.col >= 1 && t.point2.col >= t.point1.col - 1 && t.point3.col == t.point1.col - 1
  {
    if |lens| > 0 {
      var c := |lens| - 1;
      MeshTrianglesWellFormed(lens[..c]);
      ColumnTrianglesWellFormed(lens, c, lens[c]);
      forall t | t in MeshTriangles(lens[..c]) ensures WellFormed(t, lens) {
        assert WellFormed(t, lens[..c]);
      }
    }
  }

  function At(points: seq<seq<MeshPoint>>, v: Vertex): MeshPoint
    requires v.col < |points| && v.row < |points[v.col]|
  {
    points[v.col][v.row]
  }

  /** The point `r - Lag(c)` of the previous column lies strictly between rows
      r - 1 and r of column c. */
  lemma NeighbourBetween(cfg: Config, c: nat, r: nat)
    requires Sanitised(cfg) && c >= 1 && r >= 1 && r >= Lag(c)
    ensures RowY(cfg, c, r - 1) < RowY(cfg, c - 1, r - Lag(c)) < RowY(cfg, c, r)
  {
    SpacingBounds(cfg);
    RowYClosed(cfg, c, r);
    RowYClosed(cfg, c - 1, r - Lag(c));
    if c % 2 == 0 {
      // column c starts at -S, column c - 1 half a side lower and one row behind
      assert r * cfg.triangleSideLength == (r - 1) * cfg.triangleSideLength + cfg.triangleSideLength;
    }
  }

  /** Two consecutive points `k`, `k + 1` of the previous column straddle row r of column c. */
  lemma PointBetweenNeighbours(cfg: Config, c: nat, r: nat)
    requires Sanitised(cfg) && c >= 1 && r >= Lag(c)
    ensures RowY(cfg, c - 1, r - Lag(c)) < RowY(cfg, c, r) < RowY(cfg, c - 1, r - Lag(c) + 1)
  {
    SpacingBounds(cfg);
    var k := r - Lag(c);
    RowYClosed(cfg, c, r);
    RowYClosed(cfg, c - 1, k);
    if c % 2 == 0 {
      assert r * cfg.triangleSideLength == k * cfg.triangleSideLength + cfg.triangleSideLength;
    }
  }

  /** Where the sketch resets `currentY` for the next column. */
  lemma NextColumnTop(cfg: Config, c: nat)
    ensures ColumnTop(cfg, c + 1) == -cfg.triangleSideLength + (if c % 2 == 1 then 0 else HalfSide(cfg))
  {
  }

  /** In the lattice, every triangle has two vertices in one column exactly S
      apart and its third vertex one column to the left, strictly between them
      vertically. So its three points are pairwise distinct. */
  lemma TriangleGeometry(cfg: Config, points: seq<seq<MeshPoint>>, t: Triangle)
    requires Sanitised(cfg) && IsLattice(cfg, points)
    requires WellFormed(t, Lengths(points))
    ensures var p1, p2, p3 := At(points, t.point1), At(points, t.point2), At(points, t.point3);
      && p1 != p2 && p1 != p3 && p2 != p3
      && (IsAbove(t) ==>
            && p1.x == p2.x && p1.y - p2.y == cfg.triangleSideLength as real
            && p3.x == p1.x - ColumnStep(cfg) as real && p2.y < p3.y < p1.y)
      && (IsLeft(t) ==>
            && p2.x == p3.x && p3.y - p2.y == cfg.triangleSideLength as real
            && p2.x == p1.x - ColumnStep(cfg) as real && p2.y < p1.y < p3.y)
  {
    var c := t.point1.col;
    var r := t.point1.row;
    LatticeColumnsAt(cfg, points, c);
    LatticeColumnsAt(cfg, points, t.point2.col);
    LatticeColumnsAt(cfg, points, t.point3.col);
    LatticeColumnAt(cfg, c, |points[c]|);
    LatticeColumnAt(cfg, t.point2.col, |points[t.point2.col]|);
    LatticeColumnAt(cfg, t.point3.col, |points[t.point3.col]|);
    assert At(points, t.point1) == LatticePoint(cfg, c, r);
    assert At(points, t.point2) == LatticePoint(cfg, t.point2.col, t.point2.row);
    assert At(points, t.point3) == LatticePoint(cfg, t.point3.col, t.point3.row);
    if IsAbove(t) {
      NeighbourBetween(cfg, c, r);
    }
    if IsLeft(t) {
      PointBetweenNeighbours(cfg, c, r);
    }
  }

  // ---------------------------------------------------------------------------
  // The warp
  // ---------------------------------------------------------------------------

  function Abs(x: real): real
  {
    if x < 0.0 then -x else x
  }

  /** `Math.pow(x, 2)`. */
  function Square(x: real): (r: real)
    ensures r >= 0.0
  {
    SquareNonneg(x);
    x * x
  }

  /** `Math.pow(x, 3)`. */
  function Cube(x: real): real
  {
    x * x * x
  }

  /** The canvas width squared, `Math.pow(CANVAS_WIDTH, 2)`, as a positive real. */
  function WidthSquared(cfg: Config): (r: real)
    requires cfg.canvasWidth > 0
    ensures r > 0.0
    ensures r == Square(cfg.canvasWidth as real)
  {
    (cfg.canvasWidth * cfg.canvasWidth) as real
  }

  /** `round((x < 0 ? -1 : 1) * x^3 / W^2 - S)`: the signed cube is the cube of
      |x|, so the result never falls below -S and does not depend on the sign of x. */
  function WarpX(cfg: Config, x: real): (r: int)
    requires cfg.canvasWidth > 0
  {
    Round((if x < 0.0 then -1.0 else 1.0) * Cube(x) / WidthSquared(cfg) - cfg.triangleSideLength as real)
  }

  /** The horizontal warp is `round(|x| * x^2 / W^2 - S)`, so never below -S. */
  lemma WarpXAbove(cfg: Config, x: real)
    requires cfg.canvasWidth > 0
    ensures WarpX(cfg, x) == Round(Abs(x) * Square(x) / WidthSquared(cfg) - cfg.triangleSideLength as real)
    ensures WarpX(cfg, x) >= -cfg.triangleSideLength
  {
    SignedCube(x);
    StretchBelow(x, WidthSquared(cfg), cfg.triangleSideLength);
  }

  /** The signed cube `(x < 0 ? -1 : 1) * x^3` is the cube of |x|. */
  lemma SignedCube(x: real)
    ensures (if x < 0.0 then -1.0 else 1.0) * Cube(x) == Abs(x) * Square(x)
  {
  }

  /** The horizontal stretch is never below -S. */
  lemma StretchBelow(x: real, d: real, s: int)
    requires d > 0.0
    ensures Round(Abs(x) * Square(x) / d - s as real) >= -s
  {
    MulNonneg(Abs(x), Square(x));
    var q := Abs(x) * Square(x) / d;
    assert q >= 0.0;
    RoundMonotone(-s as real, q - s as real);
    RoundInt(-s);
  }

  /** The horizontal warp gives the same result for x and -x. */
  lemma WarpXSymmetric(cfg: Config, x: real)
    requires cfg.canvasWidth > 0
    ensures WarpX(cfg, -x) == WarpX(cfg, x)
  {
    WarpXAbove(cfg, x);
    WarpXAbove(cfg, -x);
    assert Square(-x) == Square(x);
  }

  /** `round((y - H/2) * (x' + W)^2 / W^2 + H/2)` where x' is the already warped
      x. The factor (x' + W)^2 / W^2 is never negative, so no point crosses the
      horizontal midline H/2; where x' is 0 the factor is 1. */
  function WarpY(cfg: Config, y: real, warpedX: real): (r: int)
    requires cfg.canvasWidth > 0
  {
    Round(Stretched(y, cfg.canvasHeight as real / 2.0, warpedX, cfg.canvasWidth))
  }

  /** The vertical warp keeps a point on its side of the midline H/2, and leaves
      y (rounded) alone where the warped x is 0. */
  lemma WarpYMidline(cfg: Config, y: real, warpedX: real)
    requires cfg.canvasWidth > 0
    ensures y <= cfg.canvasHeight as real / 2.0 ==> WarpY(cfg, y, warpedX) <= Round(cfg.canvasHeight as real / 2.0)
    ensures y >= cfg.canvasHeight as real / 2.0 ==> WarpY(cfg, y, warpedX) >= Round(cfg.canvasHeight as real / 2.0)
    ensures warpedX == 0.0 ==> WarpY(cfg, y, warpedX) == Round(y)
  {
    MidlineKept(y, cfg.canvasHeight as real / 2.0, warpedX, cfg.canvasWidth);
  }

  /** `(y - mid) * (x' + W)^2 / W^2 + mid`. */
  function Stretched(y: real, mid: real, xw: real, w: int): real
    requires w > 0
  {
    Scaled(y - mid, Square(xw + w as real), (w * w) as real) + mid
  }

  /** `c * a / b`. */
  function Scaled(c: real, a: real, b: real): real
    requires b != 0.0
  {
    c * a / b
  }

  /** The vertical stretch keeps each side of the midline and is the identity at x' = 0. */
  lemma MidlineKept(y: real, mid: real, xw: real, w: int)
    requires w > 0
    ensures y <= mid ==> Round(Stretched(y, mid, xw, w)) <= Round(mid)
    ensures y >= mid ==> Round(Stretched(y, mid, xw, w)) >= Round(mid)
    ensures xw == 0.0 ==> Round(Stretched(y, mid, xw, w)) == Round(y)
  {
    ScaleKeepsSign(y - mid, Square(xw + w as real), (w * w) as real);
    if y <= mid {
      RoundMonotone(Stretched(y, mid, xw, w), mid);
    }
    if y >= mid {
      RoundMonotone(mid, Stretched(y, mid, xw, w));
    }
    if xw == 0.0 {
      assert xw + w as real == w as real;
      DivCancel(y - mid, Square(xw + w as real), (w * w) as real);
    }
  }

  /** Scaling by a non-negative factor over a positive divisor keeps the sign. */
  lemma ScaleKeepsSign(c: real, a: real, b: real)
    requires a >= 0.0 && b > 0.0
    ensures c <= 0.0 ==> Scaled(c, a, b) <= 0.0
    ensures c >= 0.0 ==> Scaled(c, a, b) >= 0.0
  {
    if c <= 0.0 {
      MulNonneg(-c, a);
      assert c * a == -((-c) * a);
    } else {
      MulNonneg(c, a);
    }
  }

  /** A scale factor whose numerator and divisor agree leaves the value as it is. */
  lemma DivCancel(y: real, a: real, b: real)
    requires a == b && b != 0.0
    ensures Scaled(y, a, b) == y
  {
  }

  /** What `adjustPoints` does to one point given its two jitter values: the
      displayed coordinates are the lattice ones plus jitter; then x is warped,
      y is warped with the new x, and the displayed pair likewise. */
  function AdjustPoint(cfg: Config, p: MeshPoint, jitterX: real, jitterY: real): MeshPoint
    requires cfg.canvasWidth > 0
  {
    var x := WarpX(cfg, p.x) as real;
    var dx := WarpX(cfg, p.x + jitterX) as real;
    MeshPoint(x, WarpY(cfg, p.y, x) as real, dx, WarpY(cfg, p.y + jitterY, dx) as real)
  }

  /** Where an adjusted point can end up: never left of -S, on the same side
      of the midline as before, and, without jitter, drawn where it lies. */
  lemma AdjustPointBounds(cfg: Config, p: MeshPoint, jitterX: real, jitterY: real)
    requires cfg.canvasWidth > 0
    ensures var q := AdjustPoint(cfg, p, jitterX, jitterY);
      && q.x >= -cfg.triangleSideLength as real && q.displayedX >= -cfg.triangleSideLength as real
      && (p.y <= cfg.canvasHeight as real / 2.0 ==> q.y <= Round(cfg.canvasHeight as real / 2.0) as real)
      && (p.y >= cfg.canvasHeight as real / 2.0 ==> q.y >= Round(cfg.canvasHeight as real / 2.0) as real)
      && (jitterX == 0.0 && jitterY == 0.0 ==> q.displayedX == q.x && q.displayedY == q.y)
  {
    var x := WarpX(cfg, p.x) as real;
    WarpXAbove(cfg, p.x);
    WarpXAbove(cfg, p.x + jitterX);
    WarpYMidline(cfg, p.y, x);
  }

  /** The lattice coordinates a point ends with do not depend on its jitter. */
  lemma JitterMovesOnlyDisplayed(cfg: Config, p: MeshPoint, jx1: real, jy1: real, jx2: real, jy2: real)
    requires cfg.canvasWidth > 0
    ensures AdjustPoint(cfg, p, jx1, jy1).x == AdjustPoint(cfg, p, jx2, jy2).x
    ensures AdjustPoint(cfg, p, jx1, jy1).y == AdjustPoint(cfg, p, jx2, jy2).y
  {
  }

  /** An integer y on a column whose x warps to 0 keeps its value. */
  lemma WarpKeepsYAtZero(cfg: Config, y: int)
    requires cfg.canvasWidth > 0
    ensures WarpY(cfg, y as real, 0.0) == y
  {
    WarpYMidline(cfg, y as real, 0.0);
    RoundInt(y);
  }

  /** `random(-displacementLimit, displacementLimit)`. */
  function Jitter(cfg: Config, u: real): real
    requires cfg.displacementLimit >= 0
  {
    Uniform(u, -cfg.displacementLimit as real, cfg.displacementLimit as real)
  }

  /** A jitter lies in [-D, D), and is 0 when D is. */
  lemma JitterRange(cfg: Config, u: real)
    requires cfg.displacementLimit >= 0 && 0.0 <= u < 1.0
    ensures -cfg.displacementLimit as real <= Jitter(cfg, u)
    ensures cfg.displacementLimit > 0 ==> Jitter(cfg, u) < cfg.displacementLimit as real
    ensures cfg.displacementLimit == 0 ==> Jitter(cfg, u) == 0.0
  {
  }

  /** Number of points in the first `c` columns. */
  function PointsBefore(points: seq<seq<MeshPoint>>, c: nat): nat
    requires c <= |points|
  {
    if c == 0 then 0 else PointsBefore(points, c - 1) + |points[c - 1]|
  }

  /** A column after `adjustPoints`, which draws two numbers per point, in
      order, from position `pos` on. */
  function AdjustedColumn(cfg: Config, column: seq<MeshPoint>, rng: Stream, pos: nat): (adjusted: seq<MeshPoint>)
    requires Sanitised(cfg)
    ensures |adjusted| == |column|
  {
    seq(|column|, r requires 0 <= r < |column| =>
      AdjustPoint(cfg, column[r], Jitter(cfg, rng(pos + 2 * r)), Jitter(cfg, rng(pos + 2 * r + 1))))
  }

  /** The first `i` columns of `points` after `adjustPoints`: column c draws
      from position `pos + 2 * PointsBefore(points, c)` on. */
  function AdjustedPrefix(cfg: Config, points: seq<seq<MeshPoint>>, rng: Stream, pos: nat, i: nat): (grid: seq<seq<MeshPoint>>)
    requires Sanitised(cfg) && i <= |points|
    ensures |grid| == i
  {
    if i == 0 then []
    else
      var column := AdjustedColumn(cfg, points[i - 1], rng, pos + 2 * PointsBefore(points, i - 1));
      AdjustedPrefix(cfg, points, rng, pos, i - 1) + [column]
  }

  /** The whole grid after `adjustPoints`. */
  function AdjustedGrid(cfg: Config, points: seq<seq<MeshPoint>>, rng: Stream, pos: nat): seq<seq<MeshPoint>>
    requires Sanitised(cfg)
  {
    AdjustedPrefix(cfg, points, rng, pos, |points|)
  }

  /** Each point of the adjusted grid is its lattice point moved by
      `AdjustPoint` with the two draws that belong to it: the grid is walked
      column by column, top to bottom, two draws per point. The grid keeps
      its shape. */
  lemma AdjustedGridAt(cfg: Config, points: seq<seq<MeshPoint>>, rng: Stream, pos: nat, c: nat, r: nat)
    requires Sanitised(cfg) && c < |points| && r < |points[c]|
    ensures |AdjustedGrid(cfg, points, rng, pos)| == |points|
    ensures |AdjustedGrid(cfg, points, rng, pos)[c]| == |points[c]|
    ensures var q := pos + 2 * (PointsBefore(points, c) + r);
      AdjustedGrid(cfg, points, rng, pos)[c][r]
        == AdjustPoint(cfg, points[c][r], Jitter(cfg, rng(q)), Jitter(cfg, rng(q + 1)))
  {
    AdjustedPrefixAt(cfg, points, rng, pos, |points|, c);
  }

  lemma {:induction false} AdjustedPrefixAt(cfg: Config, points: seq<seq<MeshPoint>>, rng: Stream, pos: nat, i: nat, c: nat)
    requires Sanitised(cfg) && c < i <= |points|
    ensures AdjustedPrefix(cfg, points, rng, pos, i)[c]
      == AdjustedColumn(cfg, points[c], rng, pos + 2 * PointsBefore(points, c))
  {
    if c < i - 1 {
      AdjustedPrefixAt(cfg, points, rng, pos, i - 1, c);
    }
  }

  /** The outer loop of `adjustPoints`, column by column, drawing from
      position `pos` on. */
  method AdjustGrid(cfg: Config, points: seq<seq<MeshPoint>>, rng: Stream, pos: nat)
    returns (adjusted: seq<seq<MeshPoint>>, next: nat)
    requires Sanitised(cfg)
    ensures adjusted == AdjustedGrid(cfg, points, rng, pos)
    ensures next == pos + 2 * PointsBefore(points, |points|)
  {
    adjusted := [];
    next := pos;
    for i := 0 to |points|
      invariant adjusted == AdjustedPrefix(cfg, points, rng, pos, i)
      invariant next == pos + 2 * PointsBefore(points, i)
    {
      // The source moves the column's point objects where they are; the
      // model collects the moved columns into a new grid instead.
      var currentColumn;
      currentColumn, next := AdjustColumn(cfg, points[i], rng, next);
      adjusted := adjusted + [currentColumn];
    }
  }

  /** The inner loop of `adjustPoints` over one column, drawing from position
      `pos` on: every point moves as `AdjustPoint` says, with the two draws of
      its own place in the column. */
  method AdjustColumn(cfg: Config, column: seq<MeshPoint>, rng: Stream, pos: nat)
    returns (adjusted: seq<MeshPoint>, next: nat)
    requires Sanitised(cfg)
    ensures adjusted == AdjustedColumn(cfg, column, rng, pos)
    ensures next == pos + 2 * |column|
  {
    adjusted := column;
    next := pos;
    for j := 0 to |adjusted|
      invariant |adjusted| == |column|
      invariant forall r :: 0 <= r < j ==>
        adjusted[r] == AdjustPoint(cfg, column[r], Jitter(cfg, rng(pos + 2 * r)), Jitter(cfg, rng(pos + 2 * r + 1)))
      invariant forall r :: j <= r < |adjusted| ==> adjusted[r] == column[r]
      invariant next == pos + 2 * j
    {
      var currentPoint := adjusted[j];
      // Jitter where the point is drawn, one draw per coordinate.
      currentPoint := currentPoint.(displayedX := currentPoint.x + Jitter(cfg, rng(next)));
      currentPoint := currentPoint.(displayedY := currentPoint.y + Jitter(cfg, rng(next + 1)));
      next := next + 2;
      // Warp both positions, each step reading the fields as already updated.
      currentPoint := currentPoint.(x := WarpX(cfg, currentPoint.x) as real);
      currentPoint := currentPoint.(y := WarpY(cfg, currentPoint.y, currentPoint.x) as real);
      currentPoint := currentPoint.(displayedX := WarpX(cfg, currentPoint.displayedX) as real);
      currentPoint := currentPoint.(displayedY := WarpY(cfg, currentPoint.displayedY, currentPoint.displayedX) as real);
      adjusted := adjusted[j := currentPoint];
    }
  }

  // ---------------------------------------------------------------------------
  // The sketch's global state
  // ---------------------------------------------------------------------------

  /** The sketch's global `points` (column by column) and `triangles`, with the
      configuration `setup` settled on. */
  class Mesh {
    const cfg: Config
    var points: seq<seq<MeshPoint>>
    var triangles: seq<Triangle>

    constructor (cfg: Config)
      ensures this.cfg == cfg && points == [] && triangles == []
    {
      this.cfg := cfg;
      points := [];
      triangles := [];
    }

    /** `generatePoints`: walks the columns left to right, pushing each column
        once it is complete. Afterwards the points are exactly the lattice, and
        the triangles those of `MeshTriangles`, all well formed. */
    method GeneratePoints()
      requires Sanitised(cfg)
      requires points == [] && triangles == []
      modifies this
      ensures IsLattice(cfg, points)
      ensures triangles == MeshTriangles(Lengths(points))
    {
      var S := cfg.triangleSideLength;
      SpacingBounds(cfg);
      var currentX := -S;
      var currentY := -S;
      var columnNumber: nat := 0;

      while currentX < cfg.canvasWidth + 2 * S
        invariant |points| == columnNumber
        invariant currentX == ColumnX(cfg, columnNumber)
        invariant currentY == ColumnTop(cfg, columnNumber)
        invariant LatticeColumns(cfg, points)
        invariant triangles == MeshTriangles(Lengths(points))
      {
        var currentColumn := GenerateColumn(columnNumber, currentX, currentY);
        ColumnsSnoc(cfg, points, currentColumn);
        points := points + [currentColumn];

        // Prepare to handle the next column.
        currentX := currentX + ColumnStep(cfg);
        currentY := -S + (if columnNumber % 2 == 1 then 0 else HalfSide(cfg));
        NextColumnTop(cfg, columnNumber);
        columnNumber := columnNumber + 1;
      }
    }

    /** One pass of `generatePoints`' inner loop: creates column `columnNumber`
        top to bottom and stitches each new point to the previous column, the
        last one of `points`. */
    method GenerateColumn(columnNumber: nat, currentX: int, startY: int) returns (currentColumn: seq<MeshPoint>)
      requires Sanitised(cfg)
      requires |points| == columnNumber
      requires currentX == ColumnX(cfg, columnNumber) && startY == ColumnTop(cfg, columnNumber)
      requires triangles == MeshTriangles(Lengths(points))
      modifies this`triangles
      ensures IsColumn(cfg, columnNumber, currentColumn)
      ensures triangles == MeshTriangles(Lengths(points + [currentColumn]))
    {
      var S := cfg.triangleSideLength;
      SpacingBounds(cfg);
      var currentY := startY;
      var previousPointIndex: nat := 0;
      currentColumn := [];
      var previousColumn := if |points| > 0 then points[|points| - 1] else [];
      ghost var m := |previousColumn|;
      assert m == LastLength(points);

      while currentY < cfg.canvasHeight + 2 * S
        invariant currentY == RowY(cfg, columnNumber, |currentColumn|)
        invariant currentColumn == LatticeColumn(cfg, columnNumber, |currentColumn|)
        invariant |currentColumn| > 0 ==> RowY(cfg, columnNumber, |currentColumn| - 1) < YLimit(cfg)
        invariant previousPointIndex == StitchIndex(columnNumber, |currentColumn|, m)
        invariant triangles == old(triangles) + ColumnTriangles(columnNumber, |currentColumn|, m)
      {
        ghost var row := |currentColumn|;
        // Create and store a new point.
        var newPoint := NewPoint(currentX as real, currentY as real);
        currentColumn := currentColumn + [newPoint];
        currentY := currentY + S;

        previousPointIndex := StitchPoint(columnNumber, currentColumn, previousColumn, previousPointIndex);
        AppendAssoc(old(triangles), ColumnTriangles(columnNumber, row, m), PointTriangles(columnNumber, row, m));
      }
      // The top point always lies above the limit, so the column is never empty.
      assert RowY(cfg, columnNumber, 0) < YLimit(cfg);
      assert |currentColumn| >= 1;
      assert triangles == MeshTriangles(Lengths(points)) + ColumnTriangles(columnNumber, |currentColumn|, m);
      MeshTrianglesSnoc(points, currentColumn);
    }

    /** The rest of one pass of the inner loop of `generatePoints`, after the
        new point (the last of `currentColumn`) is stored: unless the point is
        in the first column, past the end of the previous column, or the top
        of an even column, pushes the triangle above it and the one to its
        left, and advances the stitch index. */
    method StitchPoint(columnNumber: nat, currentColumn: seq<MeshPoint>, previousColumn: seq<MeshPoint>,
                       previousPointIndex: nat) returns (nextIndex: nat)
      requires |currentColumn| >= 1
      requires previousPointIndex == StitchIndex(columnNumber, |currentColumn| - 1, |previousColumn|)
      modifies this`triangles
      ensures triangles == old(triangles) + PointTriangles(columnNumber, |currentColumn| - 1, |previousColumn|)
      ensures nextIndex == StitchIndex(columnNumber, |currentColumn|, |previousColumn|)
    {
      ghost var row := |currentColumn| - 1;
      ghost var m := |previousColumn|;
      StitchStep(columnNumber, row, m);
      nextIndex := previousPointIndex;
      if columnNumber == 0 || previousPointIndex > |previousColumn| - 1 {
        AppendNothing(triangles);
        return;
      }
      if |currentColumn| == 1 && columnNumber % 2 == 0 {
        AppendNothing(triangles);
        return;
      }
      // The triangle above the new point.
      if |currentColumn| >= 2 {
        triangles := triangles + [Triangle(
          Vertex(columnNumber, |currentColumn| - 1),
          Vertex(columnNumber, |currentColumn| - 2),
          Vertex(columnNumber - 1, previousPointIndex))];
      }
      ghost var aboveAdded := triangles;
      // The triangle to the left of the new point.
      if previousPointIndex < |previousColumn| - 1 {
        triangles := triangles + [Triangle(
          Vertex(columnNumber, |currentColumn| - 1),
          Vertex(columnNumber - 1, previousPointIndex),
          Vertex(columnNumber - 1, previousPointIndex + 1))];
      } else {
        AppendNothing(aboveAdded);
      }
      AppendAssoc(old(triangles), AboveTriangle(columnNumber, row, previousPointIndex),
        LeftTriangle(columnNumber, row, previousPointIndex, m));
      nextIndex := previousPointIndex + 1;
    }

    /** `adjustPoints`: for every point, column by column, draws the jitter of
        its displayed x then y, then overwrites x, y, displayedX and displayedY
        in that order, each warp reading the fields as already updated. The
        triangles, which refer to grid positions, are left as they are. */
    method AdjustPoints(rng: Stream, pos: nat) returns (next: nat)
      requires Sanitised(cfg)
      modifies this
      ensures triangles == old(triangles)
      ensures points == AdjustedGrid(cfg, old(points), rng, pos)
      ensures next == pos + 2 * PointsBefore(old(points), |old(points)|)
    {
      points, next := AdjustGrid(cfg, points, rng, pos);
    }
  }
}
