# Algorithmic-art sketches: the geometry, verified

This project models the geometry builders of four p5.js sketches and proves
what they promise. Each sketch becomes one Dafny module:

- **Mache** (`mache.dfy`): a papier-mâché mesh. `setup` reads four settings,
  falling back to a default and clamping each one. `generatePoints` lays a
  triangular lattice column by column and stitches triangles between the new
  column and the previous one as it goes. `adjustPoints` then jitters the
  drawn position of every point and warps both positions in place. The
  sketch's global `points` and `triangles` are the fields of the class
  `Mesh`.
- **Bliksem** (`bliksem.dfy`): lightning. A `Bolt` object grows outward in
  polar steps of radius 10. Its angle drifts by a clamped momentum plus a
  random turn. The recursive `generateBolt` spawns branches, at most one per
  16 points. Each branch is generated in full and listed before the bolt
  that spawned it.
- **Settlements** (`settlements.dfy`): a board of hexagonal tiles in rows of
  3, 4, 5, 4 and 3. Each tile gets a random resource and a dice number other
  than 7, redrawn while it is 7. The `Hexagon` vertex layout, the robber
  flag, the six compass moves, the pip counts and the nine fixed ports are
  modelled too.
- **Dunes** (`dunes.dfy`): 26 waves of 25 points each. Every wave is a
  random walk one wave width to the right of the wave before it. The waves
  are drawn from the last to the first, each as a filled outline reaching to
  the left edge.
- **P5** (`p5.dfy`): the library helpers the sketches use, over exact reals:
  `random(min, max)`, `round` (which is `Math.round`) and `constrain`.

Every random draw comes from a stream of unit draws, `rng: nat -> real`.
Each generator takes the position of its first draw and returns the position
after its last one. So the model fixes the order in which a sketch consumes
`Math.random()`. The generators assume `IsUnitStream(rng)`: every draw lies
in [0, 1). The settlements dice loop needs one more assumption, because it
redraws while the number is 7. `Settlements.DrawNumber` requires
`NonSevenFrom(rng, pos)`: some draw at `pos` or later is not a 7.
`Settlements.GenerateRow` and `Settlements.GenerateTiles` require
`Fair(rng)`: that holds from every position on. Coordinates and angles are `real`. In the
settlements sketch, `Math.sqrt(3)` is irrational, so its rounded products
are integer constants: 147, 74 and 39. `SqrtThreeRoundings` proves each of
them from `r * r == 3`.

Three facts of the code that shape the model:

- Adjacent hexes do not meet edge to edge. The tile spacing is
  `round(85 * sqrt(3)) = 147`, while each hexagon is
  `2 * round(43 * sqrt(3)) = 148` wide. So neighbours in a row overlap by
  one unit (`RowNeighboursOverlap`).
- The rows of 3 tiles (the first and the fifth) start one tile width in.
  The rows of 4 (the second and the fourth) start half a tile width in
  (settlements/sketch.js:269, 278, 287, 296, 305).
- `generateBolt` always terminates. A branch starts at the point its parent
  has just added, and that point lies at least 10 beyond the parent's own
  first point. No bolt grows past radius 600. So the recursion decreases
  `Room(initialRadius)`, the distance left to radius 600.

## Model

| member | source | states |
|---|---|---|
| P5.Uniform | mache/sketch.js:148 | p5 `random(min, max)` on a unit draw lies in [min, max), and is `min` when the range is empty |
| P5.Round | mache/sketch.js:154-159 | `Math.round(x)` is the integer within half a unit of `x`, halves rounding up |
| P5.Constrain | bliksem/sketch.js:27-32 | p5 `constrain(n, low, high)`: inside [low, high] when low <= high; `n` itself when `n` is in range; the nearer bound otherwise |
| Mache.Constrain | mache/sketch.js:54-57 | `max(a, min(x, b))` lies in [a, b] when a <= b; it is `x` when `x` is in range; `a` below the range or when the range is empty; `b` above it |
| Mache.ConstrainIdempotent | mache/sketch.js:54-57 | clamping twice equals clamping once |
| Mache.ParseOrDefault | mache/sketch.js:222-224 | a missing or unparseable setting becomes the default; a present one is rounded to the nearest integer |
| Mache.Configure | mache/sketch.js:222-256 | the settings are sanitised: width and height are at least 10 with no upper bound; side length is clamped to [20, 150]; displacement limit is clamped to [0, 75]; each missing one takes its default |
| Mache.ColumnXClosed | mache/sketch.js:129 | column `c` has x = -S + c * round(S * 1.732 / 2) |
| Mache.RowYClosed | mache/sketch.js:88-92 | point `r` of column `c` lies r * S below the column's top |
| Mache.NextColumnTop | mache/sketch.js:130-134 | the next column starts at -S after an odd column and at -S + round(S / 2) after an even one |
| Mache.LatticeColumnAt | mache/sketch.js:88-92 | the `r`-th point of a generated column is the lattice point of that column and row |
| Mache.LatticeColumnsAt | mache/sketch.js:83-126 | every stored column is a complete lattice column whose x lies below the width limit W + 2S |
| Mache.SpacingBounds | mache/sketch.js:129-133 | for a sanitised side length, columns are at least 17 apart and the odd-column offset lies strictly between 0 and S |
| Mache.LatticeRowsBelowLimit | mache/sketch.js:83-92 | every generated point lies above the height limit H + 2S and at its column's x |
| Mache.RowYMonotone | mache/sketch.js:88-92 | within a column, y increases with the row |
| Mache.StitchStep | mache/sketch.js:94-122 | a point adds no triangle in column 0, past the previous column's end, or at the top of an even column; otherwise it adds the triangle above it (when it is not first) and the one to its left (when a next previous point exists), and the previous-column index advances |
| Mache.MeshTrianglesSnoc | mache/sketch.js:83-126 | pushing a column appends exactly that column's stitched triangles |
| Mache.PointTrianglesWellFormed | mache/sketch.js:96-121 | every triangle a point adds uses in-bounds indices of the current and the previous column |
| Mache.ColumnTrianglesWellFormed | mache/sketch.js:88-123 | every triangle a column adds uses in-bounds indices |
| Mache.MeshTrianglesWellFormed | mache/sketch.js:83-136 | every triangle of the mesh is well formed, joins a point of column c >= 1 to column c - 1, and column 0 adds none |
| Mache.NeighbourBetween | mache/sketch.js:103-109 | the previous-column vertex of the triangle above a point lies strictly between that point and the point above it |
| Mache.PointBetweenNeighbours | mache/sketch.js:113-120 | the new point of a left triangle lies strictly between its two previous-column vertices |
| Mache.TriangleGeometry | mache/sketch.js:103-120 | before the warp, a triangle's three vertices are distinct points, and two of them lie in one column exactly S apart |
| Mache.WarpXAbove | mache/sketch.js:154-159 | the x-warp `(x<0?-1:1) * x^3 / W^2 - S` equals `round(abs(x)^3 / W^2 - S)` and is never below -S |
| Mache.SignedCube | mache/sketch.js:155-156 | the signed cube equals abs(x) * x^2 |
| Mache.WarpXSymmetric | mache/sketch.js:154-159 | x and -x warp to the same value |
| Mache.WarpYMidline | mache/sketch.js:160-165 | the y-warp never moves a point across the midline H / 2, and leaves y alone when the warped x is 0 |
| Mache.WarpKeepsYAtZero | mache/sketch.js:160-165 | an integer y stays put when the warped x is 0 |
| Mache.AdjustPointBounds | mache/sketch.js:146-177 | an adjusted point has x and drawn x at least -S, stays on its side of the midline, and without jitter is drawn where it lies |
| Mache.JitterMovesOnlyDisplayed | mache/sketch.js:146-165 | the logical coordinates do not depend on the jitter |
| Mache.JitterRange | mache/sketch.js:148-151 | jitter lies in [-D, D), and is 0 when D = 0 |
| Mache.AdjustedGridAt | mache/sketch.js:140-179 | the adjusted grid keeps its shape, and point (c, r) is adjusted with the two draws numbered by its position in column-major order |
| Mache.AdjustedPrefixAt | mache/sketch.js:140-179 | the first `i` adjusted columns each use the draws after all earlier columns |
| Mache.AdjustGrid | mache/sketch.js:140-179 | the nested loop produces the adjusted grid and consumes two draws per point |
| Mache.AdjustColumn | mache/sketch.js:142-178 | the inner loop adjusts one column point by point, two draws each |
| Mache.Mesh.constructor | mache/sketch.js:33-34 | the mesh starts with no points and no triangles |
| Mache.Mesh.GeneratePoints | mache/sketch.js:78-137 | afterwards the points are exactly the lattice, and the triangles are those stitched column by column |
| Mache.Mesh.GenerateColumn | mache/sketch.js:84-126 | one pass of the outer loop builds a lattice column and appends its triangles |
| Mache.Mesh.StitchPoint | mache/sketch.js:94-122 | the triangles around one new point are appended, and the previous-column index advances as the stitching rule says |
| Mache.Mesh.AdjustPoints | mache/sketch.js:139-180 | the grid is replaced by the adjusted grid, and the triangles, which name grid positions, are untouched |
| Bliksem.Bolt.constructor | bliksem/sketch.js:12-18 | a new bolt holds exactly the point (initialAngle, initialRadius), no branches, and the given trunk flag and momentum |
| Bliksem.Bolt.LastPoint | bliksem/sketch.js:20-22 | the last point is one of the bolt's points |
| Bliksem.Bolt.AddPoint | bliksem/sketch.js:24-34 | exactly one point is appended and earlier ones are unchanged; the momentum becomes the last angle step clamped to [-0.05, 0.05]; the bolt's consistency is kept |
| Bliksem.GrowStep | bliksem/sketch.js:44-48 | a growth step moves 10 further out and turns by a draw from [momentum - 0.1, momentum + 0.1) |
| Bliksem.StepsSnoc | bliksem/sketch.js:44-48 | a valid growth step extends a step-by-step bolt |
| Bliksem.MomentumAt | bliksem/sketch.js:26-33 | the momentum once `n` points exist: the initial momentum for one point, otherwise the last angle step clamped to [-0.05, 0.05] |
| Bliksem.GenerateBolt | bliksem/sketch.js:37-61 | the result is non-empty; the last bolt starts at (initialAngle, initialRadius) with the given flag and momentum; every bolt is grown; every other bolt is a non-trunk branch starting further out, with momentum in [-0.05, 0.05], that hangs off a later bolt in the list; the list is the flattening of a spawn tree in which every bolt has exactly `numBranches` direct children, each spawned under the cap at one of its points with the negated momentum there |
| Bliksem.GrowBolt | bliksem/sketch.js:40-58 | the loop grows the bolt until it is finished and returns its branches, with theirs, in spawn order; the bolt has one recorded spawn per branch it counts, each at a point of the bolt, under the cap, with the negated momentum, in increasing point order |
| Bliksem.GrowPass | bliksem/sketch.js:44-56 | one pass appends exactly one point 10 further out, keeps the spawn record, and consumes at least one draw |
| Bliksem.MaybeBranch | bliksem/sketch.js:49-56 | without a spawn, the list, the record and numBranches are unchanged; with one, numBranches was below points / 16 and goes up by one, and the new branch is recorded at the bolt's last point, starting there with the negated momentum, after the earlier branches |
| Bliksem.SpawnBranch | bliksem/sketch.js:52-54 | the branch's whole list is appended after the earlier ones, its trunk starts at the new point with the negated momentum, and the record gains one spawn at the last point |
| Bliksem.SpawnKeepsHanging | bliksem/sketch.js:52-54 | appending a branch's list keeps every bolt finished, beyond the initial radius, and hanging from a later bolt or the growing one |
| Bliksem.SpawnRecorded | bliksem/sketch.js:49-55 | a spawn under the cap at the last point with the negated momentum extends the spawn record, and its list follows the earlier ones |
| Bliksem.MomentumAtPrefix | bliksem/sketch.js:24-34 | later points do not change the momentum in force at an earlier point |
| Bliksem.SpawnsGrow | bliksem/sketch.js:48 | growing a bolt keeps its spawn record, and every recorded spawn point is an earlier point |
| Bliksem.SpawnsAppend | bliksem/sketch.js:52-55 | a spawn later than all recorded ones extends the record |
| Bliksem.FlattenAllSnoc | bliksem/sketch.js:52-54 | one more spawn tree lists its bolts after all earlier ones |
| Bliksem.AllGrownAppend | bliksem/sketch.js:52-54 | concatenating finished bolts keeps them finished |
| Bliksem.BranchesBeyondAppend | bliksem/sketch.js:52-54 | concatenating branch lists keeps them beyond the radius |
| Bliksem.SubtreeBeyond | bliksem/sketch.js:52-54 | a child's whole subtree starts beyond the parent's initial radius |
| Bliksem.HangsFromAppend | bliksem/sketch.js:52-54 | appending a spawned subtree keeps every bolt hanging off a later one or off the growing bolt |
| Bliksem.HangsFromGrow | bliksem/sketch.js:48 | branches hanging off a bolt still hang off it after it grows |
| Bliksem.HangsFromClose | bliksem/sketch.js:59 | pushing the bolt itself last makes the list a tree with it as the trunk |
| Bliksem.RadiusAt | bliksem/sketch.js:47 | point i of a bolt lies 10 * i further out than its first point |
| Bliksem.RadiiIncrease | bliksem/sketch.js:47 | radii strictly increase along a bolt |
| Bliksem.AngleStepBound | bliksem/sketch.js:44-46 | with an initial momentum in [-0.05, 0.05], every angle step lies in [-0.15, 0.15) |
| Bliksem.RootBoltLength | bliksem/sketch.js:40-43 | a trunk grown from radius 0 has exactly 61 points, the last at radius 600 |
| Bliksem.RadiiBounded | bliksem/sketch.js:40-47 | a bolt starting on the grid 0, 10, ..., 600 stays on it, so it never passes 600 |
| Bliksem.TreeOnGridFrom | bliksem/sketch.js:37-61 | every bolt of a tree whose trunk starts on the grid has every radius on the grid |
| Bliksem.TreeRadii | bliksem/sketch.js:37-66 | in the tree grown from radius 0, as `drawBolts` starts it, every radius is a multiple of 10 in [0, 600], and the trunk has 61 points |
| Bliksem.TreeAngleSteps | bliksem/sketch.js:44-54 | every angle step of every bolt in a generated tree lies in [-0.15, 0.15) |
| Bliksem.SpawnKeepsSpaced | bliksem/sketch.js:50-55 | spawning under the cap keeps numBranches == 0 or 16 * (numBranches - 1) < points |
| Settlements.SqrtThreeRoundings | settlements/sketch.js:48-49 | for r = sqrt(3): round(85r) = 147 (line 23); round(85/2) = 43 and round(43r) = 74; round(45r/2) = 39 and round(45/2) = 23 (lines 239-240) |
| Settlements.GetNumPips | settlements/sketch.js:85-91 | -1 exactly when n < 2, n > 12 or n = 7, and otherwise a pip count in 1..5 |
| Settlements.PipsSymmetric | settlements/sketch.js:85-91 | pips(n) = pips(14 - n); pips rise from 2 to 6; pips(2) = pips(12) = 1 and pips(6) = pips(8) = 5 |
| Settlements.MakeHexagon | settlements/sketch.js:46-64 | six vertices with the stated x columns; width = 2 * halfWidth, height = 2 * side; top at nwY and bottom a height below |
| Settlements.HexagonShape | settlements/sketch.js:46-64 | the hexagon is mirror-symmetric about its vertical axis, lies in its bounding box, and has vertical sides of the side length |
| Settlements.MakeTile | settlements/sketch.js:66-73 | a tile has the robber exactly when it is the desert, and holds the hexagon at its corner |
| Settlements.GetPointAfterMove | settlements/sketch.js:232-256 | north and south change only y, by the distance; the diagonals change x by the horizontal delta and y by round(d / 2), with the compass signs |
| Settlements.MoveCancels | settlements/sketch.js:232-256 | a move followed by the opposite move returns to the start point |
| Settlements.TypeDraw | settlements/sketch.js:269 | a drawn tile type is one of the entries of `HEX_TYPES` |
| Settlements.TypeDrawSlot | settlements/sketch.js:269 | a draw in the `i`-th of six equal slots of [0, 1) picks entry `i` |
| Settlements.DieValue | settlements/sketch.js:267 | `floor(random(2, 13))` lies in 2..12 |
| Settlements.DrawNumber | settlements/sketch.js:266-268 | the resample loop returns the first draw at or after `pos` that is not a 7, and it lies in 2..12 |
| Settlements.GenerateRow | settlements/sketch.js:265-271 | a row loop builds its 3, 4 or 5 tiles at the row's offsets, each with a number in 2..12 other than 7, and consumes at least two draws per tile |
| Settlements.GenerateTiles | settlements/sketch.js:258-310 | the board has rows of 3, 4, 5, 4, 3 tiles; each row sits at the lower west vertex of the row above; every number is in 2..12 and not 7; at least 30 draws are consumed |
| Settlements.RowNeighboursOverlap | settlements/sketch.js:278-287 | neighbours in a row overlap by exactly one unit, and each row's top vertex is at the height of the previous row's lower west vertex |
| Settlements.BoardShape | settlements/sketch.js:258-310 | a generated board has the board's shape, each tile with six vertices |
| Settlements.SitePort | settlements/sketch.js:402-407 | a port trades what its site says |
| Settlements.PortSitesOnRim | settlements/sketch.js:399-466 | all nine ports use an in-bounds tile on the board's rim, and none trades the desert |
| Settlements.CountsUpTo | settlements/sketch.js:406-462 | the count of ports of a type is the sum over the nine ports |
| Settlements.PortTypeCounts | settlements/sketch.js:406-462 | exactly four ports trade anything, and exactly one trades each of the five resources |
| Settlements.PortsOn | settlements/sketch.js:399-466 | there are nine ports |
| Settlements.GeneratePorts | settlements/sketch.js:399-466 | the ports are the nine sites' ports, in order |
| Settlements.PortsOnHexagonSides | settlements/sketch.js:399-466 | port k joins two consecutive vertices (v, v + 1 mod 6) of one rim tile, at the place `generateTiles` put that tile |
| Dunes.GetColorDesert | dunes/sketch.js:19-24 | red in [170, 200), green in [red / 2, 3 * red / 5), blue in [0, 30) |
| Dunes.GetColorMars | dunes/sketch.js:26-31 | red in [110, 150), green in [0, red / 4), no blue |
| Dunes.Shift | dunes/sketch.js:38 | a point's sideways shift lies in [-7, 7) |
| Dunes.RowY | dunes/sketch.js:8 | row 0 is at the top of the canvas, row 24 at its bottom (800), and every row in between |
| Dunes.StandaloneWave | dunes/sketch.js:35-41 | 25 points, one per row, each within [x - 7, x + 7) |
| Dunes.FollowingWave | dunes/sketch.js:43-50 | 25 points, one per row, each moved right from the previous wave's point by an amount in [48 - 7, 48 + 7), so strictly to its right |
| Dunes.GenerateStandaloneWave | dunes/sketch.js:35-41 | the loop builds the standalone wave with one draw per point |
| Dunes.GenerateWave | dunes/sketch.js:43-50 | the loop builds a new wave from the previous one, which is left as it was, with one draw per point |
| Dunes.GenerateWaves | dunes/sketch.js:57-63 | exactly 26 waves: the first based at 24, each later one following the one before |
| Dunes.WaveFieldBounds | dunes/sketch.js:57-63 | point i of wave k lies within (k + 1) * 7 of 24 + 48k |
| Dunes.WavesAdvance | dunes/sketch.js:57-63 | in every row, a later wave lies strictly to the right of every earlier one |
| Dunes.Outline | dunes/sketch.js:72-81 | an outline has at least six vertices and runs from the corner (0, 0) to the corner (0, 800) |
| Dunes.OutlineOrder | dunes/sketch.js:72-81 | a wave's outline is (0, 0), the first point twice, the middle points as curve points, the last point twice, then (0, 800): every wave point appears in order |
| Dunes.TraceOutline | dunes/sketch.js:72-81 | the vertex calls produce the wave's outline |
| Dunes.DrawWaves | dunes/sketch.js:65-82 | shapes are emitted from the last wave down to the first, each with a fresh desert colour |
| Dunes.Setup | dunes/sketch.js:52-83 | the background colour is drawn first, then 26 waves, then 26 shapes in back-to-front order |
| Dunes.BackToFront | dunes/sketch.js:65-82 | every shape lies, row by row, strictly to the right of every shape drawn after it |

## Left out

- Rendering is left out in all four sketches: canvas creation, `line`, `triangle`, `curveVertex` as drawn curves, ellipses, text, the tile symbols, `drawPorts`, `fade`, the DOM inputs, the checkbox, and `draw`/`mousePressed`. Only the geometry and the order of vertices are modelled.
- Colours are left out where they are p5 `color` objects: the mache triangle colouring (lines 182-217, floating-point distances and noise), `getTileColour`, and the bliksem gradient. The dunes colours are modelled as triples of reals.
- `getURLParameters` (mache/sketch.js:59-70) reads the browser address. Each setting arrives as an optional real instead.
- `drawBolts` (bliksem/sketch.js:63-89) is left out: it draws a random number of trees, with a loop bound redrawn on every pass. Its call `generateBolt(random(0, 2 * PI), 0, true, 0)` is the case `TreeRadii` covers.
- Probabilities are left out: the 6% branch chance, the 7% early stop and the uniform tile types. Only the ranges of draws are stated, never their likelihood; `TypeDrawSlot` says which slot of [0, 1) picks which tile type, but the model does not speak of probability.
- Settlements.DrawNumber: termination of the redraw-on-7 loop is assumed as a precondition (a draw other than 7 comes eventually). The sketch relies on this with probability one.
- Settlements.GenerateRow: the five literal row loops of `generateTiles` are one loop over the row number. The row's size, offset and top come from the row.
- Bliksem.GrowBolt, Bliksem.GrowPass, Bliksem.GrowStep, Bliksem.MaybeBranch and Bliksem.SpawnBranch: they split the one loop of `generateBolt` into parts. The bolt list is a sequence of `Bolt` references with their states alongside.
- Mache.Mesh.GenerateColumn and Mache.Mesh.StitchPoint: they split `generatePoints` the same way.
- Mache.AdjustGrid: the shared `Point` objects are modelled as grid positions in the triangles. So `adjustPoints` rebuilds the grid column by column instead of writing through aliases. What the triangles see afterwards is the same.
- Settlements.SqrtThreeRoundings: `Math.sqrt(3)` is a double, not the real square root of 3. The rounded products are stated for the real root; at these magnitudes the double is far too close to make a difference.
- Bliksem radii are integers, because every radius in the sketch is 0 plus multiples of 10.
- Floating-point rounding is left out: JavaScript arithmetic is modelled on exact reals.
