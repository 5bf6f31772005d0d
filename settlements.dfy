/** The board sketch: five rows of hexagonal tiles, each with a resource type
    and a dice number other than 7, laid out row by row, and nine ports on
    the edge of the board. */
module Settlements {
  import opened P5

  const HEXAGON_SIDE_LENGTH: int := 85

  /** `Math.round(85 * sqrt(3))`, the spacing of tiles in a row (see
      SqrtThreeRoundings). */
  const HEXAGON_WIDTH: int := 147

  const MARGIN_WIDTH: int := 0
  const BORDER_WIDTH: int := 80
  const PORT_LENGTH: int := 45

  /** The `halfWidth` a hexagon of side 85 computes, `round(round(85 / 2) * sqrt(3))`
      (see SqrtThreeRoundings). */
  const HALF_WIDTH: int := 74

  /** The horizontal part of a diagonal move by the port length,
      `round(45 * sqrt(3) / 2)` (see SqrtThreeRoundings). */
  const PORT_HORIZ_DELTA: int := 39

  datatype HexType = Brick | Lumber | Wool | Grain | Ore | Desert

  const HEX_TYPES: seq<HexType> := [Brick, Lumber, Wool, Grain, Ore, Desert]

  /** What a port trades: anything, or one resource. */
  datatype PortType = AnyPort | ResourcePort(resource: HexType)

  /** The six compass moves. */
  datatype Direction = North | NorthEast | NorthWest | South | SouthEast | SouthWest

  datatype Point = Point(x: real, y: real)

  /** A hexagon with its north-west corner of the bounding box at (nwX, nwY),
      pointy side up, and its six vertices. */
  datatype Hexagon = Hexagon(nwX: real, nwY: real, width: int, height: int, points: seq<Point>)

  datatype Tile = Tile(tileType: HexType, number: int, hexagon: Hexagon, hasRobber: bool)

  /** A port: two vertices of a hexagon, each with the direction of its pier. */
  datatype Port = Port(point1: Point, direction1: Direction, point2: Point, direction2: Direction, portType: PortType)

  /** Every rounded product of sqrt(3) the sketch relies on, for the one positive
      root of 3. */
  lemma SqrtThreeRoundings(r: real)
    requires r > 0.0 && r * r == 3.0
    ensures Round(HEXAGON_SIDE_LENGTH as real * r) == HEXAGON_WIDTH
    ensures Round(HEXAGON_SIDE_LENGTH as real / 2.0) == 43
    ensures Round(43.0 * r) == HALF_WIDTH
    ensures Round(PORT_LENGTH as real * r / 2.0) == PORT_HORIZ_DELTA
    ensures Round(PORT_LENGTH as real / 2.0) == 23
  {
    if r <= 1.732 {
      MulLe(r, 1.732, r);
      MulLe(r, 1.732, 1.732);
      assert false;
    }
    if r >= 1.7321 {
      MulLe(1.7321, r, r);
      MulLe(1.7321, r, 1.7321);
      assert false;
    }
  }

  lemma MulLe(a: real, b: real, c: real)
    requires 0.0 <= a <= b && c >= 0.0
    ensures a * c <= b * c
  {
    MulNonneg(b - a, c);
  }

  /** `getNumPips`: the number of dots printed under a dice number. */
  function GetNumPips(n: int): (r: int)
    ensures r == -1 <==> n < 2 || n > 12 || n == 7
    ensures r != -1 ==> 1 <= r <= 5
  {
    if n < 2 || n > 12 || n == 7 then -1
    else 6 - Abs(7 - n)
  }

  function Abs(x: int): (r: nat)
    ensures r == x || r == -x
  {
    if x < 0 then -x else x
  }

  /** Numbers as likely as each other get as many pips: 2 and 12 one, 6 and 8
      five, and the pips grow as the number nears 7. */
  lemma PipsSymmetric(n: int)
    ensures GetNumPips(n) == GetNumPips(14 - n)
    ensures 2 <= n < 6 ==> GetNumPips(n) < GetNumPips(n + 1)
    ensures GetNumPips(2) == GetNumPips(12) == 1 && GetNumPips(6) == GetNumPips(8) == 5
  {
  }

  /** `new Hexagon(sideLength, nwX, nwY)`; `halfWidth` is the hexagon's
      `round(round(sideLength / 2) * sqrt(3))`. Vertices run clockwise from
      the upper west corner: upper west, top, upper east, lower east, bottom,
      lower west. */
  function MakeHexagon(sideLength: int, halfWidth: int, nwX: real, nwY: real): (h: Hexagon)
    ensures h.nwX == nwX && h.nwY == nwY && |h.points| == 6
    ensures h.width == 2 * halfWidth && h.height == 2 * sideLength
    ensures h.points[0].x == h.points[5].x == nwX
    ensures h.points[1].x == h.points[4].x == nwX + halfWidth as real
    ensures h.points[2].x == h.points[3].x == nwX + h.width as real
    ensures h.points[1].y == nwY && h.points[4].y - h.points[1].y == h.height as real
  {
    var halfSideLength := Round(sideLength as real / 2.0);
    var width := 2 * halfWidth;
    Hexagon(nwX, nwY, width, 2 * sideLength, [
      Point(nwX, nwY + halfSideLength as real),
      Point(nwX + halfWidth as real, nwY),
      Point(nwX + width as real, nwY + halfSideLength as real),
      Point(nwX + width as real, nwY + (halfSideLength + sideLength) as real),
      Point(nwX + halfWidth as real, nwY + (2 * sideLength) as real),
      Point(nwX, nwY + (halfSideLength + sideLength) as real)
    ])
  }

  /** The vertex a hexagon's vertex `k` mirrors to across its vertical axis. */
  function Mirrored(k: nat): (m: nat)
    requires k < 6
    ensures m < 6
  {
    if k < 3 then 2 - k else 8 - k
  }

  /** A hexagon is symmetric about its vertical axis, its two vertical sides
      have the side length, and, for a positive side, every vertex lies in its
      bounding box. */
  lemma HexagonShape(sideLength: int, halfWidth: int, nwX: real, nwY: real)
    requires sideLength > 0 && halfWidth >= 0
    ensures var h := MakeHexagon(sideLength, halfWidth, nwX, nwY);
      forall k :: 0 <= k < 6 ==>
        && h.points[k].x + h.points[Mirrored(k)].x == 2.0 * (nwX + halfWidth as real)
        && h.points[k].y == h.points[Mirrored(k)].y
        && nwX <= h.points[k].x <= nwX + h.width as real
        && nwY <= h.points[k].y <= nwY + h.height as real
    ensures var h := MakeHexagon(sideLength, halfWidth, nwX, nwY);
      h.points[5].y - h.points[0].y == h.points[3].y - h.points[2].y == sideLength as real
  {
    var h := MakeHexagon(sideLength, halfWidth, nwX, nwY);
    var halfSideLength := Round(sideLength as real / 2.0);
    assert 0 <= halfSideLength <= sideLength;
    forall k | 0 <= k < 6
      ensures h.points[k].x + h.points[Mirrored(k)].x == 2.0 * (nwX + halfWidth as real)
      ensures h.points[k].y == h.points[Mirrored(k)].y
      ensures nwX <= h.points[k].x <= nwX + h.width as real
      ensures nwY <= h.points[k].y <= nwY + h.height as real
    {
    }
  }

  /** `new Tile(...)`: the robber starts on the desert and nowhere else. */
  function MakeTile(sideLength: int, halfWidth: int, nwX: real, nwY: real, tileType: HexType, number: int): (t: Tile)
    ensures t.hasRobber <==> tileType == Desert
    ensures t.tileType == tileType && t.number == number
    ensures t.hexagon == MakeHexagon(sideLength, halfWidth, nwX, nwY)
  {
    Tile(tileType, number, MakeHexagon(sideLength, halfWidth, nwX, nwY), tileType == Desert)
  }

  function VertDelta(distance: real): int
  {
    Round(distance / 2.0)
  }

  predicate Eastward(d: Direction)
  {
    d == NorthEast || d == SouthEast
  }

  predicate Northward(d: Direction)
  {
    d == North || d == NorthEast || d == NorthWest
  }

  /** `_getPointAfterMove`: a new point `distance` away from `initPoint` in
      `direction` on the hexagonal grid. Straight moves go `distance` up or
      down; diagonal ones go `horizDelta`, the caller's
      `round(distance * sqrt(3) / 2)`, sideways and `round(distance / 2)` up
      or down. */
  function GetPointAfterMove(initPoint: Point, direction: Direction, distance: real, horizDelta: int): (ret: Point)
    ensures direction == North || direction == South ==>
      ret.x == initPoint.x && ret.y == initPoint.y + (if Northward(direction) then -distance else distance)
    ensures direction != North && direction != South ==>
      && ret.x == initPoint.x + (if Eastward(direction) then horizDelta else -horizDelta) as real
      && ret.y == initPoint.y + (if Northward(direction) then -VertDelta(distance) else VertDelta(distance)) as real
  {
    if direction == North then Point(initPoint.x, initPoint.y - distance)
    else if direction == South then Point(initPoint.x, initPoint.y + distance)
    else
      var vertDelta := VertDelta(distance) as real;
      var horizDelta := horizDelta as real;
      if direction == NorthEast then Point(initPoint.x + horizDelta, initPoint.y - vertDelta)
      else if direction == NorthWest then Point(initPoint.x - horizDelta, initPoint.y - vertDelta)
      else if direction == SouthEast then Point(initPoint.x + horizDelta, initPoint.y + vertDelta)
      else Point(initPoint.x - horizDelta, initPoint.y + vertDelta)
  }

  function Opposite(d: Direction): Direction
  {
    match d
    case North => South
    case South => North
    case NorthEast => SouthWest
    case SouthWest => NorthEast
    case NorthWest => SouthEast
    case SouthEast => NorthWest
  }

  /** Moving and then moving back the opposite way returns to the start. */
  lemma MoveCancels(p: Point, d: Direction, distance: real, horizDelta: int)
    ensures Opposite(Opposite(d)) == d
    ensures GetPointAfterMove(GetPointAfterMove(p, d, distance, horizDelta), Opposite(d), distance, horizDelta) == p
  {
  }

  /** `floor(random(2, 13))`, a dice number drawn from the unit draw `u`. */
  function DieValue(u: real): (n: int)
    ensures 0.0 <= u < 1.0 ==> 2 <= n <= 12
  {
    Uniform(u, 2.0, 13.0).Floor
  }

  /** `HEX_TYPES[floor(random(HEX_TYPES.length))]`, a tile type drawn from the
      unit draw `u`. */
  function TypeDraw(u: real): (t: HexType)
    requires 0.0 <= u < 1.0
    ensures t in HEX_TYPES
  {
    var i := Uniform(u, 0.0, |HEX_TYPES| as real).Floor;
    HEX_TYPES[i]
  }

  /** The unit interval is cut into |HEX_TYPES| equal slots, and a draw in slot
      `i` picks entry `i`: each entry of the list is equally likely. */
  lemma TypeDrawSlot(u: real, i: nat)
    requires 0.0 <= u < 1.0 && i < |HEX_TYPES|
    ensures (i as real) / (|HEX_TYPES| as real) <= u < ((i + 1) as real) / (|HEX_TYPES| as real) ==>
      TypeDraw(u) == HEX_TYPES[i]
  {
  }

  /** Some draw at position `p` or later is not a 7: the resampling loop
      started at `p` ends. */
  ghost predicate NonSevenFrom(rng: Stream, p: nat)
  {
    exists k: nat :: p <= k && DieValue(rng(k)) != 7
  }

  /** From every position on, a draw that is not a 7 comes eventually. */
  ghost predicate Fair(rng: Stream)
  {
    forall p: nat :: NonSevenFrom(rng, p)
  }

  /** The `do { ... } while (num === 7)` loop of `generateTiles`: the first
      dice number at position `pos` or later that is not a 7. */
  method DrawNumber(rng: Stream, pos: nat) returns (num: int, next: nat)
    requires IsUnitStream(rng) && NonSevenFrom(rng, pos)
    ensures pos < next && num == DieValue(rng(next - 1))
    ensures 2 <= num <= 12 && num != 7
    ensures forall k :: pos <= k < next - 1 ==> DieValue(rng(k)) == 7
  {
    ghost var stop :| pos <= stop && DieValue(rng(stop)) != 7;
    num := DieValue(rng(pos));
    next := pos + 1;
    while num == 7
      invariant pos < next <= stop + 1 && num == DieValue(rng(next - 1))
      invariant forall k :: pos <= k < next - 1 ==> DieValue(rng(k)) == 7
      decreases stop + 1 - next
    {
      num := DieValue(rng(next));
      next := next + 1;
    }
  }

  /** The rows hold 3, 4, 5, 4 and 3 tiles. */
  function RowSize(row: nat): nat
    requires row < 5
  {
    if row == 2 then 5 else if row == 1 || row == 3 then 4 else 3
  }

  /** Row `row` starts this many tile widths in from the border. */
  function RowOffset(row: nat): real
    requires row < 5
  {
    if row == 2 then 0.0 else if row == 1 || row == 3 then 0.5 else 1.0
  }

  /** The west edge of tile `i` of row `row`. */
  function TileX(row: nat, i: nat): real
    requires row < 5
  {
    BORDER_WIDTH as real + (i as real + RowOffset(row)) * (HEXAGON_WIDTH + MARGIN_WIDTH) as real
  }

  /** The top of the bounding boxes of row `row`: each row starts at the lower
      west vertex of the row above, `round(85 / 2) + 85` further down. */
  function RowY(row: nat): real
  {
    (BORDER_WIDTH + row * (43 + HEXAGON_SIDE_LENGTH)) as real
  }

  /** Tile `i` of row `row`, whose row starts at height `nwY`, is where
      `generateTiles` puts it and carries a number a dice roll other than 7
      can give; the robber is on it exactly when it is the desert. */
  ghost predicate TileAt(t: Tile, row: nat, i: nat, nwY: real)
    requires row < 5
  {
    && t.hexagon == MakeHexagon(HEXAGON_SIDE_LENGTH, HALF_WIDTH, TileX(row, i), nwY)
    && 2 <= t.number <= 12 && t.number != 7
    && (t.hasRobber <==> t.tileType == Desert)
  }

  /** The board `generateTiles` returns. */
  ghost predicate IsBoard(tiles: seq<seq<Tile>>)
  {
    && |tiles| == 5
    && forall row :: 0 <= row < 5 ==>
      && |tiles[row]| == RowSize(row)
      && forall i :: 0 <= i < |tiles[row]| ==> TileAt(tiles[row][i], row, i, RowY(row))
  }

  /** One of the five row loops of `generateTiles`: for each tile, a number by
      resampling until it is not 7, then a type, then the tile. */
  method GenerateRow(row: nat, nwY: real, rng: Stream, pos: nat) returns (tileRow: seq<Tile>, next: nat)
    requires row < 5 && IsUnitStream(rng) && Fair(rng)
    ensures |tileRow| == RowSize(row)
    ensures forall i :: 0 <= i < |tileRow| ==> TileAt(tileRow[i], row, i, nwY)
    ensures pos + 2 * |tileRow| <= next
  {
    tileRow := [];
    next := pos;
    for i := 0 to RowSize(row)
      invariant |tileRow| == i && pos + 2 * i <= next
      invariant forall j :: 0 <= j < i ==> TileAt(tileRow[j], row, j, nwY)
    {
      assert NonSevenFrom(rng, next);
      var num;
      num, next := DrawNumber(rng, next);
      var tileType := TypeDraw(rng(next));
      next := next + 1;
      var currentTile := MakeTile(HEXAGON_SIDE_LENGTH, HALF_WIDTH, TileX(row, i), nwY, tileType, num);
      tileRow := tileRow + [currentTile];
    }
  }

  /** `generateTiles`: the rows top to bottom, each starting at the height of
      the lower west vertex of the first tile of the row above. */
  method GenerateTiles(rng: Stream, pos: nat) returns (tiles: seq<seq<Tile>>, next: nat)
    requires IsUnitStream(rng) && Fair(rng)
    ensures IsBoard(tiles)
    ensures pos + 30 <= next
  {
    tiles := [];
    next := pos;
    for row := 0 to 5
      invariant |tiles| == row && pos + 6 * row <= next
      invariant forall r :: 0 <= r < row ==>
        |tiles[r]| == RowSize(r) && forall i :: 0 <= i < |tiles[r]| ==> TileAt(tiles[r][i], r, i, RowY(r))
    {
      var nwY := if row == 0 then BORDER_WIDTH as real else tiles[row - 1][0].hexagon.points[5].y;
      assert nwY == RowY(row);
      var tileRow;
      tileRow, next := GenerateRow(row, nwY, rng, next);
      tiles := tiles + [tileRow];
    }
  }

  /** In a row, each tile's west vertices lie 1 unit west of the east
      vertices of the tile before it: the tiles are spaced by the rounded
      `85 * sqrt(3)` = 147 while each hexagon is twice the rounded
      `43 * sqrt(3)` = 148 wide. Each row's top vertices sit at the height of
      the lower west vertex of the row above. */
  lemma RowNeighboursOverlap(tiles: seq<seq<Tile>>, row: nat, i: nat)
    requires IsBoard(tiles) && row < 5 && i + 1 < RowSize(row)
    ensures tiles[row][i + 1].hexagon.points[0].x == tiles[row][i].hexagon.points[2].x - 1.0
    ensures tiles[row][i + 1].hexagon.points[5].x == tiles[row][i].hexagon.points[3].x - 1.0
    ensures row + 1 < 5 ==> tiles[row + 1][0].hexagon.points[1].y == tiles[row][0].hexagon.points[5].y
  {
    assert TileAt(tiles[row][i], row, i, RowY(row));
    assert TileAt(tiles[row][i + 1], row, i + 1, RowY(row));
    if row + 1 < 5 {
      assert TileAt(tiles[row][0], row, 0, RowY(row));
      assert TileAt(tiles[row + 1][0], row + 1, 0, RowY(row + 1));
    }
  }

  /** Where a port sits: a tile, the first of its two consecutive vertices,
      the piers' directions and what it trades. */
  datatype PortSite = PortSite(row: nat, col: nat, vertex: nat, direction1: Direction, direction2: Direction,
                               portType: PortType)

  /** `generatePorts` places nine ports. */
  const PORT_COUNT: nat := 9

  /** Port `k` of `generatePorts`, clockwise from the top left. */
  function PortSiteAt(k: nat): PortSite
    requires k < PORT_COUNT
  {
    if k == 0 then PortSite(0, 0, 0, North, NorthWest, AnyPort)
    else if k == 1 then PortSite(0, 1, 1, NorthEast, North, ResourcePort(Wool))
    else if k == 2 then PortSite(1, 3, 1, NorthEast, North, AnyPort)
    else if k == 3 then PortSite(2, 4, 2, SouthEast, NorthEast, AnyPort)
    else if k == 4 then PortSite(3, 3, 3, South, SouthEast, ResourcePort(Brick))
    else if k == 5 then PortSite(4, 1, 3, South, SouthEast, ResourcePort(Lumber))
    else if k == 6 then PortSite(4, 0, 4, SouthWest, South, AnyPort)
    else if k == 7 then PortSite(3, 0, 5, NorthWest, SouthWest, ResourcePort(Grain))
    else PortSite(1, 0, 5, NorthWest, SouthWest, ResourcePort(Ore))
  }

  /** The tiles have the board's shape, each with its six vertices. */
  ghost predicate HasBoardShape(tiles: seq<seq<Tile>>)
  {
    && |tiles| == 5
    && forall row :: 0 <= row < 5 ==>
      && |tiles[row]| == RowSize(row)
      && forall i :: 0 <= i < |tiles[row]| ==> |tiles[row][i].hexagon.points| == 6
  }

  /** A board has the board's shape. */
  lemma BoardShape(tiles: seq<seq<Tile>>)
    requires IsBoard(tiles)
    ensures HasBoardShape(tiles)
  {
    forall row, i | 0 <= row < 5 && 0 <= i < |tiles[row]|
      ensures |tiles[row][i].hexagon.points| == 6
    {
      assert TileAt(tiles[row][i], row, i, RowY(row));
    }
  }

  /** The site lies on the board and on its rim, and its vertices are numbered. */
  predicate OnRim(s: PortSite)
  {
    && s.row < 5 && s.col < RowSize(s.row) && s.vertex < 6
    && (s.row == 0 || s.row == 4 || s.col == 0 || s.col == RowSize(s.row) - 1)
  }

  /** The vertex after `v` going clockwise round a hexagon. */
  function NextVertex(v: nat): (w: nat)
    requires v < 6
    ensures w < 6
  {
    if v == 5 then 0 else v + 1
  }

  /** The port a site gives on `tiles`: vertices `vertex` and the next one
      round the hexagon. */
  function SitePort(tiles: seq<seq<Tile>>, s: PortSite): (p: Port)
    requires HasBoardShape(tiles) && OnRim(s)
    ensures p.portType == s.portType
  {
    var h := tiles[s.row][s.col].hexagon;
    Port(h.points[s.vertex], s.direction1, h.points[NextVertex(s.vertex)], s.direction2, s.portType)
  }

  /** Every port is on a tile of the rim, and none trades the desert. */
  lemma PortSitesOnRim()
    ensures forall k :: 0 <= k < PORT_COUNT ==> OnRim(PortSiteAt(k))
    ensures forall k :: 0 <= k < PORT_COUNT ==> PortSiteAt(k).portType != ResourcePort(Desert)
  {
  }

  /** How many of the first `n` ports trade `t`. */
  function CountPorts(t: PortType, n: nat): nat
    requires n <= PORT_COUNT
  {
    if n == 0 then 0
    else CountPorts(t, n - 1) + (if PortSiteAt(n - 1).portType == t then 1 else 0)
  }

  /** The count of ports trading `t`, spelled out port by port. */
  lemma CountsUpTo(t: PortType)
    ensures CountPorts(t, PORT_COUNT) ==
      (if PortSiteAt(0).portType == t then 1 else 0) + (if PortSiteAt(1).portType == t then 1 else 0)
      + (if PortSiteAt(2).portType == t then 1 else 0) + (if PortSiteAt(3).portType == t then 1 else 0)
      + (if PortSiteAt(4).portType == t then 1 else 0) + (if PortSiteAt(5).portType == t then 1 else 0)
      + (if PortSiteAt(6).portType == t then 1 else 0) + (if PortSiteAt(7).portType == t then 1 else 0)
      + (if PortSiteAt(8).portType == t then 1 else 0)
  {
    assert CountPorts(t, 1) == (if PortSiteAt(0).portType == t then 1 else 0);
    assert CountPorts(t, 2) == CountPorts(t, 1) + (if PortSiteAt(1).portType == t then 1 else 0);
    assert CountPorts(t, 3) == CountPorts(t, 2) + (if PortSiteAt(2).portType == t then 1 else 0);
    assert CountPorts(t, 4) == CountPorts(t, 3) + (if PortSiteAt(3).portType == t then 1 else 0);
    assert CountPorts(t, 5) == CountPorts(t, 4) + (if PortSiteAt(4).portType == t then 1 else 0);
    assert CountPorts(t, 6) == CountPorts(t, 5) + (if PortSiteAt(5).portType == t then 1 else 0);
    assert CountPorts(t, 7) == CountPorts(t, 6) + (if PortSiteAt(6).portType == t then 1 else 0);
    assert CountPorts(t, 8) == CountPorts(t, 7) + (if PortSiteAt(7).portType == t then 1 else 0);
  }

  /** Four ports trade anything, each of the five resources has exactly one
      port, and none trades the desert. */
  lemma PortTypeCounts()
    ensures CountPorts(AnyPort, PORT_COUNT) == 4
    ensures forall t :: CountPorts(ResourcePort(t), PORT_COUNT) == (if t == Desert then 0 else 1)
  {
    forall t
      ensures CountPorts(ResourcePort(t), PORT_COUNT) == (if t == Desert then 0 else 1)
    {
      CountsUpTo(ResourcePort(t));
    }
    CountsUpTo(AnyPort);
  }

  /** The ports of the nine sites on `tiles`, in order. */
  function PortsOn(tiles: seq<seq<Tile>>): (ports: seq<Port>)
    requires HasBoardShape(tiles)
    ensures |ports| == PORT_COUNT
  {
    PortSitesOnRim();
    seq(PORT_COUNT, k requires 0 <= k < PORT_COUNT => SitePort(tiles, PortSiteAt(k)))
  }

  /** `generatePorts`: the nine ports, in order. */
  method GeneratePorts(tiles: seq<seq<Tile>>) returns (ports: seq<Port>)
    requires HasBoardShape(tiles)
    ensures ports == PortsOn(tiles)
  {
    ports := [];
    ports := ports + [Port(tiles[0][0].hexagon.points[0], North, tiles[0][0].hexagon.points[1], NorthWest, AnyPort)];
    ports := ports + [Port(tiles[0][1].hexagon.points[1], NorthEast, tiles[0][1].hexagon.points[2], North,
                           ResourcePort(Wool))];
    ports := ports + [Port(tiles[1][3].hexagon.points[1], NorthEast, tiles[1][3].hexagon.points[2], North, AnyPort)];
    ports := ports + [Port(tiles[2][4].hexagon.points[2], SouthEast, tiles[2][4].hexagon.points[3], NorthEast,
                           AnyPort)];
    ports := ports + [Port(tiles[3][3].hexagon.points[3], South, tiles[3][3].hexagon.points[4], SouthEast,
                           ResourcePort(Brick))];
    ports := ports + [Port(tiles[4][1].hexagon.points[3], South, tiles[4][1].hexagon.points[4], SouthEast,
                           ResourcePort(Lumber))];
    ports := ports + [Port(tiles[4][0].hexagon.points[4], SouthWest, tiles[4][0].hexagon.points[5], South, AnyPort)];
    ports := ports + [Port(tiles[3][0].hexagon.points[5], NorthWest, tiles[3][0].hexagon.points[0], SouthWest,
                           ResourcePort(Grain))];
    ports := ports + [Port(tiles[1][0].hexagon.points[5], NorthWest, tiles[1][0].hexagon.points[0], SouthWest,
                           ResourcePort(Ore))];
  }

  /** Port `k` of a board is the side from vertex `vertex` to the next vertex
      of its site's tile, a tile on the rim, at the place `generateTiles` put
      it. */
  lemma PortsOnHexagonSides(tiles: seq<seq<Tile>>, k: nat)
    requires IsBoard(tiles) && HasBoardShape(tiles) && k < PORT_COUNT
    ensures var s := PortSiteAt(k);
      && OnRim(s)
      && var h := tiles[s.row][s.col].hexagon;
      && PortsOn(tiles)[k] == Port(h.points[s.vertex], s.direction1, h.points[NextVertex(s.vertex)], s.direction2,
                                   s.portType)
      && h == MakeHexagon(HEXAGON_SIDE_LENGTH, HALF_WIDTH, TileX(s.row, s.col), RowY(s.row))
  {
    PortSitesOnRim();
    var s := PortSiteAt(k);
    assert TileAt(tiles[s.row][s.col], s.row, s.col, RowY(s.row));
  }

}
