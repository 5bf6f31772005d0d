/** The dunes sketch: 26 waves of 25 points each, every wave a random walk
    one wave width to the right of the one before, drawn from the back (the
    rightmost) to the front as shapes filled out to the left edge. */
module Dunes {
  import opened P5

  const CANVAS_WIDTH: int := 1200
  const CANVAS_HEIGHT: int := 800
  const NUM_WAVES: nat := 26
  const POINTS_PER_WAVE: nat := 25
  const WAVE_VARIANCE: real := 7.0

  /** The distance between consecutive waves, 1200 / 25 = 48. */
  const WAVE_WIDTH: real := CANVAS_WIDTH as real / (NUM_WAVES - 1) as real

  /** The distance between consecutive points of a wave, 800 / 24. */
  const POINT_GAP: real := CANVAS_HEIGHT as real / (POINTS_PER_WAVE - 1) as real

  datatype Point = Point(x: real, y: real)

  /** The channels of a p5 `color(red, green, blue)`. */
  datatype Colour = Colour(red: real, green: real, blue: real)

  /* COLOUR SCHEMES */

  /** A sandy colour: red in [170, 200), green between half and three fifths
      of the red, blue in [0, 30). */
  predicate IsDesertColour(c: Colour)
  {
    && 170.0 <= c.red < 200.0
    && c.red / 2.0 <= c.green < c.red * 3.0 / 5.0
    && 0.0 <= c.blue < 30.0
  }

  /** `getColorDesert`, drawing red, green and blue at `pos`, `pos + 1` and `pos + 2`. */
  function GetColorDesert(rng: Stream, pos: nat): (c: Colour)
    ensures IsUnitStream(rng) ==> IsDesertColour(c)
  {
    var red := Uniform(rng(pos), 170.0, 200.0);
    var green := Uniform(rng(pos + 1), red / 2.0, red * 3.0 / 5.0);
    var blue := Uniform(rng(pos + 2), 0.0, 30.0);
    Colour(red, green, blue)
  }

  /** A rusty colour: red in [110, 150), green below a quarter of the red, no blue. */
  predicate IsMarsColour(c: Colour)
  {
    && 110.0 <= c.red < 150.0
    && 0.0 <= c.green < c.red / 4.0
    && c.blue == 0.0
  }

  /** `getColorMars`, drawing red and green at `pos` and `pos + 1`. */
  function GetColorMars(rng: Stream, pos: nat): (c: Colour)
    ensures IsUnitStream(rng) ==> IsMarsColour(c)
  {
    var red := Uniform(rng(pos), 110.0, 150.0);
    var green := Uniform(rng(pos + 1), 0.0, red / 4.0);
    Colour(red, green, 0.0)
  }

  /* WAVES */

  /** The sideways shift `random(-WAVE_VARIANCE, WAVE_VARIANCE)` of one point. */
  function Shift(u: real): (d: real)
    ensures 0.0 <= u < 1.0 ==> -WAVE_VARIANCE <= d < WAVE_VARIANCE
  {
    Uniform(u, -WAVE_VARIANCE, WAVE_VARIANCE)
  }

  /** The height of the `i`-th point of every wave: the first at the top of
      the canvas, the last at the bottom, the rest in between. */
  function RowY(i: nat): (y: real)
    ensures i == 0 ==> y == 0.0
    ensures i == POINTS_PER_WAVE - 1 ==> y == CANVAS_HEIGHT as real
    ensures i < POINTS_PER_WAVE ==> 0.0 <= y <= CANVAS_HEIGHT as real
  {
    i as real * POINT_GAP
  }

  /** The points of `wave` lie one to a row, in order. */
  ghost predicate InRows(wave: seq<Point>)
  {
    && |wave| == POINTS_PER_WAVE
    && forall i :: 0 <= i < |wave| ==> wave[i].y == RowY(i)
  }

  /** The wave `generateStandaloneWave(x)` builds from the draws at `pos`
      onward: point `i` lies in row `i`, shifted from `x` by draw `pos + i`. */
  function StandaloneWave(x: real, rng: Stream, pos: nat): (wave: seq<Point>)
    ensures InRows(wave)
    ensures IsUnitStream(rng) ==>
      forall i :: 0 <= i < |wave| ==> x - WAVE_VARIANCE <= wave[i].x < x + WAVE_VARIANCE
  {
    seq(POINTS_PER_WAVE, i requires 0 <= i < POINTS_PER_WAVE => Point(x + Shift(rng(pos + i)), RowY(i)))
  }

  /** The wave `generateWave(previousWave)` builds from the draws at `pos`
      onward: point `i` lies in row `i`, one wave width to the right of point
      `i` of the previous wave, shifted by draw `pos + i`; as the shift is
      smaller than the wave width, it lies strictly to the right. */
  function FollowingWave(previousWave: seq<Point>, rng: Stream, pos: nat): (wave: seq<Point>)
    requires |previousWave| >= POINTS_PER_WAVE
    ensures InRows(wave)
    ensures IsUnitStream(rng) ==>
      forall i :: 0 <= i < |wave| ==>
        && WAVE_WIDTH - WAVE_VARIANCE <= wave[i].x - previousWave[i].x < WAVE_WIDTH + WAVE_VARIANCE
        && previousWave[i].x < wave[i].x
  {
    seq(POINTS_PER_WAVE, i requires 0 <= i < POINTS_PER_WAVE =>
      Point(previousWave[i].x + WAVE_WIDTH + Shift(rng(pos + i)), RowY(i)))
  }

  /** `generateStandaloneWave`: one draw per point, in row order. */
  method GenerateStandaloneWave(x: real, rng: Stream, pos: nat) returns (currentWave: seq<Point>, next: nat)
    ensures currentWave == StandaloneWave(x, rng, pos)
    ensures next == pos + POINTS_PER_WAVE
  {
    currentWave := [];
    next := pos;
    for i := 0 to POINTS_PER_WAVE
      invariant |currentWave| == i && next == pos + i
      invariant forall j :: 0 <= j < i ==> currentWave[j] == Point(x + Shift(rng(pos + j)), RowY(j))
    {
      currentWave := currentWave + [Point(x + Shift(rng(next)), RowY(i))];
      next := next + 1;
    }
  }

  /** `generateWave`: a new wave built from `previousWave`, which is left as it was. */
  method GenerateWave(previousWave: seq<Point>, rng: Stream, pos: nat) returns (newWave: seq<Point>, next: nat)
    requires |previousWave| >= POINTS_PER_WAVE
    ensures newWave == FollowingWave(previousWave, rng, pos)
    ensures next == pos + POINTS_PER_WAVE
  {
    newWave := [];
    next := pos;
    for i := 0 to POINTS_PER_WAVE
      invariant |newWave| == i && next == pos + i
      invariant forall j :: 0 <= j < i ==>
        newWave[j] == Point(previousWave[j].x + WAVE_WIDTH + Shift(rng(pos + j)), RowY(j))
    {
      var previousPoint := previousWave[i];
      newWave := newWave + [Point(previousPoint.x + WAVE_WIDTH + Shift(rng(next)), RowY(i))];
      next := next + 1;
    }
  }

  /** The waves `setup` builds from the draws at `pos` onward: the first
      based at half a wave width, each later one following the one before
      on the next `POINTS_PER_WAVE` draws. */
  ghost predicate IsWaveField(waves: seq<seq<Point>>, rng: Stream, pos: nat)
  {
    && |waves| == NUM_WAVES
    && (forall k :: 0 <= k < NUM_WAVES ==> |waves[k]| == POINTS_PER_WAVE)
    && waves[0] == StandaloneWave(WAVE_WIDTH / 2.0, rng, pos)
    && forall k :: 1 <= k < NUM_WAVES ==> waves[k] == FollowingWave(waves[k - 1], rng, pos + k * POINTS_PER_WAVE)
  }

  /** The wave-building loop of `setup`. */
  method GenerateWaves(rng: Stream, pos: nat) returns (waves: seq<seq<Point>>, next: nat)
    ensures IsWaveField(waves, rng, pos)
    ensures next == pos + NUM_WAVES * POINTS_PER_WAVE
  {
    var first;
    first, next := GenerateStandaloneWave(WAVE_WIDTH / 2.0, rng, pos);
    waves := [first];
    for i := 1 to NUM_WAVES
      invariant |waves| == i && next == pos + i * POINTS_PER_WAVE
      invariant forall k :: 0 <= k < i ==> |waves[k]| == POINTS_PER_WAVE
      invariant waves[0] == StandaloneWave(WAVE_WIDTH / 2.0, rng, pos)
      invariant forall k :: 1 <= k < i ==> waves[k] == FollowingWave(waves[k - 1], rng, pos + k * POINTS_PER_WAVE)
    {
      var newWave;
      newWave, next := GenerateWave(waves[|waves| - 1], rng, next);
      waves := waves + [newWave];
    }
  }

  /** Where wave `k` is centred: half a wave width plus `k` wave widths. */
  function WaveCentre(k: nat): real
  {
    WAVE_WIDTH / 2.0 + k as real * WAVE_WIDTH
  }

  /** Each of the `k + 1` shifts behind wave `k` moves it by less than the variance. */
  function WaveSpread(k: nat): real
  {
    (k + 1) as real * WAVE_VARIANCE
  }

  /** Point `i` of wave `k` lies within `(k + 1)` variances of the wave's centre. */
  lemma {:induction false} WaveFieldBounds(waves: seq<seq<Point>>, rng: Stream, pos: nat, k: nat)
    requires IsWaveField(waves, rng, pos) && IsUnitStream(rng) && k < NUM_WAVES
    ensures |waves[k]| == POINTS_PER_WAVE
    ensures forall i :: 0 <= i < POINTS_PER_WAVE ==>
      WaveCentre(k) - WaveSpread(k) <= waves[k][i].x < WaveCentre(k) + WaveSpread(k)
  {
    if k > 0 {
      WaveFieldBounds(waves, rng, pos, k - 1);
      assert waves[k] == FollowingWave(waves[k - 1], rng, pos + k * POINTS_PER_WAVE);
      assert WaveCentre(k) == WaveCentre(k - 1) + WAVE_WIDTH;
      assert WaveSpread(k) == WaveSpread(k - 1) + WAVE_VARIANCE;
    }
  }

  /** In every row, a later wave lies strictly to the right of an earlier one. */
  lemma {:induction false} WavesAdvance(waves: seq<seq<Point>>, rng: Stream, pos: nat, a: nat, b: nat)
    requires IsWaveField(waves, rng, pos) && IsUnitStream(rng) && a < b < NUM_WAVES
    ensures |waves[a]| == POINTS_PER_WAVE && |waves[b]| == POINTS_PER_WAVE
    ensures forall i :: 0 <= i < POINTS_PER_WAVE ==> waves[a][i].x < waves[b][i].x
  {
    assert waves[b] == FollowingWave(waves[b - 1], rng, pos + b * POINTS_PER_WAVE);
    if a < b - 1 {
      WavesAdvance(waves, rng, pos, a, b - 1);
    }
  }

  /* DRAWING */

  /** A point of a shape's outline: a p5 `vertex` or a `curveVertex`. */
  datatype OutlineVertex = Corner(p: Point) | Curve(p: Point)

  /** The outline `setup` traces for a wave: the top-left corner, the first
      point twice, the points in between as curve points, the last point
      twice, and the bottom-left corner. */
  function Outline(wave: seq<Point>): (shape: seq<OutlineVertex>)
    requires |wave| >= 1
    ensures |shape| >= 6
    ensures shape[0] == Corner(Point(0.0, 0.0)) && shape[|shape| - 1] == Corner(Point(0.0, CANVAS_HEIGHT as real))
  {
    var last := wave[|wave| - 1];
    [Corner(Point(0.0, 0.0)), Corner(wave[0]), Corner(wave[0])]
    + seq(if |wave| >= 2 then |wave| - 2 else 0, i requires 0 <= i < |wave| - 2 => Curve(wave[i + 1]))
    + [Corner(last), Corner(last), Corner(Point(0.0, CANVAS_HEIGHT as real))]
  }

  /** The outline of a wave of two or more points: it runs from the top-left
      corner through every point of the wave in order, the ends as corners
      and the rest as curve points, to the bottom-left corner. */
  lemma OutlineOrder(wave: seq<Point>)
    requires |wave| >= 2
    ensures var shape := Outline(wave);
      && |shape| == |wave| + 4
      && shape[0] == Corner(Point(0.0, 0.0))
      && shape[1] == Corner(wave[0])
      && shape[|wave| + 2] == Corner(wave[|wave| - 1])
      && shape[|wave| + 3] == Corner(Point(0.0, CANVAS_HEIGHT as real))
      && (forall i :: 0 <= i < |wave| ==> shape[i + 2].p == wave[i])
      && (forall i :: 1 <= i < |wave| - 1 ==> shape[i + 2] == Curve(wave[i]))
  {
    var shape := Outline(wave);
    forall i | 0 <= i < |wave|
      ensures shape[i + 2].p == wave[i]
    {
      if 1 <= i < |wave| - 1 {
        assert shape[i + 2] == Curve(wave[i]);
      }
    }
  }

  /** The outline of one wave, vertex by vertex. */
  method TraceOutline(currentWave: seq<Point>) returns (shape: seq<OutlineVertex>)
    requires |currentWave| >= 1
    ensures shape == Outline(currentWave)
  {
    shape := [Corner(Point(0.0, 0.0)), Corner(currentWave[0]), Corner(currentWave[0])];
    var i := 1;
    while i < |currentWave| - 1
      invariant 1 <= i <= (if |currentWave| >= 2 then |currentWave| - 1 else 1)
      invariant shape == [Corner(Point(0.0, 0.0)), Corner(currentWave[0]), Corner(currentWave[0])]
        + seq(i - 1, j requires 0 <= j < i - 1 => Curve(currentWave[j + 1]))
    {
      shape := shape + [Curve(currentWave[i])];
      i := i + 1;
    }
    var last := currentWave[|currentWave| - 1];
    shape := shape + [Corner(last), Corner(last), Corner(Point(0.0, CANVAS_HEIGHT as real))];
  }

  /** A filled shape: its colour and outline. */
  datatype Shape = Shape(colour: Colour, outline: seq<OutlineVertex>)

  /** The drawing loop of `setup`: from the last wave down to the first, a
      fresh desert colour (three draws) and the wave's outline. */
  method DrawWaves(waves: seq<seq<Point>>, rng: Stream, pos: nat) returns (shapes: seq<Shape>, next: nat)
    requires forall k :: 0 <= k < |waves| ==> |waves[k]| >= 1
    ensures |shapes| == |waves| && next == pos + 3 * |waves|
    ensures forall j :: 0 <= j < |shapes| ==>
      shapes[j] == Shape(GetColorDesert(rng, pos + 3 * j), Outline(waves[|waves| - 1 - j]))
  {
    shapes := [];
    next := pos;
    for i := |waves| downto 0
      invariant |shapes| == |waves| - i && next == pos + 3 * |shapes|
      invariant forall j :: 0 <= j < |shapes| ==>
        shapes[j] == Shape(GetColorDesert(rng, pos + 3 * j), Outline(waves[|waves| - 1 - j]))
    {
      var currentWave := waves[i];
      var currentColour := GetColorDesert(rng, next);
      next := next + 3;
      var outline := TraceOutline(currentWave);
      shapes := shapes + [Shape(currentColour, outline)];
    }
  }

  /** `setup`: the background colour, then the waves, then the shapes. */
  method Setup(rng: Stream, pos: nat) returns (background: Colour, waves: seq<seq<Point>>, shapes: seq<Shape>,
                                               next: nat)
    ensures background == GetColorDesert(rng, pos)
    ensures IsWaveField(waves, rng, pos + 3)
    ensures |shapes| == NUM_WAVES
    ensures forall j :: 0 <= j < NUM_WAVES ==>
      shapes[j] == Shape(GetColorDesert(rng, pos + 3 + NUM_WAVES * POINTS_PER_WAVE + 3 * j),
                         Outline(waves[NUM_WAVES - 1 - j]))
    ensures next == pos + 3 + NUM_WAVES * POINTS_PER_WAVE + 3 * NUM_WAVES
  {
    background := GetColorDesert(rng, pos);
    waves, next := GenerateWaves(rng, pos + 3);
    shapes, next := DrawWaves(waves, rng, next);
  }

  /** Shapes are drawn back to front: in every row, the wave outlined by a
      shape lies strictly to the right of the wave outlined by any shape
      drawn after it, so nearer dunes are painted over farther ones. */
  lemma BackToFront(waves: seq<seq<Point>>, rng: Stream, pos: nat, shapes: seq<Shape>, j1: nat, j2: nat)
    requires IsWaveField(waves, rng, pos) && IsUnitStream(rng)
    requires |shapes| == NUM_WAVES
    requires forall j :: 0 <= j < NUM_WAVES ==> shapes[j].outline == Outline(waves[NUM_WAVES - 1 - j])
    requires j1 < j2 < NUM_WAVES
    ensures |shapes[j1].outline| == |shapes[j2].outline| == POINTS_PER_WAVE + 4
    ensures forall n :: 2 <= n < POINTS_PER_WAVE + 2 ==> shapes[j2].outline[n].p.x < shapes[j1].outline[n].p.x
  {
    var a, b := NUM_WAVES - 1 - j2, NUM_WAVES - 1 - j1;
    WavesAdvance(waves, rng, pos, a, b);
    OutlineOrder(waves[a]);
    OutlineOrder(waves[b]);
  }
}
