/** The lightning sketch: a bolt grows outward from the centre in polar steps
    of fixed radius, its angle drifting with a clamped momentum, and now and
    then it spawns a branch that grows the same way from where the bolt is. */
module Bliksem {
  import opened P5

  const CANVAS_WIDTH: int := 1200
  const CANVAS_HEIGHT: int := 800

  /** `max(CANVAS_HEIGHT, CANVAS_WIDTH) / 2`: a bolt grows until it reaches it. */
  const MAX_RADIUS: int := (if CANVAS_HEIGHT > CANVAS_WIDTH then CANVAS_HEIGHT else CANVAS_WIDTH) / 2

  /** Each growth step moves 10 further out. */
  const RADIUS_STEP: int := 10

  /** The momentum is clamped to [-0.05, 0.05]. */
  const MAX_MOMENTUM: real := 0.05

  /** A step turns by the momentum plus a draw from [-0.1, 0.1). */
  const ANGLE_SPREAD: real := 0.1

  /** At most one branch per 16 points. */
  const POINTS_PER_BRANCH: int := 16

  /** A branch is spawned when a draw falls below this. */
  const BRANCH_CHANCE: real := 0.06

  /** A branch stops early when a draw falls below this. */
  const STOP_CHANCE: real := 0.07

  /** A point `[angle, radius]` of a bolt, around the bolt's centre. Every
      radius is a whole number: bolts start at radius 0 and grow by 10. */
  datatype PolarPoint = PolarPoint(angle: real, radius: int)

  /** The momentum once the first `n` points exist: the last angle step,
      clamped, or the initial momentum while there is no step yet. */
  function MomentumAt(points: seq<PolarPoint>, n: nat, initial: real): (r: real)
    requires 1 <= n <= |points|
    ensures n == 1 ==> r == initial
    ensures n >= 2 ==> -MAX_MOMENTUM <= r <= MAX_MOMENTUM
    ensures n >= 2 && -MAX_MOMENTUM <= points[n - 1].angle - points[n - 2].angle <= MAX_MOMENTUM ==>
      r == points[n - 1].angle - points[n - 2].angle
  {
    if n >= 2 then Constrain(points[n - 1].angle - points[n - 2].angle, -MAX_MOMENTUM, MAX_MOMENTUM)
    else initial
  }

  /** Step `i` of a bolt: 10 further out, turning by the momentum in force
      before it plus a value in [-0.1, 0.1). */
  predicate StepOk(points: seq<PolarPoint>, i: nat, initial: real)
    requires 1 <= i < |points|
  {
    var m := MomentumAt(points, i, initial);
    && points[i].radius == points[i - 1].radius + RADIUS_STEP
    && m - ANGLE_SPREAD <= points[i].angle - points[i - 1].angle < m + ANGLE_SPREAD
  }

  /** Every step of a bolt is a growth step. */
  ghost predicate Steps(points: seq<PolarPoint>, initial: real)
  {
    forall i :: 1 <= i < |points| ==> StepOk(points, i, initial)
  }

  /** The branch count never runs ahead of the points: a branch is only spawned
      while `numBranches < points.length / 16`. */
  predicate Spaced(numBranches: nat, length: nat)
  {
    numBranches == 0 || POINTS_PER_BRANCH * (numBranches - 1) < length
  }

  /** What a bolt holds at one moment: its points, whether it is the trunk, the
      momentum of its angle, how many branches it has spawned, and the
      momentum it was created with. */
  datatype BoltState = BoltState(points: seq<PolarPoint>, isRoot: bool, momentum: real, numBranches: nat,
                                 initialMomentum: real)

  /** The fields of a bolt agree: there is a point, the momentum is the clamped
      last step, and the branches are spaced. */
  ghost predicate Consistent(b: BoltState)
  {
    && |b.points| >= 1
    && b.momentum == MomentumAt(b.points, |b.points|, b.initialMomentum)
    && Spaced(b.numBranches, |b.points|)
  }

  /** A bolt `generateBolt` has finished: consistent, grown step by step, below
      the maximum radius at every point but the last, and, for the trunk, which
      never stops early, at or past it at the last. */
  ghost predicate Grown(b: BoltState)
  {
    && Consistent(b)
    && Steps(b.points, b.initialMomentum)
    && (forall i :: 0 <= i < |b.points| - 1 ==> b.points[i].radius < MAX_RADIUS)
    && (b.isRoot ==> b.points[|b.points| - 1].radius >= MAX_RADIUS)
  }

  /** A `Bolt` object. */
  class Bolt {
    var points: seq<PolarPoint>
    const isRoot: bool
    var momentum: real
    var numBranches: nat
    /** The momentum the bolt was created with. */
    ghost const initialMomentum: real

    ghost function State(): BoltState
      reads this
    {
      BoltState(points, isRoot, momentum, numBranches, initialMomentum)
    }

    /** `new Bolt(initialAngle, initialRadius, isRoot, momentum)`. */
    constructor (initialAngle: real, initialRadius: int, isRoot: bool, momentum: real := 0.0)
      ensures points == [PolarPoint(initialAngle, initialRadius)]
      ensures this.isRoot == isRoot && this.momentum == momentum && numBranches == 0
      ensures initialMomentum == momentum
      ensures Consistent(State()) && Steps(points, initialMomentum)
    {
      points := [PolarPoint(initialAngle, initialRadius)];
      this.isRoot := isRoot;
      this.momentum := momentum;
      numBranches := 0;
      initialMomentum := momentum;
    }

    /** The getter `lastPoint`. */
    function LastPoint(): (p: PolarPoint)
      requires |points| >= 1
      reads this
      ensures p in points
    {
      points[|points| - 1]
    }

    /** `addPoint`: appends the point; once there are two points, the momentum
        becomes the last angle step clamped to [-0.05, 0.05]. */
    method AddPoint(angle: real, radius: int)
      modifies this
      ensures points == old(points) + [PolarPoint(angle, radius)]
      ensures |old(points)| >= 1 ==>
        momentum == Constrain(angle - old(points)[|old(points)| - 1].angle, -MAX_MOMENTUM, MAX_MOMENTUM)
      ensures |old(points)| == 0 ==> momentum == old(momentum)
      ensures numBranches == old(numBranches)
      ensures old(Consistent(State())) ==> Consistent(State())
    {
      points := points + [PolarPoint(angle, radius)];
      if |points| >= 2 {
        momentum := Constrain(points[|points| - 1].angle - points[|points| - 2].angle, -MAX_MOMENTUM, MAX_MOMENTUM);
      }
    }
  }

  /** A bolt branches off a bolt with points `parent`: it starts at one of those
      points other than the first. */
  ghost predicate BranchesOff(child: BoltState, parent: seq<PolarPoint>)
  {
    |child.points| >= 1 && |parent| >= 1 && child.points[0] in parent[1..]
  }

  /** Every bolt of the list is finished. */
  ghost predicate AllGrown(bolts: seq<BoltState>)
  {
    forall i :: 0 <= i < |bolts| ==> Grown(bolts[i])
  }

  /** Every bolt of the list is a branch spawned further out than `radius`,
      with a momentum within [-0.05, 0.05]. */
  ghost predicate BranchesBeyond(bolts: seq<BoltState>, radius: int)
  {
    forall i :: 0 <= i < |bolts| ==>
      && !bolts[i].isRoot
      && |bolts[i].points| >= 1 && bolts[i].points[0].radius > radius
      && -MAX_MOMENTUM <= bolts[i].initialMomentum <= MAX_MOMENTUM
  }

  /** Every bolt of the list branches off a bolt after it or off the bolt
      whose points are `tip`. */
  ghost predicate HangsFrom(bolts: seq<BoltState>, tip: seq<PolarPoint>)
  {
    forall i {:trigger HangsOffLater(bolts, i)} :: 0 <= i < |bolts| ==>
      HangsOffLater(bolts, i) || BranchesOff(bolts[i], tip)
  }

  /** Bolt `i` of the list branches off a bolt after it. */
  ghost predicate HangsOffLater(bolts: seq<BoltState>, i: int)
    requires 0 <= i < |bolts|
  {
    exists j :: i < j < |bolts| && BranchesOff(bolts[i], bolts[j].points)
  }

  /** The bolts `generateBolt` returns form a tree with the last as its trunk:
      every other bolt branches off a bolt after it. */
  ghost predicate IsTree(bolts: seq<BoltState>)
  {
    |bolts| >= 1 && HangsFrom(bolts[..|bolts| - 1], bolts[|bolts| - 1].points)
  }

  /** Who spawned whom in a call of `generateBolt`: the bolt as it ends up, for
      a branch the index `at` of its parent's point it was spawned at, and the
      branches the bolt spawned, in spawn order. */
  datatype SpawnTree = SpawnTree(bolt: BoltState, at: nat, branches: seq<SpawnTree>)

  /** The bolts of a spawn tree in the order `generateBolt` lists them: the
      bolts of each branch in spawn order, then the bolt itself. */
  ghost function Flatten(t: SpawnTree): seq<BoltState>
    decreases t, 1
  {
    FlattenAll(t.branches) + [t.bolt]
  }

  ghost function FlattenAll(ts: seq<SpawnTree>): seq<BoltState>
    decreases ts, 0
  {
    if ts == [] then [] else FlattenAll(ts[..|ts| - 1]) + Flatten(ts[|ts| - 1])
  }

  /** `branch` is the `m`-th branch spawned by a bolt with points `points`: it
      is not the trunk, it starts at point `at` (not the first) of its parent,
      with the opposite of the parent's momentum once that point was added,
      and the parent had fewer than one branch per 16 points then (`m`
      below `(at + 1) / 16`). */
  ghost predicate SpawnedAt(branch: SpawnTree, m: nat, points: seq<PolarPoint>, initialMomentum: real)
  {
    && 1 <= branch.at < |points|
    && !branch.bolt.isRoot
    && |branch.bolt.points| >= 1 && branch.bolt.points[0] == points[branch.at]
    && branch.bolt.initialMomentum == -MomentumAt(points, branch.at + 1, initialMomentum)
    && POINTS_PER_BRANCH * m < branch.at + 1
  }

  /** `branches` are the branches spawned, in order, by a bolt with points
      `points`: each spawned as above, at strictly later points, and each with
      a well-formed spawn tree of its own. */
  ghost predicate Spawns(branches: seq<SpawnTree>, points: seq<PolarPoint>, initialMomentum: real)
    decreases branches, 0
  {
    && (forall m :: 0 <= m < |branches| ==> SpawnedAt(branches[m], m, points, initialMomentum))
    && (forall m, n :: 0 <= m < n < |branches| ==> branches[m].at < branches[n].at)
    && (forall m :: 0 <= m < |branches| ==> WellSpawned(branches[m]))
  }

  /** Every bolt of the tree has spawned exactly `numBranches` branches, as
      `Spawns` says. */
  ghost predicate WellSpawned(t: SpawnTree)
    decreases t, 1
  {
    |t.branches| == t.bolt.numBranches && Spawns(t.branches, t.bolt.points, t.bolt.initialMomentum)
  }

  lemma AllGrownAppend(a: seq<BoltState>, b: seq<BoltState>)
    requires AllGrown(a) && AllGrown(b)
    ensures AllGrown(a + b)
  {
    assert forall i :: 0 <= i < |b| ==> (a + b)[|a| + i] == b[i];
  }

  lemma BranchesBeyondAppend(a: seq<BoltState>, b: seq<BoltState>, radius: int)
    requires BranchesBeyond(a, radius) && BranchesBeyond(b, radius)
    ensures BranchesBeyond(a + b, radius)
  {
    assert forall i :: 0 <= i < |b| ==> (a + b)[|a| + i] == b[i];
  }

  /** A branch's whole tree, spawned further out than `radius`, consists of
      branches spawned further out than `radius`. */
  lemma SubtreeBeyond(children: seq<BoltState>, spawnRadius: int, radius: int)
    requires |children| >= 1 && BranchesBeyond(children[..|children| - 1], spawnRadius) && radius <= spawnRadius
    requires var trunk := children[|children| - 1];
      && !trunk.isRoot && |trunk.points| >= 1 && trunk.points[0].radius > radius
      && -MAX_MOMENTUM <= trunk.initialMomentum <= MAX_MOMENTUM
    ensures BranchesBeyond(children, radius)
  {
    forall i | 0 <= i < |children| - 1 ensures children[i] == children[..|children| - 1][i] {}
  }

  /** Appending a branch's whole tree, whose trunk branches off `tip`, keeps
      every bolt hanging from a later bolt or from `tip`. */
  lemma HangsFromAppend(bolts: seq<BoltState>, children: seq<BoltState>, tip: seq<PolarPoint>)
    requires HangsFrom(bolts, tip) && IsTree(children)
    requires BranchesOff(children[|children| - 1], tip)
    ensures HangsFrom(bolts + children, tip)
  {
    var all := bolts + children;
    var n := |bolts|;
    var trunk := children[|children| - 1];
    var branches := children[..|children| - 1];
    forall i | 0 <= i < |all|
      ensures HangsOffLater(all, i) || BranchesOff(all[i], tip)
    {
      if i < n {
        assert all[i] == bolts[i];
        if !BranchesOff(bolts[i], tip) {
          assert HangsOffLater(bolts, i);
          var j :| i < j < n && BranchesOff(bolts[i], bolts[j].points);
          assert all[j] == bolts[j];
        }
      } else if i < |all| - 1 {
        var c := i - n;
        assert all[i] == children[c] == branches[c];
        if BranchesOff(branches[c], trunk.points) {
          assert all[|all| - 1] == trunk;
        } else {
          assert HangsOffLater(branches, c);
          var j :| c < j < |branches| && BranchesOff(branches[c], branches[j].points);
          assert all[n + j] == branches[j];
        }
      } else {
        assert all[i] == trunk;
      }
    }
  }

  /** Once the bolt `tip` is finished and appended, the list is a tree. */
  lemma HangsFromClose(bolts: seq<BoltState>, tip: BoltState)
    requires HangsFrom(bolts, tip.points)
    ensures IsTree(bolts + [tip])
  {
    assert (bolts + [tip])[..|bolts|] == bolts;
  }

  /** Growing the tip keeps every bolt hanging. */
  lemma HangsFromGrow(bolts: seq<BoltState>, tip: seq<PolarPoint>, grown: seq<PolarPoint>)
    requires HangsFrom(bolts, tip)
    requires |tip| >= 1 && tip <= grown
    ensures HangsFrom(bolts, grown)
  {
    forall i | 0 <= i < |bolts|
      ensures HangsOffLater(bolts, i) || BranchesOff(bolts[i], grown)
    {
      if !HangsOffLater(bolts, i) {
        var k :| 1 <= k < |tip| && tip[k] == bolts[i].points[0];
        assert grown[k] == tip[k];
      }
    }
  }

  /** A growth step keeps the earlier steps. */
  lemma StepsSnoc(points: seq<PolarPoint>, p: PolarPoint, initial: real)
    requires |points| >= 1 && Steps(points, initial)
    requires StepOk(points + [p], |points|, initial)
    ensures Steps(points + [p], initial)
  {
    forall i | 1 <= i < |points| + 1
      ensures StepOk(points + [p], i, initial)
    {
      if i < |points| {
        assert StepOk(points, i, initial);
        assert (points + [p])[i] == points[i] && (points + [p])[i - 1] == points[i - 1];
        if i >= 2 {
          assert (points + [p])[i - 2] == points[i - 2];
        }
      }
    }
  }

  /** The momentum once the first `n` points exist does not change as the bolt
      grows further. */
  lemma MomentumAtPrefix(points: seq<PolarPoint>, grown: seq<PolarPoint>, n: nat, initial: real)
    requires 1 <= n <= |points| && points <= grown
    ensures MomentumAt(grown, n, initial) == MomentumAt(points, n, initial)
  {
    if n >= 2 {
      assert grown[n - 1] == points[n - 1] && grown[n - 2] == points[n - 2];
    }
  }

  /** Growing a bolt keeps the record of the branches it spawned. */
  lemma SpawnsGrow(branches: seq<SpawnTree>, points: seq<PolarPoint>, grown: seq<PolarPoint>, initial: real)
    requires Spawns(branches, points, initial) && points <= grown
    ensures Spawns(branches, grown, initial)
    ensures forall m :: 0 <= m < |branches| ==> branches[m].at < |points|
  {
    forall m | 0 <= m < |branches|
      ensures SpawnedAt(branches[m], m, grown, initial)
    {
      assert SpawnedAt(branches[m], m, points, initial);
      MomentumAtPrefix(points, grown, branches[m].at + 1, initial);
      assert grown[branches[m].at] == points[branches[m].at];
    }
  }

  /** A branch spawned after the recorded ones extends the record. */
  lemma SpawnsAppend(branches: seq<SpawnTree>, branch: SpawnTree, points: seq<PolarPoint>, initial: real)
    requires Spawns(branches, points, initial)
    requires SpawnedAt(branch, |branches|, points, initial) && WellSpawned(branch)
    requires forall m :: 0 <= m < |branches| ==> branches[m].at < branch.at
    ensures Spawns(branches + [branch], points, initial)
  {
    var all := branches + [branch];
    assert forall m :: 0 <= m < |branches| ==> all[m] == branches[m];
  }

  /** Listing one more spawn tree lists its bolts after the others. */
  lemma FlattenAllSnoc(ts: seq<SpawnTree>, t: SpawnTree)
    ensures FlattenAll(ts + [t]) == FlattenAll(ts) + Flatten(t)
  {
    assert (ts + [t])[..|ts|] == ts;
  }

  /** One growth step of `generateBolt` on `bolt`, drawing `u` for the turn:
      10 further out, turning by the momentum plus a value in [-0.1, 0.1). */
  method GrowStep(bolt: Bolt, u: real) returns (newAngle: real, newRadius: int)
    requires 0.0 <= u < 1.0
    requires Consistent(bolt.State()) && Steps(bolt.points, bolt.initialMomentum)
    modifies bolt
    ensures newAngle == old(bolt.LastPoint().angle) + Uniform(u, old(bolt.momentum) - ANGLE_SPREAD, old(bolt.momentum) + ANGLE_SPREAD)
    ensures newRadius == old(bolt.LastPoint().radius) + RADIUS_STEP
    ensures bolt.points == old(bolt.points) + [PolarPoint(newAngle, newRadius)]
    ensures bolt.numBranches == old(bolt.numBranches)
    ensures Consistent(bolt.State()) && Steps(bolt.points, bolt.initialMomentum)
  {
    var last := bolt.LastPoint();
    newAngle := last.angle + Uniform(u, bolt.momentum - ANGLE_SPREAD, bolt.momentum + ANGLE_SPREAD);
    newRadius := last.radius + RADIUS_STEP;
    ghost var before := bolt.points;
    bolt.AddPoint(newAngle, newRadius);
    StepsSnoc(before, PolarPoint(newAngle, newRadius), bolt.initialMomentum);
  }

  /** How far a bolt starting at `radius` can still grow; `generateBolt`
      recursion makes it smaller at every level. */
  function Room(radius: int): nat
  {
    if radius < MAX_RADIUS then MAX_RADIUS - radius else 0
  }

  /** `generateBolt`, drawing from position `pos` of `rng` on: grows a bolt from
      (initialAngle, initialRadius) until it reaches the maximum radius or, for a
      branch, stops early; every spawned branch is generated in full, right
      away. The result lists every descendant in spawn order, then the bolt
      itself; `states` is what they hold and `tree` who spawned whom. Every
      bolt is grown step by step; every bolt but the last is a branch that
      starts further out than this one, with a momentum within [-0.05, 0.05],
      at a point (not the first) of a bolt after it in the list; every bolt
      spawned exactly `numBranches` branches, each at a point it had just
      added while it had fewer than one branch per 16 points, with the
      opposite of its momentum there. */
  method GenerateBolt(initialAngle: real, initialRadius: int, isRoot: bool, momentum: real, rng: Stream, pos: nat)
    returns (bolts: seq<Bolt>, next: nat, ghost states: seq<BoltState>, ghost tree: SpawnTree)
    requires IsUnitStream(rng)
    decreases Room(initialRadius), 2
    ensures forall i :: 0 <= i < |bolts| ==> fresh(bolts[i])
    ensures |bolts| == |states| && (forall i :: 0 <= i < |bolts| ==> bolts[i].State() == states[i])
    ensures |states| >= 1 && AllGrown(states)
    ensures var b := states[|states| - 1];
      && |b.points| >= 1 && b.points[0] == PolarPoint(initialAngle, initialRadius)
      && b.isRoot == isRoot && b.initialMomentum == momentum
    ensures BranchesBeyond(states[..|states| - 1], initialRadius)
    ensures IsTree(states)
    ensures tree.bolt == states[|states| - 1] && Flatten(tree) == states && WellSpawned(tree)
    ensures next >= pos
  {
    var newBolt := new Bolt(initialAngle, initialRadius, isRoot, momentum);
    ghost var branchTrees;
    bolts, next, states, branchTrees := GrowBolt(newBolt, initialRadius, rng, pos);
    ghost var trunk := newBolt.State();
    HangsFromClose(states, trunk);
    AllGrownAppend(states, [trunk]);
    ghost var branches := states;
    ghost var spawned := bolts;
    bolts := bolts + [newBolt];
    states := states + [trunk];
    tree := SpawnTree(trunk, 0, branchTrees);
    assert states[..|states| - 1] == branches;
    assert forall i :: 0 <= i < |bolts| - 1 ==> bolts[i] == spawned[i];
  }

  /** The loop of `generateBolt` on the new bolt `bolt`, which starts at
      `initialRadius`: the bolt grows until it is finished; the branches it
      spawns on the way, with theirs, are returned in spawn order, and
      `branchTrees` records them. */
  method GrowBolt(bolt: Bolt, initialRadius: int, rng: Stream, pos: nat)
    returns (bolts: seq<Bolt>, next: nat, ghost states: seq<BoltState>, ghost branchTrees: seq<SpawnTree>)
    requires IsUnitStream(rng)
    requires Consistent(bolt.State()) && Steps(bolt.points, bolt.initialMomentum)
    requires |bolt.points| == 1 && bolt.points[0].radius == initialRadius && bolt.numBranches == 0
    modifies bolt
    decreases Room(initialRadius), 1
    ensures |bolt.points| >= 1 && bolt.points[0] == old(bolt.points[0]) && Grown(bolt.State())
    ensures forall i :: 0 <= i < |bolts| ==> fresh(bolts[i]) && bolts[i] != bolt
    ensures |bolts| == |states| && (forall i :: 0 <= i < |bolts| ==> bolts[i].State() == states[i])
    ensures AllGrown(states) && BranchesBeyond(states, initialRadius) && HangsFrom(states, bolt.points)
    ensures states == FlattenAll(branchTrees) && |branchTrees| == bolt.numBranches
    ensures Spawns(branchTrees, bolt.points, bolt.initialMomentum)
    ensures next >= pos
  {
    bolts := [];
    states := [];
    branchTrees := [];
    next := pos;
    while bolt.LastPoint().radius < MAX_RADIUS
      invariant |bolt.points| >= 1 && bolt.points[0] == old(bolt.points[0])
      invariant Consistent(bolt.State()) && Steps(bolt.points, bolt.initialMomentum)
      invariant bolt.LastPoint().radius >= initialRadius
      invariant forall i :: 0 <= i < |bolt.points| - 1 ==> bolt.points[i].radius < MAX_RADIUS
      invariant forall i :: 0 <= i < |bolts| ==> fresh(bolts[i]) && bolts[i] != bolt
      invariant |bolts| == |states| && (forall i :: 0 <= i < |bolts| ==> bolts[i].State() == states[i])
      invariant AllGrown(states) && BranchesBeyond(states, initialRadius) && HangsFrom(states, bolt.points)
      invariant states == FlattenAll(branchTrees) && |branchTrees| == bolt.numBranches
      invariant Spawns(branchTrees, bolt.points, bolt.initialMomentum)
      invariant next >= pos
      decreases MAX_RADIUS - bolt.LastPoint().radius
    {
      ghost var spawned := bolts;
      bolts, next, states, branchTrees := GrowPass(bolt, bolts, states, branchTrees, initialRadius, rng, next);
      assert forall i :: 0 <= i < |bolts| ==> fresh(bolts[i]) && bolts[i] != bolt by {
        forall i | 0 <= i < |bolts| ensures fresh(bolts[i]) && bolts[i] != bolt {
          if i < |spawned| {
            assert bolts[i] == spawned[i];
          }
        }
      }
      if !bolt.isRoot {
        var u := rng(next);
        next := next + 1;
        if u < STOP_CHANCE {
          break;
        }
      }
    }
  }

  /** A pass of `generateBolt`'s loop on `bolt` up to the early-stop draw: a
      growth step, then maybe a branch at the new point. */
  method GrowPass(bolt: Bolt, bolts: seq<Bolt>, ghost states: seq<BoltState>, ghost branchTrees: seq<SpawnTree>,
                  initialRadius: int, rng: Stream, pos: nat)
    returns (newBolts: seq<Bolt>, next: nat, ghost newStates: seq<BoltState>, ghost newTrees: seq<SpawnTree>)
    requires IsUnitStream(rng)
    requires Consistent(bolt.State()) && Steps(bolt.points, bolt.initialMomentum)
    requires initialRadius <= bolt.LastPoint().radius < MAX_RADIUS
    requires forall i :: 0 <= i < |bolt.points| - 1 ==> bolt.points[i].radius < MAX_RADIUS
    requires forall i :: 0 <= i < |bolts| ==> bolts[i] != bolt
    requires |bolts| == |states| && (forall i :: 0 <= i < |bolts| ==> bolts[i].State() == states[i])
    requires AllGrown(states) && BranchesBeyond(states, initialRadius) && HangsFrom(states, bolt.points)
    requires states == FlattenAll(branchTrees) && |branchTrees| == bolt.numBranches
    requires Spawns(branchTrees, bolt.points, bolt.initialMomentum)
    modifies bolt
    decreases Room(initialRadius), 0
    ensures |bolt.points| >= 2 && bolt.points == old(bolt.points) + [bolt.LastPoint()]
    ensures bolt.LastPoint().radius == old(bolt.LastPoint().radius) + RADIUS_STEP
    ensures forall i :: 0 <= i < |bolt.points| - 1 ==> bolt.points[i].radius < MAX_RADIUS
    ensures Consistent(bolt.State()) && Steps(bolt.points, bolt.initialMomentum)
    ensures |newBolts| >= |bolts| && forall i :: 0 <= i < |bolts| ==> newBolts[i] == bolts[i]
    ensures forall i :: |bolts| <= i < |newBolts| ==> fresh(newBolts[i])
    ensures |newBolts| == |newStates| && (forall i :: 0 <= i < |newBolts| ==> newBolts[i].State() == newStates[i])
    ensures AllGrown(newStates) && BranchesBeyond(newStates, initialRadius) && HangsFrom(newStates, bolt.points)
    ensures newStates == FlattenAll(newTrees) && |newTrees| == bolt.numBranches
    ensures Spawns(newTrees, bolt.points, bolt.initialMomentum)
    ensures next >= pos + 1
  {
    ghost var before := bolt.points;
    var newAngle, newRadius := GrowStep(bolt, rng(pos));
    HangsFromGrow(states, before, bolt.points);
    SpawnsGrow(branchTrees, before, bolt.points, bolt.initialMomentum);
    newBolts, next, newStates, newTrees :=
      MaybeBranch(bolt, bolts, states, branchTrees, newAngle, newRadius, initialRadius, rng, pos + 1);
  }

  /** The branching part of a pass of `generateBolt`'s loop, once `bolt` has
      grown to (newAngle, newRadius): while the bolt has fewer than one branch
      per 16 points, a draw below 0.06 spawns a branch there, with the opposite
      momentum, generated in full and appended to `bolts`; the branch count
      goes up by one exactly when a branch is spawned. */
  method MaybeBranch(bolt: Bolt, bolts: seq<Bolt>, ghost states: seq<BoltState>, ghost branchTrees: seq<SpawnTree>,
                     newAngle: real, newRadius: int, initialRadius: int, rng: Stream, pos: nat)
    returns (newBolts: seq<Bolt>, next: nat, ghost newStates: seq<BoltState>, ghost newTrees: seq<SpawnTree>)
    requires IsUnitStream(rng)
    requires Consistent(bolt.State()) && |bolt.points| >= 2 && bolt.LastPoint() == PolarPoint(newAngle, newRadius)
    requires initialRadius < newRadius
    requires forall i :: 0 <= i < |bolts| ==> bolts[i] != bolt
    requires |bolts| == |states| && (forall i :: 0 <= i < |bolts| ==> bolts[i].State() == states[i])
    requires AllGrown(states) && BranchesBeyond(states, initialRadius) && HangsFrom(states, bolt.points)
    requires states == FlattenAll(branchTrees) && |branchTrees| == bolt.numBranches
    requires Spawns(branchTrees, bolt.points, bolt.initialMomentum)
    requires forall m :: 0 <= m < |branchTrees| ==> branchTrees[m].at < |bolt.points| - 1
    modifies bolt
    decreases Room(newRadius), 4
    ensures bolt.points == old(bolt.points) && bolt.momentum == old(bolt.momentum) && Consistent(bolt.State())
    ensures |newBolts| >= |bolts| && forall i :: 0 <= i < |bolts| ==> newBolts[i] == bolts[i]
    ensures forall i :: |bolts| <= i < |newBolts| ==> fresh(newBolts[i])
    ensures |newBolts| == |newStates| && (forall i :: 0 <= i < |newBolts| ==> newBolts[i].State() == newStates[i])
    ensures AllGrown(newStates) && BranchesBeyond(newStates, initialRadius) && HangsFrom(newStates, bolt.points)
    ensures newStates == FlattenAll(newTrees) && |newTrees| == bolt.numBranches
    ensures Spawns(newTrees, bolt.points, bolt.initialMomentum)
    ensures |newBolts| == |bolts| ==>
      newTrees == branchTrees && bolt.numBranches == old(bolt.numBranches)
    ensures |newBolts| > |bolts| ==>
      && (old(bolt.numBranches) as real) < (|bolt.points| as real) / (POINTS_PER_BRANCH as real)
      && bolt.numBranches == old(bolt.numBranches) + 1
      && newTrees == branchTrees + [newTrees[|newTrees| - 1]]
      && newTrees[|newTrees| - 1].at == |bolt.points| - 1
      && newStates[|newStates| - 1].points[0] == PolarPoint(newAngle, newRadius)
      && newStates[|newStates| - 1].initialMomentum == -bolt.momentum
    ensures next >= pos
  {
    newBolts := bolts;
    newStates := states;
    newTrees := branchTrees;
    next := pos;
    if (bolt.numBranches as real) < (|bolt.points| as real) / (POINTS_PER_BRANCH as real) {
      var u := rng(next);
      next := next + 1;
      if u < BRANCH_CHANCE {
        newBolts, next, newStates, newTrees :=
          SpawnBranch(bolt, bolts, states, branchTrees, newAngle, newRadius, initialRadius, rng, next);
        SpawnKeepsSpaced(bolt.numBranches, |bolt.points|);
        bolt.numBranches := bolt.numBranches + 1;
      }
    }
  }

  /** The spawn of `MaybeBranch`: a branch starting at (newAngle, newRadius),
      the bolt's just-added point, with the opposite of the bolt's momentum,
      generated in full and appended to `bolts`. */
  method SpawnBranch(bolt: Bolt, bolts: seq<Bolt>, ghost states: seq<BoltState>, ghost branchTrees: seq<SpawnTree>,
                     newAngle: real, newRadius: int, initialRadius: int, rng: Stream, pos: nat)
    returns (newBolts: seq<Bolt>, next: nat, ghost newStates: seq<BoltState>, ghost newTrees: seq<SpawnTree>)
    requires IsUnitStream(rng)
    requires Consistent(bolt.State()) && |bolt.points| >= 2 && bolt.LastPoint() == PolarPoint(newAngle, newRadius)
    requires (bolt.numBranches as real) < (|bolt.points| as real) / (POINTS_PER_BRANCH as real)
    requires initialRadius < newRadius
    requires forall i :: 0 <= i < |bolts| ==> bolts[i] != bolt
    requires |bolts| == |states| && (forall i :: 0 <= i < |bolts| ==> bolts[i].State() == states[i])
    requires AllGrown(states) && BranchesBeyond(states, initialRadius) && HangsFrom(states, bolt.points)
    requires states == FlattenAll(branchTrees) && |branchTrees| == bolt.numBranches
    requires Spawns(branchTrees, bolt.points, bolt.initialMomentum)
    requires forall m :: 0 <= m < |branchTrees| ==> branchTrees[m].at < |bolt.points| - 1
    decreases Room(newRadius), 3
    ensures |newBolts| > |bolts| && forall i :: 0 <= i < |bolts| ==> newBolts[i] == bolts[i]
    ensures forall i :: |bolts| <= i < |newBolts| ==> fresh(newBolts[i])
    ensures |newBolts| == |newStates| && (forall i :: 0 <= i < |newBolts| ==> newBolts[i].State() == newStates[i])
    ensures AllGrown(newStates) && BranchesBeyond(newStates, initialRadius) && HangsFrom(newStates, bolt.points)
    ensures newStates == FlattenAll(newTrees)
    ensures Spawns(newTrees, bolt.points, bolt.initialMomentum)
    ensures newTrees == branchTrees + [newTrees[|newTrees| - 1]] && newTrees[|newTrees| - 1].at == |bolt.points| - 1
    ensures newStates[|newStates| - 1].points[0] == PolarPoint(newAngle, newRadius)
    ensures newStates[|newStates| - 1].initialMomentum == -bolt.momentum
    ensures next >= pos
  {
    ghost var tip := bolt.State();
    // Past the first step the momentum is a clamped angle step.
    assert -MAX_MOMENTUM <= bolt.momentum <= MAX_MOMENTUM;
    var children; ghost var childStates; ghost var childTree;
    children, next, childStates, childTree := GenerateBolt(newAngle, newRadius, false, -bolt.momentum, rng, pos);
    SpawnKeepsHanging(states, tip, initialRadius, childStates);
    ghost var branch := SpawnTree(childTree.bolt, |tip.points| - 1, childTree.branches);
    assert Flatten(branch) == childStates && WellSpawned(branch);
    SpawnRecorded(states, branchTrees, tip, branch);
    newBolts := bolts + children;
    newStates := states + childStates;
    newTrees := branchTrees + [branch];
    forall i | 0 <= i < |newBolts| ensures newBolts[i].State() == newStates[i] {
      if i < |bolts| {
        assert newBolts[i] == bolts[i] && newStates[i] == states[i];
      } else {
        assert newBolts[i] == children[i - |bolts|] && newStates[i] == childStates[i - |bolts|];
      }
    }
  }

  /** Appending the whole list of a branch spawned at the last point of the
      bolt `tip` keeps every bolt finished, further out than `initialRadius`
      and hanging from a later bolt or from `tip`. */
  lemma SpawnKeepsHanging(states: seq<BoltState>, tip: BoltState, initialRadius: int, childStates: seq<BoltState>)
    requires Consistent(tip) && |tip.points| >= 2
    requires initialRadius < tip.points[|tip.points| - 1].radius
    requires AllGrown(states) && BranchesBeyond(states, initialRadius) && HangsFrom(states, tip.points)
    requires |childStates| >= 1 && AllGrown(childStates) && IsTree(childStates)
    requires var b := childStates[|childStates| - 1];
      && |b.points| >= 1 && b.points[0] == tip.points[|tip.points| - 1]
      && !b.isRoot && b.initialMomentum == -tip.momentum
    requires BranchesBeyond(childStates[..|childStates| - 1], tip.points[|tip.points| - 1].radius)
    ensures var all := states + childStates;
      AllGrown(all) && BranchesBeyond(all, initialRadius) && HangsFrom(all, tip.points)
  {
    assert tip.points[|tip.points| - 1] in tip.points[1..];
    AllGrownAppend(states, childStates);
    SubtreeBeyond(childStates, tip.points[|tip.points| - 1].radius, initialRadius);
    BranchesBeyondAppend(states, childStates, initialRadius);
    HangsFromAppend(states, childStates, tip.points);
  }

  /** A branch spawned at the last point of the bolt `tip`, while it had fewer
      than one branch per 16 points, with the opposite of its momentum,
      extends the record of its branches, and its list follows theirs. */
  lemma SpawnRecorded(states: seq<BoltState>, branchTrees: seq<SpawnTree>, tip: BoltState, branch: SpawnTree)
    requires Consistent(tip) && |tip.points| >= 2
    requires (|branchTrees| as real) < (|tip.points| as real) / (POINTS_PER_BRANCH as real)
    requires states == FlattenAll(branchTrees) && Spawns(branchTrees, tip.points, tip.initialMomentum)
    requires forall m :: 0 <= m < |branchTrees| ==> branchTrees[m].at < |tip.points| - 1
    requires branch.at == |tip.points| - 1
    requires |branch.bolt.points| >= 1 && branch.bolt.points[0] == tip.points[|tip.points| - 1]
    requires !branch.bolt.isRoot && branch.bolt.initialMomentum == -tip.momentum
    requires WellSpawned(branch)
    ensures states + Flatten(branch) == FlattenAll(branchTrees + [branch])
    ensures Spawns(branchTrees + [branch], tip.points, tip.initialMomentum)
  {
    SpawnKeepsSpaced(|branchTrees|, |tip.points|);
    SpawnsAppend(branchTrees, branch, tip.points, tip.initialMomentum);
    FlattenAllSnoc(branchTrees, branch);
  }

  /** Point `i` of a bolt grown step by step lies `10 * i` further out than its
      first point. */
  lemma {:induction false} RadiusAt(points: seq<PolarPoint>, initial: real, i: nat)
    requires Steps(points, initial) && i < |points|
    ensures points[i].radius == points[0].radius + RADIUS_STEP * i
  {
    if i > 0 {
      RadiusAt(points, initial, i - 1);
      assert StepOk(points, i, initial);
    }
  }

  /** Radii strictly increase along a bolt. */
  lemma RadiiIncrease(points: seq<PolarPoint>, initial: real, i: nat, j: nat)
    requires Steps(points, initial) && i < j < |points|
    ensures points[i].radius < points[j].radius
  {
    RadiusAt(points, initial, i);
    RadiusAt(points, initial, j);
  }

  /** With a starting momentum within [-0.05, 0.05], every step of a bolt turns
      by less than 0.15 either way. */
  lemma AngleStepBound(points: seq<PolarPoint>, initial: real)
    requires Steps(points, initial) && -MAX_MOMENTUM <= initial <= MAX_MOMENTUM
    ensures forall i :: 1 <= i < |points| ==> -0.15 <= points[i].angle - points[i - 1].angle < 0.15
  {
    forall i | 1 <= i < |points|
      ensures -0.15 <= points[i].angle - points[i - 1].angle < 0.15
    {
      assert StepOk(points, i, initial);
      assert -MAX_MOMENTUM <= MomentumAt(points, i, initial) <= MAX_MOMENTUM;
    }
  }

  /** A finished trunk grown from radius 0 has exactly 61 points, the last at
      radius 600. */
  lemma RootBoltLength(b: BoltState)
    requires Grown(b) && b.isRoot && b.points[0].radius == 0
    ensures |b.points| == 61 && b.points[|b.points| - 1].radius == MAX_RADIUS
  {
    var n := |b.points|;
    RadiusAt(b.points, b.initialMomentum, n - 1);
    if n >= 2 {
      RadiusAt(b.points, b.initialMomentum, n - 2);
    }
  }

  /** A radius bolts can reach: a multiple of 10 from 0 to 600. */
  predicate OnGrid(radius: int)
  {
    0 <= radius <= MAX_RADIUS && radius % RADIUS_STEP == 0
  }

  /** A finished bolt that starts on the grid stays on it: no radius passes 600. */
  lemma RadiiBounded(b: BoltState)
    requires Grown(b) && OnGrid(b.points[0].radius)
    ensures forall k :: 0 <= k < |b.points| ==> OnGrid(b.points[k].radius)
  {
    var n := |b.points|;
    var r0 := b.points[0].radius;
    RadiusAt(b.points, b.initialMomentum, n - 1);
    if n >= 2 {
      RadiusAt(b.points, b.initialMomentum, n - 2);
      assert r0 + RADIUS_STEP * (n - 2) < MAX_RADIUS;
    }
    forall k | 0 <= k < n
      ensures OnGrid(b.points[k].radius)
    {
      RadiusAt(b.points, b.initialMomentum, k);
    }
  }

  /** In a tree of finished bolts whose trunk starts on the grid, bolt `i` and
      every bolt after it have all their radii on the grid. */
  lemma {:induction false} TreeOnGridFrom(bolts: seq<BoltState>, i: nat)
    requires AllGrown(bolts) && IsTree(bolts) && OnGrid(bolts[|bolts| - 1].points[0].radius)
    requires i < |bolts|
    decreases |bolts| - i
    ensures forall k :: 0 <= k < |bolts[i].points| ==> OnGrid(bolts[i].points[k].radius)
  {
    var n := |bolts|;
    var branches := bolts[..n - 1];
    assert Grown(bolts[i]);
    if i < n - 1 {
      assert bolts[i] == branches[i];
      var parent: nat;
      if HangsOffLater(branches, i) {
        var j :| i < j < |branches| && BranchesOff(branches[i], branches[j].points);
        assert branches[j] == bolts[j];
        parent := j;
      } else {
        parent := n - 1;
      }
      TreeOnGridFrom(bolts, parent);
      var k :| 1 <= k < |bolts[parent].points| && bolts[parent].points[k] == bolts[i].points[0];
    }
    RadiiBounded(bolts[i]);
  }

  /** Every radius of every bolt `generateBolt` returns for a trunk started at
      radius 0, as the sketch starts it, is a multiple of 10 within [0, 600],
      and the trunk has 61 points. */
  lemma TreeRadii(bolts: seq<BoltState>)
    requires AllGrown(bolts) && IsTree(bolts)
    requires var trunk := bolts[|bolts| - 1]; trunk.isRoot && trunk.points[0].radius == 0
    ensures forall i, k :: 0 <= i < |bolts| && 0 <= k < |bolts[i].points| ==> OnGrid(bolts[i].points[k].radius)
    ensures |bolts[|bolts| - 1].points| == 61
  {
    forall i | 0 <= i < |bolts|
      ensures forall k :: 0 <= k < |bolts[i].points| ==> OnGrid(bolts[i].points[k].radius)
    {
      TreeOnGridFrom(bolts, i);
    }
    RootBoltLength(bolts[|bolts| - 1]);
  }

  /** Every step of every bolt of a tree whose trunk starts with a momentum
      within [-0.05, 0.05] turns by less than 0.15 either way. */
  lemma TreeAngleSteps(bolts: seq<BoltState>, initialRadius: int)
    requires AllGrown(bolts) && |bolts| >= 1 && BranchesBeyond(bolts[..|bolts| - 1], initialRadius)
    requires -MAX_MOMENTUM <= bolts[|bolts| - 1].initialMomentum <= MAX_MOMENTUM
    ensures forall i, k :: 0 <= i < |bolts| && 1 <= k < |bolts[i].points| ==>
      -0.15 <= bolts[i].points[k].angle - bolts[i].points[k - 1].angle < 0.15
  {
    forall i | 0 <= i < |bolts|
      ensures forall k :: 1 <= k < |bolts[i].points| ==>
        -0.15 <= bolts[i].points[k].angle - bolts[i].points[k - 1].angle < 0.15
    {
      if i < |bolts| - 1 {
        assert bolts[i] == bolts[..|bolts| - 1][i];
      }
      assert Grown(bolts[i]);
      AngleStepBound(bolts[i].points, bolts[i].initialMomentum);
    }
  }

  /** The spawn test `numBranches < points.length / 16` keeps the branches
      spaced once the count goes up. */
  lemma SpawnKeepsSpaced(numBranches: nat, length: nat)
    requires (numBranches as real) < (length as real) / (POINTS_PER_BRANCH as real)
    ensures Spaced(numBranches + 1, length)
  {
    assert (numBranches as real) * (POINTS_PER_BRANCH as real) < length as real;
  }
}
