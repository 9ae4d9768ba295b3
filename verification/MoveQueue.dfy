/**
 The move objects and the move queue of the toolhead.

 A Move carries the limits that the planner reads and receives the speeds and phase
 times that the planner assigns.  A MoveQueue holds the moves whose speeds are not
 yet final.
 */
module MoveQueues {
  import opened RealMath
  import opened Kinematics
  import opened Lookahead

  const LOOKAHEAD_FLUSH_TIME: real := 0.25
  const EXTRUDE_ONLY_ACCEL: real := 99999999.9

  /** The velocity and acceleration settings in force when a move arrives. */
  datatype Settings = Settings(
    maxVelocity: real,
    maxAccel: real,
    maxAccelToDecel: real,
    junctionDeviation: real,
    instantCornerV: real)
  {
    ghost predicate Valid() {
      && 0.0 < maxVelocity
      && 0.0 < maxAccelToDecel <= maxAccel
      && 0.0 <= junctionDeviation
    }
  }

  /** The speeds whose squares the planner assigned. */
  ghost predicate HasSpeeds(p: Phases, j: Junction) {
    && 0.0 <= p.startV && 0.0 <= p.cruiseV && 0.0 <= p.endV
    && p.startV * p.startV == j.start && p.cruiseV * p.cruiseV == j.cruise && p.endV * p.endV == j.end
  }

  lemma RootsAreSpeeds(sqrt: real -> real, p: Phases, j: Junction)
    requires IsSqrt(sqrt) && 0.0 <= j.start && 0.0 <= j.cruise && 0.0 <= j.end
    requires p.startV == sqrt(j.start) && p.cruiseV == sqrt(j.cruise) && p.endV == sqrt(j.end)
    ensures HasSpeeds(p, j)
  {
  }

  /** What the limits of a new move say about its speed. */
  lemma SpeedWithin(l: SpeedLimits, velocity: real, speed: real, maxVelocity: real, distance: real)
    requires 0.0 < speed && 0.0 < maxVelocity && (velocity == speed || velocity == Min(speed, maxVelocity))
    requires l.maxCruiseV2 == velocity * velocity && l.minMoveT * velocity == distance
    ensures l.maxCruiseV2 <= speed * speed
    ensures velocity == Min(speed, maxVelocity) ==> l.maxCruiseV2 <= maxVelocity * maxVelocity
    ensures l.minMoveT * l.minMoveT * l.maxCruiseV2 == distance * distance
  {
    SquaresOrdered(velocity, speed);
    if velocity == Min(speed, maxVelocity) {
      SquaresOrdered(velocity, maxVelocity);
    }
    TimesSquared(l.minMoveT, velocity);
  }

  lemma TimesSquared(a: real, b: real)
    ensures a * a * (b * b) == (a * b) * (a * b)
  {
  }

  class Move {
    const sqrt: real -> real
    const startPos: Coord
    const path: Path
    var accel: real
    var minMoveT: real
    var maxStartV2: real
    var maxCruiseV2: real
    var deltaV2: real
    var maxSmoothedV2: real
    var smoothDeltaV2: real
    // assigned by the planner
    var phases: Phases
    ghost var junction: Junction   // the squared speeds of the last SetJunction
    ghost var planned: nat         // how often SetJunction was called

    ghost predicate Valid()
      reads this`accel, this`maxCruiseV2, this`deltaV2, this`smoothDeltaV2, this`maxStartV2, this`maxSmoothedV2
    {
      && IsSqrt(sqrt)
      && 0.0 < path.moveD && 0.0 < accel
      && 0.0 < maxCruiseV2
      && deltaV2 == SpeedChange(path.moveD, accel)
      && 0.0 < smoothDeltaV2
      && 0.0 <= maxSmoothedV2 <= maxStartV2 <= maxCruiseV2
    }

    function View(): (r: Limits)
      reads this`maxCruiseV2, this`deltaV2, this`smoothDeltaV2, this`maxStartV2, this`maxSmoothedV2
    {
      Limits(deltaV2, smoothDeltaV2, maxCruiseV2, maxStartV2, maxSmoothedV2)
    }

    /** Where the move ends; a move too short for the three axes does not leave its place there. */
    function EndPos(): (r: Coord) {
      startPos.Plus(path.axesR.Scaled(path.moveD))
    }

    /** The move has not met a neighbour and has no speeds yet. */
    ghost predicate Unplanned()
      reads this
    {
      maxStartV2 == 0.0 && maxSmoothedV2 == 0.0 && planned == 0
    }

    /** The move was planned exactly once, with these speeds, and can be driven. */
    ghost predicate PlannedAs(j: Junction)
      reads this`planned, this`junction, this`phases, this`accel, this`maxCruiseV2
    {
      && planned == 1 && junction == j && phases.Drive(path.moveD, accel) && HasSpeeds(phases, j)
      && j.cruise <= maxCruiseV2
    }

    /** A move is never driven faster than at a speed within its limit. */
    lemma NeverFaster(j: Junction, speed: real)
      requires PlannedAs(j) && 0.0 <= speed && maxCruiseV2 <= speed * speed
      ensures 0.0 <= phases.cruiseV <= speed
    {
      RootsOrdered(phases.cruiseV, speed);
    }

    /** A move planned on its own reaches its speed exactly if it is long enough for the reduced acceleration. */
    lemma AloneAtSpeed(speed: real)
      requires Sound(View()) && maxStartV2 == 0.0 && PlannedAs(Plan([View()])[0])
      requires 0.0 < speed && maxCruiseV2 == speed * speed
      ensures phases.startV == 0.0 && phases.endV == 0.0
      ensures phases.cruiseV == speed <==> 2.0 * (speed * speed) <= smoothDeltaV2
    {
      var j := Plan([View()])[0];
      AloneCruise(View());
      hide Plan;
      SameRoot(phases.startV, 0.0);
      SameRoot(phases.endV, 0.0);
      if j.cruise == speed * speed {
        SameRoot(phases.cruiseV, speed);
      }
    }

    constructor (settings: Settings, sqrt: real -> real, startPos: Coord, endPos: Coord, speed: real)
      requires settings.Valid() && IsSqrt(sqrt) && speed > 0.0
      ensures this.sqrt == sqrt && this.startPos == startPos && path == PathOf(sqrt, startPos, endPos)
      ensures EndPos() == if path.isKinematic then endPos else startPos.(e := endPos.e)
      ensures Unplanned()
      ensures path.moveD > 0.0 ==> Valid() && (path.isKinematic ==> Sound(View()))
      ensures accel == if path.isKinematic then settings.maxAccel else EXTRUDE_ONLY_ACCEL
      ensures var velocity := if path.isKinematic then Min(speed, settings.maxVelocity) else speed;
              SpeedLimits(velocity, accel, minMoveT, maxCruiseV2, deltaV2, smoothDeltaV2)
              == LimitsOf(path.moveD, velocity, accel, settings.maxAccelToDecel)
      ensures maxCruiseV2 <= speed * speed && minMoveT * minMoveT * maxCruiseV2 == path.moveD * path.moveD
      ensures path.isKinematic ==> maxCruiseV2 <= settings.maxVelocity * settings.maxVelocity
      ensures maxCruiseV2 == speed * speed
           || (path.isKinematic && maxCruiseV2 == settings.maxVelocity * settings.maxVelocity)
    {
      hide LimitsOf, SpeedChange, PathOf, IsSqrt;
      var p := PathOf(sqrt, startPos, endPos);
      var velocity := Min(speed, settings.maxVelocity);
      var acceleration := settings.maxAccel;
      if !p.isKinematic {
        acceleration := EXTRUDE_ONLY_ACCEL;
        velocity := speed;
      }
      var limits := LimitsOf(p.moveD, velocity, acceleration, settings.maxAccelToDecel);
      SpeedWithin(limits, velocity, speed, settings.maxVelocity, p.moveD);
      this.sqrt, this.startPos := sqrt, startPos;
      path := p;
      accel := acceleration;
      minMoveT := limits.minMoveT;
      maxStartV2 := 0.0;
      maxCruiseV2 := limits.maxCruiseV2;
      deltaV2 := limits.deltaV2;
      maxSmoothedV2 := 0.0;
      smoothDeltaV2 := limits.smoothDeltaV2;
      phases := Phases(0.0, 0.0, 0.0, 0.0, 0.0, 0.0);
      junction, planned := Junction(0.0, 0.0, 0.0), 0;
    }

    /** Limits added by the kinematics or by the extruder before the move is queued. */
    method LimitSpeed(speed: real, newAccel: real)
      requires Valid() && Unplanned() && speed > 0.0 && newAccel > 0.0
      modifies this`maxCruiseV2, this`minMoveT, this`accel, this`deltaV2, this`smoothDeltaV2
      ensures Valid() && Unplanned() && Sound(View())
      ensures maxCruiseV2 == Min(old(maxCruiseV2), speed * speed)
      ensures accel == Min(old(accel), newAccel)
      ensures smoothDeltaV2 == Min(old(smoothDeltaV2), deltaV2)
      ensures minMoveT == if speed * speed < old(maxCruiseV2) then path.moveD / speed else old(minMoveT)
    {
      ProductPositive(speed, speed);
      var speed2 := speed * speed;
      if speed2 < maxCruiseV2 {
        maxCruiseV2 := speed2;
        minMoveT := path.moveD / speed;
      }
      accel := Min(accel, newAccel);
      deltaV2 := SpeedChange(path.moveD, accel);
      smoothDeltaV2 := Min(smoothDeltaV2, deltaV2);
      ProductPositive(2.0 * path.moveD, accel);
    }

    function SideOf(): (r: Side)
      reads this
    {
      Side(path.moveD, accel)
    }

    /** The corner can be driven without stopping: both moves leave the extruder-only mode and it is no reversal. */
    predicate CornersWith(prev: Move)
    {
      && path.isKinematic && prev.path.isKinematic
      && CosTheta(prev.path.axesR, path.axesR) <= 0.999999
    }

    /** The junction limit between prev and this move. */
    ghost function JunctionLimit(prev: Move, settings: Settings): (r: real)
      reads this, prev
      requires IsSqrt(sqrt)
    {
      if !CornersWith(prev) then 0.0
      else
        Min(Min(CornerV2(sqrt, settings.junctionDeviation, Max(CosTheta(prev.path.axesR, path.axesR), -0.999999),
                         prev.SideOf(), SideOf()),
                ExtruderV2(settings.instantCornerV, prev.path.axesR.e, path.axesR.e, maxCruiseV2)),
            Min(Min(maxCruiseV2, prev.maxCruiseV2), prev.maxStartV2 + prev.deltaV2))
    }

    /** Without a corner, and in a reversal of direction, the move starts at rest. */
    lemma CornerStops(prev: Move, settings: Settings)
      requires IsSqrt(sqrt)
      ensures var a, b := prev.path.axesR, path.axesR;
              !path.isKinematic || !prev.path.isKinematic || a.x * b.x + a.y * b.y + a.z * b.z < -0.999999 ==>
                JunctionLimit(prev, settings) == 0.0
    {
      CosIsDot(prev.path.axesR, path.axesR);
      hide CosTheta, CornerV2, ExtruderV2, IsSqrt;
    }

    /** In every other corner it need not stop. */
    lemma CornerGoes(prev: Move, settings: Settings)
      requires Valid() && prev.Valid() && path.isKinematic && prev.path.isKinematic
      requires settings.junctionDeviation > 0.0 && settings.instantCornerV > 0.0 && prev.deltaV2 > 0.0
      ensures var a, b := prev.path.axesR, path.axesR;
              a.x * b.x + a.y * b.y + a.z * b.z >= -0.999999 ==> JunctionLimit(prev, settings) > 0.0
    {
      var a, b := prev.path.axesR, path.axesR;
      CosIsDot(a, b);
      if a.x * b.x + a.y * b.y + a.z * b.z >= -0.999999 {
        hide CornerV2, ExtruderV2, IsSqrt, CosTheta, JunctionLimit, SpeedChange;
        var cosTheta := Max(CosTheta(a, b), -0.999999);
        assert CornersWith(prev);
        CornerPositive(sqrt, settings.junctionDeviation, cosTheta, prev.SideOf(), SideOf());
        ExtruderPositive(settings.instantCornerV, a.e, b.e, maxCruiseV2);
        LimitIsLeast(prev, settings);
      }
    }

    /** At a right angle between long and fast enough moves the limit is the square corner velocity. */
    lemma SquareCornerSpeed(prev: Move, settings: Settings, root2: real, scv: real)
      requires Valid() && prev.Valid() && path.isKinematic && prev.path.isKinematic && accel == prev.accel
      requires var a, b := prev.path.axesR, path.axesR;
               a.x * b.x + a.y * b.y + a.z * b.z == 0.0 && a.e == b.e
      requires 0.0 < root2 && root2 * root2 == 2.0
      requires var square := scv * scv;
               && settings.junctionDeviation * accel == square * (root2 - 1.0)
               && square <= 0.5 * path.moveD * accel && square <= 0.5 * prev.path.moveD * accel
               && square <= maxCruiseV2 && square <= prev.maxCruiseV2 && square <= prev.maxStartV2 + prev.deltaV2
      ensures JunctionLimit(prev, settings) == scv * scv
    {
      RightAngle(prev, settings, root2, scv * scv);
    }

    lemma RightAngle(prev: Move, settings: Settings, root2: real, square: real)
      requires Valid() && prev.Valid() && path.isKinematic && prev.path.isKinematic && accel == prev.accel
      requires var a, b := prev.path.axesR, path.axesR;
               a.x * b.x + a.y * b.y + a.z * b.z == 0.0 && a.e == b.e
      requires 0.0 < root2 && root2 * root2 == 2.0 && settings.junctionDeviation * accel == square * (root2 - 1.0)
      requires square <= 0.5 * path.moveD * accel && square <= 0.5 * prev.path.moveD * accel
      requires square <= maxCruiseV2 && square <= prev.maxCruiseV2 && square <= prev.maxStartV2 + prev.deltaV2
      ensures JunctionLimit(prev, settings) == square
    {
      CosIsDot(prev.path.axesR, path.axesR);
      assert CosTheta(prev.path.axesR, path.axesR) == 0.0;
      assert CornersWith(prev) && Max(0.0, -0.999999) == 0.0;
      assert prev.SideOf() == Side(prev.path.moveD, accel) && SideOf() == Side(path.moveD, accel);
      hide CornerV2, ExtruderV2, IsSqrt, CosTheta, JunctionLimit, SpeedChange, CornersWith;
      SquareCorner(sqrt, root2, square, settings.junctionDeviation, prev.SideOf(), SideOf());
      LimitIsLeast(prev, settings);
    }

    /** The limit of a corner: every bound on it holds and one of them is attained. */
    ghost predicate CornerAt(limit: real, prev: Move, settings: Settings, k: Corner)
      reads this, prev
    {
      var change := path.axesR.e - prev.path.axesR.e;
      && RoundedBelow(limit, k, prev.SideOf(), SideOf()) && ExtrudesBelow(limit, change, settings.instantCornerV)
      && limit <= maxCruiseV2 && limit <= prev.maxCruiseV2 && limit <= prev.maxStartV2 + prev.deltaV2
      && (|| RoundedEdge(limit, k, prev.SideOf(), SideOf()) || ExtrudesEdge(limit, change, settings.instantCornerV)
          || limit == maxCruiseV2 || limit == prev.maxCruiseV2 || limit == prev.maxStartV2 + prev.deltaV2)
    }

    /** Two moves that meet at an angle are driven through a circle that rounds their corner. */
    lemma CornerIsDriven(prev: Move, settings: Settings, k: Corner)
      requires IsSqrt(sqrt) && path.isKinematic && prev.path.isKinematic
      requires var a, b := prev.path.axesR, path.axesR;
               var dot := a.x * b.x + a.y * b.y + a.z * b.z;
               dot >= -0.999999 && k.Rounds(Max(-dot, -0.999999), settings.junctionDeviation)
      ensures CornerAt(JunctionLimit(prev, settings), prev, settings, k)
    {
      CosIsDot(prev.path.axesR, path.axesR);
      assert 0.0 < k.cos;
      hide CosTheta, CornerV2, ExtruderV2, JunctionLimit, Corner.Rounds;
      hide RoundedBelow, RoundedEdge, ExtrudesBelow, ExtrudesEdge;
      var cosTheta := Max(CosTheta(prev.path.axesR, path.axesR), -0.999999);
      var corner := CornerV2(sqrt, settings.junctionDeviation, cosTheta, prev.SideOf(), SideOf());
      var extruder := ExtruderV2(settings.instantCornerV, prev.path.axesR.e, path.axesR.e, maxCruiseV2);
      var limit := JunctionLimit(prev, settings);
      CornerIsRounded(sqrt, settings.junctionDeviation, cosTheta, prev.SideOf(), SideOf(), k);
      LimitIsLeast(prev, settings);
      LowerRounds(limit, corner, k, prev.SideOf(), SideOf());
      LowerExtrudes(limit, settings.instantCornerV, prev.path.axesR.e, path.axesR.e, maxCruiseV2);
    }

    lemma LimitIsLeast(prev: Move, settings: Settings)
      requires IsSqrt(sqrt) && CornersWith(prev)
      ensures var limit := JunctionLimit(prev, settings);
              var corner := CornerV2(sqrt, settings.junctionDeviation,
                                     Max(CosTheta(prev.path.axesR, path.axesR), -0.999999), prev.SideOf(), SideOf());
              var extruder := ExtruderV2(settings.instantCornerV, prev.path.axesR.e, path.axesR.e, maxCruiseV2);
              && limit <= corner && limit <= extruder
              && limit <= maxCruiseV2 && limit <= prev.maxCruiseV2 && limit <= prev.maxStartV2 + prev.deltaV2
              && (limit == corner || limit == extruder
                  || limit == maxCruiseV2 || limit == prev.maxCruiseV2 || limit == prev.maxStartV2 + prev.deltaV2)
    {
      hide CosTheta, CornerV2, ExtruderV2, IsSqrt;
    }

    method CalcJunction(prev: Move, settings: Settings)
      requires Valid() && Unplanned() && Sound(View())
      requires prev != this && prev.Valid() && Sound(prev.View()) && settings.Valid()
      modifies this`maxStartV2, this`maxSmoothedV2
      ensures Valid() && Sound(View())
      ensures maxStartV2 == old(JunctionLimit(prev, settings))
      ensures Linked(prev.View(), View())
    {
      hide CornerV2, CosTheta, IsSqrt, SpeedChange;
      if !path.isKinematic || !prev.path.isKinematic {
        return;
      }
      var extruderV2 := ExtruderV2(settings.instantCornerV, prev.path.axesR.e, path.axesR.e, maxCruiseV2);
      var cosTheta := CosTheta(prev.path.axesR, path.axesR);
      if cosTheta > 0.999999 {
        return;
      }
      cosTheta := Max(cosTheta, -0.999999);
      var cornerV2 := CornerV2(sqrt, settings.junctionDeviation, cosTheta, prev.SideOf(), SideOf());
      CornerNonNegative(sqrt, settings.junctionDeviation, cosTheta, prev.SideOf(), SideOf());
      maxStartV2 := Min(Min(cornerV2, extruderV2),
                        Min(Min(maxCruiseV2, prev.maxCruiseV2), prev.maxStartV2 + prev.deltaV2));
      maxSmoothedV2 := Min(maxStartV2, prev.maxSmoothedV2 + prev.smoothDeltaV2);
    }

    method SetJunction(startV2: real, cruiseV2: real, endV2: real)
      requires Valid() && Feasible(View(), Junction(startV2, cruiseV2, endV2))
      modifies this`phases, this`junction, this`planned
      ensures junction == Junction(startV2, cruiseV2, endV2) && planned == old(planned) + 1
      ensures HasSpeeds(phases, junction) && junction.cruise <= maxCruiseV2
      ensures phases.Drive(path.moveD, accel)
    {
      hide HasSpeeds, SpeedChange, IsSqrt, Phases.Drive, RampDistance;
      phases := PhasesOf(sqrt, path.moveD, accel, startV2, cruiseV2, endV2);
      RootsAreSpeeds(sqrt, phases, Junction(startV2, cruiseV2, endV2));
      junction, planned := Junction(startV2, cruiseV2, endV2), planned + 1;
    }
  }

  /** Moves and the limits the planner sees in them, position by position. */
  ghost predicate Shows(moves: seq<Move>, limits: seq<Limits>)
    reads moves`maxCruiseV2, moves`deltaV2, moves`smoothDeltaV2, moves`maxStartV2, moves`maxSmoothedV2
  {
    |moves| == |limits| && forall i :: 0 <= i < |moves| ==> moves[i].View() == limits[i]
  }

  ghost predicate Distinct(moves: seq<Move>) {
    forall i, j :: 0 <= i < j < |moves| ==> moves[i] != moves[j]
  }

  /** Every move of the batch has been planned exactly once, as the plan says. */
  ghost predicate PlannedPrefix(batch: seq<Move>, plan: seq<Junction>)
    reads batch`planned, batch`junction, batch`phases, batch`accel, batch`maxCruiseV2
  {
    |batch| <= |plan| && forall k :: 0 <= k < |batch| ==> batch[k].PlannedAs(plan[k])
  }

  /** A move that waits for its cruise speed, with its start and end speeds. */
  datatype Waiting = Waiting(move: Move, startV2: real, endV2: real) {
    /** What the move gets when the cap before it is known. */
    function Under(cap: real): (r: Junction) {
      var c := Min(cap, startV2);
      Junction(Min(startV2, c), c, Min(endV2, c))
    }
  }

  /** The targets of the waiting moves, last move first, under the cap of the move before them. */
  ghost predicate Targets(delayed: seq<Waiting>, cap: real, targets: seq<Junction>) {
    && |targets| == |delayed|
    && (delayed != [] ==> targets[|delayed|-1] == delayed[|delayed|-1].Under(cap))
    && forall k {:trigger delayed[k].Under(targets[k+1].cruise)} ::
         0 <= k < |delayed| - 1 ==> targets[k] == delayed[k].Under(targets[k+1].cruise)
  }

  ghost function MovesOf(delayed: seq<Waiting>): (r: set<Move>) {
    set w | w in delayed :: w.move
  }

  /** Gives every waiting move the largest speed that the peak before it and its own start allow. */
  method PropagatePeak(delayed: seq<Waiting>, peakCruiseV2: real, ghost targets: seq<Junction>)
    requires Targets(delayed, peakCruiseV2, targets)
    requires forall k :: 0 <= k < |delayed| ==>
      && delayed[k].move.Valid() && delayed[k].move.planned == 0
      && Feasible(delayed[k].move.View(), targets[k])
    requires forall k, l :: 0 <= k < l < |delayed| ==> delayed[k].move != delayed[l].move
    modifies MovesOf(delayed)`phases, MovesOf(delayed)`junction, MovesOf(delayed)`planned
    ensures forall k :: 0 <= k < |delayed| ==> delayed[k].move.PlannedAs(targets[k])
  {
    var mcV2 := peakCruiseV2;
    var k := |delayed|;
    while k > 0
      invariant 0 <= k <= |delayed|
      invariant mcV2 == if k == |delayed| then peakCruiseV2 else targets[k].cruise
      invariant forall l :: k <= l < |delayed| ==> delayed[l].move.PlannedAs(targets[l])
      invariant forall l :: 0 <= l < k ==> delayed[l].move.planned == 0
    {
      k := k - 1;
      var w := delayed[k];
      if k + 1 < |delayed| {
        assert delayed[k].Under(targets[k+1].cruise) == targets[k];
      }
      mcV2 := Min(mcV2, w.startV2);
      w.move.SetJunction(Min(w.startV2, mcV2), mcV2, Min(w.endV2, mcV2));
    }
  }

  /** The running variables of a backward pass. */
  datatype Pass = Pass(
    nextEndV2: real,
    nextSmoothedV2: real,
    peakCruiseV2: real,
    delayed: seq<Waiting>,
    updateFlushCount: bool,
    flushCount: nat)

  /** The flush time last set, and the times of the moves queued behind another one since. */
  datatype Countdown = Countdown(target: real, times: seq<real>) {
    function Left(): (r: real) {
      target - Sum(times)
    }

    function With(time: real): (c: Countdown) {
      Countdown(target, times + [time])
    }
  }

  function Sum(times: seq<real>): (r: real) {
    if times == [] then 0.0 else Sum(times[..|times|-1]) + times[|times|-1]
  }

  lemma OneMoreTime(c: Countdown, time: real)
    ensures c.With(time).Left() == c.Left() - time
  {
    assert (c.times + [time])[..|c.times|] == c.times;
  }

  class MoveQueue {
    var queue: seq<Move>
    var junctionFlush: real
    ghost var countdown: Countdown
    ghost var run: Run   // the planner's view of the queue and of everything handed over

    /** The queue as a list of distinct moves, seen by the planner as the given limits. */
    ghost predicate WellFormed(limits: seq<Limits>)
      reads `queue, queue`accel
      reads queue`maxCruiseV2, queue`deltaV2, queue`smoothDeltaV2, queue`maxStartV2, queue`maxSmoothedV2
    {
      && Distinct(queue)
      && Shows(queue, limits)
      && (forall i {:trigger queue[i].Valid()} :: 0 <= i < |queue| ==> queue[i].Valid())
    }

    ghost predicate Unplanned()
      reads `queue, queue`planned
    {
      forall i :: 0 <= i < |queue| ==> queue[i].planned == 0
    }

    ghost predicate Valid()
      reads this, queue
    {
      Consistent() && Counted()
    }

    /** The queue is what the planner thinks it is. */
    ghost predicate Consistent()
      reads this, queue
    {
      WellFormed(run.waiting) && Unplanned() && run.Ok()
    }

    /** The moves queued since the flush time was set do not add up to it. */
    ghost predicate Counted()
      reads `junctionFlush, `countdown
    {
      junctionFlush == countdown.Left() && (countdown.times != [] ==> 0.0 < countdown.Left())
    }

    constructor ()
      ensures Valid() && queue == [] && run == NEW_RUN
      ensures countdown == Countdown(LOOKAHEAD_FLUSH_TIME, [])
    {
      queue := [];
      junctionFlush, countdown := LOOKAHEAD_FLUSH_TIME, Countdown(LOOKAHEAD_FLUSH_TIME, []);
      run := NEW_RUN;
    }

    /** Drops all queued moves; whatever is driven next starts a new run. */
    method Reset()
      requires Valid()
      modifies this
      ensures Valid() && queue == [] && run == NEW_RUN
      ensures countdown == Countdown(LOOKAHEAD_FLUSH_TIME, [])
    {
      queue := [];
      junctionFlush, countdown := LOOKAHEAD_FLUSH_TIME, Countdown(LOOKAHEAD_FLUSH_TIME, []);
      run := NEW_RUN;
    }

    method StartCountdown(flushTime: real)
      modifies `junctionFlush, `countdown
      ensures countdown == Countdown(flushTime, []) && Counted()
    {
      junctionFlush, countdown := flushTime, Countdown(flushTime, []);
    }

    method SetFlushTime(flushTime: real)
      requires Valid()
      modifies `junctionFlush, `countdown
      ensures Valid() && countdown == Countdown(flushTime, [])
    {
      StartCountdown(flushTime);
    }

    /** Of the moves in the queue exactly those from lo to hi have been planned. */
    ghost predicate PlannedRange(plan: seq<Junction>, lo: nat, hi: nat)
      reads `queue, queue`planned, queue`junction, queue`phases, queue`accel, queue`maxCruiseV2
    {
      && |queue| == |plan|
      && (forall x :: lo <= x < hi && x < |queue| ==> queue[x].PlannedAs(plan[x]))
      && (forall x :: 0 <= x < |queue| && !(lo <= x < hi) ==> queue[x].planned == 0)
    }

    /** The move at x waits, with what it is going to get. */
    ghost predicate WaitsFor(w: Waiting, limits: seq<Limits>, p: Profile, x: int)
      requires |limits| == |queue| == |p.plan| == |p.cap| && |p.start| == |queue| + 1
      reads `queue
    {
      && 0 < x < |queue|
      && w == Waiting(queue[x], p.start[x], p.start[x+1])
      && p.plan[x] == w.Under(p.cap[x-1]) && p.plan[x].cruise == p.cap[x]
      && Feasible(limits[x], p.plan[x])
    }

    /** The waiting moves are the ones from i on, last one first, each with what it is going to get. */
    ghost predicate WaitsAt(delayed: seq<Waiting>, limits: seq<Limits>, p: Profile, i: nat)
      reads `queue
    {
      && i + |delayed| <= |limits| == |queue| == |p.plan| == |p.cap|
      && |p.start| == |queue| + 1
      && (forall k :: 0 <= k < |delayed| ==> WaitsFor(delayed[k], limits, p, i + |delayed| - 1 - k))
    }

    /** The state of the backward pass once the moves from i on have been visited. */
    ghost predicate PassAt(pass: Pass, limits: seq<Limits>, p: Profile, i: nat)
      reads `queue, queue`planned, queue`junction, queue`phases, queue`accel, queue`maxCruiseV2
    {
      && i <= |limits| && |p.smoothed| == |p.peak| == |p.cut| == |limits| + 1 && |p.delayed| == |limits|
      && WaitsAt(pass.delayed, limits, p, i)
      && pass.nextEndV2 == p.start[i] && pass.nextSmoothedV2 == p.smoothed[i] && pass.peakCruiseV2 == p.peak[i]
      && (pass.delayed != [] <==> i < |limits| && p.delayed[i])
      && i + |pass.delayed| <= pass.flushCount <= |queue|
      && (pass.updateFlushCount ==> pass.flushCount == |queue|)
      && PlannedRange(p.plan, i + |pass.delayed|, if pass.updateFlushCount then 0 else pass.flushCount)
    }

    lemma PassBegins(limits: seq<Limits>, p: Profile, lazy: bool)
      requires WellFormed(limits) && IsProfile(p, limits) && Unplanned()
      ensures |limits| == |queue| && |p.cut| == |queue| + 1
      ensures p.cut[|queue|] == LazyCount(limits) <= |queue| && p.cut[0] == 0
      ensures PassAt(Pass(0.0, 0.0, 0.0, [], lazy, |queue|), limits, p, |queue|)
    {
      VisitNone(limits, p);
    }

    lemma PassEnds(pass: Pass, limits: seq<Limits>, p: Profile)
      requires PassAt(pass, limits, p, 0) && IsProfile(p, limits) && (limits != [] ==> !Delayed(limits, 0))
      ensures PlannedRange(p.plan, 0, if pass.updateFlushCount then 0 else pass.flushCount)
    {
    }

    lemma WaitsMore(delayed: seq<Waiting>, limits: seq<Limits>, p: Profile, i: nat, move: Move)
      requires |limits| == |queue| && WaitsAt(delayed, limits, p, i + 1) && i < |queue| && move == queue[i]
      requires 0 < i && p.cap[i] == Min(p.cap[i-1], p.start[i]) && Feasible(limits[i], p.plan[i])
      requires p.plan[i] == Junction(Min(p.start[i], p.cap[i]), p.cap[i], Min(p.start[i+1], p.cap[i]))
      ensures WaitsAt(delayed + [Waiting(move, p.start[i], p.start[i+1])], limits, p, i)
    {
      var more := delayed + [Waiting(move, p.start[i], p.start[i+1])];
      forall k | 0 <= k < |more| ensures WaitsFor(more[k], limits, p, i + |more| - 1 - k) {
        if k < |delayed| {
          assert more[k] == delayed[k] && i + |more| - 1 - k == i + 1 + |delayed| - 1 - k;
        }
      }
    }

    /** The waiting moves are distinct, unplanned and get feasible speeds. */
    lemma WaitingTargets(delayed: seq<Waiting>, limits: seq<Limits>, p: Profile, i: nat, targets: seq<Junction>)
      requires WellFormed(limits) && WaitsAt(delayed, limits, p, i + 1)
      requires |targets| == |delayed| && forall k :: 0 <= k < |delayed| ==> targets[k] == p.plan[i+|delayed|-k]
      ensures Targets(delayed, p.cap[i], targets)
      ensures forall k :: 0 <= k < |delayed| ==>
                delayed[k].move.Valid() && Feasible(delayed[k].move.View(), targets[k])
      ensures forall k, l :: 0 <= k < l < |delayed| ==> delayed[k].move != delayed[l].move
    {
      forall k | 0 <= k < |delayed| ensures delayed[k].move.Valid() {
        assert queue[i+|delayed|-k].Valid();
      }
      forall k | 0 <= k < |delayed| - 1 ensures targets[k] == delayed[k].Under(targets[k+1].cruise) {
        assert delayed[k+1].move == queue[i+|delayed|-k-1];
      }
    }

    /** The waiting moves are exactly those after i up to the planned range. */
    lemma WaitingPositions(delayed: seq<Waiting>, limits: seq<Limits>, p: Profile, i: nat)
      requires WellFormed(limits) && WaitsAt(delayed, limits, p, i + 1)
      ensures i + 1 + |delayed| <= |queue|
      ensures forall k :: 0 <= k < |delayed| ==> delayed[k].move == queue[i+|delayed|-k]
      ensures forall x {:trigger queue[x]} :: 0 <= x < |queue| ==>
                (queue[x] in MovesOf(delayed) <==> i < x <= i + |delayed|)
      ensures forall m :: m in MovesOf(delayed) ==> m in queue
    {
      forall x | 0 <= x < |queue| ensures queue[x] in MovesOf(delayed) <==> i < x <= i + |delayed| {
        if i < x <= i + |delayed| {
          assert delayed[i+|delayed|-x].move == queue[x];
        }
      }
    }

    /** Assigns speeds to the waiting moves once the move at i has become a peak. */
    method PropagateTo(delayed: seq<Waiting>, peakCruiseV2: real,
                       ghost limits: seq<Limits>, ghost p: Profile, ghost i: nat, ghost hi: nat)
      requires WellFormed(limits) && WaitsAt(delayed, limits, p, i + 1) && i < |queue|
      requires peakCruiseV2 == p.cap[i]
      requires i + 1 + |delayed| <= hi <= |queue| && PlannedRange(p.plan, i + 1 + |delayed|, hi)
      modifies queue`phases, queue`junction, queue`planned
      ensures PlannedRange(p.plan, i + 1, hi)
    {
      hide Feasible, Move.Valid, Move.PlannedAs, Waiting.Under, WaitsAt, Targets, MovesOf, WellFormed;
      WaitingPositions(delayed, limits, p, i);
      ghost var targets := seq(|delayed|, k requires 0 <= k < |delayed| => p.plan[i+|delayed|-k]);
      WaitingTargets(delayed, limits, p, i, targets);
      PropagatePeak(delayed, peakCruiseV2, targets);
      forall x | i < x <= i + |delayed| ensures queue[x].PlannedAs(p.plan[x]) {
        var k := i + |delayed| - x;
        assert delayed[k].move == queue[x] && targets[k] == p.plan[x];
      }
    }

    /** Assigns speeds to the move at i, the last one before the planned range. */
    method PlanNext(move: Move, ghost limits: seq<Limits>, ghost p: Profile, ghost i: nat, ghost hi: nat,
                    startV2: real, cruiseV2: real, endV2: real)
      requires WellFormed(limits) && i < hi <= |queue| && move == queue[i] && PlannedRange(p.plan, i + 1, hi)
      requires p.plan[i] == Junction(startV2, cruiseV2, endV2) && Feasible(limits[i], p.plan[i])
      modifies move`phases, move`junction, move`planned
      ensures PlannedRange(p.plan, i, hi)
    {
      assert queue[i].Valid();
      move.SetJunction(startV2, cruiseV2, endV2);
    }

    /** A visit of the backward pass found the move at i not to be full deceleration. */
    method VisitMove(move: Move, ghost limits: seq<Limits>, ghost p: Profile, i: nat,
                     startV2: real, smoothedV2: real, pass: Pass)
      returns (next: Pass)
      requires WellFormed(limits) && Chain(limits) && IsProfile(p, limits) && i < |limits| && !Delayed(limits, 0)
      requires move == queue[i] && !p.delayed[i] && startV2 == p.start[i] && smoothedV2 == p.smoothed[i]
      requires PassAt(pass, limits, p, i + 1)
      modifies queue`phases, queue`junction, queue`planned
      ensures PassAt(next, limits, p, i)
      ensures next.updateFlushCount ==> pass.updateFlushCount && p.cut[i] == p.cut[i+1]
      ensures !next.updateFlushCount ==>
                next.flushCount == if pass.updateFlushCount then p.cut[i+1] else pass.flushCount
    {
      var updateFlushCount, flushCount, peakCruiseV2 := pass.updateFlushCount, pass.flushCount, pass.peakCruiseV2;
      VisitPeak(limits, p, i);
      assert move.View() == limits[i];
      if smoothedV2 + move.smoothDeltaV2 > pass.nextSmoothedV2 || pass.delayed != [] {
        // A peak: the smoothed speed falls within the move or behind it.
        if updateFlushCount && peakCruiseV2 != 0.0 {
          flushCount := i;
          updateFlushCount := false;
        }
        peakCruiseV2 := Min(move.maxCruiseV2, (smoothedV2 + (pass.nextSmoothedV2 + move.smoothDeltaV2)) * 0.5);
        if pass.delayed != [] && !updateFlushCount && i < flushCount {
          PropagateTo(pass.delayed, peakCruiseV2, limits, p, i, flushCount);
        }
      }
      if !updateFlushCount && i < flushCount {
        var cruiseV2 := Min(Min((startV2 + (pass.nextEndV2 + move.deltaV2)) * 0.5, move.maxCruiseV2), peakCruiseV2);
        VisitDirect(limits, p, i);
        PlanNext(move, limits, p, i, flushCount,
                 Min(startV2, cruiseV2), cruiseV2, Min(pass.nextEndV2, cruiseV2));
      }
      next := Pass(startV2, smoothedV2, peakCruiseV2, [], updateFlushCount, flushCount);
    }

    /** One visit of the backward pass. */
    method Visit(ghost limits: seq<Limits>, ghost p: Profile, i: nat, pass: Pass) returns (next: Pass)
      requires WellFormed(limits) && Chain(limits) && IsProfile(p, limits) && i < |limits| && !Delayed(limits, 0)
      requires PassAt(pass, limits, p, i + 1)
      modifies queue`phases, queue`junction, queue`planned
      ensures PassAt(next, limits, p, i)
      ensures next.updateFlushCount ==> pass.updateFlushCount && p.cut[i] == p.cut[i+1]
      ensures !next.updateFlushCount ==>
                next.flushCount == if pass.updateFlushCount then p.cut[i+1] else pass.flushCount
    {
      var move := queue[i];
      VisitSpeeds(limits, p, i);
      assert move.View() == limits[i];
      var startV2 := Min(move.maxStartV2, pass.nextEndV2 + move.deltaV2);
      var reachableSmoothedV2 := pass.nextSmoothedV2 + move.smoothDeltaV2;
      var smoothedV2 := Min(move.maxSmoothedV2, reachableSmoothedV2);
      if smoothedV2 < reachableSmoothedV2 {
        // Below what it could reach: the move does not spend its whole length slowing down.
        next := VisitMove(move, limits, p, i, startV2, smoothedV2, pass);
      } else {
        // The move waits for the peak before it.
        VisitDelayed(limits, p, i);
        WaitsMore(pass.delayed, limits, p, i, move);
        next := pass.(nextEndV2 := startV2, nextSmoothedV2 := smoothedV2,
                      delayed := pass.delayed + [Waiting(move, startV2, pass.nextEndV2)]);
      }
    }

    /** The backward pass of a flush: plans the moves that are to be handed over and counts them. */
    method PlanMoves(lazy: bool, ghost limits: seq<Limits>) returns (flushCount: nat)
      requires WellFormed(limits) && Chain(limits) && (limits != [] ==> !Delayed(limits, 0)) && Unplanned()
      modifies queue`phases, queue`junction, queue`planned
      ensures flushCount == FlushCount(limits, lazy)
      ensures flushCount <= |queue| == |limits| && PlannedRange(Plan(limits), 0, flushCount)
    {
      hide PassAt, PlannedRange, WellFormed, IsProfile, Plan, LazyCount, Chain, Unplanned;
      ghost var p := ProfileOf(limits);
      var pass := Pass(0.0, 0.0, 0.0, [], lazy, |queue|);
      PassBegins(limits, p, lazy);
      var i := |queue|;
      while i > 0
        invariant 0 <= i <= |queue| == |limits| && |p.cut| == |queue| + 1
        invariant PassAt(pass, limits, p, i)
        invariant pass.updateFlushCount ==> lazy
        invariant lazy && pass.updateFlushCount ==> p.cut[i] == p.cut[|queue|]
        invariant lazy && !pass.updateFlushCount ==> pass.flushCount == p.cut[|queue|]
        invariant !lazy ==> pass.flushCount == |queue|
      {
        i := i - 1;
        pass := Visit(limits, p, i, pass);
      }
      PassEnds(pass, limits, p);
      flushCount := if pass.updateFlushCount then 0 else pass.flushCount;
    }

    /** Removes the planned moves from the queue. */
    method Take(flushCount: nat, ghost limits: seq<Limits>) returns (batch: seq<Move>)
      requires WellFormed(limits) && flushCount <= |queue| && PlannedRange(Plan(limits), 0, flushCount)
      modifies `queue
      ensures flushCount <= |limits| && WellFormed(limits[flushCount..]) && Unplanned()
      ensures old(queue) == batch + queue && |batch| == flushCount
      ensures PlannedPrefix(batch, Plan(limits))
    {
      batch := queue[..flushCount];
      queue := queue[flushCount..];
      forall i | 0 <= i < |queue| ensures queue[i].Valid() {
        assert old(queue)[flushCount+i].Valid();
      }
    }

    /**
     Plans the queue backwards, hands over the moves whose speeds are final and removes them.
     The batch is what the toolhead then turns into steps.
     */
    method Flush(lazy: bool := false) returns (batch: seq<Move>)
      requires Consistent()
      modifies `queue, `junctionFlush, `countdown, `run, queue`phases, queue`junction, queue`planned
      ensures Valid() && countdown == Countdown(LOOKAHEAD_FLUSH_TIME, [])
      ensures old(queue) == batch + queue
      ensures run == Next(old(run), Event.Flush(lazy))
      ensures |batch| == FlushCount(old(run).waiting, lazy)
      ensures PlannedPrefix(batch, Plan(old(run).waiting))
    {
      hide Run.Ok, Plan, Chain, PlannedRange, WellFormed, Next, FlushCount, MoveQueue.Counted;
      StartCountdown(LOOKAHEAD_FLUSH_TIME);
      ghost var before := run;
      WaitingCanBePlanned(before);
      var flushCount := PlanMoves(lazy, before.waiting);
      batch := Take(flushCount, before.waiting);
      FlushKeepsOk(before, lazy);
      run := Next(before, Event.Flush(lazy));
    }

    /** Queues a move behind its junction; enough queued time triggers a lazy flush. */
    method AddMove(move: Move, settings: Settings) returns (batch: seq<Move>)
      requires Valid() && settings.Valid()
      requires move.Valid() && move.Unplanned() && Sound(move.View()) && move !in queue
      modifies `queue, `junctionFlush, `countdown, `run, queue`phases, queue`junction, queue`planned
      modifies move`maxStartV2, move`maxSmoothedV2, move`phases, move`junction, move`planned
      ensures Valid() && old(queue) + [move] == batch + queue
      ensures move.maxStartV2 == if old(queue) == [] then 0.0 else old(move.JunctionLimit(queue[|queue|-1], settings))
      ensures MayFollow(old(run).waiting, move.View())
      ensures var full := old(queue) != [] && old(countdown.target) <= Sum(old(countdown.times + [move.minMoveT]));
              var added := old(run).AfterAdd(move.View());
              && run == (if full then Next(added, Event.Flush(true)) else added)
              && |batch| == (if full then LazyCount(added.waiting) else 0)
              && PlannedPrefix(batch, Plan(added.waiting))
              && countdown == (if full then Countdown(LOOKAHEAD_FLUSH_TIME, [])
                               else if old(queue) == [] then old(countdown)
                               else Countdown(old(countdown.target), old(countdown.times + [move.minMoveT])))
    {
      hide Run.Ok, MoveQueue.WellFormed, Move.JunctionLimit, Move.Valid, Move.PlannedAs, MayFollow, Sound, Plan, Next, Sum;
      Append(move, settings);
      if |queue| == 1 {
        return [];
      }
      var over := RunDown(move.minMoveT);
      if over {
        batch := Flush(true);
      } else {
        batch := [];
      }
    }

    /** Takes the time of a move off the time that is left, and tells whether it is over. */
    method RunDown(time: real) returns (over: bool)
      requires junctionFlush == countdown.Left()
      modifies `junctionFlush, `countdown
      ensures countdown == old(countdown).With(time) && junctionFlush == countdown.Left()
      ensures over <==> countdown.target <= Sum(countdown.times)
    {
      OneMoreTime(countdown, time);
      countdown := countdown.With(time);
      junctionFlush := junctionFlush - time;
      over := junctionFlush <= 0.0;
    }

    /** Puts a move at the end of the queue, linked to its predecessor. */
    method Append(move: Move, settings: Settings)
      requires Valid() && settings.Valid()
      requires move.Valid() && move.Unplanned() && Sound(move.View()) && move !in queue
      modifies `queue, `run, move`maxStartV2, move`maxSmoothedV2
      ensures Valid() && countdown == old(countdown) && queue == old(queue) + [move]
      ensures move.maxStartV2 == if old(queue) == [] then 0.0 else old(move.JunctionLimit(queue[|queue|-1], settings))
      ensures MayFollow(old(run).waiting, move.View())
      ensures run == old(run).AfterAdd(move.View())
    {
      hide Run.Ok, Chain, Move.JunctionLimit, Move.Valid, Linked, MoveQueue.Counted;
      ghost var before := run;
      WaitingCanBePlanned(before);
      if queue != [] {
        WaitingIsSound(before, |queue| - 1);
        var prev := queue[|queue|-1];
        assert prev.Valid();
        move.CalcJunction(prev, settings);
      }
      queue := queue + [move];
      AddKeepsOk(before, move.View());
      run := before.AfterAdd(move.View());
    }
  }
}
