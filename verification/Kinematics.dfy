/**
 Geometry and timing of moves: distances, junction corners and the phases of one move.
 */
module Kinematics {
  import opened RealMath

  /** A position or a direction: three axes of motion and the extruder. */
  datatype Coord = Coord(x: real, y: real, z: real, e: real) {
    function Minus(o: Coord): (r: Coord) {
      Coord(x - o.x, y - o.y, z - o.z, e - o.e)
    }

    function Plus(o: Coord): (r: Coord) {
      Coord(x + o.x, y + o.y, z + o.z, e + o.e)
    }

    function Scaled(r: real): (x: Coord) {
      Coord(x * r, y * r, z * r, e * r)
    }

    function SquaredLength(): (r: real) {
      x * x + y * y + z * z
    }
  }

  const ORIGIN := Coord(0.0, 0.0, 0.0, 0.0)

  lemma ProductPositive(a: real, b: real)
    requires a > 0.0 && b > 0.0
    ensures a * b > 0.0
  {
  }

  lemma ProductNonNegative(a: real, b: real)
    requires a >= 0.0 && b >= 0.0
    ensures a * b >= 0.0
  {
  }

  lemma ProductMonotone(a: real, b: real, c: real)
    requires a >= 0.0 && b <= c
    ensures a * b <= a * c
  {
    ProductNonNegative(a, c - b);
  }

  lemma SqrtPositive(sqrt: real -> real, x: real)
    requires IsSqrt(sqrt) && x > 0.0
    ensures sqrt(x) > 0.0
  {
    assert sqrt(x) * sqrt(x) == x;
  }

  lemma SquaresOrdered(s: real, r: real)
    requires 0.0 <= s <= r
    ensures s * s <= r * r && (s < r ==> s * s < r * r)
  {
    ProductNonNegative(r - s, r + s);
    if s < r {
      ProductPositive(r - s, r + s);
    }
    assert (r - s) * (r + s) == r * r - s * s;
  }

  lemma RootsOrdered(r: real, s: real)
    requires 0.0 <= r && 0.0 <= s && r * r <= s * s
    ensures r <= s
  {
    if s < r {
      SquaresOrdered(s, r);
    }
  }

  lemma SqrtBelow(sqrt: real -> real, x: real, b: real)
    requires IsSqrt(sqrt) && 0.0 <= x && 0.0 <= b
    ensures sqrt(x) < b <==> x < b * b
  {
    if sqrt(x) < b {
      SquaresOrdered(sqrt(x), b);
    } else {
      SquaresOrdered(b, sqrt(x));
    }
  }

  lemma SquaredLengthNonNegative(c: Coord)
    ensures c.SquaredLength() >= 0.0
  {
    assert c.x * c.x >= 0.0 && c.y * c.y >= 0.0 && c.z * c.z >= 0.0;
  }

  const MIN_KINEMATIC_DISTANCE: real := 0.000000001

  /** The displacement of a move, its direction and its length. */
  datatype Path = Path(axesD: Coord, axesR: Coord, moveD: real, isKinematic: bool)

  /** A move too short for the three axes is an extrude-only move. */
  function PathOf(sqrt: real -> real, startPos: Coord, endPos: Coord): (p: Path)
    requires IsSqrt(sqrt)
    ensures p.isKinematic <==>
              endPos.Minus(startPos).SquaredLength() >= MIN_KINEMATIC_DISTANCE * MIN_KINEMATIC_DISTANCE
    ensures p.isKinematic ==> p.moveD >= MIN_KINEMATIC_DISTANCE && p.axesD == endPos.Minus(startPos)
    ensures p.isKinematic ==> p.moveD * p.moveD == p.axesD.SquaredLength()
    ensures !p.isKinematic ==> p.axesD == Coord(0.0, 0.0, 0.0, endPos.e - startPos.e) && p.moveD == Abs(p.axesD.e)
    ensures p.axesR.Scaled(p.moveD) == p.axesD
    ensures p.moveD >= 0.0
  {
    var d := endPos.Minus(startPos);
    SquaredLengthNonNegative(d);
    var distance := sqrt(d.SquaredLength());
    SqrtBelow(sqrt, d.SquaredLength(), MIN_KINEMATIC_DISTANCE);
    if distance >= MIN_KINEMATIC_DISTANCE then
      UnitDirection(d, 1.0 / distance, distance);
      Path(d, d.Scaled(1.0 / distance), distance, true)
    else
      var e := Coord(0.0, 0.0, 0.0, d.e);
      var length := Abs(d.e);
      if length != 0.0 then
        UnitDirection(e, 1.0 / length, length);
        Path(e, e.Scaled(1.0 / length), length, false)
      else
        Path(e, e.Scaled(0.0), length, false)
  }

  // ---------- Phases of one move ----------

  /** By how much squared speed can change over a distance. */
  function SpeedChange(distance: real, accel: real): (v2: real) {
    2.0 * distance * accel
  }

  /** The distance over which squared speed changes from u2 to v2 at acceleration a. */
  function RampDistance(u2: real, v2: real, accel: real): (r: real)
    requires accel > 0.0
  {
    (v2 - u2) * (0.5 / accel)
  }

  /** That is the change when the whole distance is driven at the acceleration. */
  lemma FullRamp(u: real, v: real, t: real, distance: real, accel: real)
    requires (u + v) * 0.5 * t == distance && u + accel * t == v
    ensures v * v - u * u == SpeedChange(distance, accel)
  {
    assert v * v - u * u == (v - u) * (u + v) == accel * t * (u + v);
    assert accel * t * (u + v) == 2.0 * ((u + v) * 0.5 * t) * accel;
  }

  /** Distance over average speed is the time of a ramp of constant acceleration. */
  lemma RampTime(u: real, u2: real, v: real, v2: real, a: real, t: real)
    requires a > 0.0 && 0.0 <= u <= v && 0.0 < v
    requires u * u == u2 && v * v == v2
    requires t == RampDistance(u2, v2, a) / ((u + v) * 0.5)
    ensures 0.0 <= t
    ensures u + a * t == v
    ensures (u + v) * 0.5 * t == RampDistance(u2, v2, a)
  {
    var s, h := (u + v) * 0.5, 0.5 / a;
    assert h > 0.0 && h * a == 0.5;
    var d := RampDistance(u2, v2, a);
    assert t * s == d;
    assert d == (2.0 * (v - u) * h) * s by {
      assert v * v - u * u == 2.0 * (v - u) * s;
      assert d == 2.0 * ((v - u) * s) * h;
    }
    assert t == 2.0 * (v - u) * h by {
      assert (t - 2.0 * (v - u) * h) * s == 0.0;
    }
    ProductNonNegative(v - u, h);
    assert a * t == 2.0 * (v - u) * (h * a);
  }

  lemma SqrtMonotone(sqrt: real -> real, x: real, y: real)
    requires IsSqrt(sqrt) && 0.0 <= x <= y
    ensures sqrt(x) <= sqrt(y)
  {
    RootsOrdered(sqrt(x), sqrt(y));
  }

  lemma RootsOf(sqrt: real -> real, s2: real, c2: real, e2: real)
    requires IsSqrt(sqrt) && 0.0 <= s2 <= c2 && 0.0 <= e2 <= c2 && 0.0 < c2
    ensures var s, c, e := sqrt(s2), sqrt(c2), sqrt(e2);
            && s * s == s2 && c * c == c2 && e * e == e2
            && 0.0 <= s <= c && 0.0 <= e <= c && 0.0 < c
  {
    SqrtMonotone(sqrt, s2, c2);
    SqrtMonotone(sqrt, e2, c2);
    SqrtPositive(sqrt, c2);
  }

  lemma UnitScale(d: real, inverse: real, distance: real)
    requires inverse * distance == 1.0
    ensures d * inverse * distance == d
  {
    assert d * inverse * distance == d * (inverse * distance);
  }

  /** Squared speeds that change by no more than 2*d*a leave no negative cruise distance. */
  lemma RampsFit(distance: real, accel: real, startV2: real, cruiseV2: real, endV2: real)
    requires accel > 0.0
    requires (cruiseV2 - startV2) + (cruiseV2 - endV2) <= SpeedChange(distance, accel)
    ensures RampDistance(startV2, cruiseV2, accel) + RampDistance(endV2, cruiseV2, accel) <= distance
  {
    var h := 0.5 / accel;
    assert h > 0.0 && h * accel == 0.5;
    ProductMonotone(h, (cruiseV2 - startV2) + (cruiseV2 - endV2), 2.0 * distance * accel);
    assert h * (2.0 * distance * accel) == 2.0 * distance * (h * accel);
  }

  /** Speeds and phase times of one move. */
  datatype Phases = Phases(startV: real, cruiseV: real, endV: real, accelT: real, cruiseT: real, decelT: real) {
    /** How fast the move is at a time after its start. */
    function SpeedAt(accel: real, t: real): (v: real) {
      if t <= accelT then startV + accel * t
      else if t <= accelT + cruiseT then cruiseV
      else cruiseV - accel * (t - accelT - cruiseT)
    }

    /** How far the move has come by then. */
    function DistanceAt(accel: real, t: real): (d: real) {
      if t <= accelT then (startV + SpeedAt(accel, t)) * 0.5 * t
      else if t <= accelT + cruiseT then (startV + cruiseV) * 0.5 * accelT + cruiseV * (t - accelT)
      else
        var u := t - accelT - cruiseT;
        (startV + cruiseV) * 0.5 * accelT + cruiseV * cruiseT + (cruiseV + SpeedAt(accel, t)) * 0.5 * u
    }

    /** The phases drive exactly the given distance at the given acceleration. */
    ghost predicate Drive(distance: real, accel: real) {
      && 0.0 <= accelT && 0.0 <= cruiseT && 0.0 <= decelT
      && startV + accel * accelT == cruiseV
      && cruiseV - accel * decelT == endV
      && (startV + cruiseV) * 0.5 * accelT + cruiseV * cruiseT + (endV + cruiseV) * 0.5 * decelT == distance
    }
  }

  /** How long a distance takes at an average speed. */
  function TimeFor(distance: real, speed: real): (t: real)
    requires speed > 0.0
  {
    distance / speed
  }

  /** The phases of a move whose squared speeds are s2 at the start, c2 at cruise and e2 at the end. */
  function PhasesOf(sqrt: real -> real, distance: real, accel: real, s2: real, c2: real, e2: real): (p: Phases)
    requires IsSqrt(sqrt) && accel > 0.0
    requires 0.0 <= s2 <= c2 && 0.0 <= e2 <= c2 && 0.0 < c2
    ensures p.startV == sqrt(s2) && p.cruiseV == sqrt(c2) && p.endV == sqrt(e2)
    ensures (c2 - s2) + (c2 - e2) <= SpeedChange(distance, accel) ==> p.Drive(distance, accel)
  {
    RootsOf(sqrt, s2, c2, e2);
    hide RampDistance, SpeedChange, Phases.Drive, IsSqrt, TimeFor;
    var s, c, e := sqrt(s2), sqrt(c2), sqrt(e2);
    var accelD := RampDistance(s2, c2, accel);
    var decelD := RampDistance(e2, c2, accel);
    var p := Phases(s, c, e, TimeFor(accelD, (s + c) * 0.5),
                    TimeFor(distance - accelD - decelD, c), TimeFor(decelD, (e + c) * 0.5));
    PhasesDrive(distance, accel, s2, c2, e2, p);
    p
  }

  lemma PhasesDrive(distance: real, accel: real, s2: real, c2: real, e2: real, p: Phases)
    requires accel > 0.0 && 0.0 <= p.startV <= p.cruiseV && 0.0 <= p.endV <= p.cruiseV && 0.0 < p.cruiseV
    requires p.startV * p.startV == s2 && p.cruiseV * p.cruiseV == c2 && p.endV * p.endV == e2
    requires p.accelT == TimeFor(RampDistance(s2, c2, accel), (p.startV + p.cruiseV) * 0.5)
    requires p.decelT == TimeFor(RampDistance(e2, c2, accel), (p.endV + p.cruiseV) * 0.5)
    requires p.cruiseT == TimeFor(distance - RampDistance(s2, c2, accel) - RampDistance(e2, c2, accel), p.cruiseV)
    ensures (c2 - s2) + (c2 - e2) <= SpeedChange(distance, accel) ==> p.Drive(distance, accel)
  {
    hide RampDistance, SpeedChange;
    if (c2 - s2) + (c2 - e2) <= SpeedChange(distance, accel) {
      RampTime(p.startV, s2, p.cruiseV, c2, accel, p.accelT);
      RampTime(p.endV, e2, p.cruiseV, c2, accel, p.decelT);
      RampsFit(distance, accel, s2, c2, e2);
      assert p.cruiseV * p.cruiseT == distance - RampDistance(s2, c2, accel) - RampDistance(e2, c2, accel);
    }
  }

  // ---------- Corners ----------

  /** Cosine of the angle between the reversed first direction and the second one. */
  function CosTheta(prev: Coord, cur: Coord): (r: real) {
    -(cur.x * prev.x + cur.y * prev.y + cur.z * prev.z)
  }

  /** Two moves that go on in one direction meet at the largest angle. */
  lemma CosIsDot(a: Coord, b: Coord)
    ensures CosTheta(a, b) == -(a.x * b.x + a.y * b.y + a.z * b.z)
  {
  }

  /** The square root arguments of a corner stay strictly between zero and one. */
  lemma CornerAngles(sqrt: real -> real, cosTheta: real)
    requires IsSqrt(sqrt) && -0.999999 <= cosTheta <= 0.999999
    ensures 0.0 < sqrt(0.5 * (1.0 - cosTheta)) < 1.0
    ensures 0.0 < sqrt(0.5 * (1.0 + cosTheta))
  {
    SqrtPositive(sqrt, 0.5 * (1.0 - cosTheta));
    SqrtPositive(sqrt, 0.5 * (1.0 + cosTheta));
    SqrtBelow(sqrt, 0.5 * (1.0 - cosTheta), 1.0);
  }

  /** One side of a corner: how far the move goes and how hard it may accelerate. */
  datatype Side = Side(distance: real, accel: real)

  /** Squared speed at which the approximated circle of a corner can be driven. */
  function CornerV2(sqrt: real -> real, deviation: real, cosTheta: real, prev: Side, cur: Side): (v2: real)
    requires IsSqrt(sqrt) && -0.999999 <= cosTheta <= 0.999999
  {
    CornerAngles(sqrt, cosTheta);
    var sinThetaD2 := sqrt(0.5 * (1.0 - cosTheta));
    CentripetalV2(CornerRadius(deviation, sinThetaD2), Tan(sinThetaD2, sqrt(0.5 * (1.0 + cosTheta))), prev, cur)
  }

  function CornerRadius(deviation: real, sin: real): (r: real)
    requires sin < 1.0
  {
    deviation * sin / (1.0 - sin)
  }

  function Tan(sin: real, cos: real): (r: real)
    requires cos != 0.0
  {
    sin / cos
  }

  function Least(a: real, b: real, c: real, d: real): (r: real)
    ensures r <= a && r <= b && r <= c && r <= d && (r == a || r == b || r == c || r == d)
  {
    Min(Min(a, b), Min(c, d))
  }

  /** The least of the four bounds that radius and half-angle put on a corner. */
  function CentripetalV2(radius: real, tan: real, prev: Side, cur: Side): (v2: real) {
    Least(radius * cur.accel, radius * prev.accel,
          0.5 * cur.distance * tan * cur.accel, 0.5 * prev.distance * tan * prev.accel)
  }

  /**
   A corner that is rounded by a circle which touches both moves: sine and cosine of half the
   angle between them, and the radius.
   */
  datatype Corner = Corner(sin: real, cos: real, radius: real) {
    /** The angle has the given cosine, and the circle passes the corner at the given distance. */
    ghost predicate Rounds(cosTheta: real, deviation: real) {
      && 0.0 < sin < 1.0 && 0.0 < cos && sin * sin + cos * cos == 1.0
      && cos * cos - sin * sin == cosTheta
      && radius * (1.0 - sin) == deviation * sin
    }
  }

  /** There is such a corner. */
  lemma CornerExists(sqrt: real -> real, cosTheta: real, deviation: real) returns (k: Corner)
    requires IsSqrt(sqrt) && -0.999999 <= cosTheta <= 0.999999
    ensures k.Rounds(cosTheta, deviation)
    ensures k.sin == sqrt(0.5 * (1.0 - cosTheta)) && k.cos == sqrt(0.5 * (1.0 + cosTheta))
  {
    CornerAngles(sqrt, cosTheta);
    var sin, cos := sqrt(0.5 * (1.0 - cosTheta)), sqrt(0.5 * (1.0 + cosTheta));
    k := Corner(sin, cos, deviation * sin / (1.0 - sin));
    assert sin * sin == 0.5 * (1.0 - cosTheta) && cos * cos == 0.5 * (1.0 + cosTheta);
  }

  lemma SameRoot(v: real, w: real)
    requires 0.0 <= v && 0.0 <= w && v * v == w * w
    ensures v == w
  {
    RootsOrdered(v, w);
    RootsOrdered(w, v);
  }

  lemma Cancel(a: real, b: real, c: real, product: real)
    requires a * c == product && b * c == product && c > 0.0
    ensures a == b
  {
    assert (a - b) * c == 0.0;
  }

  /** And only one. */
  lemma CornerUnique(k: Corner, l: Corner, cosTheta: real, deviation: real)
    requires k.Rounds(cosTheta, deviation) && l.Rounds(cosTheta, deviation)
    ensures k == l
  {
    SameRoot(k.sin, l.sin);
    SameRoot(k.cos, l.cos);
    var rest := 1.0 - k.sin;
    assert k.radius * rest == deviation * k.sin;
    assert l.radius * rest == deviation * k.sin;
    Cancel(k.radius, l.radius, rest, deviation * k.sin);
  }

  /** The circle of centripetal acceleration at squared speed v2 touches the move no further away than at its middle. */
  ghost predicate TouchesHalf(v2: real, k: Corner, s: Side) {
    v2 * k.cos <= 0.5 * s.distance * s.accel * k.sin
  }

  ghost predicate TouchesMiddle(v2: real, k: Corner, s: Side) {
    v2 * k.cos == 0.5 * s.distance * s.accel * k.sin
  }

  lemma TouchingSpeed(v2: real, k: Corner, s: Side)
    requires 0.0 < k.cos
    ensures var bound := 0.5 * s.distance * Tan(k.sin, k.cos) * s.accel;
            && (v2 <= bound ==> TouchesHalf(v2, k, s))
            && (v2 == bound ==> TouchesMiddle(v2, k, s))
  {
    var tan := k.sin / k.cos;
    var bound := 0.5 * s.distance * tan * s.accel;
    assert tan * k.cos == k.sin;
    assert bound * k.cos == 0.5 * s.distance * s.accel * (tan * k.cos);
    if v2 <= bound {
      ProductMonotone(k.cos, v2, bound);
    }
  }

  /** Both moves provide the centripetal acceleration and the circle touches them. */
  ghost predicate RoundedBelow(v2: real, k: Corner, prev: Side, cur: Side) {
    && v2 <= k.radius * cur.accel && v2 <= k.radius * prev.accel
    && TouchesHalf(v2, k, cur) && TouchesHalf(v2, k, prev)
  }

  /** One of the moves cannot provide more, or the circle touches it at its middle. */
  ghost predicate RoundedEdge(v2: real, k: Corner, prev: Side, cur: Side) {
    || v2 == k.radius * cur.accel || v2 == k.radius * prev.accel
    || TouchesMiddle(v2, k, cur) || TouchesMiddle(v2, k, prev)
  }

  lemma LowerRounds(v2: real, bound: real, k: Corner, prev: Side, cur: Side)
    requires 0.0 < k.cos && v2 <= bound && RoundedBelow(bound, k, prev, cur)
    ensures RoundedBelow(v2, k, prev, cur)
  {
    ProductMonotone(k.cos, v2, bound);
  }

  /** A corner gets the largest speed at which the moves can drive its circle. */
  lemma CornerIsRounded(sqrt: real -> real, deviation: real, cosTheta: real, prev: Side, cur: Side, k: Corner)
    requires IsSqrt(sqrt) && -0.999999 <= cosTheta <= 0.999999 && k.Rounds(cosTheta, deviation)
    ensures var v2 := CornerV2(sqrt, deviation, cosTheta, prev, cur);
            RoundedBelow(v2, k, prev, cur) && RoundedEdge(v2, k, prev, cur)
  {
    assert 0.0 < k.cos && k.sin < 1.0 && k.radius * (1.0 - k.sin) == deviation * k.sin;
    hide *;
    var l := CornerExists(sqrt, cosTheta, deviation);
    CornerUnique(k, l, cosTheta, deviation);
    RadiusOf(k, deviation);
    CornerUnfolds(sqrt, deviation, cosTheta, prev, cur);
    CentripetalRounds(k, prev, cur);
  }

  lemma CentripetalRounds(k: Corner, prev: Side, cur: Side)
    requires 0.0 < k.cos
    ensures var v2 := CentripetalV2(k.radius, Tan(k.sin, k.cos), prev, cur);
            RoundedBelow(v2, k, prev, cur) && RoundedEdge(v2, k, prev, cur)
  {
    hide TouchesHalf, TouchesMiddle, Tan, Least;
    var v2 := CentripetalV2(k.radius, Tan(k.sin, k.cos), prev, cur);
    TouchingSpeed(v2, k, cur);
    TouchingSpeed(v2, k, prev);
  }

  lemma RadiusOf(k: Corner, deviation: real)
    requires k.sin < 1.0 && k.radius * (1.0 - k.sin) == deviation * k.sin
    ensures k.radius == CornerRadius(deviation, k.sin)
  {
    Cancel(k.radius, CornerRadius(deviation, k.sin), 1.0 - k.sin, deviation * k.sin);
  }

  lemma CornerNonNegative(sqrt: real -> real, deviation: real, cosTheta: real, prev: Side, cur: Side)
    requires IsSqrt(sqrt) && -0.999999 <= cosTheta <= 0.999999 && deviation >= 0.0
    requires prev.distance >= 0.0 && prev.accel >= 0.0 && cur.distance >= 0.0 && cur.accel >= 0.0
    ensures CornerV2(sqrt, deviation, cosTheta, prev, cur) >= 0.0
  {
    CornerAngles(sqrt, cosTheta);
    var sinThetaD2 := sqrt(0.5 * (1.0 - cosTheta));
    ProductNonNegative(deviation, sinThetaD2);
    var radius := CornerRadius(deviation, sinThetaD2);
    assert radius >= 0.0;
    var tan := Tan(sinThetaD2, sqrt(0.5 * (1.0 + cosTheta)));
    assert tan >= 0.0;
    hide *;
    CentripetalNonNegative(radius, tan, prev, cur);
    CornerUnfolds(sqrt, deviation, cosTheta, prev, cur);
  }

  /** A right angle between long enough moves gets exactly the square corner velocity that the deviation is made from. */
  lemma SquareCorner(sqrt: real -> real, root2: real, square: real, deviation: real, prev: Side, cur: Side)
    requires IsSqrt(sqrt) && 0.0 < root2 && root2 * root2 == 2.0
    requires 0.0 < cur.accel == prev.accel && deviation * cur.accel == square * (root2 - 1.0)
    requires square <= 0.5 * cur.distance * cur.accel && square <= 0.5 * prev.distance * prev.accel
    ensures CornerV2(sqrt, deviation, 0.0, prev, cur) == square
  {
    hide *;
    var k := SquareRounds(root2, square, deviation, cur.accel);
    CornerIsRounded(sqrt, deviation, 0.0, prev, cur, k);
    SquareSpeed(CornerV2(sqrt, deviation, 0.0, prev, cur), k, prev, cur, square);
  }

  lemma SquareSpeed(v2: real, k: Corner, prev: Side, cur: Side, square: real)
    requires RoundedBelow(v2, k, prev, cur) && RoundedEdge(v2, k, prev, cur) && 0.0 < k.sin == k.cos
    requires cur.accel == prev.accel && k.radius * cur.accel == square
    requires square <= 0.5 * cur.distance * cur.accel && square <= 0.5 * prev.distance * prev.accel
    ensures v2 == square
  {
    SquareTouches(v2, k, cur);
    SquareTouches(v2, k, prev);
  }

  lemma SquareTouches(v2: real, k: Corner, s: Side)
    requires 0.0 < k.sin == k.cos
    ensures TouchesMiddle(v2, k, s) ==> v2 == 0.5 * s.distance * s.accel
  {
    if TouchesMiddle(v2, k, s) {
      Cancel(v2, 0.5 * s.distance * s.accel, k.cos, v2 * k.cos);
    }
  }

  lemma SquareRounds(root2: real, square: real, deviation: real, accel: real) returns (k: Corner)
    requires 0.0 < root2 && root2 * root2 == 2.0 && 0.0 < accel && deviation * accel == square * (root2 - 1.0)
    ensures k.Rounds(0.0, deviation) && 0.0 < k.sin == k.cos && k.radius * accel == square
  {
    k := Corner(root2 * 0.5, root2 * 0.5, square / accel);
    if root2 >= 2.0 {
      SquaresOrdered(2.0, root2);
    }
    var left, right := k.radius * (1.0 - k.sin), deviation * k.sin;
    assert k.radius * accel == square;
    assert left * accel == (k.radius * accel) * (1.0 - k.sin);
    assert right * accel == (deviation * accel) * k.sin;
    assert (root2 - 1.0) * (root2 * 0.5) == 1.0 - root2 * 0.5;
    assert square * (root2 - 1.0) * (root2 * 0.5) == square * ((root2 - 1.0) * (root2 * 0.5));
    Cancel(left, right, accel, left * accel);
  }

  lemma CornerUnfolds(sqrt: real -> real, deviation: real, cosTheta: real, prev: Side, cur: Side)
    requires IsSqrt(sqrt) && -0.999999 <= cosTheta <= 0.999999
    ensures var sin, cos := sqrt(0.5 * (1.0 - cosTheta)), sqrt(0.5 * (1.0 + cosTheta));
            && 0.0 < sin < 1.0 && 0.0 < cos
            && CornerV2(sqrt, deviation, cosTheta, prev, cur)
            == CentripetalV2(CornerRadius(deviation, sin), Tan(sin, cos), prev, cur)
  {
    hide CornerRadius, Tan, CentripetalV2;
    CornerAngles(sqrt, cosTheta);
  }

  lemma CornerPositive(sqrt: real -> real, deviation: real, cosTheta: real, prev: Side, cur: Side)
    requires IsSqrt(sqrt) && -0.999999 <= cosTheta <= 0.999999 && deviation > 0.0
    requires prev.distance > 0.0 && prev.accel > 0.0 && cur.distance > 0.0 && cur.accel > 0.0
    ensures CornerV2(sqrt, deviation, cosTheta, prev, cur) > 0.0
  {
    CornerAngles(sqrt, cosTheta);
    var sin, cos := sqrt(0.5 * (1.0 - cosTheta)), sqrt(0.5 * (1.0 + cosTheta));
    ProductPositive(deviation, sin);
    var radius, tan := CornerRadius(deviation, sin), Tan(sin, cos);
    assert radius > 0.0 && tan > 0.0;
    hide *;
    CentripetalPositive(radius, tan, prev, cur);
    CornerUnfolds(sqrt, deviation, cosTheta, prev, cur);
  }

  lemma CentripetalPositive(radius: real, tan: real, prev: Side, cur: Side)
    requires radius > 0.0 && tan > 0.0
    requires prev.distance > 0.0 && prev.accel > 0.0 && cur.distance > 0.0 && cur.accel > 0.0
    ensures CentripetalV2(radius, tan, prev, cur) > 0.0
  {
    ProductPositive(radius, cur.accel);
    ProductPositive(radius, prev.accel);
    ProductPositive(0.5 * cur.distance, tan);
    ProductPositive(0.5 * prev.distance, tan);
    ProductPositive(0.5 * cur.distance * tan, cur.accel);
    ProductPositive(0.5 * prev.distance * tan, prev.accel);
  }

  lemma CentripetalNonNegative(radius: real, tan: real, prev: Side, cur: Side)
    requires radius >= 0.0 && tan >= 0.0
    requires prev.distance >= 0.0 && prev.accel >= 0.0 && cur.distance >= 0.0 && cur.accel >= 0.0
    ensures CentripetalV2(radius, tan, prev, cur) >= 0.0
  {
    ProductNonNegative(radius, cur.accel);
    ProductNonNegative(radius, prev.accel);
    ProductNonNegative(0.5 * cur.distance, tan);
    ProductNonNegative(0.5 * prev.distance, tan);
    ProductNonNegative(0.5 * cur.distance * tan, cur.accel);
    ProductNonNegative(0.5 * prev.distance * tan, prev.accel);
  }

  /** Squared speed that a change of extrusion rate allows. */
  function ExtruderV2(instantCornerV: real, prevRate: real, rate: real, maxCruiseV2: real): (v2: real)
    ensures maxCruiseV2 >= 0.0 ==> v2 >= 0.0
    ensures rate != prevRate ==>
              v2 * ((rate - prevRate) * (rate - prevRate)) == instantCornerV * instantCornerV
    ensures rate == prevRate ==> v2 == maxCruiseV2
  {
    var diff := rate - prevRate;
    if diff != 0.0 then
      var v := instantCornerV / Abs(diff);
      assert v * v >= 0.0;
      assert v * Abs(diff) == instantCornerV;
      assert v * v * (diff * diff) == (v * Abs(diff)) * (v * Abs(diff));
      v * v
    else maxCruiseV2
  }

  /** The extrusion rate changes at no more than the given speed. */
  ghost predicate ExtrudesBelow(v2: real, change: real, instantCornerV: real) {
    change != 0.0 ==> v2 * (change * change) <= instantCornerV * instantCornerV
  }

  /** It changes at exactly that speed. */
  ghost predicate ExtrudesEdge(v2: real, change: real, instantCornerV: real) {
    change != 0.0 && v2 * (change * change) == instantCornerV * instantCornerV
  }

  lemma LowerExtrudes(v2: real, instantCornerV: real, prevRate: real, rate: real, maxCruiseV2: real)
    requires v2 <= ExtruderV2(instantCornerV, prevRate, rate, maxCruiseV2)
    ensures ExtrudesBelow(v2, rate - prevRate, instantCornerV)
    ensures v2 == ExtruderV2(instantCornerV, prevRate, rate, maxCruiseV2) ==>
              v2 == maxCruiseV2 || ExtrudesEdge(v2, rate - prevRate, instantCornerV)
  {
    var change := rate - prevRate;
    var bound := ExtruderV2(instantCornerV, prevRate, rate, maxCruiseV2);
    hide ExtruderV2;
    assert change * change >= 0.0;
    ProductMonotone(change * change, v2, bound);
  }

  lemma ExtruderPositive(instantCornerV: real, prevRate: real, rate: real, maxCruiseV2: real)
    requires instantCornerV > 0.0 && maxCruiseV2 > 0.0
    ensures ExtruderV2(instantCornerV, prevRate, rate, maxCruiseV2) > 0.0
  {
    ProductPositive(instantCornerV, instantCornerV);
    var change, v2 := rate - prevRate, ExtruderV2(instantCornerV, prevRate, rate, maxCruiseV2);
    hide ExtruderV2;
    assert v2 == 0.0 ==> v2 * (change * change) == 0.0;
  }

  /** Limits on the squared speed of a move: how much it can change and how large it may be. */
  datatype SpeedLimits = SpeedLimits(velocity: real, accel: real, minMoveT: real,
                                     maxCruiseV2: real, deltaV2: real, smoothDeltaV2: real)

  function LimitsOf(distance: real, velocity: real, accel: real, accelToDecel: real): (l: SpeedLimits)
    requires distance >= 0.0 && velocity > 0.0 && accel > 0.0 && accelToDecel > 0.0
    ensures l.velocity == velocity && l.accel == accel
    ensures l.maxCruiseV2 == velocity * velocity && l.minMoveT * velocity == distance
    ensures l.deltaV2 == SpeedChange(distance, accel) && l.smoothDeltaV2 == SpeedChange(distance, accelToDecel)
    ensures distance > 0.0 ==> l.maxCruiseV2 > 0.0 && l.smoothDeltaV2 > 0.0
    ensures distance > 0.0 && accelToDecel <= accel ==> l.smoothDeltaV2 <= l.deltaV2
  {
    var l := SpeedLimits(velocity, accel, distance / velocity, velocity * velocity,
                         SpeedChange(distance, accel), SpeedChange(distance, accelToDecel));
    assert distance > 0.0 ==> l.maxCruiseV2 > 0.0 && l.smoothDeltaV2 > 0.0
                              && (accelToDecel <= accel ==> l.smoothDeltaV2 <= l.deltaV2) by {
      if distance > 0.0 {
        NewLimits(distance, velocity, accel, accelToDecel);
      }
    }
    l
  }

  /** The limits of a new move are positive and the smoothed change is within the full one. */
  lemma NewLimits(distance: real, velocity: real, accel: real, accelToDecel: real)
    requires distance > 0.0 && velocity > 0.0 && accel > 0.0 && accelToDecel > 0.0
    ensures velocity * velocity > 0.0
    ensures SpeedChange(distance, accelToDecel) > 0.0
    ensures accelToDecel <= accel ==> SpeedChange(distance, accelToDecel) <= SpeedChange(distance, accel)
  {
    ProductPositive(velocity, velocity);
    ProductPositive(2.0 * distance, accelToDecel);
    if accelToDecel <= accel {
      ProductMonotone(2.0 * distance, accelToDecel, accel);
    }
  }

  lemma UnitDirection(d: Coord, inverse: real, distance: real)
    requires inverse * distance == 1.0
    ensures d.Scaled(inverse).Scaled(distance) == d
  {
    UnitScale(d.x, inverse, distance);
    UnitScale(d.y, inverse, distance);
    UnitScale(d.z, inverse, distance);
    UnitScale(d.e, inverse, distance);
  }
}
