/**
 The look-ahead planner as mathematics.

 All speeds are squared (mm^2/s^2), as in the planner itself.  A queue of moves is a
 sequence of Limits; the backward pass over the queue is written as functions of the
 queue and an index, so that the value computed at index i depends on q[i..] alone.
 */
module Lookahead {
  import opened RealMath

  /** What the planner reads of a queued move. */
  datatype Limits = Limits(
    delta: real,         // largest change of squared speed over the move
    smoothDelta: real,   // the same at the reduced acceleration
    maxCruise: real,
    maxStart: real,      // junction limit with the move before
    maxSmoothed: real)   // junction limit of the smoothed profile

  /** What the planner assigns to a move. */
  datatype Junction = Junction(start: real, cruise: real, end: real)

  ghost predicate Sound(m: Limits) {
    && 0.0 < m.smoothDelta <= m.delta
    && 0.0 < m.maxCruise
    && 0.0 <= m.maxSmoothed <= m.maxStart <= m.maxCruise
  }

  /** The limits that the junction of p and the following move m imposes on m. */
  ghost predicate Linked(p: Limits, m: Limits) {
    && m.maxStart <= p.maxCruise
    && m.maxStart <= p.maxStart + p.delta
    && m.maxSmoothed == Min(m.maxStart, p.maxSmoothed + p.smoothDelta)
  }

  /** The move at i and the one before it are linked. */
  ghost predicate LinkedAt(q: seq<Limits>, i: nat)
    requires 0 < i < |q|
  {
    Linked(q[i-1], q[i])
  }

  ghost predicate Chain(q: seq<Limits>) {
    && (forall i :: 0 <= i < |q| ==> Sound(q[i]))
    && (forall i :: 0 < i < |q| ==> LinkedAt(q, i))
  }

  // ---------- The backward pass ----------

  /** Largest start speed of move i from which the queue can still stop at its end. */
  function StartV2(q: seq<Limits>, i: nat): (r: real)
    requires i <= |q|
    decreases |q| - i
  {
    if i == |q| then 0.0 else Min(q[i].maxStart, StartV2(q, i + 1) + q[i].delta)
  }

  function SmoothedV2(q: seq<Limits>, i: nat): (r: real)
    requires i <= |q|
    decreases |q| - i
  {
    if i == |q| then 0.0 else Min(q[i].maxSmoothed, SmoothedV2(q, i + 1) + q[i].smoothDelta)
  }

  /** Move i decelerates over its whole length in the smoothed profile. */
  predicate Delayed(q: seq<Limits>, i: nat)
    requires i < |q|
  {
    SmoothedV2(q, i) >= SmoothedV2(q, i + 1) + q[i].smoothDelta
  }

  /** Delayed moves are waiting for their cruise speed when move i is visited. */
  predicate Pending(q: seq<Limits>, i: nat)
    requires i < |q|
  {
    i + 1 < |q| && Delayed(q, i + 1)
  }

  predicate IsPeak(q: seq<Limits>, i: nat)
    requires i < |q|
  {
    && !Delayed(q, i)
    && (SmoothedV2(q, i) + q[i].smoothDelta > SmoothedV2(q, i + 1) || Pending(q, i))
  }

  /** The peak cruise speed in force once move i has been visited; zero before any peak. */
  function PeakCruise(q: seq<Limits>, i: nat): (r: real)
    requires i <= |q|
    decreases |q| - i
  {
    if i == |q| then 0.0
    else if IsPeak(q, i) then
      Min(q[i].maxCruise, (SmoothedV2(q, i) + (SmoothedV2(q, i + 1) + q[i].smoothDelta)) * 0.5)
    else PeakCruise(q, i + 1)
  }

  /** The cap that the smoothed profile puts on the speeds of move i. */
  function Cap(q: seq<Limits>, i: nat): (r: real)
    requires i < |q|
  {
    if !Delayed(q, i) then PeakCruise(q, i)
    else if i == 0 then 0.0
    else Min(Cap(q, i - 1), StartV2(q, i))
  }

  function CruiseV2(q: seq<Limits>, i: nat): (r: real)
    requires i < |q|
  {
    if Delayed(q, i) then Cap(q, i)
    else Min(Min((StartV2(q, i) + (StartV2(q, i + 1) + q[i].delta)) * 0.5, q[i].maxCruise), PeakCruise(q, i))
  }

  function PlanAt(q: seq<Limits>, i: nat): (r: Junction)
    requires i < |q|
  {
    var cruise := CruiseV2(q, i);
    Junction(Min(StartV2(q, i), cruise), cruise, Min(StartV2(q, i + 1), cruise))
  }

  /** What one complete flush of the queue assigns. */
  function Plan(q: seq<Limits>): (p: seq<Junction>)
    ensures |p| == |q|
  {
    seq(|q|, i requires 0 <= i < |q| => PlanAt(q, i))
  }

  /** The first index below i at which a lazy flush would cut the queue. */
  function CutBelow(q: seq<Limits>, i: nat): (c: nat)
    requires i <= |q|
    ensures c <= i
  {
    if i == 0 then 0
    else if IsPeak(q, i - 1) && PeakCruise(q, i) != 0.0 then i - 1
    else CutBelow(q, i - 1)
  }

  /** How many moves a lazy flush commits. */
  function LazyCount(q: seq<Limits>): (r: nat) {
    CutBelow(q, |q|)
  }

  // ---------- Bounds of the two profiles ----------

  lemma {:induction false} ProfileBounds(q: seq<Limits>, i: nat)
    requires Chain(q) && i <= |q|
    ensures 0.0 <= SmoothedV2(q, i) <= StartV2(q, i)
    ensures i < |q| ==> SmoothedV2(q, i) <= q[i].maxSmoothed && StartV2(q, i) <= q[i].maxStart
    decreases |q| - i
  {
    if i < |q| {
      ProfileBounds(q, i + 1);
    }
  }

  /** Reaching the next junction never takes more acceleration than the move allows. */
  lemma StartReachesNext(q: seq<Limits>, i: nat)
    requires Chain(q) && i < |q|
    ensures StartV2(q, i) <= StartV2(q, i + 1) + q[i].delta
    ensures StartV2(q, i + 1) <= StartV2(q, i) + q[i].delta
    ensures SmoothedV2(q, i + 1) <= q[i].maxSmoothed + q[i].smoothDelta
    ensures StartV2(q, i + 1) <= q[i].maxCruise
  {
    ProfileBounds(q, i + 1);
    if i + 1 < |q| {
      assert LinkedAt(q, i + 1);
    }
  }

  /** The start speeds are the greatest profile that respects the limits and ends at rest. */
  lemma {:induction false} StartIsGreatest(q: seq<Limits>, w: seq<real>, i: nat)
    requires |w| == |q| + 1 && w[|q|] == 0.0 && i <= |q|
    requires forall k :: 0 <= k < |q| ==> w[k] <= q[k].maxStart && w[k] <= w[k+1] + q[k].delta
    ensures w[i] <= StartV2(q, i)
    decreases |q| - i
  {
    if i < |q| {
      StartIsGreatest(q, w, i + 1);
    }
  }

  /** A junction whose two profiles both sit at their junction limit. */
  ghost predicate Anchored(q: seq<Limits>, j: nat) {
    j < |q| && !Delayed(q, j) && q[j].maxSmoothed == q[j].maxStart
  }

  lemma AnchoredSpeeds(q: seq<Limits>, j: nat)
    requires Chain(q) && Anchored(q, j)
    ensures StartV2(q, j) == SmoothedV2(q, j) == q[j].maxStart
  {
    ProfileBounds(q, j);
  }

  /** After a peak or a delayed move, a move that is not delayed starts at its junction limit. */
  lemma AfterPeakIsAnchored(q: seq<Limits>, i: nat)
    requires Chain(q) && i + 1 < |q|
    requires IsPeak(q, i) || Delayed(q, i)
    requires !Delayed(q, i + 1)
    ensures Anchored(q, i + 1)
  {
    assert LinkedAt(q, i + 1);
    assert Sound(q[i]);
    ProfileBounds(q, i);
  }

  // ---------- Peaks ----------

  lemma {:induction false} PeakCruisePositive(q: seq<Limits>, i: nat)
    requires Chain(q) && i < |q| && !Delayed(q, i)
    ensures PeakCruise(q, i) >= SmoothedV2(q, i)
    ensures PeakCruise(q, i) > 0.0
    decreases |q| - i
  {
    assert Sound(q[i]);
    ProfileBounds(q, i);
    ProfileBounds(q, i + 1);
    if !IsPeak(q, i) {
      PeakCruisePositive(q, i + 1);
    }
  }

  lemma {:induction false} NoPeakYet(q: seq<Limits>, i: nat)
    requires Chain(q) && i <= |q|
    ensures PeakCruise(q, i) == 0.0 <==> forall k :: i <= k < |q| ==> Delayed(q, k)
    decreases |q| - i
  {
    if i < |q| {
      NoPeakYet(q, i + 1);
      if !Delayed(q, i) {
        PeakCruisePositive(q, i);
      }
    }
  }

  /** The cap never forces a move below the smoothed speed of the next junction. */
  lemma {:induction false} CapAboveSmoothed(q: seq<Limits>, i: nat)
    requires Chain(q) && i < |q| && !Delayed(q, 0)
    ensures Cap(q, i) >= SmoothedV2(q, i + 1)
    ensures Cap(q, i) > 0.0
  {
    assert Sound(q[i]);
    ProfileBounds(q, i);
    ProfileBounds(q, i + 1);
    StartReachesNext(q, i);
    if Delayed(q, i) {
      CapAboveSmoothed(q, i - 1);
    } else {
      PeakCruisePositive(q, i);
      if i + 1 < |q| {
        assert LinkedAt(q, i + 1);
        if !IsPeak(q, i) {
          PeakCruisePositive(q, i + 1);
        }
      }
    }
  }

  /** Start and end speeds are the junction speeds under the cap. */
  lemma PlanUnderCap(q: seq<Limits>, i: nat)
    requires Chain(q) && i < |q| && !Delayed(q, 0)
    ensures PlanAt(q, i).start == Min(StartV2(q, i), Cap(q, i))
    ensures PlanAt(q, i).end == Min(StartV2(q, i + 1), Cap(q, i))
  {
    assert Sound(q[i]);
    ProfileBounds(q, i);
    StartReachesNext(q, i);
  }

  // ---------- Main results about one plan ----------

  /** Each move ends at the speed at which the next one starts. */
  lemma PlanIsContinuous(q: seq<Limits>, i: nat)
    requires Chain(q) && i + 1 < |q| && !Delayed(q, 0)
    ensures PlanAt(q, i).end == PlanAt(q, i + 1).start
  {
    PlanUnderCap(q, i);
    PlanUnderCap(q, i + 1);
    if !Delayed(q, i + 1) && (IsPeak(q, i) || Delayed(q, i)) {
      AfterPeakIsAnchored(q, i);
      AnchoredSpeeds(q, i + 1);
      CapAboveSmoothed(q, i);
      PeakCruisePositive(q, i + 1);
    }
  }

  lemma PlanStartsAndEndsAtRest(q: seq<Limits>)
    requires Chain(q) && 0 < |q| && q[0].maxStart == 0.0
    ensures !Delayed(q, 0)
    ensures PlanAt(q, 0).start == 0.0
    ensures PlanAt(q, |q| - 1).end == 0.0
  {
    ProfileBounds(q, 0);
    ProfileBounds(q, 1);
    assert Sound(q[0]);
    PlanUnderCap(q, 0);
    PlanUnderCap(q, |q| - 1);
    CapAboveSmoothed(q, 0);
    CapAboveSmoothed(q, |q| - 1);
  }

  /** The move can be driven: its acceleration and deceleration fit its length. */
  ghost predicate Feasible(m: Limits, p: Junction) {
    && 0.0 <= p.start <= m.maxStart
    && p.start <= p.cruise
    && 0.0 <= p.end <= p.cruise
    && 0.0 < p.cruise <= m.maxCruise
    && (p.cruise - p.start) + (p.cruise - p.end) <= m.delta
  }

  lemma PlanIsFeasible(q: seq<Limits>, i: nat)
    requires Chain(q) && i < |q| && !Delayed(q, 0)
    ensures Feasible(q[i], PlanAt(q, i))
  {
    assert Sound(q[i]);
    ProfileBounds(q, i);
    ProfileBounds(q, i + 1);
    StartReachesNext(q, i);
    CapAboveSmoothed(q, i);
  }

  /** A move planned on its own goes from rest to rest and as fast as its limit and the reduced acceleration allow. */
  lemma AloneCruise(m: Limits)
    requires Sound(m) && m.maxStart == 0.0
    ensures Plan([m])[0] == Junction(0.0, Min(m.maxCruise, m.smoothDelta * 0.5), 0.0)
  {
    var q := [m];
    assert StartV2(q, 1) == 0.0 && SmoothedV2(q, 1) == 0.0;
    assert StartV2(q, 0) == 0.0 && SmoothedV2(q, 0) == 0.0;
    assert IsPeak(q, 0);
  }

  // ---------- One visit of the backward pass ----------

  /** All values of the backward pass over a queue, tabulated by position. */
  datatype Profile = Profile(
    start: seq<real>,
    smoothed: seq<real>,
    peak: seq<real>,
    delayed: seq<bool>,
    cap: seq<real>,
    plan: seq<Junction>,
    cut: seq<nat>)

  ghost predicate IsProfile(p: Profile, q: seq<Limits>) {
    && |p.start| == |p.smoothed| == |p.peak| == |p.cut| == |q| + 1
    && |p.delayed| == |p.cap| == |p.plan| == |q|
    && (forall i {:trigger StartV2(q, i)} :: 0 <= i <= |q| ==> p.start[i] == StartV2(q, i))
    && (forall i {:trigger SmoothedV2(q, i)} :: 0 <= i <= |q| ==> p.smoothed[i] == SmoothedV2(q, i))
    && (forall i {:trigger PeakCruise(q, i)} :: 0 <= i <= |q| ==> p.peak[i] == PeakCruise(q, i))
    && (forall i {:trigger Delayed(q, i)} :: 0 <= i < |q| ==> p.delayed[i] == Delayed(q, i))
    && (forall i {:trigger Cap(q, i)} :: 0 <= i < |q| ==> p.cap[i] == Cap(q, i))
    && (forall i {:trigger PlanAt(q, i)} :: 0 <= i < |q| ==> p.plan[i] == PlanAt(q, i))
    && (forall i {:trigger CutBelow(q, i)} :: 0 <= i <= |q| ==> p.cut[i] == CutBelow(q, i))
  }

  lemma ProfileOf(q: seq<Limits>) returns (p: Profile)
    ensures IsProfile(p, q) && p.plan == Plan(q)
  {
    p := Profile(seq(|q| + 1, i requires 0 <= i <= |q| => StartV2(q, i)),
                 seq(|q| + 1, i requires 0 <= i <= |q| => SmoothedV2(q, i)),
                 seq(|q| + 1, i requires 0 <= i <= |q| => PeakCruise(q, i)),
                 seq(|q|, i requires 0 <= i < |q| => Delayed(q, i)),
                 seq(|q|, i requires 0 <= i < |q| => Cap(q, i)),
                 Plan(q),
                 seq(|q| + 1, i requires 0 <= i <= |q| => CutBelow(q, i)));
  }

  /** The profile before the first visit. */
  lemma VisitNone(q: seq<Limits>, p: Profile)
    requires IsProfile(p, q)
    ensures p.start[|q|] == 0.0 && p.smoothed[|q|] == 0.0 && p.peak[|q|] == 0.0 && p.cut[|q|] == LazyCount(q)
    ensures p.cut[0] == 0
  {
    assert StartV2(q, |q|) == 0.0 && SmoothedV2(q, |q|) == 0.0 && PeakCruise(q, |q|) == 0.0;
    assert CutBelow(q, |q|) == LazyCount(q) && CutBelow(q, 0) == 0;
  }

  /** The speeds that the visit of position i computes from those left by position i + 1. */
  lemma VisitSpeeds(q: seq<Limits>, p: Profile, i: nat)
    requires IsProfile(p, q) && i < |q|
    ensures p.start[i] == Min(q[i].maxStart, p.start[i+1] + q[i].delta)
    ensures p.smoothed[i] == Min(q[i].maxSmoothed, p.smoothed[i+1] + q[i].smoothDelta)
    ensures p.delayed[i] <==> p.smoothed[i] >= p.smoothed[i+1] + q[i].smoothDelta
  {
    assert p.start[i] == StartV2(q, i) && p.start[i+1] == StartV2(q, i + 1);
    assert p.smoothed[i] == SmoothedV2(q, i) && p.smoothed[i+1] == SmoothedV2(q, i + 1);
    assert p.delayed[i] == Delayed(q, i);
  }

  /** A delayed move changes neither peak nor cut, and cruises at the cap left by the move before it. */
  lemma VisitDelayed(q: seq<Limits>, p: Profile, i: nat)
    requires Chain(q) && IsProfile(p, q) && i < |q| && !Delayed(q, 0) && p.delayed[i]
    ensures 0 < i && p.peak[i] == p.peak[i+1] && p.cut[i] == p.cut[i+1]
    ensures p.cap[i] == Min(p.cap[i-1], p.start[i])
    ensures p.plan[i] == Junction(Min(p.start[i], p.cap[i]), p.cap[i], Min(p.start[i+1], p.cap[i]))
    ensures Feasible(q[i], p.plan[i])
  {
    assert Delayed(q, i);
    PlanIsFeasible(q, i);
    assert p.peak[i] == PeakCruise(q, i) && p.peak[i+1] == PeakCruise(q, i + 1);
    assert p.cut[i] == CutBelow(q, i) && p.cut[i+1] == CutBelow(q, i + 1);
    assert p.cap[i] == Cap(q, i) && p.cap[i-1] == Cap(q, i - 1);
    assert p.start[i] == StartV2(q, i) && p.start[i+1] == StartV2(q, i + 1);
    assert p.plan[i] == PlanAt(q, i);
  }

  /** A move that is not delayed may be a peak, and then it may be the place to cut. */
  lemma VisitPeak(q: seq<Limits>, p: Profile, i: nat)
    requires IsProfile(p, q) && i < |q| && !p.delayed[i]
    ensures var peak := p.smoothed[i] + q[i].smoothDelta > p.smoothed[i+1] || (i + 1 < |q| && p.delayed[i+1]);
            && p.peak[i] == (if peak then
                               Min(q[i].maxCruise, (p.smoothed[i] + (p.smoothed[i+1] + q[i].smoothDelta)) * 0.5)
                             else p.peak[i+1])
            && p.cut[i+1] == (if peak && p.peak[i+1] != 0.0 then i else p.cut[i])
    ensures p.cap[i] == p.peak[i]
  {
    assert !Delayed(q, i);
    assert p.smoothed[i] == SmoothedV2(q, i) && p.smoothed[i+1] == SmoothedV2(q, i + 1);
    assert p.peak[i] == PeakCruise(q, i) && p.peak[i+1] == PeakCruise(q, i + 1);
    assert p.cut[i] == CutBelow(q, i) && p.cut[i+1] == CutBelow(q, i + 1);
    assert p.cap[i] == Cap(q, i);
    assert i + 1 < |q| ==> p.delayed[i+1] == Delayed(q, i + 1);
  }

  /** The speeds of a move that is not delayed. */
  lemma VisitDirect(q: seq<Limits>, p: Profile, i: nat)
    requires Chain(q) && IsProfile(p, q) && i < |q| && !Delayed(q, 0) && !p.delayed[i]
    ensures var cruise := Min(Min((p.start[i] + (p.start[i+1] + q[i].delta)) * 0.5, q[i].maxCruise), p.peak[i]);
            p.plan[i] == Junction(Min(p.start[i], cruise), cruise, Min(p.start[i+1], cruise))
    ensures Feasible(q[i], p.plan[i])
  {
    assert !Delayed(q, i);
    PlanIsFeasible(q, i);
    assert p.start[i] == StartV2(q, i) && p.start[i+1] == StartV2(q, i + 1);
    assert p.peak[i] == PeakCruise(q, i);
    assert p.plan[i] == PlanAt(q, i);
  }

  // ---------- Extending a queue ----------

  lemma {:induction false} ProfilesGrow(q: seq<Limits>, q': seq<Limits>, i: nat)
    requires Chain(q') && q <= q' && i <= |q|
    ensures StartV2(q, i) <= StartV2(q', i) && SmoothedV2(q, i) <= SmoothedV2(q', i)
    decreases |q| - i
  {
    if i < |q| {
      ProfilesGrow(q, q', i + 1);
    } else {
      ProfileBounds(q', i);
    }
  }

  /** Speeds at or below an anchored junction cannot change any more. */
  lemma {:induction false} AnchorFixes(q: seq<Limits>, q': seq<Limits>, j: nat, i: nat)
    requires Chain(q) && Chain(q') && q <= q' && Anchored(q, j) && i <= j
    ensures Anchored(q', j)
    ensures StartV2(q, i) == StartV2(q', i) && SmoothedV2(q, i) == SmoothedV2(q', i)
    ensures Delayed(q, i) == Delayed(q', i)
    decreases j - i
  {
    if i == j {
      AnchoredSpeeds(q, j);
      ProfilesGrow(q, q', j + 1);
      AnchoredSpeeds(q', j);
    } else {
      AnchorFixes(q, q', j, i + 1);
    }
  }

  /** A position at which a queue may be cut: a peak followed, after its delayed moves, by an anchor. */
  ghost predicate Settled(q: seq<Limits>, i: nat, j: nat) {
    && i < j < |q|
    && IsPeak(q, i)
    && Anchored(q, j)
  }

  lemma {:induction false} FirstSettled(q: seq<Limits>, i: nat, k: nat) returns (j: nat)
    requires Chain(q) && i < k <= |q|
    requires forall x :: i < x < k ==> Delayed(q, x)
    requires IsPeak(q, i)
    requires exists x :: k <= x < |q| && !Delayed(q, x)
    ensures k <= j < |q| && Anchored(q, j)
    decreases |q| - k
  {
    if Delayed(q, k) {
      j := FirstSettled(q, i, k + 1);
    } else {
      j := k;
      AfterPeakIsAnchored(q, k - 1);
    }
  }

  lemma {:induction false} SettledStays(q: seq<Limits>, q': seq<Limits>, i: nat, j: nat)
    requires Chain(q) && Chain(q') && q <= q' && Settled(q, i, j)
    ensures Settled(q', i, j)
    ensures PeakCruise(q, i) == PeakCruise(q', i)
  {
    AnchorFixes(q, q', j, i);
    AnchorFixes(q, q', j, i + 1);
  }

  lemma {:induction false} PeaksBelowFixed(q: seq<Limits>, q': seq<Limits>, i: nat, j: nat, x: nat)
    requires Chain(q) && Chain(q') && q <= q' && Settled(q, i, j) && x <= i
    ensures IsPeak(q, x) == IsPeak(q', x) && PeakCruise(q, x) == PeakCruise(q', x)
    decreases i - x
  {
    if x == i {
      SettledStays(q, q', i, j);
    } else {
      PeaksBelowFixed(q, q', i, j, x + 1);
      AnchorFixes(q, q', j, x);
      AnchorFixes(q, q', j, x + 1);
    }
  }

  lemma {:induction false} CapsBelowFixed(q: seq<Limits>, q': seq<Limits>, i: nat, j: nat, x: nat)
    requires Chain(q) && Chain(q') && q <= q' && Settled(q, i, j) && x <= i
    ensures Cap(q, x) == Cap(q', x)
  {
    AnchorFixes(q, q', j, x);
    PeaksBelowFixed(q, q', i, j, x);
    if Delayed(q, x) && x > 0 {
      CapsBelowFixed(q, q', i, j, x - 1);
    }
  }

  /** Whatever is queued later, the plan below a settled cut stays as it is. */
  lemma SettledPlanFixed(q: seq<Limits>, q': seq<Limits>, i: nat, j: nat, x: nat)
    requires Chain(q) && Chain(q') && q <= q' && Settled(q, i, j) && x < i
    ensures PlanAt(q, x) == PlanAt(q', x)
  {
    AnchorFixes(q, q', j, x);
    AnchorFixes(q, q', j, x + 1);
    PeaksBelowFixed(q, q', i, j, x);
    CapsBelowFixed(q, q', i, j, x);
  }

  lemma {:induction false} CutIsPeak(q: seq<Limits>, i: nat)
    requires i <= |q|
    ensures var c := CutBelow(q, i);
            c > 0 ==> c < i && IsPeak(q, c) && PeakCruise(q, c + 1) != 0.0
  {
    if i > 0 {
      CutIsPeak(q, i - 1);
    }
  }

  /** A lazy flush cuts at a settled position and leaves at least two moves queued. */
  lemma LazyCutIsSettled(q: seq<Limits>) returns (j: nat)
    requires Chain(q) && LazyCount(q) > 0
    ensures Settled(q, LazyCount(q), j)
    ensures LazyCount(q) + 2 <= |q|
  {
    var c := LazyCount(q);
    CutIsPeak(q, |q|);
    NoPeakYet(q, c + 1);
    j := FirstSettled(q, c, c + 1);
  }

  lemma LazyLeavesMoves(q: seq<Limits>)
    requires Chain(q)
    ensures q != [] ==> LazyCount(q) < |q|
    ensures LazyCount(q) > 0 ==> LazyCount(q) + 2 <= |q|
  {
    if LazyCount(q) > 0 {
      var j := LazyCutIsSettled(q);
    }
  }

  /** Moves committed by a lazy flush keep their speeds in every later plan of a longer queue. */
  lemma LazyCommitIsFinal(q: seq<Limits>, later: seq<Limits>, x: nat)
    requires Chain(q + later) && x < LazyCount(q)
    ensures PlanAt(q, x) == PlanAt(q + later, x)
  {
    var q' := q + later;
    assert Chain(q) by {
      forall i | 0 <= i < |q| ensures Sound(q[i]) { assert q[i] == q'[i]; }
      forall i | 0 < i < |q| ensures LinkedAt(q, i) { assert LinkedAt(q', i); }
    }
    var j := LazyCutIsSettled(q);
    SettledPlanFixed(q, q', LazyCount(q), j, x);
  }

  // ---------- Removing a committed prefix ----------

  lemma {:induction false} ProfilesShift(q: seq<Limits>, d: nat, i: nat)
    requires d + i <= |q|
    ensures StartV2(q[d..], i) == StartV2(q, d + i)
    ensures SmoothedV2(q[d..], i) == SmoothedV2(q, d + i)
    ensures PeakCruise(q[d..], i) == PeakCruise(q, d + i)
    ensures d + i < |q| ==> Delayed(q[d..], i) == Delayed(q, d + i) && IsPeak(q[d..], i) == IsPeak(q, d + i)
    decreases |q| - i
  {
    if d + i < |q| {
      ProfilesShift(q, d, i + 1);
      if d + i + 1 < |q| {
        ProfilesShift(q, d, i + 2);
      }
    }
  }

  lemma {:induction false} CapsShift(q: seq<Limits>, d: nat, i: nat)
    requires d + i < |q| && !Delayed(q, d)
    ensures Cap(q[d..], i) == Cap(q, d + i)
  {
    ProfilesShift(q, d, i);
    if Delayed(q, d + i) {
      CapsShift(q, d, i - 1);
    }
  }

  /** Planning what is left after a cut gives the same speeds as planning everything. */
  lemma PlanShift(q: seq<Limits>, d: nat, i: nat)
    requires d + i < |q| && !Delayed(q, d)
    ensures PlanAt(q[d..], i) == PlanAt(q, d + i)
  {
    ProfilesShift(q, d, i);
    ProfilesShift(q, d, i + 1);
    CapsShift(q, d, i);
  }

  // ---------- Whole runs ----------

  /**
   The state of a run: history is every move queued since the queue was last empty,
   committed the junctions already handed out, queue the moves still waiting.
   */
  ghost predicate InStep(history: seq<Limits>, queue: seq<Limits>, committed: seq<Junction>) {
    && Chain(history)
    && (|history| > 0 ==> history[0].maxStart == 0.0)
    && |committed| <= |history|
    && queue == history[|committed|..]
    && committed == Plan(history)[..|committed|]
    && (committed != [] ==> exists j :: Settled(history, |committed|, j))
  }

  lemma ChainSuffix(q: seq<Limits>, d: nat)
    requires Chain(q) && d <= |q|
    ensures Chain(q[d..])
  {
    forall i | 0 < i < |q[d..]| ensures LinkedAt(q[d..], i) { assert LinkedAt(q, d + i); }
  }

  /** The first waiting move is never delayed, so every delayed move finds its peak. */
  lemma InStepQueue(history: seq<Limits>, queue: seq<Limits>, committed: seq<Junction>)
    requires InStep(history, queue, committed)
    ensures Chain(queue)
    ensures queue != [] ==> !Delayed(history, |committed|) && !Delayed(queue, 0)
    ensures queue != [] ==> forall i :: 0 <= i < |queue| ==> PlanAt(queue, i) == PlanAt(history, |committed| + i)
  {
    var d := |committed|;
    ChainSuffix(history, d);
    if queue != [] {
      if d == 0 {
        PlanStartsAndEndsAtRest(history);
      }
      ProfilesShift(history, d, 0);
      forall i | 0 <= i < |queue| ensures PlanAt(queue, i) == PlanAt(history, d + i) {
        PlanShift(history, d, i);
      }
    }
  }

  lemma InStepAdd(history: seq<Limits>, queue: seq<Limits>, committed: seq<Junction>, m: Limits)
    requires InStep(history, queue, committed)
    requires Chain(history + [m])
    requires history == [] ==> m.maxStart == 0.0
    ensures InStep(history + [m], queue + [m], committed)
  {
    var h' := history + [m];
    var d := |committed|;
    if committed != [] {
      var j :| Settled(history, d, j);
      SettledStays(history, h', d, j);
      forall x | 0 <= x < d ensures Plan(history)[x] == Plan(h')[x] {
        SettledPlanFixed(history, h', d, j, x);
      }
    }
  }

  lemma SettledShift(q: seq<Limits>, d: nat, i: nat, j: nat)
    requires d <= |q| && Settled(q[d..], i, j)
    ensures Settled(q, d + i, d + j)
  {
    ProfilesShift(q, d, i);
    ProfilesShift(q, d, j);
  }

  lemma InStepLazy(history: seq<Limits>, queue: seq<Limits>, committed: seq<Junction>)
    requires InStep(history, queue, committed)
    ensures var n := LazyCount(queue);
            InStep(history, queue[n..], committed + Plan(queue)[..n])
  {
    InStepQueue(history, queue, committed);
    var n, d := LazyCount(queue), |committed|;
    if n > 0 {
      var j := LazyCutIsSettled(queue);
      SettledShift(history, d, n, j);
      assert committed + Plan(queue)[..n] == Plan(history)[..d + n];
    } else {
      assert committed + Plan(queue)[..n] == committed;
    }
  }

  /** A complete flush finishes the run with exactly the plan of one batch flush of everything. */
  lemma InStepFull(history: seq<Limits>, queue: seq<Limits>, committed: seq<Junction>)
    requires InStep(history, queue, committed)
    ensures committed + Plan(queue) == Plan(history)
  {
    InStepQueue(history, queue, committed);
  }

  /** Every move ends at the speed at which the next one starts. */
  ghost predicate Continuous(trace: seq<Junction>) {
    forall i :: 0 < i < |trace| ==> trace[i-1].end == trace[i].start
  }

  ghost predicate FromRest(trace: seq<Junction>) {
    && Continuous(trace)
    && (trace != [] ==> trace[0].start == 0.0)
  }

  ghost predicate RestToRest(trace: seq<Junction>) {
    && FromRest(trace)
    && (trace != [] ==> trace[|trace|-1].end == 0.0)
  }

  lemma PlanIsSmooth(q: seq<Limits>)
    requires Chain(q) && (q != [] ==> q[0].maxStart == 0.0)
    ensures RestToRest(Plan(q))
  {
    if q != [] {
      PlanStartsAndEndsAtRest(q);
      forall i | 0 < i < |q| ensures Plan(q)[i-1].end == Plan(q)[i].start {
        PlanIsContinuous(q, i - 1);
      }
    }
  }

  lemma JoinAtRest(a: seq<Junction>, b: seq<Junction>)
    requires RestToRest(a)
    ensures FromRest(b) ==> FromRest(a + b)
    ensures RestToRest(b) ==> RestToRest(a + b)
  {
  }

  /** m may follow the moves of q. */
  ghost predicate MayFollow(q: seq<Limits>, m: Limits) {
    && Sound(m)
    && (if q == [] then m.maxStart == 0.0 else Linked(q[|q|-1], m))
  }

  /** The record of a run of the planner. */
  datatype Run = Run(
    history: seq<Limits>,        // all moves added since the queue was last empty
    waiting: seq<Limits>,        // those still in the queue
    committed: seq<Junction>,    // the speeds handed over of the others
    settled: seq<Junction>)      // the speeds handed over before the queue was last empty
  {
    ghost predicate Ok() {
      && InStep(history, waiting, committed)
      && (waiting == [] ==> history == [])
      && RestToRest(settled)
    }

    /** Everything handed over so far, in order. */
    function Trace(): (r: seq<Junction>) {
      settled + committed
    }

    function AfterAdd(m: Limits): (r: Run) {
      this.(history := history + [m], waiting := waiting + [m])
    }

    function AfterLazyFlush(): (r: Run) {
      var n := LazyCount(waiting);
      this.(waiting := waiting[n..], committed := committed + Plan(waiting)[..n])
    }

    function AfterFullFlush(): (r: Run) {
      Run([], [], [], settled + committed + Plan(waiting))
    }
  }

  const NEW_RUN := Run([], [], [], [])

  lemma WaitingCanBePlanned(r: Run)
    requires r.Ok()
    ensures Chain(r.waiting)
    ensures r.waiting != [] ==> !Delayed(r.waiting, 0)
    ensures r.waiting != [] ==> r.history != [] && r.history[|r.history|-1] == r.waiting[|r.waiting|-1]
    ensures r.waiting == [] ==> r.history == []
  {
    InStepQueue(r.history, r.waiting, r.committed);
  }

  lemma WaitingIsSound(r: Run, i: nat)
    requires r.Ok() && i < |r.waiting|
    ensures Sound(r.waiting[i])
  {
  }

  /** The motion handed over has no jump in speed, starts at rest, and ends at rest once nothing waits. */
  lemma TraceIsSmooth(r: Run)
    requires r.Ok()
    ensures FromRest(r.Trace())
    ensures r.waiting == [] ==> RestToRest(r.Trace())
  {
    PlanIsSmooth(r.history);
  }

  lemma ChainAppend(q: seq<Limits>, m: Limits)
    requires Chain(q) && MayFollow(q, m)
    ensures Chain(q + [m])
  {
    var h := q + [m];
    forall i | 0 < i < |h| ensures LinkedAt(h, i) {
      if i < |q| {
        assert LinkedAt(q, i);
      }
    }
  }

  lemma AddKeepsOk(r: Run, m: Limits)
    requires r.Ok() && MayFollow(r.waiting, m)
    ensures r.AfterAdd(m).Ok()
  {
    WaitingCanBePlanned(r);
    ChainAppend(r.history, m);
    InStepAdd(r.history, r.waiting, r.committed, m);
  }

  lemma LazyFlushKeepsOk(r: Run)
    requires r.Ok()
    ensures r.AfterLazyFlush().Ok()
  {
    WaitingCanBePlanned(r);
    LazyLeavesMoves(r.waiting);
    InStepLazy(r.history, r.waiting, r.committed);
  }

  /** A full flush ends the run with exactly the plan of one batch flush of everything added. */
  lemma FullFlushKeepsOk(r: Run)
    requires r.Ok()
    ensures r.AfterFullFlush().Ok()
    ensures r.AfterFullFlush().Trace() == r.settled + Plan(r.history)
  {
    assert InStep(r.history, r.waiting, r.committed) && RestToRest(r.settled);
    hide InStep, RestToRest, Plan, Run.Ok;
    InStepFull(r.history, r.waiting, r.committed);
    HistoryIsSmooth(r.history, r.waiting, r.committed);
    JoinAtRest(r.settled, Plan(r.history));
    Regrouped(r.settled, r.committed, Plan(r.waiting));
    NewRunIsOk(r.settled + Plan(r.history));
  }

  lemma Regrouped<T>(a: seq<T>, b: seq<T>, c: seq<T>)
    ensures a + b + c == a + (b + c)
  {
  }

  lemma HistoryIsSmooth(history: seq<Limits>, queue: seq<Limits>, committed: seq<Junction>)
    requires InStep(history, queue, committed)
    ensures RestToRest(Plan(history))
  {
    hide RestToRest, Plan;
    PlanIsSmooth(history);
  }

  /** A run that has come to rest and has nothing queued. */
  lemma NewRunIsOk(settled: seq<Junction>)
    requires RestToRest(settled)
    ensures Run([], [], [], settled).Ok() && Run([], [], [], settled).Trace() == settled
  {
    hide RestToRest;
    assert Plan([])[..0] == [];
    assert settled + [] == settled;
  }

  datatype Event = Add(move: Limits) | Flush(lazy: bool)

  function Next(r: Run, e: Event): (x: Run) {
    match e
    case Add(m) => r.AfterAdd(m)
    case Flush(true) => r.AfterLazyFlush()
    case Flush(false) => r.AfterFullFlush()
  }

  function FlushCount(waiting: seq<Limits>, lazy: bool): (r: nat) {
    if lazy then LazyCount(waiting) else |waiting|
  }

  lemma FlushKeepsOk(r: Run, lazy: bool)
    requires r.Ok()
    ensures var n := FlushCount(r.waiting, lazy);
            n <= |r.waiting| && Next(r, Flush(lazy)).waiting == r.waiting[n..]
    ensures Next(r, Flush(lazy)).Ok()
  {
    if lazy {
      LazyFlushKeepsOk(r);
    } else {
      FullFlushKeepsOk(r);
    }
  }

  function RunOf(events: seq<Event>): (r: Run) {
    if events == [] then NEW_RUN else Next(RunOf(events[..|events|-1]), events[|events|-1])
  }

  /** The same events without any lazy flush: moves are only planned in complete batches. */
  datatype Batched = Batched(batch: seq<Limits>, planned: seq<Junction>)

  function BatchedOf(events: seq<Event>): (b: Batched) {
    if events == [] then Batched([], [])
    else
      var b := BatchedOf(events[..|events|-1]);
      match events[|events|-1]
      case Add(m) => b.(batch := b.batch + [m])
      case Flush(true) => b
      case Flush(false) => Batched([], b.planned + Plan(b.batch))
  }

  /** Every added move respects the junction with the move added before it. */
  ghost predicate WellLinked(events: seq<Event>) {
    events != [] ==>
      var before, last := events[..|events|-1], events[|events|-1];
      WellLinked(before) && (last.Add? ==> MayFollow(BatchedOf(before).batch, last.move))
  }

  lemma {:induction false} RunMatchesBatches(events: seq<Event>)
    requires WellLinked(events)
    ensures var r, b := RunOf(events), BatchedOf(events);
            r.Ok() && r.history == b.batch && r.settled == b.planned
  {
    if events != [] {
      var before := events[..|events|-1];
      RunMatchesBatches(before);
      var r := RunOf(before);
      match events[|events|-1]
      case Add(m) =>
        WaitingCanBePlanned(r);
        AddKeepsOk(r, m);
      case Flush(lazy) =>
        FlushKeepsOk(r, lazy);
        FullFlushKeepsOk(r);
    } else {
      assert InStep([], [], []);
    }
  }

  /**
   However lazy flushes are interleaved with arriving moves and complete flushes, the
   machine drives the speeds that planning only in complete batches would give: all of
   them once nothing waits, and a prefix of the next batch before that.
   */
  lemma LazyFlushesChangeNothing(events: seq<Event>)
    requires WellLinked(events)
    ensures var r, b := RunOf(events), BatchedOf(events);
            && r.Trace() <= b.planned + Plan(b.batch)
            && (r.waiting == [] ==> r.Trace() == b.planned)
            && FromRest(r.Trace())
  {
    hide Run.Ok, FromRest, RunOf, BatchedOf, WellLinked, Plan, Run.Trace;
    RunMatchesBatches(events);
    TraceIsSmooth(RunOf(events));
    TraceIsPrefix(RunOf(events));
  }

  /** What has been handed over is a part of what planning the moves of the run at once gives. */
  lemma TraceIsPrefix(r: Run)
    requires r.Ok()
    ensures r.Trace() <= r.settled + Plan(r.history)
    ensures r.waiting == [] ==> r.Trace() == r.settled
  {
    hide RestToRest;
  }
}
