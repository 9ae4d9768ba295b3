/**
 Print time tracking of the toolhead: when moves are put into the motion queue and up to
 what time steps are generated.
 */
module PrintTimes {
  import opened RealMath
  import opened Kinematics

  const MIN_KIN_TIME: real := 0.1
  const MOVE_BATCH_TIME: real := 0.5
  const SDS_CHECK_TIME: real := 0.001
  const DRIP_SEGMENT_TIME: real := 0.05
  const DRIP_TIME: real := 0.1
  const NEVER: real := 9999999999999999.0

  datatype Queuing = Main | Flushed | Priming | Drip

  /** How fast a motion is at its end, and where that is. */
  datatype Tip = Tip(v: real, at: Coord)

  /** What the motion queue gets of a planned move. */
  datatype Timed = Timed(phases: Phases, accel: real, distance: real, startPos: Coord, axesR: Coord) {
    function End(): (t: Tip) {
      Tip(phases.endV, startPos.Plus(axesR.Scaled(distance)))
    }

    /** Speed and position at a time after the start of the move. */
    function At(t: real): (tip: Tip) {
      Tip(phases.SpeedAt(accel, t), startPos.Plus(axesR.Scaled(phases.DistanceAt(accel, t))))
    }

    /** The move starts where, and as fast as, a motion ends. */
    predicate Continues(tip: Tip) {
      startPos == tip.at && phases.startV == tip.v
    }

    /** The phases drive the whole move. */
    ghost predicate Valid() {
      phases.Drive(distance, accel)
    }

    function Duration(): (t: real) {
      phases.accelT + phases.cruiseT + phases.decelT
    }
  }

  /** A move takes just so long that it goes from its start to its end, in position and in speed. */
  lemma DurationCovers(m: Timed)
    requires m.Valid()
    ensures 0.0 <= m.Duration()
    ensures m.At(0.0) == Tip(m.phases.startV, m.startPos) && m.At(m.Duration()) == m.End()
  {
    DistanceCovered(m.phases, m.distance, m.accel);
    var none := m.axesR.Scaled(0.0);
    assert none == Coord(0.0, 0.0, 0.0, 0.0);
  }

  lemma DistanceCovered(p: Phases, distance: real, accel: real)
    requires p.Drive(distance, accel)
    ensures p.DistanceAt(accel, 0.0) == 0.0 && p.SpeedAt(accel, 0.0) == p.startV
    ensures var t := p.accelT + p.cruiseT + p.decelT;
            p.DistanceAt(accel, t) == distance && p.SpeedAt(accel, t) == p.endV
  {
  }

  ghost predicate AllValid(moves: seq<Timed>) {
    forall i :: 0 <= i < |moves| ==> moves[i].Valid()
  }

  /** The first move goes on at the tip and every other one where, and as fast as, the one before it ends. */
  ghost predicate Connected(moves: seq<Timed>, tip: Tip) {
    moves != [] ==> moves[0].Continues(tip) && Connected(moves[1..], moves[0].End())
  }

  /** The tip after the moves. */
  function FinalTip(moves: seq<Timed>, tip: Tip): (t: Tip) {
    if moves == [] then tip else FinalTip(moves[1..], moves[0].End())
  }

  /**
   What the toolhead does to the motion queue: steps are generated up to a time, a move is
   put in with the flush delay in force, the position is set, or all moves are dropped.
   */
  datatype Action =
    | Generate(time: real)
    | Append(start: real, end: real, delay: real, move: Timed)
    | Place(at: Coord)
    | Clear

  /** The time up to which steps have been generated. */
  function Generated(log: seq<Action>): (r: real) {
    if log == [] then 0.0
    else if log[|log|-1].Generate? then log[|log|-1].time
    else Generated(log[..|log|-1])
  }

  /** The end of the last move in the queue. */
  function QueuedUntil(log: seq<Action>): (r: real) {
    if log == [] || log[|log|-1].Clear? then 0.0
    else if log[|log|-1].Append? then log[|log|-1].end
    else QueuedUntil(log[..|log|-1])
  }

  /**
   Step generation never goes backward; every move starts behind the one before it, and at
   least the flush delay after the time up to which steps have been generated.
   */
  ghost predicate Causal(log: seq<Action>) {
    log != [] ==>
      var before := log[..|log|-1];
      Causal(before) && InTime(Generated(before), QueuedUntil(before), log[|log|-1])
  }

  /** One more action comes in time, when steps are generated up to a time and the queue ends at until. */
  ghost predicate InTime(generated: real, until: real, a: Action) {
    match a
    case Generate(t) => generated <= t
    case Append(s, e, d, m) => generated + d <= s && until <= s <= e == s + m.Duration()
    case _ => true
  }

  /** The tip of the motion after one more action. */
  function TipAfter(tip: Tip, a: Action): (t: Tip) {
    match a
    case Append(_, _, _, m) => m.End()
    case Place(at) => tip.(at := at)
    case Clear => tip.(v := 0.0)
    case Generate(_) => tip
  }

  /** Where the moves put in so far end, and how fast. */
  function TipOf(log: seq<Action>): (t: Tip) {
    if log == [] then Tip(0.0, ORIGIN) else TipAfter(TipOf(log[..|log|-1]), log[|log|-1])
  }

  /** All moves put in since moves were dropped. */
  function Motion(log: seq<Action>): (m: seq<Timed>) {
    if log == [] || log[|log|-1].Clear? then []
    else
      var before := Motion(log[..|log|-1]);
      match log[|log|-1]
      case Append(_, _, _, m) => before + [m]
      case _ => before
  }

  /**
   Every move starts where, and as fast as, the one before it ends; there is a pause between them, or
   the position is set, only at rest.
   */
  ghost predicate Smooth(log: seq<Action>) {
    log != [] ==>
      var before := log[..|log|-1];
      Smooth(before) && GoesOn(TipOf(before), QueuedUntil(before), log[|log|-1])
  }

  /** One more action goes on at the tip, when the queue ends at until. */
  ghost predicate GoesOn(tip: Tip, until: real, a: Action) {
    match a
    case Append(s, _, _, m) => m.Continues(tip) && (until < s ==> tip.v == 0.0)
    case Place(_) => tip.v == 0.0
    case _ => true
  }

  lemma CausalAdd(log: seq<Action>, a: Action)
    requires Causal(log) && Smooth(log)
    requires InTime(Generated(log), QueuedUntil(log), a) && GoesOn(TipOf(log), QueuedUntil(log), a)
    ensures Causal(log + [a]) && Smooth(log + [a])
    ensures Generated(log + [a]) == if a.Generate? then a.time else Generated(log)
    ensures QueuedUntil(log + [a]) == if a.Append? then a.end else if a.Clear? then 0.0 else QueuedUntil(log)
    ensures TipOf(log + [a]) == TipAfter(TipOf(log), a)
    ensures Motion(log + [a])
         == if a.Append? then Motion(log) + [a.move] else if a.Clear? then [] else Motion(log)
  {
    assert (log + [a])[..|log|] == log;
  }

  /** The entries for moves that follow each other without a gap from time t on. */
  function Appends(moves: seq<Timed>, t: real, delay: real): (log: seq<Action>)
    ensures |log| == |moves|
  {
    if moves == [] then []
    else
      var e := t + moves[0].Duration();
      [Append(t, e, delay, moves[0])] + Appends(moves[1..], e, delay)
  }

  function EndOf(moves: seq<Timed>, t: real): (r: real) {
    if moves == [] then t else EndOf(moves[1..], t + moves[0].Duration())
  }

  /** How long the moves take. */
  function TotalTime(moves: seq<Timed>): (t: real) {
    if moves == [] then 0.0 else moves[0].Duration() + TotalTime(moves[1..])
  }

  lemma {:induction false} EndOfTotal(moves: seq<Timed>, t: real)
    ensures EndOf(moves, t) == t + TotalTime(moves)
  {
    if moves != [] {
      EndOfTotal(moves[1..], t + moves[0].Duration());
    }
  }

  /** What the first of the moves leaves for the others. */
  lemma FirstMove(moves: seq<Timed>, tip: Tip, t: real, delay: real)
    requires moves != [] && AllValid(moves) && Connected(moves, tip)
    ensures var m := moves[0]; var w, e := m.End(), t + m.Duration();
            && m.Valid() && t <= e && m.Continues(tip)
            && AllValid(moves[1..]) && Connected(moves[1..], w) && FinalTip(moves, tip) == FinalTip(moves[1..], w)
            && EndOf(moves, t) == EndOf(moves[1..], e)
            && Appends(moves, t, delay) == [Append(t, e, delay, m)] + Appends(moves[1..], e, delay)
  {
  }

  /** The first of the moves is put in and the others can follow. */
  lemma AppendsOne(log: seq<Action>, moves: seq<Timed>, t: real, delay: real)
    requires Causal(log) && Smooth(log)
    requires moves != [] && AllValid(moves) && Connected(moves, TipOf(log))
    requires Generated(log) + delay <= t && QueuedUntil(log) <= t && (QueuedUntil(log) < t ==> TipOf(log).v == 0.0)
    ensures var e := t + moves[0].Duration(); var l, rest := log + [Append(t, e, delay, moves[0])], moves[1..];
            && t <= e && Causal(l) && Smooth(l) && Generated(l) == Generated(log) && QueuedUntil(l) == e
            && Motion(l) + rest == Motion(log) + moves
            && AllValid(rest) && Connected(rest, TipOf(l)) && FinalTip(rest, TipOf(l)) == FinalTip(moves, TipOf(log))
            && EndOf(rest, e) == EndOf(moves, t) && l + Appends(rest, e, delay) == log + Appends(moves, t, delay)
  {
    hide Causal, Smooth, Generated, QueuedUntil, TipOf, Motion;
    hide Connected, FinalTip, EndOf, Appends, AllValid, Timed.Valid, Timed.Duration, Timed.End;
    var e := t + moves[0].Duration();
    var entry := Append(t, e, delay, moves[0]);
    FirstMove(moves, TipOf(log), t, delay);
    CausalAdd(log, entry);
    assert Motion(log) + [moves[0]] + moves[1..] == Motion(log) + moves;
    assert (log + [entry]) + Appends(moves[1..], e, delay) == log + ([entry] + Appends(moves[1..], e, delay));
  }

  /** The k-th move starts when all before it are over. */
  lemma {:induction false} AppendsAt(moves: seq<Timed>, t: real, delay: real, k: nat)
    requires k < |moves|
    ensures var start := t + TotalTime(moves[..k]);
            Appends(moves, t, delay)[k] == Append(start, start + moves[k].Duration(), delay, moves[k])
  {
    hide Timed.Duration;
    if k == 0 {
      assert moves[..0] == [];
    } else {
      AppendsAt(moves[1..], t + moves[0].Duration(), delay, k - 1);
      assert moves[..k][1..] == moves[1..][..k-1];
    }
  }

  lemma NoMoves(moves: seq<Timed>, tip: Tip, t: real, delay: real)
    requires moves == []
    ensures FinalTip(moves, tip) == tip && EndOf(moves, t) == t && Appends(moves, t, delay) == []
  {
  }

  /** In a causal log the times of step generation are in order, however far apart. */
  lemma {:induction false} GeneratedInOrder(log: seq<Action>, i: nat, j: nat)
    requires Causal(log) && i < j < |log| && log[i].Generate? && log[j].Generate?
    ensures log[i].time <= log[j].time
    decreases |log|
  {
    var before := log[..|log|-1];
    if j < |log| - 1 {
      GeneratedInOrder(before, i, j);
    } else {
      GeneratedBounds(before, i);
    }
  }

  /** No move starts before, or within its delay of, any time up to which steps were generated earlier. */
  lemma {:induction false} AppendedLater(log: seq<Action>, i: nat, j: nat)
    requires Causal(log) && i < j < |log| && log[i].Generate? && log[j].Append?
    ensures log[i].time + log[j].delay <= log[j].start
    decreases |log|
  {
    var before := log[..|log|-1];
    if j < |log| - 1 {
      AppendedLater(before, i, j);
    } else {
      GeneratedBounds(before, i);
    }
  }

  /** Nothing was put in or dropped between the positions i and j. */
  ghost predicate NothingBetween(log: seq<Action>, i: nat, j: nat)
    requires j <= |log|
  {
    forall k :: i < k < j ==> log[k].Generate?
  }

  /** Of two moves put in one after the other the second one goes on when, where and as fast as the first one ends. */
  lemma MovesConnect(log: seq<Action>, i: nat, j: nat)
    requires Causal(log) && Smooth(log)
    requires i < j < |log| && log[i].Append? && log[j].Append? && NothingBetween(log, i, j)
    ensures var m, n := log[i].move, log[j].move;
            && log[i].end <= log[j].start && n.phases.startV == m.phases.endV
            && n.startPos == m.startPos.Plus(m.axesR.Scaled(m.distance))
    ensures log[i].end < log[j].start ==> log[i].move.phases.endV == 0.0
  {
    PartIsSmooth(log, j + 1);
    LastAppend(log, i, j);
    assert log[..j+1][..j] == log[..j];
  }

  lemma {:induction false} PartIsSmooth(log: seq<Action>, n: nat)
    requires Causal(log) && Smooth(log) && n <= |log|
    ensures Causal(log[..n]) && Smooth(log[..n])
    decreases |log|
  {
    if n < |log| {
      PartIsSmooth(log[..|log|-1], n);
      assert log[..|log|-1][..n] == log[..n];
    } else {
      assert log[..n] == log;
    }
  }

  lemma {:induction false} LastAppend(log: seq<Action>, i: nat, j: nat)
    requires i < j <= |log| && log[i].Append? && NothingBetween(log, i, j)
    ensures QueuedUntil(log[..j]) == log[i].end && TipOf(log[..j]) == log[i].move.End()
    decreases j
  {
    if j > i + 1 {
      LastAppend(log, i, j - 1);
      assert log[..j][..j-1] == log[..j-1];
    }
  }

  lemma {:induction false} GeneratedBounds(log: seq<Action>, i: nat)
    requires Causal(log) && i < |log| && log[i].Generate?
    ensures log[i].time <= Generated(log)
    decreases |log|
  {
    var before := log[..|log|-1];
    if i < |log| - 1 {
      GeneratedBounds(before, i);
    }
  }

  /** The largest of the delays that step generators have asked for, and at least the least one. */
  method LongestDelay(times: seq<real>) returns (d: real)
    ensures d >= SDS_CHECK_TIME && (d == SDS_CHECK_TIME || d in times)
    ensures forall t :: t in times ==> t <= d
  {
    d := SDS_CHECK_TIME;
    var k := 0;
    while k < |times|
      invariant 0 <= k <= |times| && d >= SDS_CHECK_TIME
      invariant forall j :: 0 <= j < k ==> times[j] <= d
      invariant d == SDS_CHECK_TIME || d in times
    {
      d := Max(d, times[k]);
      k := k + 1;
    }
  }

  /** The list of delays without one occurrence of d. */
  method RemoveDelay(times: seq<real>, d: real) returns (left: seq<real>)
    requires d in times
    ensures multiset(left) == multiset(times) - multiset{d}
  {
    var i := 0;
    while times[i] != d
      invariant 0 <= i < |times| && d !in times[..i]
      decreases |times| - i
    {
      assert times[..i+1] == times[..i] + [times[i]];
      i := i + 1;
    }
    assert times == times[..i] + [d] + times[i+1..];
    left := times[..i] + times[i+1..];
  }

  /** The list of delays with one entry changed; a delay of zero stands for no entry. */
  method ChangeDelays(times: seq<real>, delay: real, oldDelay: real) returns (r: seq<real>)
    requires oldDelay != 0.0 ==> oldDelay in times
    ensures delay != 0.0 ==> delay in r
    ensures multiset(r) == multiset(times)
                           - (if oldDelay != 0.0 then multiset{oldDelay} else multiset{})
                           + (if delay != 0.0 then multiset{delay} else multiset{})
  {
    r := times;
    if oldDelay != 0.0 {
      r := RemoveDelay(r, oldDelay);
    }
    if delay != 0.0 {
      r := r + [delay];
      assert r[|r|-1] == delay;
    }
  }

  /** When queued moves start, the print time after they are flushed, and the time for the next command. */
  datatype Settled = Settled(start: real, flushed: real, time: real)

  /** After some actions only steps have been generated. */
  ghost predicate OnlyGenerates(before: seq<Action>, after: seq<Action>) {
    before <= after && forall i :: |before| <= i < |after| ==> after[i].Generate?
  }

  lemma GeneratesMore(a: seq<Action>, b: seq<Action>, c: seq<Action>)
    requires OnlyGenerates(a, b) && OnlyGenerates(b, c)
    ensures OnlyGenerates(a, c)
  {
    assert a == c[..|a|];
  }

  lemma GeneratesNone(log: seq<Action>)
    ensures OnlyGenerates(log, log)
  {
  }

  /** When the buffer is checked next, up to when an idle flush went, and how often moves came too late after one. */
  datatype Stall = Stall(needCheck: real, idleFlushPrintTime: real, count: nat)

  /** The estimated print times at the start of a wait and after every pause in it. */
  type Estimates = nat -> real

  ghost predicate Reaches(estimates: Estimates, time: real) {
    exists k: nat :: estimates(k) >= time
  }

  /** The machine catches up with any time in the end. */
  ghost predicate Advances(estimates: Estimates) {
    forall time: real :: Reaches(estimates, time)
  }

  /** What the wait loop of a drip move sees: whether the trigger has completed, and the estimated print time. */
  datatype Seen = Seen(done: bool, estPrintTime: real)

  /**
   The print time that a drip move has reached after the given observations: it goes on by one
   segment unless it is more than ahead before the machine and may wait.
   */
  function Dripped(start: real, end: real, ahead: real, canPause: bool, observed: seq<Seen>): (t: real) {
    if observed == [] then start
    else
      var t := Dripped(start, end, ahead, canPause, observed[..|observed|-1]);
      if canPause && t - observed[|observed|-1].estPrintTime > ahead then t else Min(t + DRIP_SEGMENT_TIME, end)
  }

  /** None of the clocks read is later. */
  ghost predicate ClocksWithin(observed: seq<Seen>, clock: real) {
    forall k :: 0 <= k < |observed| ==> observed[k].estPrintTime <= clock
  }

  /** A drip move never gets further ahead of the clocks read than allowed, and one segment. */
  lemma {:induction false} DripStaysNear(start: real, end: real, ahead: real, observed: seq<Seen>, clock: real)
    requires ClocksWithin(observed, clock)
    ensures Dripped(start, end, ahead, true, observed) <= Max(start, clock + ahead + DRIP_SEGMENT_TIME)
  {
    if observed != [] {
      DripStaysNear(start, end, ahead, observed[..|observed|-1], clock);
    }
  }

  /** Without a need to wait it advances by one segment for every observation. */
  lemma {:induction false} DripAdvances(start: real, end: real, ahead: real, canPause: bool, observed: seq<Seen>)
    requires start <= end
    requires canPause ==> forall k :: 0 <= k < |observed| ==> end - observed[k].estPrintTime <= ahead
    ensures Dripped(start, end, ahead, canPause, observed) == Min(start + |observed| as real * DRIP_SEGMENT_TIME, end)
  {
    if observed != [] {
      DripAdvances(start, end, ahead, canPause, observed[..|observed|-1]);
    }
  }

  /** Observations until the trigger has completed; a move that is done before leaves the last ones unused. */
  ghost predicate UntilDone(observed: seq<Seen>) {
    observed != [] && observed[|observed|-1].done
  }

  class ToolHead {
    const moveFlushTime: real
    const bufferTimeStart: real
    const bufferTimeLow: real
    const bufferTimeHigh: real
    var printTime: real
    var state: Queuing
    var stall: Stall
    var kinFlushDelay: real
    var kinFlushTimes: seq<real>
    var lastKinFlushTime: real
    var lastKinMoveTime: real
    ghost var log: seq<Action>

    /** What holds at every moment, even while a drip move is under way. */
    ghost predicate Timely()
      reads this
    {
      && Causal(log) && Smooth(log)
      && kinFlushDelay >= SDS_CHECK_TIME
      && 0.0 <= lastKinFlushTime && 0.0 <= printTime
      && Generated(log) <= Max(lastKinFlushTime, printTime - kinFlushDelay)
    }

    /** Between commands the machine is at rest unless the next move can go on where the last one ends. */
    ghost predicate Valid()
      reads this
    {
      && Timely()
      && QueuedUntil(log) <= printTime
      && (state == Main ==> lastKinFlushTime <= printTime - kinFlushDelay)
      && (state == Flushed ==> stall.needCheck == -1.0)
      && (state != Main || QueuedUntil(log) < printTime ==> TipOf(log).v == 0.0)
    }

    /** The moves can be put into the motion queue one after the other. */
    ghost predicate MayProcess(moves: seq<Timed>)
      reads `log, `state
    {
      && AllValid(moves) && Connected(moves, TipOf(log))
      && (state == Drip ==> FinalTip(moves, TipOf(log)).v == 0.0)
    }

    /** The moves are all that is queued: they end at rest, and no drip move is under way with a queued move. */
    ghost predicate MayFlush(pending: seq<Timed>)
      reads `log, `state
    {
      && AllValid(pending) && Connected(pending, TipOf(log)) && FinalTip(pending, TipOf(log)).v == 0.0
      && (state == Drip ==> pending == [])
    }

    constructor (moveFlushTime: real, bufferTimeStart: real, bufferTimeLow: real, bufferTimeHigh: real)
      ensures Valid() && state == Flushed && printTime == 0.0 && log == []
    {
      this.moveFlushTime, this.bufferTimeStart := moveFlushTime, bufferTimeStart;
      this.bufferTimeLow, this.bufferTimeHigh := bufferTimeLow, bufferTimeHigh;
      printTime, state, stall := 0.0, Flushed, Stall(-1.0, 0.0, 0);
      kinFlushDelay, kinFlushTimes := SDS_CHECK_TIME, [];
      lastKinFlushTime, lastKinMoveTime, log := 0.0, 0.0, [];
    }

    /** The moves put in and the end of the queue are those of the given log. */
    ghost predicate SameMotion(before: seq<Action>)
      reads `log
    {
      QueuedUntil(log) == QueuedUntil(before) && TipOf(log) == TipOf(before) && Motion(log) == Motion(before)
    }

    /** What is generated in batch k of a print time that goes from start to end. */
    ghost function Batch(k: nat, start: real, end: real): (a: Action)
      reads `lastKinFlushTime, `kinFlushDelay
    {
      Generate(Max(lastKinFlushTime, Min(start + (k + 1) as real * MOVE_BATCH_TIME, end) - kinFlushDelay))
    }

    /** Steps have been generated in as few batches as possible. */
    ghost predicate InBatches(before: seq<Action>, start: real, end: real)
      reads `log, `lastKinFlushTime, `kinFlushDelay
    {
      var n := |log| - |before|;
      && n > 0 && before <= log
      && (forall k {:trigger Batch(k, start, end)} :: 0 <= k < n ==> log[|before|+k] == Batch(k, start, end))
      && end <= start + n as real * MOVE_BATCH_TIME
      && (n > 1 ==> start + (n - 1) as real * MOVE_BATCH_TIME < end)
    }

    lemma BatchesGenerate(before: seq<Action>, start: real, end: real)
      requires InBatches(before, start, end)
      ensures OnlyGenerates(before, log)
    {
      forall i | |before| <= i < |log| ensures log[i].Generate? {
        assert log[|before|+(i-|before|)] == Batch(i - |before|, start, end);
      }
    }

    /** Generates steps in batches until the print time has reached the given one. */
    method UpdateMoveTime(nextPrintTime: real)
      requires Timely() && printTime <= nextPrintTime
      modifies `printTime, `log
      ensures Timely() && printTime == nextPrintTime
      ensures SameMotion(old(log)) && OnlyGenerates(old(log), log)
      ensures InBatches(old(log), old(printTime), nextPrintTime)
      ensures Generated(log) == Max(lastKinFlushTime, nextPrintTime - kinFlushDelay)
    {
      hide Causal, Smooth, Generated, QueuedUntil, TipOf, Motion, OnlyGenerates;
      ghost var start := printTime;
      ghost var n := 0;
      while true
        invariant Timely() && start <= printTime <= nextPrintTime
        invariant SameMotion(old(log)) && old(log) <= log && n == |log| - |old(log)|
        invariant printTime == Min(start + n as real * MOVE_BATCH_TIME, nextPrintTime)
        invariant n > 0 ==> start + n as real * MOVE_BATCH_TIME < nextPrintTime
        invariant forall k {:trigger Batch(k, start, nextPrintTime)} :: 0 <= k < n ==>
                    log[|old(log)|+k] == Batch(k, start, nextPrintTime)
        decreases 2.0 * (nextPrintTime - printTime) + 1.0
      {
        printTime := Min(printTime + MOVE_BATCH_TIME, nextPrintTime);
        var sgFlushTime := Max(lastKinFlushTime, printTime - kinFlushDelay);
        assert Generate(sgFlushTime) == Batch(n, start, nextPrintTime);
        CausalAdd(log, Generate(sgFlushTime));
        log := log + [Generate(sgFlushTime)];
        n := n + 1;
        if printTime >= nextPrintTime {
          break;
        }
      }
      BatchesGenerate(old(log), start, nextPrintTime);
    }

    /** A print time that the first move may have: ahead of the machine's clock and of all steps, and no further. */
    ghost predicate StartsAt(start: real, before: real, estPrintTime: real)
      reads `lastKinFlushTime, `kinFlushDelay
    {
      && before <= start && estPrintTime + bufferTimeStart <= start
      && estPrintTime + MIN_KIN_TIME + kinFlushDelay <= start && lastKinFlushTime + kinFlushDelay <= start
      && (|| start == before || start == estPrintTime + bufferTimeStart
          || start == estPrintTime + MIN_KIN_TIME + kinFlushDelay || start == lastKinFlushTime + kinFlushDelay)
    }

    /** Moves the print time ahead of the machine's clock and of all steps generated. */
    method CalcPrintTime(estPrintTime: real)
      requires Timely()
      modifies `printTime
      ensures Timely() && StartsAt(printTime, old(printTime), estPrintTime)
      ensures printTime >= estPrintTime + bufferTimeStart && printTime >= estPrintTime + MIN_KIN_TIME + kinFlushDelay
      ensures printTime >= lastKinFlushTime + kinFlushDelay
    {
      var kinTime := Max(estPrintTime + MIN_KIN_TIME, lastKinFlushTime) + kinFlushDelay;
      var minPrintTime := Max(estPrintTime + bufferTimeStart, kinTime);
      if minPrintTime > printTime {
        printTime := minPrintTime;
      }
    }

    /** Puts the moves into the motion queue one after the other. */
    method AppendMoves(moves: seq<Timed>) returns (nextMoveTime: real)
      requires Timely() && AllValid(moves) && Connected(moves, TipOf(log))
      requires QueuedUntil(log) <= printTime && lastKinFlushTime + kinFlushDelay <= printTime
      requires QueuedUntil(log) < printTime ==> TipOf(log).v == 0.0
      modifies `log
      ensures Timely() && nextMoveTime == EndOf(moves, printTime) >= printTime
      ensures log == old(log) + Appends(moves, printTime, kinFlushDelay)
      ensures QueuedUntil(log) <= nextMoveTime && Generated(log) == old(Generated(log))
      ensures TipOf(log) == FinalTip(moves, old(TipOf(log))) && Motion(log) == old(Motion(log)) + moves
      ensures QueuedUntil(log) < nextMoveTime ==> TipOf(log).v == 0.0
    {
      hide Causal, Smooth, Generated, QueuedUntil, TipOf, Motion;
      hide Connected, FinalTip, EndOf, Appends, AllValid, Timed.Valid, Timed.Duration, Timed.End;
      nextMoveTime := printTime;
      var i := 0;
      assert moves[0..] == moves;
      while i < |moves|
        invariant 0 <= i <= |moves|
        invariant Timely() && printTime <= nextMoveTime && QueuedUntil(log) <= nextMoveTime
        invariant Generated(log) == old(Generated(log))
        invariant AllValid(moves[i..]) && Connected(moves[i..], TipOf(log))
        invariant FinalTip(moves[i..], TipOf(log)) == FinalTip(moves, old(TipOf(log)))
        invariant Motion(log) + moves[i..] == old(Motion(log)) + moves
        invariant QueuedUntil(log) < nextMoveTime ==> TipOf(log).v == 0.0
        invariant EndOf(moves[i..], nextMoveTime) == EndOf(moves, printTime)
        invariant log + Appends(moves[i..], nextMoveTime, kinFlushDelay)
               == old(log) + Appends(moves, printTime, kinFlushDelay)
      {
        var end := nextMoveTime + moves[i].Duration();
        var entry := Append(nextMoveTime, end, kinFlushDelay, moves[i]);
        AppendsOne(log, moves[i..], nextMoveTime, kinFlushDelay);
        assert moves[i..][1..] == moves[i+1..];
        log := log + [entry];
        nextMoveTime := end;
        i := i + 1;
      }
      NoMoves(moves[i..], TipOf(log), nextMoveTime, kinFlushDelay);
    }

    /** How far ahead of the machine a drip move may be. */
    function DripAhead(): (t: real)
      reads `kinFlushDelay
    {
      DRIP_TIME + moveFlushTime + kinFlushDelay
    }

    /**
     Drives a drip move in short segments until it is done or the trigger has completed.  Of the
     observations the first used ones have been made without the trigger being complete.
     */
    method UpdateDripMoveTime(nextPrintTime: real, canPause: bool, observed: seq<Seen>)
      returns (ended: bool, ghost used: nat)
      requires Timely() && printTime <= nextPrintTime && UntilDone(observed)
      modifies `printTime, `log
      ensures Timely() && old(printTime) <= printTime <= nextPrintTime
      ensures used < |observed| && forall k :: 0 <= k < used ==> !observed[k].done
      ensures printTime == Dripped(old(printTime), nextPrintTime, DripAhead(), canPause, observed[..used])
      ensures canPause ==> forall clock :: ClocksWithin(observed[..used], clock) ==>
                printTime <= Max(old(printTime), clock + DRIP_TIME + moveFlushTime + kinFlushDelay + DRIP_SEGMENT_TIME)
      ensures OnlyGenerates(old(log), log)
      ensures ended ==> observed[used].done && printTime < nextPrintTime
      ensures !ended ==> printTime == nextPrintTime
      ensures SameMotion(old(log))
    {
      hide Causal, Smooth, Generated, QueuedUntil, TipOf, Motion, OnlyGenerates, InBatches;
      GeneratesNone(log);
      var flushDelay := DripAhead();
      var k := 0;
      assert observed[..0] == [];
      while printTime < nextPrintTime
        invariant 0 <= k < |observed| && forall l :: 0 <= l < k ==> !observed[l].done
        invariant Timely() && old(printTime) <= printTime <= nextPrintTime
        invariant printTime == Dripped(old(printTime), nextPrintTime, flushDelay, canPause, observed[..k])
        invariant SameMotion(old(log)) && OnlyGenerates(old(log), log)
        decreases |observed| - k
      {
        if observed[k].done {
          DripIsNear(old(printTime), nextPrintTime, canPause, observed[..k]);
          return true, k;
        }
        var waitTime := printTime - observed[k].estPrintTime - flushDelay;
        assert observed[..k+1][..k] == observed[..k];
        k := k + 1;
        if waitTime > 0.0 && canPause {
          continue;
        }
        ghost var before := log;
        UpdateMoveTime(Min(printTime + DRIP_SEGMENT_TIME, nextPrintTime));
        GeneratesMore(old(log), before, log);
      }
      ended, used := false, k;
      DripIsNear(old(printTime), nextPrintTime, canPause, observed[..k]);
    }

    lemma DripIsNear(start: real, end: real, canPause: bool, observed: seq<Seen>)
      ensures canPause ==> forall clock :: ClocksWithin(observed, clock) ==>
                Dripped(start, end, DripAhead(), canPause, observed)
                <= Max(start, clock + DRIP_TIME + moveFlushTime + kinFlushDelay + DRIP_SEGMENT_TIME)
    {
      if canPause {
        forall clock | ClocksWithin(observed, clock)
          ensures Dripped(start, end, DripAhead(), canPause, observed)
               <= Max(start, clock + DRIP_TIME + moveFlushTime + kinFlushDelay + DRIP_SEGMENT_TIME)
        {
          DripStaysNear(start, end, DripAhead(), observed, clock);
        }
      }
    }

    /** Puts planned moves into the motion queue, the first one at time start, and generates their steps. */
    method ProcessMoves(moves: seq<Timed>, estPrintTime: real, canPause: bool, observed: seq<Seen>)
      returns (ended: bool, ghost start: real)
      requires Valid() && MayProcess(moves) && (state == Drip ==> UntilDone(observed))
      modifies `printTime, `log, `state, `stall, `lastKinMoveTime
      ensures Timely() && printTime >= start
      ensures if old(state) == Main then start == old(printTime) else StartsAt(start, old(printTime), estPrintTime)
      ensures old(state) != Main ==>
                estPrintTime + bufferTimeStart <= start && estPrintTime + MIN_KIN_TIME + kinFlushDelay <= start
      ensures OnlyGenerates(old(log) + Appends(moves, start, kinFlushDelay), log)
      ensures state == if old(state) == Drip then Drip else Main
      ensures stall == if old(state) == Main || old(state) == Drip then old(stall) else old(stall).(needCheck := -1.0)
      ensures ended ==> state == Drip
      ensures state == Drip && TotalTime(moves) > 0.0 && observed[0].done ==> ended
      ensures !ended ==> Valid() && lastKinMoveTime == printTime == start + TotalTime(moves)
      ensures TipOf(log) == FinalTip(moves, old(TipOf(log))) && Motion(log) == old(Motion(log)) + moves
    {
      hide Causal, Smooth, Generated, QueuedUntil, TipOf, Motion, FinalTip, Connected, OnlyGenerates, InBatches, Appends;
      if state != Main {
        if state != Drip {
          state := Main;
          stall := stall.(needCheck := -1.0);
        }
        CalcPrintTime(estPrintTime);
      }
      start := printTime;
      EndOfTotal(moves, printTime);
      var nextMoveTime := AppendMoves(moves);
      ghost var appended := log;
      if state == Drip {
        ghost var used;
        ended, used := UpdateDripMoveTime(nextMoveTime, canPause, observed);
        if ended {
          return;
        }
      }
      ghost var dripped := log;
      UpdateMoveTime(nextMoveTime);
      if state == Drip {
        GeneratesMore(appended, dripped, log);
      }
      lastKinMoveTime := nextMoveTime;
      ended := false;
    }

    /** The flush that follows when the print time was the given one and the last move ended at moveTime. */
    ghost predicate FlushedBehind(before: real, flushTime: real, moveTime: real)
      reads `printTime, `lastKinFlushTime, `kinFlushDelay
    {
      && lastKinFlushTime == Max(flushTime, Max(moveTime + kinFlushDelay, before - kinFlushDelay))
      && printTime == Max(before, lastKinFlushTime)
    }

    /** Generates all steps up to the flush delay after the last move. */
    method FlushSteps()
      requires Timely() && QueuedUntil(log) <= printTime && TipOf(log).v == 0.0
      modifies `printTime, `log, `state, `stall, `lastKinFlushTime
      ensures Motion(log) == old(Motion(log)) && TipOf(log) == old(TipOf(log)) && OnlyGenerates(old(log), log)
      ensures Valid() && state == Flushed && printTime >= old(printTime) && TipOf(log).v == 0.0
      ensures stall == Stall(-1.0, 0.0, old(stall.count))
      ensures Generated(log) == lastKinFlushTime >= old(lastKinFlushTime)
      ensures FlushedBehind(old(printTime), old(lastKinFlushTime), lastKinMoveTime)
      ensures lastKinFlushTime
           == Max(old(lastKinFlushTime), Max(lastKinMoveTime + kinFlushDelay, old(printTime) - kinFlushDelay))
    {
      hide Causal, Smooth, Generated, QueuedUntil, TipOf, Motion, OnlyGenerates, InBatches;
      state := Flushed;
      stall := Stall(-1.0, 0.0, stall.count);
      var flushTime := Max(lastKinMoveTime + kinFlushDelay, printTime - kinFlushDelay);
      lastKinFlushTime := Max(lastKinFlushTime, flushTime);
      UpdateMoveTime(Max(printTime, lastKinFlushTime));
    }

    /** The flush after the given moves began at time start, and from where it set out. */
    ghost predicate AllFlushed(pending: seq<Timed>, start: real, before: seq<Action>, flushTime: real, moveTime: real)
      reads `log, `printTime, `lastKinFlushTime, `lastKinMoveTime, `kinFlushDelay
    {
      && OnlyGenerates(before + Appends(pending, start, kinFlushDelay), log)
      && lastKinMoveTime == (if pending == [] then moveTime else start + TotalTime(pending))
      && FlushedBehind(start + TotalTime(pending), flushTime, lastKinMoveTime)
    }

    /** When queued moves begin: at the print time while the machine moves, and otherwise ahead of the clock. */
    ghost predicate Begins(pending: seq<Timed>, start: real, estPrintTime: real)
      reads `state, `printTime, `lastKinFlushTime, `kinFlushDelay
    {
      if state == Main || pending == [] then start == printTime else StartsAt(start, printTime, estPrintTime)
    }

    /** Flushes the look-ahead queue, whose moves are given and begin at time start, and all steps. */
    method FlushStepGeneration(pending: seq<Timed>, estPrintTime: real) returns (ghost start: real)
      requires Valid() && MayFlush(pending)
      modifies `printTime, `log, `state, `stall, `lastKinFlushTime, `lastKinMoveTime
      ensures Valid() && state == Flushed && printTime >= old(printTime) && TipOf(log).v == 0.0
      ensures stall == Stall(-1.0, 0.0, old(stall.count))
      ensures Generated(log) == lastKinFlushTime >= lastKinMoveTime + kinFlushDelay
      ensures lastKinFlushTime >= old(lastKinFlushTime)
      ensures Motion(log) == old(Motion(log)) + pending && TipOf(log) == FinalTip(pending, old(TipOf(log)))
      ensures old(Begins(pending, start, estPrintTime))
      ensures AllFlushed(pending, start, old(log), old(lastKinFlushTime), old(lastKinMoveTime))
    {
      hide Causal, Smooth, Generated, QueuedUntil, TipOf, Motion, Connected, OnlyGenerates, Appends;
      start := printTime;
      if pending != [] {
        var ended;
        ended, start := ProcessMoves(pending, estPrintTime, true, []);
      } else {
        NoMoves(pending, TipOf(log), start, kinFlushDelay);
        assert log + [] == log;
        GeneratesNone(log);
      }
      ghost var processed := log;
      FlushSteps();
      GeneratesMore(old(log) + Appends(pending, start, kinFlushDelay), processed, log);
    }

    /** The handler of the flush timer: flushes everything once the buffer runs low. */
    method FlushHandler(pending: seq<Timed>, estPrintTime: real, flushEst: real) returns (again: bool, ghost start: real)
      requires Valid() && MayFlush(pending)
      modifies `printTime, `log, `state, `stall, `lastKinFlushTime, `lastKinMoveTime
      ensures Valid() && printTime >= old(printTime)
      ensures again <==> old(printTime) - estPrintTime > bufferTimeLow
      ensures again ==> unchanged(this)
      ensures !again ==> old(Begins(pending, start, flushEst))
                         && AllFlushed(pending, start, old(log), old(lastKinFlushTime), old(lastKinMoveTime))
      ensures !again ==>
                state == Flushed && TipOf(log).v == 0.0 && Motion(log) == old(Motion(log)) + pending
                && TipOf(log) == FinalTip(pending, old(TipOf(log)))
      ensures !again ==> stall.idleFlushPrintTime == if printTime != old(printTime) then printTime else 0.0
    {
      hide Causal, Smooth, Generated, QueuedUntil, TipOf, Motion, Connected, FinalTip, OnlyGenerates, Appends;
      var before := printTime;
      if before - estPrintTime > bufferTimeLow {
        // There is enough in the buffer.
        return true, 0.0;
      }
      start := FlushStepGeneration(pending, flushEst);
      if before != printTime {
        stall := stall.(idleFlushPrintTime := printTime);
      }
      again := false;
    }

    /**
     How the time after queued moves is reached: by their end while the machine moves, and otherwise
     by a flush and ahead of the clock.
     */
    ghost predicate Reached(s: Settled, pending: seq<Timed>, main: bool, estPrintTime: real)
      reads `lastKinFlushTime, `kinFlushDelay
    {
      var end := s.start + TotalTime(pending);
      if main then s.time == end
      else s.flushed == Max(end, lastKinFlushTime) && StartsAt(s.time, s.flushed, estPrintTime)
    }

    /**
     The time at which a command that follows all queued moves takes effect.  The machine's clock may
     be read twice: for the flush and after it.
     */
    method GetLastMoveTime(pending: seq<Timed>, flushEst: real, estPrintTime: real)
      returns (t: real, ghost s: Settled)
      requires Valid() && MayFlush(pending)
      modifies `printTime, `log, `state, `stall, `lastKinFlushTime, `lastKinMoveTime
      ensures Valid() && t == printTime >= old(printTime) && TipOf(log).v == 0.0
      ensures t == s.time && old(Begins(pending, s.start, flushEst))
      ensures Reached(s, pending, old(state) == Main, estPrintTime)
      ensures t >= lastKinFlushTime + kinFlushDelay && (old(state) != Main ==> t >= estPrintTime + bufferTimeStart)
      ensures state == if old(state) == Main then Main else Flushed
      ensures old(state) == Main ==> stall == old(stall)
      ensures old(state) != Main ==> stall == Stall(-1.0, 0.0, old(stall.count))
      ensures Motion(log) == old(Motion(log)) + pending && TipOf(log) == FinalTip(pending, old(TipOf(log)))
      ensures OnlyGenerates(old(log) + Appends(pending, s.start, kinFlushDelay), log)
    {
      hide Causal, Smooth, Generated, QueuedUntil, TipOf, Motion, Connected, OnlyGenerates, Appends;
      ghost var start := printTime;
      if state != Main {
        start := FlushStepGeneration(pending, flushEst);
      } else if pending != [] {
        var ended;
        ended, start := ProcessMoves(pending, flushEst, true, []);
      } else {
        NoMoves(pending, TipOf(log), start, kinFlushDelay);
        assert log + [] == log;
        GeneratesNone(log);
      }
      ghost var flushed := printTime;
      if state != Main {
        CalcPrintTime(estPrintTime);
      }
      t := printTime;
      s := Settled(start, flushed, t);
    }

    /** What the check of the buffer does: it ends the wait and sets the next check, from the given state. */
    ghost predicate Checked(pauses: nat, estimates: Estimates, canPause: bool, before: Stall, main: bool)
      reads `printTime, `stall
    {
      var enough := printTime - estimates(pauses) <= bufferTimeHigh;
      && (forall k: nat :: k < pauses ==> printTime - estimates(k) > bufferTimeHigh)
      && (canPause ==> enough) && (!enough ==> pauses == 0)
      && stall.needCheck == (if !enough then NEVER
                             else if main then estimates(pauses) + bufferTimeHigh + 0.1 else -1.0)
      && stall.idleFlushPrintTime == (if main then before.idleFlushPrintTime else 0.0)
      && stall.count == before.count
                        + if !main && before.idleFlushPrintTime != 0.0
                             && estimates(0) < before.idleFlushPrintTime then 1 else 0
    }

    /**
     Waits until no more than bufferTimeHigh is queued ahead of the machine; an idle toolhead is
     priming afterwards.  The result is how many pauses it took.
     */
    method CheckStall(estimates: Estimates, canPause: bool) returns (pauses: nat)
      requires Valid() && Advances(estimates)
      modifies `state, `stall
      ensures Valid() && state == if old(state) == Main then Main else Priming
      ensures canPause ==> printTime - estimates(pauses) <= bufferTimeHigh
      ensures forall k: nat :: k < pauses ==> printTime - estimates(k) > bufferTimeHigh
      ensures Checked(pauses, estimates, canPause, old(stall), old(state) == Main)
    {
      hide Causal, Smooth, Generated, QueuedUntil, TipOf, Motion;
      if state != Main {
        var late := stall.idleFlushPrintTime != 0.0 && estimates(0) < stall.idleFlushPrintTime;
        stall := Stall(-1.0, 0.0, stall.count + if late then 1 else 0);
        state := Priming;
      }
      pauses := 0;
      assert Reaches(estimates, printTime - bufferTimeHigh);
      ghost var last: nat :| estimates(last) >= printTime - bufferTimeHigh;
      while printTime - estimates(pauses) > bufferTimeHigh
        invariant pauses <= last && forall k: nat :: k < pauses ==> printTime - estimates(k) > bufferTimeHigh
        invariant pauses > 0 ==> canPause
        decreases last - pauses
      {
        if !canPause {
          stall := stall.(needCheck := NEVER);
          return;
        }
        pauses := pauses + 1;
      }
      if state == Main {
        // The next check is due when the buffer could be too full again.
        stall := stall.(needCheck := estimates(pauses) + bufferTimeHigh + 0.1);
      }
    }

    method Dwell(delay: real, pending: seq<Timed>, flushEst: real, estPrintTime: real,
                 estimates: Estimates, canPause: bool) returns (pauses: nat, ghost s: Settled)
      requires Valid() && MayFlush(pending) && Advances(estimates)
      modifies `printTime, `log, `state, `stall, `lastKinFlushTime, `lastKinMoveTime
      ensures Valid() && state == (if old(state) == Main then Main else Priming) && TipOf(log).v == 0.0
      ensures printTime == s.time + Max(0.0, delay) && s.time >= old(printTime)
      ensures old(state) == Main ==> printTime == old(printTime) + TotalTime(pending) + Max(0.0, delay)
      ensures old(state) != Main ==> printTime >= estPrintTime + bufferTimeStart + Max(0.0, delay)
      ensures old(Begins(pending, s.start, flushEst)) && Reached(s, pending, old(state) == Main, estPrintTime)
      ensures var before := if old(state) == Main then old(stall) else Stall(-1.0, 0.0, old(stall.count));
              Checked(pauses, estimates, canPause, before, old(state) == Main)
      ensures Motion(log) == old(Motion(log)) + pending && TipOf(log) == FinalTip(pending, old(TipOf(log)))
      ensures OnlyGenerates(old(log) + Appends(pending, s.start, kinFlushDelay), log)
    {
      hide Causal, Smooth, Generated, QueuedUntil, TipOf, Motion, Connected, FinalTip, Advances;
      hide OnlyGenerates, Appends, InBatches, Checked;
      var t;
      t, s := GetLastMoveTime(pending, flushEst, estPrintTime);
      ghost var settled := log;
      UpdateMoveTime(t + Max(0.0, delay));
      GeneratesMore(old(log) + Appends(pending, s.start, kinFlushDelay), settled, log);
      pauses := CheckStall(estimates, canPause);
    }

    /** Changes the scan time that one step generator needs; all steps are flushed before the delay changes. */
    method NoteStepGenerationScanTime(delay: real, oldDelay: real, pending: seq<Timed>, estPrintTime: real)
      requires Valid() && MayFlush(pending)
      requires oldDelay != 0.0 ==> oldDelay in kinFlushTimes
      modifies `printTime, `log, `state, `stall, `lastKinFlushTime, `lastKinMoveTime, `kinFlushDelay, `kinFlushTimes
      ensures Valid() && state == Flushed && TipOf(log).v == 0.0
      ensures Motion(log) == old(Motion(log)) + pending && TipOf(log) == FinalTip(pending, old(TipOf(log)))
      ensures delay != 0.0 ==> kinFlushDelay >= delay
      ensures forall d :: d in kinFlushTimes ==> kinFlushDelay >= d
      ensures kinFlushDelay == SDS_CHECK_TIME || kinFlushDelay in kinFlushTimes
      ensures multiset(kinFlushTimes) == multiset(old(kinFlushTimes))
                                         - (if oldDelay != 0.0 then multiset{oldDelay} else multiset{})
                                         + (if delay != 0.0 then multiset{delay} else multiset{})
    {
      hide Causal, Smooth, Generated, QueuedUntil, TipOf, Motion, Connected, FinalTip, OnlyGenerates, Appends;
      ghost var start := FlushStepGeneration(pending, estPrintTime);
      kinFlushTimes := ChangeDelays(kinFlushTimes, delay, oldDelay);
      kinFlushDelay := LongestDelay(kinFlushTimes);
    }

    /** All steps are flushed before the position is set. */
    method SetPosition(newPos: Coord, pending: seq<Timed>, estPrintTime: real)
      requires Valid() && MayFlush(pending)
      modifies `printTime, `log, `state, `stall, `lastKinFlushTime, `lastKinMoveTime
      ensures Valid() && state == Flushed && printTime >= old(printTime)
      ensures Motion(log) == old(Motion(log)) + pending && TipOf(log) == Tip(0.0, newPos)
    {
      hide Causal, Smooth, Generated, QueuedUntil, TipOf, Motion, Connected, FinalTip, OnlyGenerates, Appends;
      ghost var start := FlushStepGeneration(pending, estPrintTime);
      CausalAdd(log, Place(newPos));
      log := log + [Place(newPos)];
    }

    method NoteKinematicActivity(kinTime: real)
      requires Valid()
      modifies `lastKinMoveTime
      ensures Valid() && lastKinMoveTime == Max(old(lastKinMoveTime), kinTime)
    {
      lastKinMoveTime := Max(lastKinMoveTime, kinTime);
    }

    /**
     A homing move: driven in drip mode until it is done or the trigger ends it, and flushed in
     either case.  A refused move is not queued; then only what was queued before is flushed.  The
     machine's clock is read for the flush, for the dwell and when the drip move is put in.
     */
    method DripMove(pending: seq<Timed>, moves: seq<Timed>, refused: bool,
                    flushEst: real, estPrintTime: real, dripEst: real,
                    estimates: Estimates, canPause: bool, observed: seq<Seen>)
      returns (ended: bool, ghost s: Settled, ghost start: real)
      requires Valid() && MayFlush(pending) && Advances(estimates) && UntilDone(observed)
      requires AllValid(moves) && Connected(moves, FinalTip(pending, TipOf(log)))
      requires FinalTip(moves, FinalTip(pending, TipOf(log))).v == 0.0
      modifies `printTime, `log, `state, `stall, `lastKinFlushTime, `lastKinMoveTime
      ensures Valid() && state == Flushed && printTime >= old(printTime) && TipOf(log).v == 0.0
      ensures Generated(log) >= lastKinMoveTime + kinFlushDelay
      ensures refused ==> !ended
      ensures !refused && TotalTime(moves) > 0.0 && observed[0].done ==> ended
      ensures old(Begins(pending, s.start, flushEst)) && s.time >= old(printTime)
      ensures s.time + kinFlushDelay <= start
      ensures !refused && moves != [] ==>
                dripEst + bufferTimeStart <= start && dripEst + MIN_KIN_TIME + kinFlushDelay <= start
      ensures !refused && moves != [] && !ended ==> lastKinMoveTime == start + TotalTime(moves)
      ensures Motion(log)
           == if ended then [] else old(Motion(log)) + pending + if refused then [] else moves
      ensures var tip := FinalTip(pending, old(TipOf(log)));
              TipOf(log) == if refused then tip
                            else if ended then Tip(0.0, FinalTip(moves, tip).at)
                            else FinalTip(moves, tip)
    {
      hide Causal, Smooth, Generated, QueuedUntil, TipOf, Motion, Connected, FinalTip, Advances;
      hide OnlyGenerates, Appends, Checked, Reached;
      var pauses;
      pauses, s := Dwell(kinFlushDelay, pending, flushEst, estPrintTime, estimates, canPause);
      state := Drip;
      stall := Stall(NEVER, 0.0, stall.count);
      ended, start := false, printTime;
      if moves == [] {
        NoMoves(moves, TipOf(log), 0.0, 0.0);
      }
      if !refused && moves != [] {
        ended, start := ProcessMoves(moves, dripEst, canPause, observed);
        if ended {
          CausalAdd(log, Clear);
          log := log + [Clear];
        }
      }
      FlushSteps();
    }
  }
}
