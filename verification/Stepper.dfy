/**
 The stepper object of the firmware: its move queue, its timer events and its position.

 A stepper runs in one of two modes.  With a single schedule every event is one step on
 an edge of the step pin; otherwise each step takes a step event and an unstep event.
 */
module Steppers {
  import opened Clock32
  import opened StepTiming

  const POSITION_BIAS: int := 0x4000_0000

  /** The stored form of position y with n steps of the current move added ahead of time. */
  function Code(dir: bool, y: int, n: int): (r: u32) {
    Wrap((if dir then y else -y) + n)
  }

  lemma CodeLoad(dir: bool, y: int, n: nat)
    ensures Wrap(Code(dir, y, 0) + n) == Code(dir, y, n)
    ensures Wrap(Negate(Code(dir, y, 0)) + n) == Code(!dir, y, n)
  {
    var s := if dir then y else -y;
    WrapStep(s, n);
    NegateWrap(s);
    WrapStep(-s, n);
  }

  /** What the firmware reads back from a stored position: the sign is dropped. */
  function Decode(p: u32): (r: u32) {
    if p >= HALF then Negate(p) else p
  }

  /** The position as it is reported to the host. */
  function Reported(p: u32): (r: int) {
    Signed(Wrap(p - POSITION_BIAS))
  }

  lemma DecodeExact(dir: bool, y: int)
    ensures Decode(Code(dir, y, 0)) == Wrap(y) <==> Wrap(y) <= HALF
  {
    NegateWrap(y);
    NegateWrap(-y);
  }

  /** The reported position is the true one exactly while it is within 2^30 steps of the start. */
  lemma ReportExact(dir: bool, net: int)
    ensures Reported(Decode(Code(dir, POSITION_BIAS + net, 0))) == net <==> -POSITION_BIAS <= net <= POSITION_BIAS
  {
    var y := POSITION_BIAS + net;
    var p := Decode(Code(dir, y, 0));
    hide Decode, Code;
    DecodeExact(dir, y);
    WrapStep(y, -POSITION_BIAS);
    if Reported(p) == net {
      // Both wrap to the same value, which the bias brings back to that of y.
      assert Wrap(net) == Wrap(p - POSITION_BIAS);
      WrapStep(net, POSITION_BIAS);
      WrapStep(p - POSITION_BIAS, POSITION_BIAS);
    }
  }

  /** A position read back and stored negated is the position in the first direction exactly if it is within range. */
  lemma StopCode(dir: bool, net: int)
    ensures Negate(Decode(Code(dir, POSITION_BIAS + net, 0))) == Code(false, POSITION_BIAS + net, 0)
            <==> Wrap(POSITION_BIAS + net) <= HALF
  {
    DecodeExact(dir, POSITION_BIAS + net);
    NegateWrap(POSITION_BIAS + net);
  }

  /** Subtracting the steps not yet taken leaves the position of the steps taken. */
  lemma CodeUnload(dir: bool, y: int, n: nat)
    ensures Wrap(Code(dir, y, n) - n) == Code(dir, y, 0)
  {
    WrapStep((if dir then y else -y) + n, 0 - n);
  }

  /** Steps of the current move that have not been taken yet, from the number of events left. */
  function StepsLeft(single: bool, count: nat): (r: nat) {
    if single then count else count / 2
  }

  /** The unstep event of a step is pending. */
  predicate MidPulse(single: bool, count: nat) {
    !single && count % 2 == 1
  }

  /** What is left to do of the current move and of the queued ones; last is the time of the latest scheduled step. */
  function PendingOf(single: bool, count: nat, last: u32, interval: u32, add: i16, dir: bool, mq: seq<StepMove>): (r: Todo) {
    var left := StepsLeft(single, count);
    if MidPulse(single, count) && left > 0 then Todo(dir, Wrap(last + interval), Wrap(interval + add), add, left, mq)
    else Todo(dir, last, interval, add, left, mq)
  }

  /** Between the two events of a step the next step is one interval later. */
  lemma MidPulsePending(single: bool, count: nat, last: u32, interval: u32, add: i16, dir: bool, mq: seq<StepMove>)
    requires MidPulse(single, count)
    ensures PendingOf(single, count, last, interval, add, dir, mq)
         == if count == 1 then Todo(dir, last, interval, add, 0, mq)
            else Todo(dir, Wrap(last + interval), Wrap(interval + add), add, (count - 1) / 2, mq)
    ensures count == 1 ==>
              PendingOf(single, 0, last, interval, add, dir, mq) == PendingOf(single, 1, last, interval, add, dir, mq)
    ensures StepsLeft(single, count - 1) == StepsLeft(single, count) && !MidPulse(single, count - 1)
  {
  }

  /** The direction of the last queued move, that of the next one, and whether a stop is in force. */
  datatype Flags = Flags(lastDir: bool, nextDir: bool, needReset: bool)

  /** The steps of a whole run and the scheduled time of the last one. */
  datatype Plan = Plan(steps: seq<Step>, end: u32) {
    /** The plan with the steps of one more move in the given direction. */
    function With(m: StepMove, dir: bool): (p: Plan)
      ensures |p.steps| == |steps| + m.count
    {
      Plan(steps + MoveSteps(m, dir, end), MoveEnd(m, end))
    }
  }

  datatype EventResult = Done | Reschedule | TooFarInPast

  class Stepper {
    const singleSched: bool
    const invertStep: bool
    const stepPulseTicks: u32
    var interval: u32
    var add: i16
    var count: nat
    var nextStepTime: u32
    var waketime: u32
    var position: u32
    var mq: seq<StepMove>
    var flags: Flags
    var scheduled: bool        // the timer of the stepper is on the timer list
    var dirPin: bool
    var stepPin: bool
    ghost var emitted: seq<Step>   // the steps taken so far
    ghost var plan: Plan           // those and the ones commanded but not yet taken

    /** What is left to do. */
    ghost function Pending(): (r: Todo)
      reads this
    {
      PendingOf(singleSched, count, if singleSched then waketime else nextStepTime, interval, add, dirPin, mq)
    }

    ghost predicate Planned()
      reads this
    {
      Follows(Pending())
    }

    ghost predicate Valid()
      reads this
    {
      && (scheduled <==> count > 0)
      && (count == 0 ==> mq == [])
      && (flags.needReset ==> count == 0)
      && Planned()
      && (!singleSched ==> stepPin == (invertStep != MidPulse(singleSched, count)))
    }

    /** The stored position is that of the steps taken; its sign is the direction of the current move. */
    ghost predicate Tracked()
      reads this
    {
      position == Code(dirPin, POSITION_BIAS + Net(emitted), StepsLeft(singleSched, count))
    }

    /** The position of the steps taken can be read back from its stored form. */
    ghost predicate Readable()
      reads `emitted
    {
      Wrap(POSITION_BIAS + Net(emitted)) <= HALF
    }

    constructor (singleSched: bool, invertStep: bool, stepPulseTicks: u32)
      ensures Valid() && Tracked() && emitted == [] && plan.steps == [] && !scheduled && !flags.needReset
      ensures this.singleSched == singleSched && this.invertStep == invertStep && this.stepPulseTicks == stepPulseTicks
    {
      this.singleSched, this.invertStep, this.stepPulseTicks := singleSched, invertStep, stepPulseTicks;
      interval, add, count, nextStepTime, waketime := 0, 0, 0, 0, 0;
      position := Wrap(-POSITION_BIAS);
      mq, flags, scheduled := [], Flags(false, false, false), false;
      dirPin, stepPin := false, invertStep;
      emitted, plan := [], Plan([], 0);
    }

    /** Loads the first move of the queue into the stepper. */
    method LoadMove()
      requires count == 0 && Planned() && mq != []
      modifies `interval, `add, `count, `nextStepTime, `waketime, `position, `mq, `dirPin
      ensures Planned() && count > 0 && !MidPulse(singleSched, count)
      ensures Pending() == old(Pending()).Loaded()
      ensures !singleSched ==> waketime == nextStepTime
      ensures old(Tracked()) ==> Tracked()
    {
      hide Wrap, Net, Code, Follows, Todo.All, Todo.End, Todo.EndDir;
      LoadFollows(Pending());
      ghost var w := Pending().Loaded();
      var m := mq[0];
      mq := mq[1..];
      add := m.add;
      interval := Wrap(m.interval + m.add);
      if singleSched {
        waketime := Wrap(waketime + m.interval);
        count := m.count;
      } else {
        // Every step is two events.
        nextStepTime := Wrap(nextStepTime + m.interval);
        waketime := nextStepTime;
        count := m.count * 2;
      }
      MovePosition(m, POSITION_BIAS + Net(emitted));
      assert Pending() == w;
    }

    /** All steps of a move are added to the position at once; a change of direction flips its sign. */
    method MovePosition(m: StepMove, ghost y: int)
      modifies `position, `dirPin
      ensures dirPin == Flipped(old(dirPin), m)
      ensures old(position) == Code(old(dirPin), y, 0) ==> position == Code(dirPin, y, m.count)
    {
      CodeLoad(dirPin, y, m.count);
      if m.flip {
        position := Wrap(Negate(position) + m.count);
        dirPin := !dirPin;
      } else {
        position := Wrap(position + m.count);
      }
    }

    /** The first queued move, if there is one, becomes the current move. */
    method LoadNext() returns (r: EventResult)
      requires count == 0 && Planned()
      modifies `interval, `add, `count, `nextStepTime, `waketime, `position, `mq, `dirPin
      ensures Planned() && !MidPulse(singleSched, count)
      ensures old(mq) == [] ==> r == Done && count == 0 && mq == [] && Pending() == old(Pending())
      ensures old(mq) != [] ==> r == Reschedule && count > 0 && Pending() == old(Pending()).Loaded()
      ensures !singleSched && r == Reschedule ==> waketime == nextStepTime
      ensures old(Tracked()) ==> Tracked()
    {
      if mq == [] {
        // Nothing is left to do.
        count := 0;
        r := Done;
      } else {
        LoadMove();
        r := Reschedule;
      }
    }

    lemma LoadFollows(w: Todo)
      requires Follows(w) && w.n == 0 && w.q != []
      ensures Follows(w.Loaded())
    {
      LoadedSteps(w);
    }

    /** The plan is what has been emitted and what w still asks for. */
    ghost predicate Follows(w: Todo)
      reads `plan, `flags, `emitted
    {
      flags.lastDir == w.EndDir() && plan == Plan(emitted + w.All(), w.End())
    }

    /** The first pending step is taken. */
    ghost method Emit()
      requires Planned() && Pending().n > 0
      modifies `emitted
      ensures emitted == old(emitted) + [Step(dirPin, Pending().t)] && Follows(Pending().Taken())
      ensures old(Tracked()) ==> position == Code(dirPin, POSITION_BIAS + Net(emitted), StepsLeft(singleSched, count) - 1)
    {
      hide Todo.All, Todo.End, Todo.EndDir, Net;
      var w := Pending();
      var taken := Step(w.dir, w.t);
      TakenSteps(w);
      NetAppend(emitted, taken);
      Regrouped(emitted, [taken], w.Taken().All());
      emitted := emitted + [taken];
    }

    /** What every timer event keeps, and the step it takes if it takes one. */
    twostate predicate Progress(took: bool)
      reads this
    {
      && emitted == old(emitted) + (if took then [Step(old(dirPin), old(Pending().t))] else [])
      && (old(Tracked()) ==> Tracked())
    }

    /** The last event of a move: the timer goes on with the next move or stops. */
    method EndOfMove() returns (r: EventResult)
      requires count == 0 && Planned()
      modifies `interval, `add, `count, `nextStepTime, `waketime, `position, `mq, `dirPin, `scheduled
      ensures Planned() && !MidPulse(singleSched, count) && (scheduled <==> count > 0) && (count == 0 ==> mq == [])
      ensures r == (if scheduled then Reschedule else Done) && (scheduled <==> old(mq) != [])
      ensures !singleSched && scheduled ==> waketime == nextStepTime
      ensures old(Tracked()) ==> Tracked()
    {
      r := LoadNext();
      scheduled := r != Done;
    }

    /** Timer event with a single schedule: one step on an edge of the step pin. */
    method EventEdge() returns (r: EventResult)
      requires Valid() && scheduled && singleSched
      modifies `interval, `add, `count, `nextStepTime, `waketime, `position, `mq, `dirPin, `scheduled, `stepPin, `emitted
      ensures Valid() && Progress(true) && stepPin == !old(stepPin)
      ensures r == if scheduled then Reschedule else Done
    {
      hide Wrap, Net, Code, Follows, Todo.All, Todo.End, Todo.EndDir;
      stepPin := !stepPin;
      Emit();
      ghost var w := Pending().Taken();
      count := count - 1;
      if count != 0 {
        waketime := Wrap(waketime + interval);
        interval := Wrap(interval + add);
        assert Pending() == w;
        r := Reschedule;
      } else {
        assert Pending() == w;
        r := EndOfMove();
      }
    }

    /** With events until nothing is left to do, exactly the planned steps are taken. */
    method RunDry()
      requires Valid() && singleSched
      modifies `interval, `add, `count, `nextStepTime, `waketime, `position, `mq, `dirPin, `scheduled, `stepPin, `emitted
      ensures Valid() && !scheduled && emitted == plan.steps
      ensures old(Tracked()) ==> Tracked()
    {
      hide Wrap, Net, Code, Follows;
      PlannedSteps();
      while scheduled
        invariant Valid() && (old(Tracked()) ==> Tracked())
        invariant |emitted| <= |plan.steps|
        decreases |plan.steps| - |emitted|
      {
        PlannedSteps();
        var r := EventEdge();
      }
      NothingLeft(Pending());
    }

    lemma PlannedSteps()
      requires Planned()
      ensures |plan.steps| >= |emitted| + Pending().n
    {
    }

    lemma NothingLeft(w: Todo)
      requires Follows(w) && w.n == 0 && w.q == []
      ensures emitted == plan.steps
    {
      assert emitted + [] == emitted;
    }

    /** The step half of a double scheduled event: the pin goes active and the unstep event is next. */
    method StepEvent(minNextTime: u32)
      requires Valid() && scheduled && !singleSched && count % 2 == 0
      modifies `count, `waketime, `stepPin, `emitted
      ensures Valid() && Progress(true) && stepPin == !old(stepPin)
      ensures MidPulse(singleSched, count) && waketime == minNextTime
    {
      hide Wrap, Net, Code, Follows, Todo.All, Todo.End, Todo.EndDir;
      stepPin := !stepPin;
      Emit();
      ghost var w := Pending().Taken();
      count := count - 1;
      waketime := minNextTime;
      assert Pending() == w;
    }

    /** The time of the next step of the current move. */
    method AdvanceStep()
      requires !singleSched && count % 2 == 0
      requires Follows(Todo(dirPin, Wrap(nextStepTime + interval), Wrap(interval + add), add, count / 2, mq))
      modifies `nextStepTime, `interval
      ensures Planned()
    {
      hide Wrap, Follows;
      nextStepTime := Wrap(nextStepTime + interval);
      interval := Wrap(interval + add);
    }

    /** The unstep half: the pin goes idle and the next step, or the next move, is scheduled. */
    method UnstepEvent(minNextTime: u32, ticksPerMs: u32) returns (r: EventResult)
      requires Valid() && scheduled && !singleSched && count % 2 == 1
      modifies `interval, `add, `count, `nextStepTime, `waketime, `position, `mq, `dirPin, `scheduled, `stepPin
      ensures Valid() && Progress(false) && stepPin == !old(stepPin) == invertStep
      ensures r == Done <==> !scheduled
      ensures r == Reschedule ==>
                waketime == if TimerIsBefore(nextStepTime, minNextTime) then minNextTime else nextStepTime
      ensures r == TooFarInPast <==>
                && old(count) == 1 && old(mq) != [] && TimerIsBefore(nextStepTime, minNextTime)
                && Signed(Wrap(nextStepTime - minNextTime)) < 0 - ticksPerMs
    {
      hide Wrap, Net, Code, Follows, PendingOf, TimerIsBefore, Signed;
      MidPulsePending(singleSched, count, nextStepTime, interval, add, dirPin, mq);
      stepPin := !stepPin;
      count := count - 1;
      if count != 0 {
        AdvanceStep();
        // Pulses keep their distance.
        waketime := if TimerIsBefore(nextStepTime, minNextTime) then minNextTime else nextStepTime;
        return Reschedule;
      }
      r := EndOfMove();
      if r == Done || !TimerIsBefore(waketime, minNextTime) {
        return;
      }
      // The first step of the next move would follow too soon.
      if Signed(Wrap(waketime - minNextTime)) < 0 - ticksPerMs {
        return TooFarInPast;
      }
      waketime := minNextTime;
    }

    /** Timer event with a double schedule: a step event or an unstep event. */
    method EventFull(now: u32, ticksPerMs: u32) returns (r: EventResult)
      requires Valid() && scheduled && !singleSched
      modifies `interval, `add, `count, `nextStepTime, `waketime, `position, `mq, `dirPin, `scheduled, `stepPin, `emitted
      ensures Valid() && Progress(!MidPulse(singleSched, old(count))) && stepPin == !old(stepPin)
      ensures r == Done <==> !scheduled
      ensures r == Reschedule ==> !TimerIsBefore(waketime, Wrap(now + stepPulseTicks))
    {
      var minNextTime := Wrap(now + stepPulseTicks);
      NotBeforeItself(minNextTime);
      hide Wrap, TimerIsBefore, Signed, Net, Code, Follows;
      if count % 2 == 0 {
        StepEvent(minNextTime);
        r := Reschedule;
      } else {
        r := UnstepEvent(minNextTime, ticksPerMs);
      }
    }

    /** The same with a double schedule, whatever clocks the events read, unless a move starts too late. */
    method RunDryFull(clock: nat -> u32, ticksPerMs: u32) returns (r: EventResult)
      requires Valid() && !singleSched
      modifies `interval, `add, `count, `nextStepTime, `waketime, `position, `mq, `dirPin, `scheduled, `stepPin, `emitted
      ensures Valid() && (r == TooFarInPast || (r == Done && !scheduled && emitted == plan.steps))
      ensures old(Tracked()) ==> Tracked()
    {
      hide Wrap, Net, Code, Follows, Signed, TimerIsBefore;
      var k := 0;
      PlannedSteps();
      while scheduled
        invariant Valid() && (old(Tracked()) ==> Tracked())
        invariant |emitted| <= |plan.steps|
        decreases 2 * (|plan.steps| - |emitted|) + if MidPulse(singleSched, count) then 1 else 0
      {
        PlannedSteps();
        r := EventFull(clock(k), ticksPerMs);
        if r == TooFarInPast {
          return;
        }
        k := k + 1;
      }
      NothingLeft(Pending());
      r := Done;
    }

    /** Puts a move in the next direction at the end of the queue, and its steps at the end of the plan. */
    method Push(interval: u32, count: posu16, add: i16)
      requires Planned()
      modifies `mq, `flags, `plan
      ensures Planned() && flags == old(flags).(lastDir := flags.nextDir) && mq != []
      ensures plan == old(plan).With(StepMove(interval, add, count, false), flags.nextDir)
    {
      hide Wrap, Net, Code, Todo.All, Todo.End, Todo.EndDir, MoveSteps, MoveEnd;
      var m := StepMove(interval, add, count, flags.lastDir != flags.nextDir);
      PushedSteps(Pending(), m);
      ghost var w := Pending().Pushed(m);
      Regrouped(emitted, Pending().All(), MoveSteps(m, flags.nextDir, plan.end));
      SameSteps(m, flags.nextDir, plan.end);
      plan := plan.With(m, flags.nextDir);
      flags := flags.(lastDir := flags.nextDir);
      mq := mq + [m];
      assert Pending() == w;
    }

    /** Queues a move of the given count; a zero count is refused with a shutdown. */
    method QueueStep(interval: u32, count: u16, add: i16) returns (ok: bool)
      requires Valid()
      modifies `interval, `add, `count, `nextStepTime, `waketime, `position, `mq, `dirPin, `scheduled, `flags, `plan
      ensures Valid()
      ensures ok <==> count > 0
      ensures old(Tracked()) ==> Tracked()
      ensures ok && !(flags.needReset && old(this.count) == 0) ==>
                && plan == old(plan).With(StepMove(interval, add, count, false), flags.nextDir)
                && flags == old(flags).(lastDir := flags.nextDir) && scheduled
      ensures !ok || (flags.needReset && old(this.count) == 0) ==>
                plan == old(plan) && flags == old(flags) && mq == old(mq) && scheduled == old(scheduled)
      ensures old(Stopped()) ==> Stopped()
    {
      hide Wrap, Net, Code, Follows, Todo.All, Todo.End, Todo.EndDir, Plan.With;
      if count == 0 {
        return false;
      }
      ok := true;
      if this.count != 0 {
        Push(interval, count, add);
      } else if !flags.needReset {
        Push(interval, count, add);
        var r := LoadNext();
        scheduled := true;
      }
    }

    /** Moves that are queued from now on go in the given direction. */
    method SetNextStepDir(dir: bool)
      requires Valid()
      modifies `flags
      ensures Valid() && flags == old(flags).(nextDir := dir) && (old(Stopped()) ==> Stopped())
      ensures old(Tracked()) ==> Tracked()
    {
      flags := flags.(nextDir := dir);
    }

    /** Sets the time from which the next step is counted; refused with a shutdown while moves are active. */
    method ResetStepClock(clock: u32) returns (ok: bool)
      requires Valid()
      modifies `nextStepTime, `waketime, `flags, `plan
      ensures Valid() && (ok <==> count == 0)
      ensures ok ==> plan == old(plan).(end := clock) && flags == old(flags).(needReset := false)
      ensures !ok ==> plan == old(plan) && flags == old(flags)
      ensures old(Tracked()) ==> Tracked()
    {
      ok := count == 0;
      if ok {
        nextStepTime, waketime := clock, clock;
        flags := flags.(needReset := false);
        plan := plan.(end := clock);
      }
    }

    /** The stored position with the steps not yet taken left out. */
    method GetPosition() returns (p: u32)
      ensures Tracked() ==>
                && p == Decode(Code(dirPin, POSITION_BIAS + Net(emitted), 0))
                && (Reported(p) == Net(emitted) <==> -POSITION_BIAS <= Net(emitted) <= POSITION_BIAS)
    {
      hide Net;
      ReportExact(dirPin, Net(emitted));
      CodeUnload(dirPin, POSITION_BIAS + Net(emitted), StepsLeft(singleSched, count));
      // The position already holds all steps of the current move.
      p := Wrap(position - (if singleSched then count else count / 2));
      if p >= HALF {
        p := Negate(p);
      }
    }

    lemma IdleFollows(w: Todo)
      requires w.n == 0 && w.q == [] && plan == Plan(emitted, w.t) && flags.lastDir == w.dir
      ensures Follows(w)
    {
      assert emitted + [] == emitted;
    }

    /** Stores the position of the steps taken, for the first direction. */
    method StorePosition()
      modifies `position
      ensures old(Tracked()) ==> (position == Code(false, POSITION_BIAS + Net(emitted), 0) <==> Readable())
    {
      hide Net, Code, Decode;
      var p := GetPosition();
      position := Negate(p);
      StopCode(dirPin, Net(emitted));
    }

    /** Drops the moves and the timer, and brings the pins and the directions to their first state. */
    method Halt()
      modifies `scheduled, `nextStepTime, `waketime, `count, `flags, `dirPin, `stepPin, `mq, `plan
      ensures Valid() && Stopped() && plan == Plan(emitted, 0) && flags == Flags(false, false, true) && !dirPin
    {
      hide Follows;
      scheduled := false;
      nextStepTime, waketime := 0, 0;
      count := 0;
      flags := Flags(false, false, true);
      dirPin := false;
      if !singleSched {
        stepPin := invertStep;
      }
      mq := [];
      plan := Plan(emitted, 0);
      IdleFollows(Pending());
    }

    /** Stops all moves, as a trigger or a shutdown does. The position stays exact if it can be read back. */
    method Stop()
      requires Valid()
      modifies `scheduled, `nextStepTime, `waketime, `position, `count, `flags, `dirPin, `stepPin, `mq, `plan
      ensures Valid() && Stopped() && plan == Plan(emitted, 0) && flags == Flags(false, false, true) && !dirPin
      ensures old(Tracked()) ==> (Tracked() <==> Readable())
    {
      hide Net, Code, Planned;
      StorePosition();
      Halt();
    }

    /** No move is queued and no event is due until the next ResetStepClock. */
    ghost predicate Stopped()
      reads `flags, `mq, `count, `scheduled
    {
      flags.needReset && mq == [] && count == 0 && !scheduled
    }
  }

  lemma OneStep(m: StepMove, dir: bool, t: u32, steps: seq<Step>)
    requires m.count == 1
    ensures Net(steps + MoveSteps(m, dir, t)) == Net(steps) + if dir then 1 else -1
  {
    hide Wrap, Net;
    var all := MoveSteps(m, dir, t);
    assert all == [all[0]];
    NetAppend(steps, all[0]);
  }

  lemma NoSteps()
    ensures Net([]) == 0
  {
  }

  /** A stepper that has taken the given number of steps in the positive direction. */
  method StepsForward(n: nat) returns (s: Stepper)
    ensures fresh(s) && s.Valid() && s.Tracked() && !s.scheduled && Net(s.emitted) == n
  {
    hide Wrap, Net, MoveSteps, Stepper.Valid, Stepper.Tracked;
    s := new Stepper(true, false, 0);
    NoSteps();
    s.SetNextStepDir(true);
    var k := 0;
    while k < n
      invariant 0 <= k <= n && fresh(s) && s.Valid() && s.Tracked() && s.singleSched
      invariant !s.scheduled && s.flags.nextDir && !s.flags.needReset
      invariant s.emitted == s.plan.steps && Net(s.emitted) == k
    {
      OneStep(StepMove(1000, 0, 1, false), true, s.plan.end, s.emitted);
      var ok := s.QueueStep(1000, 1, 0);
      s.RunDry();
      k := k + 1;
    }
  }

  /** One step beyond 2^30 the reported position is wrong, and a stop does not keep the stored one. */
  method PositionOverrun() returns (s: Stepper, p: u32)
    ensures fresh(s) && s.Valid() && Net(s.emitted) == POSITION_BIAS + 1
    ensures Reported(p) != Net(s.emitted) && !s.Tracked()
  {
    s := StepsForward(POSITION_BIAS + 1);
    p := s.GetPosition();
    s.Stop();
  }
}
