/**
 Digital output pins with software PWM and a limit on how long a pin may stay away from its
 default without a new update.

 Times are 32-bit; the ghost fields hold the unbounded times that they stand for.
 */
module SoftPwm {
  import opened Clock32

  datatype Func = Load | Toggle

  datatype DigitalMove = DigitalMove(waketime: u32, onDuration: u32)

  datatype Result = Done | Reschedule | Missed | ExceedsMax | QueueActive | TooClose

  /** The time that a 32-bit value stands for, next to a given one. */
  function Near(t: int, x: u32): (r: int) {
    t + Signed(Wrap(x - t))
  }

  lemma NearWraps(t: int, x: u32)
    ensures Wrap(Near(t, x)) == x && -HALF <= Near(t, x) - t < HALF
  {
    assert Wrap(x) == x;
    var d := Wrap(x - t);
    hide Wrap;
    WrapStep(x - t, t);
    WrapShift(t + d, -1);
  }

  /** A time less than 2^31 ticks away is found from its clock. */
  lemma NearIsExact(t: int, clock: int)
    ensures -HALF <= clock - t < HALF ==> Near(t, Wrap(clock)) == clock
  {
    if -HALF <= clock - t < HALF {
      SignedExact(clock - t);
      hide Wrap, Signed;
      WrapStep(clock, 0 - t);
    }
  }

  /** A queued time is refused exactly if it lies after the limit. */
  lemma RefusedIfAfter(t: int, x: u32)
    ensures TimerIsBefore(Wrap(t), x) <==> Near(t, x) > t || Near(t, x) == t - HALF
  {
    var d := Wrap(x - t);
    assert Signed(Negate(d)) < 0 <==> 0 < d <= HALF;
    hide Wrap;
    WrapStep(t, 0 - x);
    NegateWrap(x - t);
  }

  /** The next event of a toggling pin: the end of the pulses if that is due by then. */
  function NextEvent(waketime: u32, checkEnd: bool, endTime: u32): (next: (Func, u32)) {
    if checkEnd && !TimerIsBefore(waketime, endTime) then (Load, endTime) else (Toggle, waketime)
  }

  lemma NextEventInTime(w: int, end: int)
    requires -HALF <= w - end < WRAP
    ensures NextEvent(Wrap(w), true, Wrap(end))
         == if end <= w < end + HALF then (Load, Wrap(end)) else (Toggle, Wrap(w))
  {
    if w - end < HALF {
      BeforeIsLess(w, end);
    } else {
      WrapCongruent(w, end);
    }
  }

  /** The first event of a setting that is applied at time t. */
  lemma FirstEvent(t: int, on: u32, toggles: bool, check: bool, newEnd: u32, end: int)
    requires check ==> newEnd == Wrap(end)
    ensures var next := if toggles then NextEvent(Wrap(Wrap(t) + on), check, newEnd) else (Load, newEnd);
            && (next.0 == Toggle ==> toggles && next.1 == Wrap(t + on))
            && (next.0 == Load && (check || toggles) ==> check && next.1 == Wrap(end))
            && (toggles && check && -HALF <= t + on - end < WRAP ==> (next.0 == Load <==> end <= t + on < end + HALF))
  {
    WrapStep(t, on);
    if check && -HALF <= t + on - end < WRAP {
      NextEventInTime(t + on, end);
    }
    hide Wrap, TimerIsBefore;
  }

  /** Every time is less than 2^31 ticks after the one before it. */
  ghost predicate Spaced(clocks: seq<int>) {
    forall i :: 0 < i < |clocks| ==> clocks[i-1] <= clocks[i] < clocks[i-1] + HALF
  }

  lemma SpacedAppend(clocks: seq<int>, clock: int)
    requires Spaced(clocks) && (clocks != [] ==> clocks[|clocks|-1] <= clock < clocks[|clocks|-1] + HALF)
    ensures Spaced(clocks + [clock])
  {
  }

  lemma SpacedTail(clocks: seq<int>)
    requires Spaced(clocks) && clocks != []
    ensures Spaced(clocks[1..])
    ensures |clocks| > 1 ==> clocks[0] <= clocks[1] < clocks[0] + HALF
  {
    forall i | 0 < i < |clocks[1..]|
      ensures clocks[1..][i-1] <= clocks[1..][i] < clocks[1..][i-1] + HALF
    {
      assert clocks[i] <= clocks[i+1] < clocks[i] + HALF;
    }
  }

  datatype Flags = Flags(on: bool, toggling: bool, checkEnd: bool)

  /** The times that waketime and end_time stand for, and when the current setting was applied. */
  datatype Times = Times(wake: int, end: int, loaded: int)

  class DigitalOut {
    const maxDuration: u32
    const defaultOn: bool
    var cycleTime: u32
    var flags: Flags
    var pin: bool
    var onDuration: u32
    var offDuration: u32
    var endTime: u32
    var pending: bool                // the timer is in the timer list
    var func: Func
    var waketime: u32
    var queue: seq<DigitalMove>
    ghost var times: Times
    ghost var clocks: seq<int>       // the times that the host means by the clocks of the queued updates

    ghost predicate Ranges()
      reads this
    {
      maxDuration < HALF && cycleTime < HALF && onDuration < HALF && offDuration < HALF
    }

    ghost predicate Valid()
      reads this
    {
      && Ranges() && pin == flags.on
      && |clocks| == |queue| && (forall i :: 0 <= i < |queue| ==> queue[i].waketime == Wrap(clocks[i]))
      && (pending ==> waketime == Wrap(times.wake)) && (flags.checkEnd ==> endTime == Wrap(times.end))
      && (queue != [] ==> flags.checkEnd && pending && endTime == queue[0].waketime)
      && (pending && func == Load ==> flags.checkEnd && times.wake == times.end)
      && (flags.toggling ==> pending) && (pending && func == Toggle ==> flags.toggling)
    }

    /** The pin pulses or is not at its default level. */
    ghost predicate Active()
      reads this
    {
      flags.toggling || flags.on != defaultOn
    }

    /** An active pin with a limit gets its next setting, or the firmware shuts down, within the limit. */
    ghost predicate Limited()
      reads this
    {
      maxDuration != 0 && Active() ==>
        && flags.checkEnd && pending
        && times.wake <= times.end <= times.loaded + maxDuration
        && (queue == [] ==> times.end == times.loaded + maxDuration)
        && (func == Toggle ==> times.loaded <= times.wake < times.end)
    }

    /** The current setting ends at the time that the host means for the next one. */
    ghost predicate OnTime()
      reads `clocks, `times
    {
      Spaced(clocks) && (clocks != [] ==> times.end == clocks[0])
    }

    /** A new update keeps that up: it is for a time after the last one, or near the end of the current setting. */
    ghost predicate Follows(clock: int)
      reads `clocks, `times, `flags
    {
      if clocks != [] then clocks[|clocks|-1] <= clock < clocks[|clocks|-1] + HALF
      else flags.checkEnd ==> -HALF <= clock - times.end < HALF
    }

    /** The state that a shutdown leaves. */
    ghost predicate AtDefault()
      reads this
    {
      pin == defaultOn && flags == Flags(defaultOn, false, false) && !pending && queue == [] && clocks == []
    }

    /** The host configures a pin with a limit to start at its default level. */
    constructor (value: bool, defaultOn: bool, maxDuration: u32)
      requires maxDuration < HALF && (maxDuration != 0 ==> value == defaultOn)
      ensures Valid() && Limited() && OnTime() && queue == []
      ensures pin == value && flags == Flags(value, false, false) && !pending
      ensures this.defaultOn == defaultOn && this.maxDuration == maxDuration
    {
      this.maxDuration, this.defaultOn := maxDuration, defaultOn;
      cycleTime, onDuration, offDuration := 0, 0, 0;
      pin, flags, pending, func, queue, clocks := value, Flags(value, false, false), false, Load, [], [];
    }

    /** A shutdown sets every pin to its default level; the timer list is cleared too. */
    method Shutdown()
      requires Ranges()
      modifies `flags, `pin, `queue, `pending, `clocks
      ensures Valid() && Limited() && OnTime() && AtDefault()
    {
      pin := defaultOn;
      flags := Flags(defaultOn, false, false);
      queue, clocks := [], [];
      pending := false;
    }

    method SetPwmCycle(cycleTicks: u32) returns (r: Result)
      requires Valid() && cycleTicks < HALF
      modifies `cycleTime, `flags, `pin, `queue, `pending, `clocks
      ensures Valid() && (r == QueueActive <==> old(queue) != [])
      ensures r == QueueActive ==> AtDefault()
      ensures r != QueueActive ==>
                r == Done && cycleTime == cycleTicks && unchanged(`flags, `pin, `queue, `pending)
      ensures (old(Limited()) ==> Limited()) && (old(OnTime()) ==> OnTime())
    {
      if queue != [] {
        Shutdown();
        return QueueActive;
      }
      cycleTime := cycleTicks;
      r := Done;
    }

    /** An immediate update; the scheduler may refuse its timer as too close. */
    method UpdateDigitalOut(value: bool, cur: u32, refused: bool, ghost now: int) returns (r: Result)
      requires Valid() && cur == Wrap(now)
      modifies this
      ensures Valid() && Limited() && OnTime()
      ensures r == QueueActive <==> old(queue) != []
      ensures r == TooClose <==> old(queue) == [] && refused && maxDuration != 0 && value != defaultOn
      ensures r == QueueActive || r == TooClose ==> AtDefault()
      ensures r != QueueActive && r != TooClose ==>
                && r == Done && pin == value && !flags.toggling && queue == [] && times.loaded == now
                && pending == (maxDuration != 0 && value != defaultOn)
                && (pending ==> times.wake == now + maxDuration)
    {
      WrapStep(now, maxDuration);
      hide Wrap;
      pending := false;
      if queue != [] {
        Shutdown();
        return QueueActive;
      }
      pin := value;
      times := Times(now + maxDuration, now + maxDuration, now);
      if value != defaultOn && maxDuration != 0 {
        if refused {
          Shutdown();
          return TooClose;
        }
        endTime := Wrap(cur + maxDuration);
        waketime := endTime;
        func := Load;
        flags := Flags(value, false, true);
        pending := true;
      } else {
        flags := Flags(value, false, false);
      }
      r := Done;
    }

    /** The pin changes; the pulses end at the end time at the latest. */
    method ToggleEvent()
      requires Valid() && pending && func == Toggle
      modifies `pin, `flags, `func, `waketime, `times
      ensures Valid() && pin == !old(pin) && flags == old(flags).(on := !old(flags.on))
      ensures times.end == old(times.end) && times.loaded == old(times.loaded)
      ensures var w := old(times.wake) + if pin then onDuration else offDuration;
              && (!flags.checkEnd ==> times.wake == w && func == Toggle)
              && (flags.checkEnd && -HALF <= w - times.end < HALF ==>
                    times.wake == (if w < times.end then w else times.end) && (func == Load <==> times.end <= w))
      ensures (old(Limited()) ==> Limited()) && (old(OnTime()) ==> OnTime())
    {
      pin := !pin;
      flags := flags.(on := !flags.on);
      var duration := if flags.on then onDuration else offDuration;
      ghost var w := times.wake + duration;
      WrapStep(times.wake, duration);
      if flags.checkEnd && -HALF <= w - times.end < HALF {
        NextEventInTime(w, times.end);
      }
      hide Wrap, TimerIsBefore;
      var next := NextEvent(Wrap(waketime + duration), flags.checkEnd, endTime);
      func, waketime := next.0, next.1;
      times := times.(wake := if func == Load then times.end else w);
    }

    /**
     A queued update, for the time that the host means by its clock.  The scheduler may refuse a
     timer as too close.
     */
    method QueueDigitalOut(move: DigitalMove, refused: bool, ghost clock: int) returns (r: Result)
      requires Valid() && Wrap(clock) == move.waketime
      modifies `flags, `pin, `queue, `pending, `func, `waketime, `endTime, `times, `clocks
      ensures Valid() && (old(Limited()) ==> Limited())
      ensures old(OnTime() && Follows(clock)) ==> OnTime()
      ensures r == ExceedsMax <==>
                old(queue) == [] && old(flags.checkEnd) && TimerIsBefore(old(endTime), move.waketime)
      ensures r == TooClose <==>
                && refused && old(queue) == [] && r != ExceedsMax
                && !(old(flags.toggling) && TimerIsBefore(old(waketime), move.waketime))
      ensures r == ExceedsMax || r == TooClose ==> AtDefault()
      ensures r != ExceedsMax && r != TooClose ==>
                && r == Done && queue == old(queue) + [move] && clocks == old(clocks) + [clock]
                && pin == old(pin) && pending
                && flags == old(flags).(checkEnd := true) && times.loaded == old(times.loaded)
                && times.end == (if old(queue) != [] then old(times.end)
                                 else if old(flags.checkEnd) then Near(old(times.end), move.waketime) else clock)
                && ((times.wake == old(times.wake) && func == old(func)) || (times.wake == times.end && func == Load))
    {
      hide Wrap, TimerIsBefore, Near;
      hide Spaced;
      if OnTime() && Follows(clock) {
        SpacedAppend(clocks, clock);
      }
      var firstOnQueue := queue == [];
      queue, clocks := queue + [move], clocks + [clock];
      if !firstOnQueue {
        return Done;
      }
      ghost var end := if flags.checkEnd then Near(times.end, move.waketime) else clock;
      NearWraps(times.end, move.waketime);
      NearIsExact(times.end, clock);
      if flags.checkEnd {
        RefusedIfAfter(times.end, move.waketime);
        if TimerIsBefore(endTime, move.waketime) {
          Shutdown();
          return ExceedsMax;
        }
      }
      r := EndSetting(move, refused, end);
    }

    /** The end that a setting gets leaves it within its limit. */
    ghost predicate EndLimited(end: int)
      reads this
    {
      maxDuration != 0 && Active() ==>
        && end <= times.loaded + maxDuration
        && (func == Toggle ==> pending && times.loaded <= times.wake && -HALF <= times.wake - end < HALF)
    }

    /** The setting in force ends at the time of the only update in the queue. */
    method EndSetting(move: DigitalMove, refused: bool, ghost end: int) returns (r: Result)
      requires Ranges() && pin == flags.on && queue == [move] && |clocks| == 1
      requires Wrap(clocks[0]) == move.waketime == Wrap(end)
      requires (pending ==> waketime == Wrap(times.wake)) && (pending && func == Toggle ==> flags.toggling)
      requires flags.toggling ==> pending && (func == Load ==> !TimerIsBefore(waketime, move.waketime))
      modifies `flags, `pin, `queue, `pending, `func, `waketime, `endTime, `times, `clocks
      ensures Valid() && (old(EndLimited(end)) ==> Limited())
      ensures r == TooClose <==>
                refused && !(old(flags.toggling) && TimerIsBefore(old(waketime), move.waketime))
      ensures r == TooClose ==> AtDefault()
      ensures r != TooClose ==>
                && r == Done && queue == old(queue) && clocks == old(clocks) && pin == old(pin) && pending
                && flags == old(flags).(checkEnd := true) && times.loaded == old(times.loaded) && times.end == end
                && ((times.wake == old(times.wake) && func == old(func)) || (times.wake == end && func == Load))
    {
      if -HALF <= times.wake - end < HALF {
        BeforeIsLess(times.wake, end);
      }
      hide Wrap, TimerIsBefore;
      endTime := move.waketime;
      if flags.toggling && TimerIsBefore(waketime, move.waketime) {
        // The pulses go on until the new end time.
        times := times.(end := end);
      } else {
        if refused {
          Shutdown();
          return TooClose;
        }
        waketime := move.waketime;
        func := Load;
        pending := true;
        times := Times(end, end, times.loaded);
      }
      flags := flags.(checkEnd := true);
      r := Done;
    }

    /** A setting keeps the pin pulsing or away from its default. */
    predicate Keeps(onDuration: u32)
      reads `cycleTime
    {
      0 < onDuration < cycleTime || (onDuration != 0) != defaultOn
    }

    /** When a setting that is applied at time t ends, given the updates behind it. */
    ghost function EndOf(t: int, m: DigitalMove, rest: seq<DigitalMove>): (r: int)
      reads `cycleTime
    {
      var limit := if maxDuration != 0 && Keeps(m.onDuration) then t + maxDuration else t;
      if rest == [] then limit else Near(limit, rest[0].waketime)
    }

    /** The first pulse is over, or cut off, within the limit. */
    ghost predicate FirstPulseEnds(t: int, m: DigitalMove, end: int)
      reads `cycleTime
    {
      maxDuration != 0 && 0 < m.onDuration < cycleTime && m.onDuration > maxDuration ==>
        t + m.onDuration - end < HALF
    }

    /**
     The next setting is applied. Without one the firmware shuts down, and so it does if the one
     after it comes too late. The limit holds afterwards exactly if the first pulse fits into it or
     the end of the setting is less than 2^31 ticks before the end of the pulse; that is so whenever
     the next update is for a time from now on and less than 2^31 ticks after the limit.  With every
     update for a time less than 2^31 ticks after the one before it, settings are applied when the
     host means them to be, and the limit holds throughout.
     */
    method LoadEvent() returns (r: Result)
      requires Valid() && pending && func == Load
      modifies `flags, `pin, `queue, `pending, `func, `waketime, `endTime, `times, `onDuration, `offDuration, `clocks
      ensures Valid()
      ensures |old(clocks)| > 1 && old(times.wake <= clocks[1] < times.wake + maxDuration + HALF) ==> Limited()
      ensures |old(clocks)| <= 1 ==> Limited()
      ensures old(OnTime()) ==> OnTime() && Limited()
      ensures r == Missed <==> old(queue) == []
      ensures r == ExceedsMax <==>
                && |old(queue)| > 1 && maxDuration != 0
                && (0 < old(queue)[0].onDuration < cycleTime || (old(queue)[0].onDuration != 0) != defaultOn)
                && TimerIsBefore(Wrap(old(times.wake) + maxDuration), old(queue)[1].waketime)
      ensures r == Missed || r == ExceedsMax ==> AtDefault() && Limited()
      ensures r != Missed && r != ExceedsMax ==>
                && r == (if pending then Reschedule else Done) && Loaded(old(times.wake), old(queue[0]))
                && queue == old(queue)[1..] && clocks == old(clocks)[1..]
                && (flags.checkEnd ==> times.end == old(EndOf(times.wake, queue[0], queue[1..])))
                && (Limited() <==> FirstPulseEnds(old(times.wake), old(queue[0]), times.end))
                && (queue == [] || times.end >= times.loaded ==> Limited())
    {
      hide Wrap, TimerIsBefore, Near, Spaced;
      if OnTime() && clocks != [] {
        SpacedTail(clocks);
      }
      if queue == [] {
        Shutdown();
        return Missed;
      }
      var m := queue[0];
      queue, clocks := queue[1..], clocks[1..];
      pin := m.onDuration != 0;
      var toggles := 0 < m.onDuration < cycleTime;
      var check := false;
      var newEnd := 0;
      ghost var t := times.wake;
      ghost var end := EndOf(t, m, queue);
      if (toggles || pin != defaultOn) && maxDuration != 0 {
        newEnd := Wrap(waketime + maxDuration);
        check := true;
        WrapStep(t, maxDuration);
      }
      if queue != [] {
        if check {
          RefusedIfAfter(t + maxDuration, queue[0].waketime);
          if TimerIsBefore(newEnd, queue[0].waketime) {
            Shutdown();
            return ExceedsMax;
          }
        }
        NearWraps(if check then t + maxDuration else t, queue[0].waketime);
        NearIsExact(if check then t + maxDuration else t, clocks[0]);
        newEnd := queue[0].waketime;
        check := true;
      }
      StartSetting(m, toggles, check, newEnd, end);
      r := if pending then Reschedule else Done;
    }

    /** The setting m is in force since time t. */
    ghost predicate Loaded(t: int, m: DigitalMove)
      reads this
    {
      && times.loaded == t && pin == (m.onDuration != 0)
      && flags.toggling == (0 < m.onDuration < cycleTime)
      && flags.checkEnd == (queue != [] || (maxDuration != 0 && Active()))
      && pending == (flags.checkEnd || flags.toggling)
      && (pending ==> times.wake == if func == Load then times.end else t + m.onDuration)
      && (pending && func == Toggle ==> onDuration == m.onDuration && offDuration == cycleTime - m.onDuration)
      && (flags.toggling && !flags.checkEnd ==> func == Toggle) && (pending && !flags.toggling ==> func == Load)
      && (flags.toggling && flags.checkEnd && -HALF <= t + m.onDuration - times.end < HALF ==>
            (func == Load <==> times.end <= t + m.onDuration))
    }

    method StartSetting(m: DigitalMove, toggles: bool, check: bool, newEnd: u32, ghost end: int)
      requires Ranges() && func == Load && waketime == Wrap(times.wake) && (check ==> newEnd == Wrap(end))
      requires pin == (m.onDuration != 0) && toggles == (0 < m.onDuration < cycleTime)
      requires check == (queue != [] || (maxDuration != 0 && (toggles || pin != defaultOn)))
      requires queue != [] ==> newEnd == queue[0].waketime
      requires |clocks| == |queue| && forall i :: 0 <= i < |queue| ==> queue[i].waketime == Wrap(clocks[i])
      requires check && maxDuration != 0 && (toggles || pin != defaultOn) ==>
                 && times.wake + maxDuration - HALF < end <= times.wake + maxDuration
                 && (queue == [] ==> end == times.wake + maxDuration)
      modifies `flags, `pending, `func, `waketime, `endTime, `times, `onDuration, `offDuration
      ensures Valid() && Loaded(old(times.wake), m) && (flags.checkEnd ==> times.end == end)
      ensures Limited() <==> FirstPulseEnds(old(times.wake), m, end)
    {
      ghost var t := times.wake;
      hide Wrap, DigitalOut.Loaded, DigitalOut.Limited, FirstPulseEnds, DigitalOut.Valid, Begun;
      SetUp(m, toggles, check, newEnd, end);
      BegunIsLoaded(t, m);
      BegunIsLimited(t, m, end);
    }

    method SetUp(m: DigitalMove, toggles: bool, check: bool, newEnd: u32, ghost end: int)
      requires Ranges() && func == Load && waketime == Wrap(times.wake) && (check ==> newEnd == Wrap(end))
      requires pin == (m.onDuration != 0) && toggles == (0 < m.onDuration < cycleTime)
      requires check == (queue != [] || (maxDuration != 0 && (toggles || pin != defaultOn)))
      modifies `flags, `pending, `func, `waketime, `endTime, `times, `onDuration, `offDuration
      ensures Ranges() && flags == Flags(pin, toggles, check)
      ensures Begun(old(times.wake), m) && endTime == newEnd && (flags.checkEnd ==> times.end == end)
    {
      ghost var t := times.wake;
      FirstEvent(t, m.onDuration, toggles, check, newEnd, end);
      hide Wrap, NextEvent;
      var next := if toggles then NextEvent(Wrap(waketime + m.onDuration), check, newEnd) else (Load, newEnd);
      endTime := newEnd;
      flags := Flags(pin, toggles, check);
      pending := check || toggles;
      func, waketime := next.0, next.1;
      times := Times(if next.0 == Toggle then t + m.onDuration else end, end, t);
      if next.0 == Toggle {
        onDuration, offDuration := m.onDuration, cycleTime - m.onDuration;
      }
    }

    /** What is set up at time t for the setting m. */
    ghost predicate Begun(t: int, m: DigitalMove)
      reads this
    {
      var w := t + m.onDuration;
      && flags.on == pin == (m.onDuration != 0) && flags.toggling == (0 < m.onDuration < cycleTime)
      && flags.checkEnd == (queue != [] || (maxDuration != 0 && Active()))
      && pending == (flags.checkEnd || flags.toggling) && times.loaded == t
      && (pending && func == Toggle ==> flags.toggling)
      && (pending && func == Toggle ==> onDuration == m.onDuration && offDuration == cycleTime - m.onDuration)
      && (pending && func == Load ==> flags.checkEnd)
      && (pending ==> times.wake == (if func == Load then times.end else w) && waketime == Wrap(times.wake))
      && (flags.checkEnd ==> endTime == Wrap(times.end))
      && (flags.toggling && flags.checkEnd && -HALF <= w - times.end < WRAP ==>
            (func == Load <==> times.end <= w < times.end + HALF))
    }

    lemma BegunIsLoaded(t: int, m: DigitalMove)
      requires Ranges() && Begun(t, m)
      requires |clocks| == |queue| && forall i :: 0 <= i < |queue| ==> queue[i].waketime == Wrap(clocks[i])
      requires queue != [] ==> endTime == queue[0].waketime
      ensures Valid() && Loaded(t, m)
    {
      hide Wrap;
    }

    lemma BegunIsLimited(t: int, m: DigitalMove, end: int)
      requires Ranges() && Begun(t, m) && (flags.checkEnd ==> times.end == end)
      requires maxDuration != 0 && Active() ==>
                 && t + maxDuration - HALF < end <= t + maxDuration && (queue == [] ==> end == t + maxDuration)
      ensures Limited() <==> FirstPulseEnds(t, m, end)
    {
      hide Wrap;
    }
  }

  /** A level of the pin, and from when on. */
  datatype Level = Level(time: int, high: bool)

  /**
   A setting without a limit and without an update behind it pulses for ever: the pin is high for
   the time asked for and low for the rest of every cycle.  Two events of it change nothing but the time.
   */
  method OneCycle(d: DigitalOut) returns (ghost levels: seq<Level>)
    requires d.Valid() && d.pending && d.func == Load && |d.queue| == 1
    requires d.maxDuration == 0 && 0 < d.queue[0].onDuration < d.cycleTime
    modifies d
    ensures var t, on, cycle := old(d.times.wake), old(d.queue[0].onDuration), d.cycleTime;
            && levels == [Level(t, true), Level(t + on, false), Level(t + cycle, true)]
            && d.Valid() && d.pending && d.func == Toggle && d.pin && d.times.wake == t + cycle + on
    ensures d.cycleTime == old(d.cycleTime)
  {
    hide Wrap, TimerIsBefore, Near, Spaced, DigitalOut.Valid, DigitalOut.Limited, DigitalOut.OnTime;
    OneQueued(d);
    ghost var t := d.times.wake;
    var r := d.LoadEvent();
    levels := [Level(t, d.pin)];
    t := d.times.wake;
    d.ToggleEvent();
    levels := levels + [Level(t, d.pin)];
    t := d.times.wake;
    d.ToggleEvent();
    levels := levels + [Level(t, d.pin)];
  }

  lemma OneQueued(d: DigitalOut)
    requires d.Valid() && |d.queue| == 1
    ensures |d.clocks| == 1
  {
  }

  /**
   An update whose clock is long past, or too far ahead, can keep a pin on beyond its limit.  With
   a limit of 1000 ticks and a cycle of 3000, the setting of time 0 is on for 2000 ticks.  The
   update behind it has the 32-bit clock of the time 2^31 - 1 ticks before the limit, which is also
   that of a time 2^31 + 1 ticks after it.  It is not refused; when the setting is applied, its time
   is taken for one that is still to come, so that the pin stays on until 2000.
   */
  method StaleClockEscapesLimit() returns (d: DigitalOut)
    ensures fresh(d) && d.Valid() && !d.Limited()
    ensures d.pin && d.pending && d.func == Toggle && d.times.loaded == 0 && d.times.wake == 2000 > d.maxDuration
  {
    hide Wrap, TimerIsBefore, DigitalOut.Valid;
    d := StaleQueue();
    var r := d.LoadEvent();
  }

  const STALE: int := 1001 - HALF

  /** Both updates are accepted. */
  method StaleQueue() returns (d: DigitalOut)
    ensures fresh(d) && d.Valid() && d.pending && d.func == Load && d.times.wake == 0
    ensures d.maxDuration == 1000 && d.cycleTime == 3000 && !d.defaultOn
    ensures d.queue == [DigitalMove(0, 2000), DigitalMove(Wrap(STALE), 0)]
    ensures !TimerIsBefore(Wrap(1000), Wrap(STALE)) && Near(1000, Wrap(STALE)) == STALE
  {
    assert !TimerIsBefore(Wrap(1000), Wrap(STALE)) && Near(1000, Wrap(STALE)) == STALE && Wrap(0) == 0;
    hide Wrap, TimerIsBefore, Near, DigitalOut.Valid;
    d := new DigitalOut(false, false, 1000);
    var r := d.SetPwmCycle(3000);
    r := d.QueueDigitalOut(DigitalMove(0, 2000), false, 0);
    r := d.QueueDigitalOut(DigitalMove(Wrap(STALE), 0), false, STALE);
  }
}
