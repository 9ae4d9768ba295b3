/** 64-bit clocks from 32-bit counters, on the host and in the firmware. */
module ClockSync {
  import opened Clock32

  /** Values with the same wrapped value that are less than 2^32 apart are the same. */
  lemma SameWrap(x: int, y: int)
    requires Wrap(x) == Wrap(y) && -WRAP < x - y < WRAP
    ensures x == y
  {
    WrapCongruent(x, y);
    assert Wrap(x - y) == 0;
  }

  // ---------- The host ----------

  /** The first clock at or after the last one that the counter can stand for. */
  function Extend(lastClock: nat, clock32: u32): (clock: nat)
    ensures Wrap(clock) == clock32 && lastClock <= clock < lastClock + WRAP
  {
    var clock := lastClock / WRAP * WRAP + clock32;
    WrapShift(clock32, lastClock / WRAP);
    WrapShift(clock32, lastClock / WRAP + 1);
    if clock < lastClock then clock + WRAP else clock
  }

  lemma BehindLast(lastClock: nat, clock32: u32)
    ensures var clock := lastClock - Wrap(lastClock - clock32);
            Wrap(clock) == clock32 && Wrap(clock + WRAP) == clock32
  {
    assert Wrap(clock32) == clock32;
    hide Wrap;
    WrapCongruent(lastClock, lastClock - clock32);
    WrapCongruent(lastClock, Wrap(lastClock - clock32));
    WrapCongruent(lastClock - clock32, 0);
    WrapShift(lastClock - Wrap(lastClock - clock32), 1);
  }

  class Clock {
    var lastClock: nat

    constructor (clock: nat)
      ensures lastClock == clock
    {
      lastClock := clock;
    }

    method HandleClock(clock32: u32)
      modifies this
      ensures lastClock == Extend(old(lastClock), clock32)
    {
      var clock := lastClock / WRAP * WRAP + clock32;
      if clock < lastClock {
        clock := clock + WRAP;
      }
      lastClock := clock;
    }

    /** The clock nearest to the last one that the counter can stand for; the later one of two. */
    method Clock32ToClock64(clock32: u32) returns (clock: int)
      ensures Wrap(clock) == clock32 && lastClock - HALF < clock <= lastClock + HALF
    {
      var clockDiff := Wrap(lastClock - clock32);
      BehindLast(lastClock, clock32);
      if clockDiff >= HALF {
        clock := lastClock + WRAP - clockDiff;
      } else {
        clock := lastClock - clockDiff;
      }
    }
  }

  /** What the host takes a sequence of reported clocks for. */
  function Tracked(lastClock: nat, clocks: seq<nat>): (r: seq<nat>)
    decreases |clocks|
  {
    if clocks == [] then []
    else
      var clock := Extend(lastClock, Wrap(clocks[0]));
      [clock] + Tracked(clock, clocks[1..])
  }

  ghost predicate InOrder(lastClock: nat, clocks: seq<nat>)
    decreases |clocks|
  {
    clocks != [] ==> lastClock <= clocks[0] && InOrder(clocks[0], clocks[1..])
  }

  ghost predicate LessThanWrapApart(lastClock: nat, clocks: seq<nat>)
    decreases |clocks|
  {
    clocks != [] ==> clocks[0] - lastClock < WRAP && LessThanWrapApart(clocks[0], clocks[1..])
  }

  /** Every clock is tracked exactly if and only if none comes 2^32 or more ticks after the one before. */
  lemma {:induction false} TrackedExactly(lastClock: nat, clocks: seq<nat>)
    requires InOrder(lastClock, clocks)
    ensures Tracked(lastClock, clocks) == clocks <==> LessThanWrapApart(lastClock, clocks)
    decreases |clocks|
  {
    if clocks != [] {
      var clock := Extend(lastClock, Wrap(clocks[0]));
      if clocks[0] - lastClock < WRAP {
        SameWrap(clock, clocks[0]);
      }
      TrackedExactly(clocks[0], clocks[1..]);
      var t := Tracked(lastClock, clocks);
      assert t[1..] == Tracked(clock, clocks[1..]);
      assert clocks == [clocks[0]] + clocks[1..];
    }
  }

  /** A clock within 2^31 ticks of the last one is found, any other one is not. */
  lemma NearestIsExact(lastClock: nat, clock: int, t: int)
    requires Wrap(clock) == Wrap(t) && lastClock - HALF < clock <= lastClock + HALF
    ensures clock == t <==> lastClock - HALF < t <= lastClock + HALF
  {
    if lastClock - HALF < t <= lastClock + HALF {
      SameWrap(clock, t);
    }
  }

  // ---------- The firmware ----------

  /** A carry into the high word is found exactly if less than 2^32 ticks have passed. */
  lemma CarryIsExact(sent: nat, now: nat)
    requires sent <= now
    ensures sent / WRAP + (if Wrap(now) < Wrap(sent) then 1 else 0) == now / WRAP <==> now - sent < WRAP
  {
    var a, b := sent / WRAP, now / WRAP;
    assert sent == a * WRAP + Wrap(sent) && now == b * WRAP + Wrap(now);
    if b > a + 1 {
      assert b * WRAP >= (a + 2) * WRAP;
    }
    if now - sent < WRAP {
      assert a <= b <= a + 1;
    }
  }

  lemma HighWord(sent: nat, now: nat)
    requires sent <= now < sent + WRAP
    ensures Wrap(now / WRAP) == if Wrap(now) < Wrap(sent) then Wrap(Wrap(sent / WRAP) + 1) else Wrap(sent / WRAP)
  {
    CarryIsExact(sent, now);
    WrapStep(sent / WRAP, 1);
  }

  class Uptime {
    const sendInterval: u32          // ticks between two reports
    var statsSendTime: u32
    var statsSendTimeHigh: u32
    ghost var sent: nat              // the time of the last report
    ghost var lastCall: nat          // the last time that the statistics were updated

    ghost predicate Valid()
      reads this
    {
      && 0 < sendInterval <= HALF
      && statsSendTime == Wrap(sent) && statsSendTimeHigh == Wrap(sent / WRAP)
      && sent <= lastCall < sent + sendInterval
    }

    constructor (sendInterval: u32)
      requires 0 < sendInterval <= HALF
      ensures Valid() && lastCall == 0 && this.sendInterval == sendInterval
    {
      this.sendInterval := sendInterval;
      statsSendTime, statsSendTimeHigh, sent, lastCall := 0, 0, 0, 0;
    }

    /** The 64-bit count of ticks, as long as the statistics were updated in the last 2^31 ticks. */
    method GetUptime(cur: u32, ghost now: nat) returns (high: u32, clock: u32)
      requires Valid() && cur == Wrap(now) && lastCall <= now <= lastCall + HALF
      ensures clock == Wrap(now) && high == Wrap(now / WRAP)
    {
      HighWord(sent, now);
      high := Wrap(statsSendTimeHigh + if cur < statsSendTime then 1 else 0);
      clock := cur;
    }

    lemma ReportIsDue(cur: u32, now: nat)
      requires Valid() && cur == Wrap(now) && lastCall <= now <= lastCall + HALF
      ensures TimerIsBefore(cur, Wrap(statsSendTime + sendInterval)) <==> now - sent < sendInterval
      ensures now < sent + WRAP
    {
      hide Wrap, TimerIsBefore;
      WrapStep(sent, sendInterval);
      BeforeIsLess(now, sent + sendInterval);
    }

    /** Updating the statistics reports every sendInterval ticks and then takes over the time. */
    method StatsUpdate(cur: u32, ghost now: nat) returns (report: bool)
      requires Valid() && cur == Wrap(now) && lastCall <= now <= lastCall + HALF
      modifies this
      ensures Valid() && lastCall == now
      ensures report <==> now - old(sent) >= sendInterval
      ensures sent == if report then now else old(sent)
    {
      hide Wrap, TimerIsBefore;
      ReportIsDue(cur, now);
      HighWord(sent, now);
      lastCall := now;
      if TimerIsBefore(cur, Wrap(statsSendTime + sendInterval)) {
        return false;
      }
      if cur < statsSendTime {
        statsSendTimeHigh := Wrap(statsSendTimeHigh + 1);
      }
      statsSendTime := cur;
      sent := now;
      report := true;
    }
  }
}
