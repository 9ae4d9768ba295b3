/** The transmitter that sends bits over a pin by scheduling only the edges between unequal bits. */
module Tmcuarts {
  import opened Bytes
  import opened Clock32

  const DATA_SIZE: int := 10

  function BitWeight(i: nat): (r: nat) {
    if i == 0 then 1 else 2 * BitWeight(i - 1)
  }

  lemma BitWeightPositive(i: nat)
    ensures BitWeight(i) > 0
  {
  }

  /** Bit k of the data, the lowest bit of a byte first. */
  predicate Bit(data: seq<u8>, k: nat)
    requires k < 8 * |data|
  {
    BitWeightPositive(k % 8);
    data[k / 8] / BitWeight(k % 8) % 2 == 1
  }

  /** The bits of a byte, lowest first, make up its value. */
  lemma BitsMakeByte(data: seq<u8>, j: nat)
    requires j < |data|
    ensures data[j] == Digit(data, 8 * j) + 2 * Digit(data, 8 * j + 1) + 4 * Digit(data, 8 * j + 2)
                       + 8 * Digit(data, 8 * j + 3) + 16 * Digit(data, 8 * j + 4) + 32 * Digit(data, 8 * j + 5)
                       + 64 * Digit(data, 8 * j + 6) + 128 * Digit(data, 8 * j + 7)
  {
    assert BitWeight(0) == 1 && BitWeight(1) == 2 && BitWeight(2) == 4 && BitWeight(3) == 8;
    assert BitWeight(4) == 16 && BitWeight(5) == 32 && BitWeight(6) == 64 && BitWeight(7) == 128;
    hide *;
    DigitOf(data, j, 0);
    DigitOf(data, j, 1);
    DigitOf(data, j, 2);
    DigitOf(data, j, 3);
    DigitOf(data, j, 4);
    DigitOf(data, j, 5);
    DigitOf(data, j, 6);
    DigitOf(data, j, 7);
    BinaryDigits(data[j]);
  }

  lemma DigitOf(data: seq<u8>, j: nat, i: nat)
    requires j < |data| && i < 8
    ensures BitWeight(i) > 0 && Digit(data, 8 * j + i) == data[j] / BitWeight(i) % 2
  {
    BitWeightPositive(i);
    hide BitWeight;
    assert (8 * j + i) / 8 == j && (8 * j + i) % 8 == i;
  }

  lemma BinaryDigits(d: u8)
    ensures d == d / 1 % 2 + 2 * (d / 2 % 2) + 4 * (d / 4 % 2) + 8 * (d / 8 % 2)
               + 16 * (d / 16 % 2) + 32 * (d / 32 % 2) + 64 * (d / 64 % 2) + 128 * (d / 128 % 2)
  {
    Halves(d, 1);
    Halves(d, 2);
    Halves(d, 4);
    Halves(d, 8);
    Halves(d, 16);
    Halves(d, 32);
    Halves(d, 64);
    Halves(d, 128);
  }

  lemma Halves(d: u8, w: int)
    requires w in {1, 2, 4, 8, 16, 32, 64, 128}
    ensures d / w == 2 * (d / (2 * w)) + d / w % 2 && d / 256 == 0
  {
  }

  function Digit(data: seq<u8>, k: nat): (d: int)
    requires k < 8 * |data|
  {
    if Bit(data, k) then 1 else 0
  }

  /** The data after a copy to its front. */
  function Copied(data: seq<u8>, write: seq<u8>): (r: seq<u8>)
    requires |write| <= |data|
    ensures |r| == |data| && r[..|write|] == write && r[|write|..] == data[|write|..]
  {
    write + data[|write|..]
  }

  /** The data begins with a start bit and the sync nibble 0101 of the lowest four bits. */
  predicate StartsWithSync(data: seq<u8>)
    requires data != []
  {
    data[0] % 0x40 == 0x2a
  }

  lemma SyncBits(data: seq<u8>)
    requires data != [] && StartsWithSync(data)
    ensures !Bit(data, 0) && Bit(data, 1) && !Bit(data, 2) && Bit(data, 3) && !Bit(data, 4) && Bit(data, 5)
  {
    var d := data[0];
    assert BitWeight(0) == 1 && BitWeight(1) == 2 && BitWeight(2) == 4;
    assert BitWeight(3) == 8 && BitWeight(4) == 16 && BitWeight(5) == 32;
    assert d == 0x2a || d == 0x6a || d == 0xaa || d == 0xea;
  }

  // ---------- The line ----------

  ghost function EdgesUntil(edges: seq<int>, t: int): (r: nat) {
    if edges == [] then 0
    else EdgesUntil(edges[..|edges|-1], t) + if edges[|edges|-1] <= t then 1 else 0
  }

  /** The level at time t of a line that was high and has changed at the times in edges. */
  ghost predicate HighAt(edges: seq<int>, t: int) {
    EdgesUntil(edges, t) % 2 == 0
  }

  lemma OneMoreEdge(edges: seq<int>, e: int, t: int)
    ensures EdgesUntil(edges + [e], t) == EdgesUntil(edges, t) + if e <= t then 1 else 0
  {
    assert (edges + [e])[..|edges|] == edges;
  }

  lemma {:induction false} AllEdgesUntil(edges: seq<int>, t: int)
    requires forall i :: 0 <= i < |edges| ==> edges[i] <= t
    ensures EdgesUntil(edges, t) == |edges|
  {
    if edges != [] {
      AllEdgesUntil(edges[..|edges|-1], t);
    }
  }

  /** What the transmitter drives in bit period k: the first edge makes the line low whatever bit 0 is. */
  ghost predicate Driven(data: seq<u8>, k: nat) {
    0 < k < 8 * |data| && Bit(data, k)
  }

  /** In every bit period that has begun and ended the line has the level that is driven. */
  ghost predicate Carried(edges: seq<int>, starts: seq<int>, data: seq<u8>) {
    forall k, t {:trigger Driven(data, k), HighAt(edges, t)} ::
      0 <= k < |starts| - 1 && starts[k] <= t < starts[k+1] ==> (HighAt(edges, t) <==> Driven(data, k))
  }

  ghost predicate Ascending(s: seq<int>) {
    forall i, j :: 0 <= i < j < |s| ==> s[i] <= s[j]
  }

  lemma LastIsGreatest(s: seq<int>, k: nat)
    requires Ascending(s) && k < |s|
    ensures s[k] <= s[|s|-1]
  {
  }

  /** The periods from |starts| - 1 on hold the level that the edge at the start of the first one gives. */
  lemma EdgeCarries(edges: seq<int>, starts: seq<int>, all: seq<int>, data: seq<u8>, high: bool, e: int)
    requires starts != [] && starts < all && Ascending(all) && Carried(edges, starts, data)
    requires e == starts[|starts|-1] && forall i :: 0 <= i < |edges| ==> edges[i] <= e
    requires high <==> |edges| % 2 == 1
    requires forall k :: |starts| - 1 <= k < |all| - 1 ==> (Driven(data, k) <==> high)
    ensures Carried(edges + [e], all, data)
  {
    hide Driven;
    forall k, t | 0 <= k < |all| - 1 && all[k] <= t < all[k+1]
      ensures HighAt(edges + [e], t) <==> Driven(data, k)
    {
      OneMoreEdge(edges, e, t);
      if k < |starts| - 1 {
        assert all[k] == starts[k] && all[k+1] == starts[k+1] <= e;
        assert HighAt(edges, t) <==> Driven(data, k);
      } else {
        assert e <= all[k];
        AllEdgesUntil(edges, t);
      }
    }
  }

  /** A transmission so far. */
  datatype Trace = Trace(
    edges: seq<int>,      // when the line has changed
    starts: seq<int>,     // when the bit periods have started, the last one at the next event
    synced: bool,         // the transmission began with a sync nibble
    drift: int)           // how much longer the four measured periods took than configured
  {
    /** When the next event is due. */
    ghost function Wake(): (r: int)
      requires starts != []
    {
      starts[|starts|-1]
    }

    /** How long bit period k lasts. */
    ghost function Period(k: nat, cfgBitTime: u32, bitTime: u32): (r: int) {
      if !synced || k > 4 then bitTime
      else if k < 4 then cfgBitTime
      else drift + bitTime
    }

    /** The bit periods follow each other without a gap, and the edges are at their starts. */
    ghost predicate Spaced(cfgBitTime: u32, bitTime: u32) {
      && starts != []
      && (forall k :: 0 <= k < |starts| - 1 ==> starts[k+1] - starts[k] == Period(k, cfgBitTime, bitTime))
      && Ascending(starts)
      && (forall i :: 0 <= i < |edges| ==> edges[i] <= Wake())
    }

    /** The line is as the edges made it and everything sent so far was carried. */
    ghost predicate Sound(data: seq<u8>, lineHigh: bool, cfgBitTime: u32, bitTime: u32) {
      && Spaced(cfgBitTime, bitTime)
      && Carried(edges, starts, data)
      && (lineHigh <==> |edges| % 2 == 0)
    }

    /** One more bit period. */
    ghost function Longer(time: int): (r: Trace)
      requires starts != []
    {
      this.(starts := starts + [Wake() + time])
    }

    /** An edge now and the next event after the given time. */
    ghost function Tick(time: int): (r: Trace)
      requires starts != []
    {
      Longer(time).(edges := edges + [Wake()])
    }

    /** An edge in the sync nibble. */
    lemma SyncTick(data: seq<u8>, high: bool, cfgBitTime: u32, bitTime: u32, newDrift: int, newBitTime: u32)
      requires Sound(data, !high, cfgBitTime, bitTime) && synced && |starts| <= 5
      requires |starts| == 5 ==> newDrift + newBitTime >= 0
      requires Driven(data, |starts| - 1) <==> high
      ensures var time := if |starts| < 5 then cfgBitTime else newDrift + newBitTime;
              this.(drift := newDrift).Tick(time).Sound(data, high, cfgBitTime, newBitTime)
    {
      hide Driven, Carried, Ascending;
      var tr := this.(drift := newDrift);
      assert tr.Sound(data, !high, cfgBitTime, newBitTime);
      tr.LongerIsSpaced(cfgBitTime, newBitTime);
      var longer := tr.Longer(tr.Period(|starts| - 1, cfgBitTime, newBitTime));
      hide Trace.Sound, Trace.Spaced;
      tr.EdgeIsSound(longer, data, high, cfgBitTime, newBitTime);
    }

    /** A next event before the present one is out of order. */
    lemma TickBack(data: seq<u8>, high: bool, cfgBitTime: u32, newDrift: int, newBitTime: u32)
      requires starts != [] && newDrift + newBitTime < 0
      ensures !this.(drift := newDrift).Tick(newDrift + newBitTime).Sound(data, high, cfgBitTime, newBitTime)
    {
      var all := this.(drift := newDrift).Tick(newDrift + newBitTime).starts;
      assert all[|starts|] < all[|starts|-1];
    }

    /** The time up to bit p, found by going on from this trace while the bits have the given level. */
    ghost predicate Reaches(tr: Trace, data: seq<u8>, p: nat, level: bool, cfgBitTime: u32, bitTime: u32) {
      && 0 < |starts| <= p && |tr.starts| == p + 1
      && tr == this.(starts := tr.starts) && starts < tr.starts && tr.Spaced(cfgBitTime, bitTime)
      && forall k :: |starts| - 1 <= k < p ==> (Driven(data, k) <==> level)
    }

    lemma ReachesFirst(data: seq<u8>, level: bool, cfgBitTime: u32, bitTime: u32)
      requires Spaced(cfgBitTime, bitTime) && (synced ==> |starts| > 5) && (level <==> Driven(data, |starts| - 1))
      ensures Reaches(Longer(bitTime), data, |starts|, level, cfgBitTime, bitTime)
    {
      LongerIsSpaced(cfgBitTime, bitTime);
    }

    lemma ReachesNext(tr: Trace, data: seq<u8>, p: nat, level: bool, cfgBitTime: u32, bitTime: u32)
      requires Reaches(tr, data, p, level, cfgBitTime, bitTime) && (synced ==> p >= 5) && (level <==> Driven(data, p))
      ensures Reaches(tr.Longer(bitTime), data, p + 1, level, cfgBitTime, bitTime)
    {
      tr.LongerIsSpaced(cfgBitTime, bitTime);
    }

    lemma LongerIsSpaced(cfgBitTime: u32, bitTime: u32)
      requires Spaced(cfgBitTime, bitTime) && Period(|starts| - 1, cfgBitTime, bitTime) >= 0
      ensures Longer(Period(|starts| - 1, cfgBitTime, bitTime)).Spaced(cfgBitTime, bitTime)
    {
      var out := Longer(Period(|starts| - 1, cfgBitTime, bitTime));
      assert forall k: nat :: out.Period(k, cfgBitTime, bitTime) == Period(k, cfgBitTime, bitTime);
      hide Trace.Period;
    }

    /** An edge now is right if the bits of the periods that tr adds have the level that it gives. */
    lemma EdgeIsSound(tr: Trace, data: seq<u8>, high: bool, cfgBitTime: u32, bitTime: u32)
      requires Sound(data, !high, cfgBitTime, bitTime)
      requires tr == this.(starts := tr.starts) && starts < tr.starts && tr.Spaced(cfgBitTime, bitTime)
      requires forall k :: |starts| - 1 <= k < |tr.starts| - 1 ==> (Driven(data, k) <==> high)
      ensures tr.(edges := edges + [Wake()]).Sound(data, high, cfgBitTime, bitTime)
    {
      EdgeIsSpaced(tr, cfgBitTime, bitTime);
      assert starts != [] && forall i :: 0 <= i < |edges| ==> edges[i] <= Wake();
      assert Ascending(tr.starts);
      hide Driven, HighAt, Carried, Ascending, Trace.Spaced;
      EdgeCarries(edges, starts, tr.starts, data, high, Wake());
    }

    lemma EdgeIsSpaced(tr: Trace, cfgBitTime: u32, bitTime: u32)
      requires Spaced(cfgBitTime, bitTime) && starts < tr.starts && tr.Spaced(cfgBitTime, bitTime)
      requires tr == this.(starts := tr.starts)
      ensures tr.(edges := edges + [Wake()]).Spaced(cfgBitTime, bitTime)
    {
      var out := tr.(edges := edges + [Wake()]);
      assert forall k: nat :: out.Period(k, cfgBitTime, bitTime) == tr.Period(k, cfgBitTime, bitTime);
      hide Ascending, Trace.Period;
      assert tr.starts[|starts|-1] == Wake();
      LastIsGreatest(tr.starts, |starts| - 1);
    }
  }

  // ---------- The transmitter ----------

  /** The time that a new waketime stands for to the scheduler, which reads it next to the present one. */
  function DueAfter(due: int, waketime: u32, next: u32): (d: int) {
    due + Signed(Wrap(next - waketime))
  }

  /** The scheduler runs an event at the time that is meant exactly if that is less than 2^31 ticks ahead. */
  lemma InReach(due: int, waketime: u32, time: int)
    requires waketime == Wrap(due) && 0 <= time
    ensures Wrap(waketime + Wrap(time)) == Wrap(waketime + time) == Wrap(due + time)
    ensures DueAfter(due, waketime, Wrap(waketime + time)) == due + time <==> time < HALF
  {
    assert Signed(Wrap(time)) == time <==> time < HALF;
    hide Wrap, Signed;
    WrapStep(time, waketime);
    WrapStep(due, time);
    WrapStep(waketime + time, 0 - waketime);
  }

  /** Division by four to the nearest integer as in C, which truncates. */
  function Quarter(diff: int): (r: int) {
    if diff + 2 >= 0 then (diff + 2) / 4 else -(-(diff + 2) / 4)
  }

  /**
   The rounding is to the nearest integer unless the bits took less than configured; then a quarter
   is up to five quarters too large.
   */
  lemma QuarterIsNearest(diff: int)
    ensures -2 <= 4 * Quarter(diff) - diff <= 2 <==> diff >= -2 || diff % 4 == 2
    ensures -1 <= 4 * Quarter(diff) - diff <= 5
  {
  }

  lemma QuarterFacts(diff: int)
    ensures diff < 0 ==> Quarter(diff) <= 0
    ensures diff >= 0 ==> 0 <= Quarter(diff)
  {
  }

  /**
   After the sync nibble the bit time is the measured one, and the next event comes when it is
   meant to, exactly if that is not before this event and less than 2^31 ticks away.
   */
  lemma HandOver(was: Trace, data: seq<u8>, high: bool, cfgBitTime: u32, bitTime: u32,
                 diff: int, newBitTime: u32, due: int, waketime: u32)
    requires was.Sound(data, !high, cfgBitTime, bitTime) && was.synced && |was.starts| == 5
    requires (Driven(data, 4) <==> high) && due == was.Wake() && waketime == Wrap(due)
    requires newBitTime == Wrap(cfgBitTime + Quarter(diff))
    ensures var tr := was.(drift := diff).Tick(diff + newBitTime);
            var next := Wrap(waketime + diff + newBitTime);
            && newBitTime == cfgBitTime + Quarter(diff) && tr.Sound(data, high, cfgBitTime, newBitTime)
            && DueAfter(due, waketime, next) == tr.Wake() && next == Wrap(tr.Wake())
            <==> 0 <= diff + cfgBitTime + Quarter(diff) < HALF
  {
    QuarterFacts(diff);
    var time := diff + newBitTime;
    if 0 <= diff + cfgBitTime + Quarter(diff) < HALF {
      assert newBitTime == cfgBitTime + Quarter(diff);
      hide Wrap, Quarter, Trace.Sound, DueAfter;
      was.SyncTick(data, high, cfgBitTime, bitTime, diff, newBitTime);
      InReach(due, waketime, time);
    } else if newBitTime == cfgBitTime + Quarter(diff) {
      hide Wrap, Quarter, Trace.Sound, DueAfter;
      if time < 0 {
        was.TickBack(data, high, cfgBitTime, diff, newBitTime);
      } else {
        InReach(due, waketime, time);
      }
    }
  }

  /** An edge now keeps the waveform right, and the next event comes when it is meant to if that is near enough. */
  lemma EdgeOut(was: Trace, tr: Trace, data: seq<u8>, p: nat, high: bool, cfgBitTime: u32, bitTime: u32,
                due: int, waketime: u32, span: nat)
    requires was.Sound(data, !high, cfgBitTime, bitTime) && due == was.Wake() && waketime == Wrap(due)
    requires was.Reaches(tr, data, p, high, cfgBitTime, bitTime) && tr.Wake() == was.Wake() + span
    ensures var out := tr.(edges := was.edges + [due]);
            var next := Wrap(waketime + Wrap(span));
            && out.Sound(data, high, cfgBitTime, bitTime) && next == Wrap(out.Wake()) == Wrap(waketime + span)
            && (DueAfter(due, waketime, next) == out.Wake() <==> span < HALF)
  {
    hide Wrap, DueAfter, Trace.Sound;
    InReach(due, waketime, span);
    was.EdgeIsSound(tr, data, high, cfgBitTime, bitTime);
  }

  /** How many of the bits from k to n have the given level before the first one that does not. */
  function Equal(data: seq<u8>, k: nat, level: bool, n: nat): (e: nat)
    requires n <= 8 * |data|
    ensures k <= n ==> e <= n - k
    decreases n - k
  {
    if k >= n || Bit(data, k) != level then 0 else 1 + Equal(data, k + 1, level, n)
  }

  /** How long n bit periods are. */
  function Span(n: nat, time: u32): (s: nat) {
    ShortEnough(n, time);
    n * time
  }

  lemma OneMoreTime(n: nat, time: u32)
    ensures Span(n + 1, time) == Span(n, time) + time
  {
  }

  lemma ShortEnough(n: nat, time: u32)
    ensures n * time >= 0
  {
  }

  lemma AtMost(n: nat, time: u32)
    requires n <= 80 && time * 80 < HALF
    ensures Span(n, time) < HALF
  {
    ShortEnough(80 - n, time);
    assert (80 - n) * time == 80 * time - n * time;
  }

  datatype Handler = Idle | SendSync | Send | SendFinish | Reading

  datatype Timer = Timer(func: Handler, waketime: u32)

  datatype Request = Dropped | Started | TooLarge

  class Tmcuart {
    const cfgBitTime: u32
    const startDelay: u32
    var data: seq<u8>
    var lineHigh: bool
    var active: bool
    var pos: nat
    var readCount: nat
    var writeCount: nat
    var bitTime: u32
    var timer: Timer
    ghost var trace: Trace
    ghost var due: int               // when the scheduler runs the next event

    /** Everything sent so far was carried, and the scheduler runs the next event when it is meant to. */
    ghost predicate TraceOk()
      reads this
    {
      trace.Sound(data, lineHigh, cfgBitTime, bitTime) && due == trace.Wake() && timer.waketime == Wrap(due)
    }

    ghost predicate Valid()
      reads this
    {
      && |data| == DATA_SIZE && writeCount <= 8 * DATA_SIZE && startDelay < HALF
      && (active <==> timer.func != Idle)
      && (timer.func == Idle ==> lineHigh)
      && (timer.func == SendSync ==> SyncOk())
      && (timer.func == Send ==> SendOk())
      && (timer.func == SendFinish ==> FinishOk())
    }

    ghost predicate SyncOk()
      requires |data| == DATA_SIZE
      reads this
    {
      && TraceOk() && trace.synced && |trace.starts| == pos + 1
      && pos < 5 && writeCount >= 8 && StartsWithSync(data)
      && (lineHigh <==> pos % 2 == 0)
    }

    ghost predicate SendOk()
      reads this
    {
      && TraceOk() && |trace.starts| == pos + 1
      && (trace.synced ==> pos >= 5) && (pos < writeCount || pos == 0)
      && (lineHigh <==> !Driven(data, pos))
      && bitTime == cfgBitTime + Quarter(trace.drift)
    }

    /** All bit periods are over; without any data there still is one. */
    ghost predicate FinishOk()
      reads this
    {
      TraceOk() && |trace.starts| == (if writeCount == 0 then 1 else writeCount) + 1
    }

    constructor (cfgBitTime: u32, startDelay: u32)
      requires startDelay < HALF
      ensures Valid() && timer.func == Idle && this.cfgBitTime == cfgBitTime && this.startDelay == startDelay
      ensures data == [0, 0, 0, 0, 0, 0, 0, 0, 0, 0]
    {
      this.cfgBitTime, this.startDelay := cfgBitTime, startDelay;
      data := [0, 0, 0, 0, 0, 0, 0, 0, 0, 0];
      lineHigh, active, timer := true, false, Timer(Idle, 0);
      pos, readCount, writeCount := 0, 0, 0;
    }

    /** A request to send; a busy transmitter drops it and keeps what it is doing. */
    method CommandSend(write: seq<u8>, readLen: u8, now: u32) returns (r: Request)
      requires Valid()
      modifies this
      ensures Valid()
      ensures r == if old(active) then Dropped
                   else if |write| > DATA_SIZE || readLen > DATA_SIZE then TooLarge else Started
      ensures r != Started ==> unchanged(this)
      ensures r == Started ==>
                data == Copied(old(data), write) && writeCount == 8 * |write| && readCount == 8 * readLen
      ensures r == Started ==>
                var sync := 1 <= |write| && StartsWithSync(data);
                && trace == Trace([], [now + startDelay], sync, 0) && due == now + startDelay
                && timer == Timer(if sync then SendSync else Send, Wrap(due)) && pos == 0
                && (!sync ==> bitTime == cfgBitTime)
    {
      hide *;
      if active {
        r := Dropped;
      } else if |write| > DATA_SIZE || readLen > DATA_SIZE {
        r := TooLarge;
      } else {
        Begin(write, readLen, now);
        r := Started;
      }
    }

    /** The transmission begins after a pause, with the sync nibble if there is one. */
    method Begin(write: seq<u8>, readLen: u8, now: u32)
      requires Valid() && !active && |write| <= DATA_SIZE
      modifies `data, `active, `pos, `readCount, `writeCount, `bitTime, `timer, `trace, `due
      ensures Valid()
      ensures data == Copied(old(data), write) && writeCount == 8 * |write| && readCount == 8 * readLen
      ensures var sync := 1 <= |write| && StartsWithSync(data);
              && trace == Trace([], [now + startDelay], sync, 0) && due == now + startDelay
              && timer == Timer(if sync then SendSync else Send, Wrap(due)) && pos == 0
              && (!sync ==> bitTime == cfgBitTime)
    {
      assert Wrap(now) == now && Quarter(0) == 0;
      hide Wrap, Signed, DueAfter, StartsWithSync, Copied, Bit, Quarter;
      InReach(now, now, startDelay);
      data := Copied(data, write);
      pos, active := 0, true;
      writeCount, readCount := 8 * |write|, 8 * readLen;
      var handler := SendSync;
      if |write| == 0 || !StartsWithSync(data) {
        bitTime := cfgBitTime;
        handler := Send;
      }
      timer := Timer(handler, Wrap(now + startDelay));
      trace := Trace([], [now + startDelay], handler == SendSync, 0);
      due := DueAfter(now, now, timer.waketime);
    }

    /** Finds the next bit that differs from the level of bit pos, and how long that is from now. */
    method NextEdge(level: bool) returns (p: nat, next: u32, ghost tr: Trace)
      requires Valid() && timer.func == Send && (level <==> Driven(data, pos))
      ensures p == pos + Periods(level) && (p < writeCount ==> Bit(data, p) != level)
      ensures p >= writeCount ==> p == if writeCount == 0 then 1 else writeCount
      ensures Scanned(tr, p, level, next)
    {
      hide Bit, Wrap, Trace.Reaches, Trace.Sound, Carried, Tmcuart.Valid, Span;
      ScanBegins(level);
      p, next, tr := pos + 1, bitTime, trace.Longer(bitTime);
      while p < writeCount && Bit(data, p) == level
        invariant pos < p && (p <= writeCount || p == 1)
        invariant Equal(data, pos + 1, level, writeCount) == p - pos - 1 + Equal(data, p, level, writeCount)
        invariant Scanned(tr, p, level, next)
      {
        ScanGoesOn(tr, p, level, next);
        next := Wrap(next + bitTime);
        tr := tr.Longer(bitTime);
        p := p + 1;
      }
    }

    /** The state of the scan for the next edge at bit p. */
    ghost predicate Scanned(tr: Trace, p: nat, level: bool, next: u32)
      reads `trace, `data, `bitTime, `pos
    {
      && pos < p && tr.starts != [] && trace.starts != []
      && trace.Reaches(tr, data, p, level, cfgBitTime, bitTime)
      && next == Wrap(Span(p - pos, bitTime)) && tr.Wake() == trace.Wake() + Span(p - pos, bitTime)
    }

    lemma ScanBegins(level: bool)
      requires Valid() && timer.func == Send && (level <==> Driven(data, pos))
      ensures |data| == DATA_SIZE && writeCount <= 8 * DATA_SIZE && (pos < writeCount || pos == 0)
      ensures trace.starts != [] && (trace.synced ==> pos >= 5)
      ensures Scanned(trace.Longer(bitTime), pos + 1, level, bitTime)
    {
      trace.ReachesFirst(data, level, cfgBitTime, bitTime);
    }

    lemma ScanGoesOn(tr: Trace, p: nat, level: bool, next: u32)
      requires Scanned(tr, p, level, next) && (trace.synced ==> p >= 5) && (level <==> Driven(data, p))
      ensures Scanned(tr.Longer(bitTime), p + 1, level, Wrap(next + bitTime))
    {
      hide Wrap, Span, Trace.Reaches;
      OneMoreTime(p - pos, bitTime);
      WrapStep(Span(p - pos, bitTime), bitTime);
      trace.ReachesNext(tr, data, p, level, cfgBitTime, bitTime);
    }

    /** How many bit periods the line keeps a level from bit pos on. */
    function Periods(level: bool): (n: nat)
      requires writeCount <= 8 * |data|
      reads `pos, `writeCount, `data
    {
      1 + Equal(data, pos + 1, level, writeCount)
    }

    /**
     An edge, and the time of the next one: bits equal to the one that begins now need none. The
     waveform stays right exactly if the next event is less than 2^31 ticks away.
     */
    method SendEvent()
      requires Valid() && timer.func == Send
      modifies `lineHigh, `pos, `timer, `trace, `due
      ensures Valid() <==> Span(old(Periods(!lineHigh)), bitTime) < HALF
      ensures bitTime * 80 < HALF ==> Valid()
      ensures timer.func == if old(pos + Periods(!lineHigh)) >= writeCount then SendFinish else Send
      ensures trace.edges == old(trace.edges) + [old(due)] && old(trace.starts) < trace.starts
      ensures trace.synced == old(trace.synced) && trace.drift == old(trace.drift)
      ensures timer.waketime == Wrap(old(timer.waketime) + Span(old(Periods(!lineHigh)), bitTime))
      ensures due == DueAfter(old(due), old(timer.waketime), timer.waketime)
    {
      hide Bit, Quarter, Wrap, StartsWithSync, Trace.Sound, Trace.Spaced, DueAfter, Span, Equal;
      ghost var was := trace;
      var level := !lineHigh;
      var p, next, tr := NextEdge(level);
      ghost var n := p - pos;
      EdgeOut(was, tr, data, p, level, cfgBitTime, bitTime, due, timer.waketime, Span(n, bitTime));
      if bitTime * 80 < HALF {
        AtMost(n, bitTime);
      }
      lineHigh := level;
      due := DueAfter(due, timer.waketime, Wrap(timer.waketime + next));
      if p >= writeCount {
        // The line keeps its level to the end.
        timer := Timer(SendFinish, Wrap(timer.waketime + next));
      } else {
        pos := p;
        timer := Timer(Send, Wrap(timer.waketime + next));
      }
      trace := tr.(edges := was.edges + [was.Wake()]);
    }

    /** How much later than the first edge of the sync nibble, relative to its time, the last one came. */
    function Drift(cur: u32): (r: int)
      reads `bitTime, `timer
    {
      Signed(Wrap(Wrap(cur - timer.waketime) - bitTime))
    }

    /**
     An edge in the sync nibble, whose bits all differ. The clock is read right after the edge;
     after five edges it gives the bit time for the rest. The waveform stays right exactly if the
     next event is not before this one and less than 2^31 ticks away.
     */
    method SendSyncEvent(cur: u32)
      requires Valid() && timer.func == SendSync
      modifies `lineHigh, `pos, `bitTime, `timer, `trace, `due
      ensures pos == old(pos) + 1 && timer.func == (if pos == 5 then Send else SendSync)
      ensures Valid() <==> 0 <= (if pos == 5 then trace.drift + cfgBitTime + Quarter(trace.drift) else cfgBitTime) < HALF
      ensures trace.edges == old(trace.edges) + [old(due)] && old(trace.starts) < trace.starts
      ensures trace.synced && trace.drift == if pos == 5 then old(Drift(cur)) else old(trace.drift)
      ensures bitTime == if pos == 1 then Wrap(cur - old(timer.waketime))
                         else if pos == 5 then Wrap(cfgBitTime + Quarter(trace.drift)) else old(bitTime)
      ensures timer.waketime == Wrap(old(timer.waketime) + if pos == 5 then trace.drift + bitTime else cfgBitTime)
      ensures due == DueAfter(old(due), old(timer.waketime), timer.waketime)
    {
      hide Bit, StartsWithSync, Quarter, Wrap, Signed, Trace.Sound, Trace.Spaced, DueAfter;
      SyncBits(data);
      ghost var was := trace;
      lineHigh := !lineHigh;
      pos := pos + 1;
      if pos == 5 {
        // Four whole periods have been measured.
        var diff := Signed(Wrap(Wrap(cur - timer.waketime) - bitTime));
        var newBitTime := Wrap(cfgBitTime + Quarter(diff));
        HandOver(was, data, lineHigh, cfgBitTime, bitTime, diff, newBitTime, due, timer.waketime);
        due := DueAfter(due, timer.waketime, Wrap(timer.waketime + diff + newBitTime));
        bitTime := newBitTime;
        timer := Timer(Send, Wrap(timer.waketime + diff + bitTime));
        trace := was.(drift := diff).Tick(diff + bitTime);
      } else {
        var newBitTime := if pos == 1 then Wrap(cur - timer.waketime) else bitTime;
        was.SyncTick(data, lineHigh, cfgBitTime, bitTime, was.drift, newBitTime);
        InReach(due, timer.waketime, cfgBitTime);
        due := DueAfter(due, timer.waketime, Wrap(timer.waketime + cfgBitTime));
        if pos == 1 {
          // How late the first edge was.
          bitTime := newBitTime;
        }
        timer := Timer(SendSync, Wrap(timer.waketime + cfgBitTime));
        trace := was.Tick(cfgBitTime);
      }
    }

    /** All bits are sent: without an answer to read the line goes back to idle. */
    method SendFinishEvent()
      requires Valid() && timer.func == SendFinish
      modifies `lineHigh, `active, `pos, `timer
      ensures Valid() && timer.func == (if readCount == 0 then Idle else Reading)
      ensures readCount != 0 ==>
                lineHigh == old(lineHigh) && pos == 0 && timer.waketime == Wrap(old(timer.waketime) + bitTime * 4)
    {
      if readCount == 0 {
        lineHigh, active, timer := true, false, timer.(func := Idle);
        return;
      }
      pos := 0;
      timer := Timer(Reading, Wrap(timer.waketime + bitTime * 4));
    }

    /**
     When a transmission has ended, each bit of the data was on the line for its bit period,
     provided the first bit is a start bit, that is 0; all other bits are right in any case.
     */
    lemma BitsWereOnTheLine(k: nat, t: int)
      requires Valid() && timer.func == SendFinish && k < writeCount
      requires k + 1 < |trace.starts| && trace.starts[k] <= t < trace.starts[k+1]
      ensures HighAt(trace.edges, t) == Bit(data, k) <==> k > 0 || !Bit(data, 0)
    {
      hide Bit, HighAt;
      assert HighAt(trace.edges, t) <==> Driven(data, k);
    }
  }

  /** One of the first four edges of a sync nibble: all but the noted time is as configured. */
  method EarlyEdge(t: Tmcuart, cur: u32)
    requires t.Valid() && t.timer.func == SendSync && t.pos < 4 && t.cfgBitTime < HALF
    modifies t
    ensures t.Valid() && t.timer == Timer(SendSync, Wrap(t.due)) && t.pos == old(t.pos) + 1
    ensures t.due == old(t.due) + t.cfgBitTime && t.trace.edges == old(t.trace.edges) + [old(t.due)]
    ensures t.bitTime == if t.pos == 1 then Wrap(cur - old(t.timer.waketime)) else old(t.bitTime)
  {
    ghost var due, waketime := t.due, t.timer.waketime;
    assert waketime == Wrap(due);
    hide Tmcuart.SyncOk, Quarter, Bit, Wrap, DueAfter;
    t.SendSyncEvent(cur);
    InReach(due, waketime, t.cfgBitTime);
  }

  lemma MeasuredWrap(first: int, last: int, due: int, time: int)
    ensures Wrap(Wrap(Wrap(last) - Wrap(due + time)) - Wrap(Wrap(first) - Wrap(due))) == Wrap(last - first - time)
  {
    hide Wrap;
    WrapCongruent(first, due);
    WrapCongruent(last, due + time);
    WrapCongruent(last - (due + time), first - due);
  }

  /**
   The five edges of a sync nibble, read at the given times: the drift is how much longer the four
   bits between the first and the last edge took than configured.
   */
  method SyncNibble(t: Tmcuart, ghost first: int, ghost last: int, now: u32, cur: u32)
    requires t.Valid() && t.timer.func == SendSync && t.pos == 0 && t.cfgBitTime < HALF
    requires now == Wrap(first) && cur == Wrap(last)
    requires -HALF <= last - first - 4 * t.cfgBitTime < HALF
    modifies t
    ensures t.trace.drift == last - first - 4 * t.cfgBitTime && t.timer.func == Send
    ensures t.bitTime == Wrap(t.cfgBitTime + Quarter(t.trace.drift))
    ensures t.Valid() ==> -1 <= 4 * t.bitTime - (last - first) <= 5
  {
    ghost var due := t.due;
    TimerAtDue(t);
    hide *;
    FourEarlyEdges(t, now);
    MeasuredWrap(first, last, due, 4 * t.cfgBitTime);
    SignedExact(last - first - 4 * t.cfgBitTime);
    DriftOf(t, cur);
    t.SendSyncEvent(cur);
    QuarterIsNearest(t.trace.drift);
    if t.Valid() {
      SentBitTime(t);
    }
  }

  method FourEarlyEdges(t: Tmcuart, now: u32)
    requires t.Valid() && t.timer.func == SendSync && t.pos == 0 && t.cfgBitTime < HALF
    modifies t
    ensures t.Valid() && t.timer == Timer(SendSync, Wrap(old(t.due) + 4 * t.cfgBitTime)) && t.pos == 4
    ensures t.bitTime == Wrap(now - Wrap(old(t.due)))
  {
    TimerAtDue(t);
    hide *;
    EarlyEdge(t, now);
    EarlyEdge(t, 0);
    EarlyEdge(t, 0);
    EarlyEdge(t, 0);
  }

  lemma DriftOf(t: Tmcuart, cur: u32)
    ensures t.Drift(cur) == Signed(Wrap(Wrap(cur - t.timer.waketime) - t.bitTime))
  {
  }

  lemma TimerAtDue(t: Tmcuart)
    requires t.Valid() && t.timer.func == SendSync
    ensures t.timer.waketime == Wrap(t.due)
  {
  }

  lemma SentBitTime(t: Tmcuart)
    requires t.Valid() && t.timer.func == Send
    ensures t.bitTime == t.cfgBitTime + Quarter(t.trace.drift)
  {
  }

  /** Four of five edges of a sync nibble at 100 ticks a bit, the first one noted 500 ticks late. */
  method FourEdges() returns (t: Tmcuart)
    ensures fresh(t) && t.Valid() && t.timer == Timer(SendSync, 420) && t.due == 420 && t.pos == 4
    ensures t.cfgBitTime == 100 && t.bitTime == 500 && t.trace.edges == [20, 120, 220, 320]
  {
    hide Tmcuart.Valid, Quarter, Bit;
    t := new Tmcuart(100, 20);
    var r := t.CommandSend([0x2a], 0, 0);
    EarlyEdge(t, 520);
    EarlyEdge(t, 120);
    EarlyEdge(t, 220);
    EarlyEdge(t, 320);
  }

  lemma LateNumbers()
    ensures Signed(Wrap(Wrap(420 - 420) - 500)) == -500 && Quarter(-500) == -124
    ensures var next := Wrap(420 + (-500 + Wrap(100 + -124)));
            DueAfter(420, 420, next) == 420 - 524 && TimerIsBefore(next, 420)
  {
  }

  /**
   A first edge that is noted 500 ticks late at 100 ticks a bit: the measured bit time comes out
   negative, and the edge of bit 5 is scheduled 524 ticks before the edge of bit 4.
   */
  method LateFirstEdge() returns (t: Tmcuart)
    ensures fresh(t) && t.timer.func == Send && t.cfgBitTime == 100 && !t.Valid()
    ensures t.trace.edges == [20, 120, 220, 320, 420] && t.trace.drift == -500
    ensures t.due == 420 - 524 && TimerIsBefore(t.timer.waketime, 420)
  {
    hide Tmcuart.Valid, Bit, Wrap, Signed, Quarter, DueAfter, TimerIsBefore;
    LateNumbers();
    t := FourEdges();
    assert t.Drift(420) == -500;
    t.SendSyncEvent(420);
  }

  /** The first bit of the byte 1 is 1 and the others are 0. */
  lemma OnlyFirstBit(data: seq<u8>)
    requires data != [] && data[0] == 1
    ensures Bit(data, 0) && !StartsWithSync(data)
  {
    assert BitWeight(0) == 1;
  }

  /** A first bit of 1: the line is low in its bit period. */
  method FirstBitLost() returns (t: Tmcuart)
    ensures fresh(t) && t.Valid() && t.writeCount == 8 && Bit(t.data, 0)
    ensures t.trace.starts != [] && t.trace.starts[0] == 20 && t.trace.edges == [20] && !HighAt(t.trace.edges, 20)
  {
    hide Tmcuart.Valid, Bit, StartsWithSync;
    t := new Tmcuart(100, 20);
    var r := t.CommandSend([1], 0, 0);
    assert t.data[..1] == [1];
    OnlyFirstBit(t.data);
    t.SendEvent();
    OneMoreEdge([], 20, 20);
  }
}
