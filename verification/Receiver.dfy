/**
 The firmware's receiver: it finds message blocks in a byte stream, drops what is not a
 block up to the next sync byte, and accepts blocks in the order of their sequence numbers.
 */
module Receivers {
  import opened Bytes
  import opened Frames

  type seqnr = x: int | 0x10 <= x < 0x20 witness 0x10

  function NextSeq(n: seqnr): (r: seqnr) {
    (n + 1) % 16 + 0x10
  }

  datatype State = State(needSync: bool, needValid: bool, next: seqnr)

  /** What the receiver sends or starts: a dispatched block, or a nak that asks for block next. */
  datatype Event = Dispatch(block: seq<u8>) | Nak(next: seqnr, lostSync: bool)

  datatype Found = Wait | Take(state: State, pop: nat, events: seq<Event>)

  predicate NoSync(s: seq<u8>) {
    MESSAGE_SYNC !in s
  }

  /** How many bytes go with the first sync byte; all of them if there is none. */
  function ThroughSync(s: seq<u8>): (n: nat)
    ensures n <= |s| && (s != [] ==> n > 0)
    ensures MESSAGE_SYNC in s <==> n > 0 && s[n-1] == MESSAGE_SYNC
    ensures MESSAGE_SYNC !in s ==> n == |s|
    ensures n > 0 ==> MESSAGE_SYNC !in s[..n-1]
  {
    if s == [] then 0
    else if s[0] == MESSAGE_SYNC then 1
    else
      var n := ThroughSync(s[1..]);
      assert n > 0 ==> s[..n] == [s[0]] + s[1..][..n-1];
      n + 1
  }

  /** Drops bytes through the next sync byte; the first loss of sync since a valid block is answered by a nak. */
  function Resync(st: State, buf: seq<u8>): (r: Found) {
    Take(State(NoSync(buf), true, st.next), ThroughSync(buf),
         if st.needValid then [] else [Nak(st.next, true)])
  }

  /** One call of the block finder on the bytes in the buffer. */
  function Find(st: State, buf: seq<u8>): (f: Found)
  {
    if buf != [] && st.needSync then Resync(st, buf)
    else
      match Check(buf)
      case MoreData => Wait
      case Bad => if buf[0] == MESSAGE_SYNC then Take(st, 1, []) else Resync(st, buf)
      case Good(n) =>
        if buf[1] == st.next then Take(State(false, false, NextSeq(st.next)), n, [Dispatch(buf[..n])])
        else Take(State(false, false, st.next), n, [Nak(st.next, false)])
  }

  /** A call waits only with less than a full block in the buffer, and otherwise removes at least one byte. */
  lemma FindProgress(st: State, buf: seq<u8>)
    ensures Find(st, buf).Wait? ==> |buf| < MESSAGE_MAX
    ensures Find(st, buf).Take? ==> 0 < Find(st, buf).pop <= |buf|
  {
  }

  class Receiver {
    var nextSequence: seqnr
    var needSync: bool
    var needValid: bool
    ghost var events: seq<Event>

    ghost function St(): (r: State)
      reads this
    {
      State(needSync, needValid, nextSequence)
    }

    constructor ()
      ensures St() == State(false, false, 0x10) && events == []
    {
      nextSequence, needSync, needValid, events := 0x10, false, false, [];
    }

    /** Finds the next complete block: 1 if there is one to dispatch, 0 to wait, -1 if bytes are to be dropped. */
    method FindBlock(buf: seq<u8>) returns (ret: int, popCount: nat)
      modifies this
      ensures ret == 0 <==> Find(old(St()), buf).Wait?
      ensures ret == 0 ==> popCount == 0 && St() == old(St()) && events == old(events)
      ensures ret != 0 ==>
                var f := Find(old(St()), buf);
                && St() == f.state && popCount == f.pop && events == old(events) + f.events
                && (ret == 1 <==> f.events != [] && f.events[0].Dispatch?)
    {
      hide SumMatches, CrcHi, CrcLo, CrcOf;
      if buf != [] && needSync {
        popCount := SkipToSync(buf);
        return -1, popCount;
      }
      if |buf| < MESSAGE_MIN {
        return 0, 0;
      }
      var msglen := buf[0];
      var bad := msglen < MESSAGE_MIN || msglen > MESSAGE_MAX || buf[1] / 16 != 1;
      if !bad {
        if |buf| < msglen {
          return 0, 0;
        }
        bad := buf[msglen-1] != MESSAGE_SYNC;
        if !bad {
          var crc := Crc16(buf[..msglen-3]);
          SumByBytes(buf, msglen);
          CrcSplit(buf[..msglen-3], crc);
          bad := buf[msglen-3] != ((crc >> 8) as bv8) as int || buf[msglen-2] != ((crc & 0xff) as bv8) as int;
        }
      }
      if bad {
        if buf[0] == MESSAGE_SYNC {
          // A sync byte on its own is skipped without a nak.
          return -1, 1;
        }
        needSync := true;
        popCount := SkipToSync(buf);
        return -1, popCount;
      }
      needValid := false;
      if buf[1] != nextSequence {
        // A block is missing; later ones are dropped until it comes.
        events := events + [Nak(nextSequence, false)];
        return -1, msglen;
      }
      nextSequence := (buf[1] + 1) % 16 + 0x10;
      events := events + [Dispatch(buf[..msglen])];
      return 1, msglen;
    }

    /** Looks for the next sync byte and answers the first loss of sync. */
    method SkipToSync(buf: seq<u8>) returns (n: nat)
      requires buf != [] && needSync
      modifies this
      ensures var f := Resync(old(St()), buf);
              St() == f.state && n == f.pop && events == old(events) + f.events
    {
      n := 0;
      while n < |buf| && buf[n] != MESSAGE_SYNC
        invariant 0 <= n <= |buf| && MESSAGE_SYNC !in buf[..n]
      {
        n := n + 1;
      }
      if n < |buf| {
        n := n + 1;
        needSync := false;
        ThroughFirst(buf, n);
      } else {
        assert buf[..n] == buf;
      }
      if !needValid {
        needValid := true;
        events := events + [Nak(nextSequence, true)];
      }
    }
  }

  lemma ThroughFirst(s: seq<u8>, n: nat)
    requires 0 < n <= |s| && s[n-1] == MESSAGE_SYNC && MESSAGE_SYNC !in s[..n-1]
    ensures ThroughSync(s) == n && MESSAGE_SYNC in s
  {
    var k := ThroughSync(s);
    assert s[n-1] in s;
  }

  lemma CrcSplit(s: seq<u8>, crc: bv16)
    requires crc == CrcOf(s)
    ensures ((crc >> 8) as bv8) as int == CrcHi(s)
    ensures ((crc & 0xff) as bv8) as int == CrcLo(s)
  {
  }

  // ---------- Runs of the receiver ----------

  /** State, unread bytes and events after the block finder has been called until it waits. */
  datatype Outcome = Outcome(state: State, rest: seq<u8>, events: seq<Event>)

  function Drain(st: State, buf: seq<u8>): (r: Outcome)
    decreases |buf|
  {
    match Find(st, buf)
    case Wait => Outcome(st, buf, [])
    case Take(st', pop, ev) =>
      FindProgress(st, buf);
      var o := Drain(st', buf[pop..]);
      o.(events := ev + o.events)
  }

  /** Lost sync always counts as answered. */
  predicate Sane(st: State) {
    st.needSync ==> st.needValid
  }

  lemma FindKeepsSane(st: State, buf: seq<u8>)
    requires Sane(st) && Find(st, buf).Take?
    ensures Sane(Find(st, buf).state)
  {
  }

  lemma ThroughSyncExtends(s: seq<u8>, more: seq<u8>)
    ensures MESSAGE_SYNC in s ==> ThroughSync(s + more) == ThroughSync(s)
    ensures MESSAGE_SYNC !in s ==> ThroughSync(s + more) == |s| + ThroughSync(more)
    ensures MESSAGE_SYNC in s + more <==> MESSAGE_SYNC in s || MESSAGE_SYNC in more
  {
    if s == [] {
      assert s + more == more;
    } else if s[0] != MESSAGE_SYNC {
      assert (s + more)[1..] == s[1..] + more;
      ThroughSyncExtends(s[1..], more);
    }
  }

  /** A call that does not wait does the same with more bytes, unless it skips to the end of the buffer. */
  lemma FindExtends(st: State, s: seq<u8>, more: seq<u8>)
    requires Sane(st) && Find(st, s).Take?
    ensures var f, g := Find(st, s), Find(st, s + more);
            if f.state.needSync then
              && f.pop == |s| && f.state.needValid
              && g == Take(State(NoSync(more), true, f.state.next), |s| + ThroughSync(more), f.events)
            else g == f
  {
    hide CrcHi, CrcLo, CrcOf, Check;
    ThroughSyncExtends(s, more);
    CheckFacts(s);
    if s != [] && st.needSync {
    } else {
      CheckExtends(s, more);
      if Check(s).Good? {
        assert (s + more)[..Check(s).length] == s[..Check(s).length];
      }
    }
  }

  lemma CheckFacts(s: seq<u8>)
    ensures s == [] ==> Check(s).MoreData?
    ensures !Check(s).MoreData? ==> |s| >= 2
  {
  }

  lemma DrainNothing(st: State)
    ensures Drain(st, []) == Outcome(st, [], [])
  {
  }

  /** Skipping on through the bytes that follow is the same as skipping through all of them at once. */
  lemma SkipMerges(st: State, st': State, s: seq<u8>, more: seq<u8>)
    requires Sane(st) && Find(st, s).Take? && st' == Find(st, s).state && st'.needSync
    ensures var ev := Find(st, s).events;
            var o := Drain(st', more);
            Drain(st, s + more) == o.(events := ev + o.events)
  {
    hide Check, ThroughSync;
    FindExtends(st, s, more);
    FindProgress(st, s);
    var g := Find(st, s + more);
    var ev := Find(st, s).events;
    if more == [] {
      assert s + more == s && s[|s|..] == [];
      DrainNothing(st');
    } else {
      assert Find(st', more) == Resync(st', more);
      assert (s + more)[g.pop..] == more[ThroughSync(more)..];
      var o := Drain(g.state, more[ThroughSync(more)..]);
      assert [] + o.events == o.events;
    }
  }

  /** A call made before more bytes arrive fits into the run on all of them. */
  lemma TakeEarly(st: State, s: seq<u8>, more: seq<u8>)
    requires Sane(st) && Find(st, s).Take?
    ensures var f := Find(st, s);
            && f.pop <= |s|
            && (var o := Drain(f.state, s[f.pop..] + more);
                Drain(st, s + more) == o.(events := f.events + o.events))
  {
    hide Check, ThroughSync;
    var f := Find(st, s);
    FindProgress(st, s);
    FindExtends(st, s, more);
    if f.state.needSync {
      SkipMerges(st, f.state, s, more);
      assert s[f.pop..] + more == more;
    } else {
      assert (s + more)[f.pop..] == s[f.pop..] + more;
    }
  }

  lemma DrainStep(st: State, buf: seq<u8>)
    ensures match Find(st, buf)
            case Wait => Drain(st, buf) == Outcome(st, buf, [])
            case Take(st', pop, ev) =>
              pop <= |buf| && (var o := Drain(st', buf[pop..]); Drain(st, buf) == o.(events := ev + o.events))
  {
    hide Find;
    FindProgress(st, buf);
  }

  /** Feeding more bytes after draining gives what draining everything at once gives. */
  lemma {:induction false} DrainSplits(st: State, s: seq<u8>, more: seq<u8>)
    requires Sane(st)
    ensures var o := Drain(st, s);
            var p := Drain(o.state, o.rest + more);
            Drain(st, s + more) == p.(events := o.events + p.events)
    decreases |s|
  {
    hide Find, Drain;
    DrainStep(st, s);
    match Find(st, s)
    case Wait =>
      assert [] + Drain(st, s + more).events == Drain(st, s + more).events;
    case Take(st', pop, ev) =>
      FindProgress(st, s);
      FindKeepsSane(st, s);
      TakeEarly(st, s, more);
      DrainSplits(st', s[pop..], more);
      var o := Drain(st', s[pop..]);
      var p := Drain(o.state, o.rest + more);
      assert ev + (o.events + p.events) == (ev + o.events) + p.events;
  }

  /** What can happen: bytes arrive, or the block finder is called. */
  datatype Op = Arrive(bytes: seq<u8>) | Call

  function Arrived(ops: seq<Op>): (r: seq<u8>) {
    if ops == [] then []
    else (if ops[0].Arrive? then ops[0].bytes else []) + Arrived(ops[1..])
  }

  /** The receiver as it runs: bytes arrive in any pieces and calls come at any time. */
  function Exec(st: State, buf: seq<u8>, ops: seq<Op>): (r: Outcome)
    decreases |ops|
  {
    if ops == [] then Outcome(st, buf, [])
    else if ops[0].Arrive? then Exec(st, buf + ops[0].bytes, ops[1..])
    else
      match Find(st, buf)
      case Wait => Exec(st, buf, ops[1..])
      case Take(st', pop, ev) =>
        FindProgress(st, buf);
        var o := Exec(st', buf[pop..], ops[1..]);
        o.(events := ev + o.events)
  }

  /**
   However the bytes are cut into pieces and whenever the receiver is called, once it has
   caught up it has dispatched the same blocks and sent the same naks, in the same order,
   as a receiver that gets the whole stream at once.
   */
  lemma {:induction false} ChunkingDoesNotMatter(st: State, buf: seq<u8>, ops: seq<Op>)
    requires Sane(st)
    ensures var o := Exec(st, buf, ops);
            var p := Drain(o.state, o.rest);
            Drain(st, buf + Arrived(ops)) == p.(events := o.events + p.events)
    decreases |ops|
  {
    hide Find;
    if ops == [] {
      assert buf + Arrived(ops) == buf;
      assert [] + Drain(st, buf).events == Drain(st, buf).events;
    } else if ops[0].Arrive? {
      assert buf + Arrived(ops) == (buf + ops[0].bytes) + Arrived(ops[1..]);
      ChunkingDoesNotMatter(st, buf + ops[0].bytes, ops[1..]);
    } else {
      assert Arrived(ops) == Arrived(ops[1..]);
      match Find(st, buf)
      case Wait =>
        ChunkingDoesNotMatter(st, buf, ops[1..]);
      case Take(st', pop, ev) =>
        FindProgress(st, buf);
        FindKeepsSane(st, buf);
        TakeEarly(st, buf, Arrived(ops[1..]));
        ChunkingDoesNotMatter(st', buf[pop..], ops[1..]);
        var o := Exec(st', buf[pop..], ops[1..]);
        var p := Drain(o.state, o.rest);
        assert ev + (o.events + p.events) == (ev + o.events) + p.events;
    }
  }

  // ---------- Order of accepted blocks and naks ----------

  /** The blocks that the events dispatch carry consecutive sequence numbers from n on, and every nak asks for the next one. */
  ghost predicate InSequence(events: seq<Event>, n: seqnr)
    decreases |events|
  {
    events != [] ==>
      match events[0]
      case Dispatch(b) => |b| >= 2 && b[1] == n && InSequence(events[1..], NextSeq(n))
      case Nak(k, _) => k == n && InSequence(events[1..], n)
  }

  lemma {:induction false} AcceptedInSequence(st: State, buf: seq<u8>)
    ensures InSequence(Drain(st, buf).events, st.next)
    decreases |buf|
  {
    match Find(st, buf)
    case Wait =>
    case Take(st', pop, ev) =>
      FindProgress(st, buf);
      AcceptedInSequence(st', buf[pop..]);
      var o := Drain(st', buf[pop..]);
      if ev == [] {
        assert ev + o.events == o.events;
      } else {
        assert (ev + o.events)[0] == ev[0] && (ev + o.events)[1..] == o.events;
      }
  }

  /** The sequence byte of the block with the given number, as the host fills it in. */
  function Number(count: nat): (n: seqnr) {
    count % 16 + 0x10
  }

  /** It names the host's destination and carries the four low bits of the number. */
  lemma NumberBits(count: nat)
    ensures Number(count) / 16 == 1 && Number(count) % 16 == count % 16
  {
  }

  lemma NumberNext(count: nat)
    ensures NextSeq(Number(count)) == Number(count + 1)
  {
  }

  lemma NumberOf(n: seqnr)
    ensures Number(n) == n
  {
  }

  /** The dispatched blocks. */
  function Accepted(events: seq<Event>): (r: seq<seq<u8>>) {
    if events == [] then []
    else (if events[0].Dispatch? then [events[0].block] else []) + Accepted(events[1..])
  }

  /** The k-th block dispatched, and every nak sent after k of them, carries the number n + k. */
  ghost predicate Numbered(events: seq<Event>, n: nat) {
    && (forall k :: 0 <= k < |Accepted(events)| ==> Carries(Accepted(events)[k], n + k))
    && (forall i {:trigger events[i]} :: 0 <= i < |events| && events[i].Nak? ==>
          events[i].next == Number(n + |Accepted(events[..i])|))
  }

  /** The block is for the host's destination and carries the four low bits of the number. */
  ghost predicate Carries(b: seq<u8>, number: nat) {
    |b| >= 2 && b[1] / 16 == 1 && b[1] % 16 == number % 16
  }

  lemma AcceptedParts(events: seq<Event>)
    requires events != []
    ensures Accepted(events) == (if events[0].Dispatch? then [events[0].block] else []) + Accepted(events[1..])
  {
  }

  /** The blocks of events are numbered from n if those behind the first event are from m. */
  lemma BlocksNumbered(events: seq<Event>, n: nat, m: nat)
    requires events != [] && m == (if events[0].Dispatch? then n + 1 else n)
    requires events[0].Dispatch? ==> Carries(events[0].block, n)
    requires Numbered(events[1..], m)
    ensures forall k :: 0 <= k < |Accepted(events)| ==> Carries(Accepted(events)[k], n + k)
  {
    AcceptedParts(events);
    var rest := events[1..];
    hide Accepted, Carries;
    forall k | 0 <= k < |Accepted(events)| ensures Carries(Accepted(events)[k], n + k) {
      if k > 0 || !events[0].Dispatch? {
        assert Carries(Accepted(rest)[k + n - m], m + (k + n - m));
      }
    }
  }

  lemma PartTail<T>(s: seq<T>, i: nat)
    requires 0 < i <= |s|
    ensures s[..i][1..] == s[1..][..i-1]
  {
  }

  lemma NaksNumbered(events: seq<Event>, n: nat, m: nat, i: nat)
    requires events != [] && m == (if events[0].Dispatch? then n + 1 else n)
    requires events[0].Nak? ==> events[0].next == Number(n)
    requires Numbered(events[1..], m) && i < |events| && events[i].Nak?
    ensures events[i].next == Number(n + |Accepted(events[..i])|)
  {
    if i > 0 {
      var rest := events[1..];
      assert rest[i-1] == events[i];
      AcceptedParts(events[..i]);
      PartTail(events, i);
      assert events[..i][0] == events[0];
    } else {
      assert events[..0] == [] && Accepted([]) == [];
    }
  }

  lemma FirstInSequence(events: seq<Event>, n: nat)
    requires events != [] && InSequence(events, Number(n))
    ensures events[0].Dispatch? ==> Carries(events[0].block, n) && InSequence(events[1..], Number(n + 1))
    ensures events[0].Nak? ==> events[0].next == Number(n) && InSequence(events[1..], Number(n))
  {
    NumberNext(n);
  }

  lemma {:induction false} SequenceIsNumbered(events: seq<Event>, n: nat)
    requires InSequence(events, Number(n))
    ensures Numbered(events, n)
    decreases |events|
  {
    if events != [] {
      var m := if events[0].Dispatch? then n + 1 else n;
      FirstInSequence(events, n);
      hide Number, NextSeq, InSequence;
      SequenceIsNumbered(events[1..], m);
      BlocksNumbered(events, n, m);
      forall i | 0 <= i < |events| && events[i].Nak?
        ensures events[i].next == Number(n + |Accepted(events[..i])|)
      {
        NaksNumbered(events, n, m, i);
      }
    }
  }

  /** Blocks are dispatched in the order of their numbers without a gap, and naks ask for the next number. */
  lemma AcceptedByNumber(st: State, buf: seq<u8>)
    ensures Numbered(Drain(st, buf).events, st.next)
  {
    AcceptedInSequence(st, buf);
    NumberOf(st.next);
    SequenceIsNumbered(Drain(st, buf).events, st.next);
  }

  /** Two naks for lost sync never follow each other without an answer to a valid block in between. */
  ghost predicate LostOnce(events: seq<Event>, answered: bool)
    decreases |events|
  {
    events != [] ==>
      var lost := events[0].Nak? && events[0].lostSync;
      !(lost && answered) && LostOnce(events[1..], lost)
  }

  lemma {:induction false} OneNakPerLoss(st: State, buf: seq<u8>)
    requires Sane(st)
    ensures LostOnce(Drain(st, buf).events, st.needValid)
    decreases |buf|
  {
    match Find(st, buf)
    case Wait =>
    case Take(st', pop, ev) =>
      FindProgress(st, buf);
      FindKeepsSane(st, buf);
      OneNakPerLoss(st', buf[pop..]);
      var o := Drain(st', buf[pop..]);
      if ev == [] {
        assert ev + o.events == o.events;
      } else {
        assert (ev + o.events)[0] == ev[0] && (ev + o.events)[1..] == o.events;
      }
  }

  // ---------- From sender to receiver ----------

  predicate Sendable(payloads: seq<seq<u8>>) {
    forall k :: 0 <= k < |payloads| ==> |payloads[k]| <= MESSAGE_PAYLOAD_MAX
  }

  /** The frames of payloads as the host sends them, numbered from its counter on. */
  function Sent(payloads: seq<seq<u8>>, count: nat): (r: seq<seq<u8>>)
    requires Sendable(payloads)
  {
    if payloads == [] then [] else [Frame(Number(count), payloads[0])] + Sent(payloads[1..], count + 1)
  }

  /** The block has the payload between header and trailer, and the number in its header. */
  ghost predicate CarriesAll(f: seq<u8>, payload: seq<u8>, number: nat) {
    |f| == |payload| + 5 && f[0] == |f| && Carries(f, number) && f[2..|f|-3] == payload
  }

  lemma FrameCarries(payload: seq<u8>, count: nat)
    requires |payload| <= MESSAGE_PAYLOAD_MAX
    ensures CarriesAll(Frame(Number(count), payload), payload, count)
  {
    hide Remainder, Frame;
    FrameLayout(Number(count), payload);
    NumberBits(count);
  }

  /** The k-th frame carries the k-th payload, and the counter at its place. */
  lemma {:induction false} SentAt(payloads: seq<seq<u8>>, count: nat, k: nat)
    requires Sendable(payloads) && k < |payloads|
    ensures |Sent(payloads, count)| == |payloads|
    ensures CarriesAll(Sent(payloads, count)[k], payloads[k], count + k)
    decreases |payloads|
  {
    hide Frame, Number, CarriesAll;
    SentLength(payloads, count);
    if k == 0 {
      FrameCarries(payloads[0], count);
    } else {
      SentAt(payloads[1..], count + 1, k - 1);
    }
  }

  lemma SentLength(payloads: seq<seq<u8>>, count: nat)
    requires Sendable(payloads)
    ensures |Sent(payloads, count)| == |payloads|
  {
  }

  function Joined(frames: seq<seq<u8>>): (r: seq<u8>) {
    if frames == [] then [] else frames[0] + Joined(frames[1..])
  }

  /** The bytes of the stream. */
  function Stream(payloads: seq<seq<u8>>, count: nat): (r: seq<u8>)
    requires Sendable(payloads)
  {
    Joined(Sent(payloads, count))
  }

  lemma StreamStep(payloads: seq<seq<u8>>, count: nat)
    requires payloads != [] && Sendable(payloads)
    ensures var f := Frame(Number(count), payloads[0]);
            && Sent(payloads, count) == [f] + Sent(payloads[1..], count + 1)
            && Stream(payloads, count) == f + Stream(payloads[1..], count + 1)
            && |f| >= 2 && f[1] == Number(count)
  {
    FrameSeq(Number(count), payloads[0]);
    var all, rest := Sent(payloads, count), Sent(payloads[1..], count + 1);
    hide *;
    JoinedStep(Frame(Number(count), payloads[0]), rest);
  }

  lemma JoinedStep(f: seq<u8>, rest: seq<seq<u8>>)
    ensures Joined([f] + rest) == f + Joined(rest)
  {
    assert ([f] + rest)[1..] == rest;
  }

  lemma FrameSeq(n: seqnr, payload: seq<u8>)
    requires |payload| <= MESSAGE_PAYLOAD_MAX
    ensures |Frame(n, payload)| >= 2 && Frame(n, payload)[1] == n
  {
  }

  /** The events are the dispatches of the blocks, each once and in order, and nothing else. */
  ghost predicate Dispatches(events: seq<Event>, blocks: seq<seq<u8>>) {
    |events| == |blocks| && forall k :: 0 <= k < |events| ==> events[k] == Dispatch(blocks[k])
  }

  /** A frame at the front of the buffer is dispatched if it carries the next number and answered by a nak if not. */
  lemma FrameIsFound(st: State, payload: seq<u8>, count: nat, rest: seq<u8>)
    requires !st.needSync && |payload| <= MESSAGE_PAYLOAD_MAX
    ensures var f := Frame(Number(count), payload);
            var hit := Number(count) == st.next;
            var o := Drain(State(false, false, if hit then Number(count + 1) else st.next), rest);
            Drain(st, f + rest) == o.(events := [if hit then Dispatch(f) else Nak(st.next, false)] + o.events)
  {
    hide Check, Frame, Number, Drain;
    NumberNext(count);
    var f := Frame(Number(count), payload);
    FrameIsGood(Number(count), payload, rest);
    FrameSeq(Number(count), payload);
    assert (f + rest)[1] == f[1] && (f + rest)[..|f|] == f && (f + rest)[|f|..] == rest;
    DrainStep(st, f + rest);
  }

  lemma DispatchesStep(f: seq<u8>, events: seq<Event>, blocks: seq<seq<u8>>)
    requires Dispatches(events, blocks)
    ensures Dispatches([Dispatch(f)] + events, [f] + blocks)
  {
  }

  /** A receiver in sync dispatches every block of a stream sent in order, once and in order, and sends no nak. */
  lemma {:induction false} StreamIsDispatched(st: State, payloads: seq<seq<u8>>, count: nat)
    requires !st.needSync && Sendable(payloads)
    requires st.next == Number(count)
    ensures var o := Drain(st, Stream(payloads, count));
            && Dispatches(o.events, Sent(payloads, count)) && o.rest == []
            && o.state.next == Number(count + |payloads|) && !o.state.needSync
    decreases |payloads|
  {
    hide Check, Frame, Find, Stream, Number, Sent, Drain, Sendable, Dispatches;
    if payloads == [] {
      EmptyStream(payloads, count);
      NothingSent(payloads, count);
      DrainNothing(st);
    } else {
      FirstIsSendable(payloads);
      var f, rest := Frame(Number(count), payloads[0]), Stream(payloads[1..], count + 1);
      StreamStep(payloads, count);
      FrameIsFound(st, payloads[0], count, rest);
      var st' := State(false, false, Number(count + 1));
      StreamIsDispatched(st', payloads[1..], count + 1);
      DispatchesStep(f, Drain(st', rest).events, Sent(payloads[1..], count + 1));
    }
  }

  lemma FirstIsSendable(payloads: seq<seq<u8>>)
    requires payloads != [] && Sendable(payloads)
    ensures |payloads[0]| <= MESSAGE_PAYLOAD_MAX && Sendable(payloads[1..])
  {
  }

  lemma NothingSent(payloads: seq<seq<u8>>, count: nat)
    requires payloads == []
    ensures Dispatches([], Sent(payloads, count))
  {
  }

  lemma EmptyStream(payloads: seq<seq<u8>>, count: nat)
    requires payloads == []
    ensures Stream(payloads, count) == []
  {
  }

  /** After any loss of sync, the next sync byte brings the receiver back: the stream behind it is dispatched in full. */
  lemma RecoversAtSync(st: State, junk: seq<u8>, payloads: seq<seq<u8>>, count: nat)
    requires Sane(st) && st.needSync && NoSync(junk) && st.next == Number(count)
    requires Sendable(payloads)
    ensures var o := Drain(st, junk + [MESSAGE_SYNC] + Stream(payloads, count));
            Dispatches(o.events, Sent(payloads, count)) && o.rest == []
  {
    hide Check;
    var head, tail := junk + [MESSAGE_SYNC], Stream(payloads, count);
    var s := head + tail;
    ThroughFirst(head, |head|);
    ThroughSyncExtends(head, tail);
    var st' := State(false, true, st.next);
    assert Find(st, s) == Take(st', |head|, []);
    assert s[|head|..] == tail;
    StreamIsDispatched(st', payloads, count);
    assert [] + Drain(st', tail).events == Drain(st', tail).events;
  }

  /** Naks for the given number, as many as asked for. */
  function Naks(next: seqnr, n: nat): (r: seq<Event>) {
    seq(n, _ => Nak(next, false))
  }

  /**
   Blocks that were sent behind a lost one are dropped, each with a nak that asks for the lost one;
   when the host sends again from there, all of that is dispatched.
   */
  lemma {:induction false} GapIsRepaired(st: State, late: seq<seq<u8>>, from: nat,
                                         payloads: seq<seq<u8>>, count: nat)
    requires !st.needSync && st.next == Number(count)
    requires Sendable(late) && Sendable(payloads)
    requires forall c :: from <= c < from + |late| ==> Number(c) != Number(count)
    ensures var o := Drain(st, Stream(late, from) + Stream(payloads, count));
            && |o.events| >= |late| && o.events[..|late|] == Naks(st.next, |late|)
            && Dispatches(o.events[|late|..], Sent(payloads, count)) && o.rest == []
    decreases |late|
  {
    hide Check, Frame, Find, Stream, Number, Sent, Drain, Sendable, Dispatches, Naks;
    var tail := Stream(payloads, count);
    if late == [] {
      EmptyStream(late, from);
      assert Stream(late, from) + tail == tail;
      StreamIsDispatched(st, payloads, count);
      NoNaks(st.next, Drain(st, tail).events);
    } else {
      FirstIsSendable(late);
      var f, rest := Frame(Number(from), late[0]), Stream(late[1..], from + 1);
      StreamStep(late, from);
      assert (f + rest) + tail == f + (rest + tail);
      FrameIsFound(st, late[0], from, rest + tail);
      var st' := State(false, false, st.next);
      GapIsRepaired(st', late[1..], from + 1, payloads, count);
      NaksStep(Drain(st', rest + tail).events, |late|, st.next);
    }
  }

  lemma NoNaks(next: seqnr, events: seq<Event>)
    ensures events[..0] == Naks(next, 0) && events[0..] == events
  {
  }

  lemma NaksStep(events: seq<Event>, n: nat, next: seqnr)
    requires n > 0 && |events| >= n - 1 && events[..n-1] == Naks(next, n - 1)
    ensures var all := [Nak(next, false)] + events; all[..n] == Naks(next, n) && all[n..] == events[n-1..]
  {
    var all := [Nak(next, false)] + events;
    forall i | 0 <= i < n ensures all[i] == Naks(next, n)[i] {
      assert i > 0 ==> all[i] == events[..n-1][i-1];
    }
  }

  /** Bytes that are no block are answered by one nak, and the stream behind the next sync byte is dispatched. */
  lemma GarbageIsAnswered(st: State, junk: seq<u8>, payloads: seq<seq<u8>>, count: nat)
    requires !st.needSync && !st.needValid && Check(junk).Bad? && NoSync(junk)
    requires Sendable(payloads) && st.next == Number(count)
    ensures var o := Drain(st, junk + [MESSAGE_SYNC] + Stream(payloads, count));
            && o.events != [] && o.events[0] == Nak(st.next, true)
            && Dispatches(o.events[1..], Sent(payloads, count)) && o.rest == []
  {
    CheckFacts(junk);
    hide Check, Drain, Sent, Dispatches, Stream, Number;
    var head, tail := junk + [MESSAGE_SYNC], Stream(payloads, count);
    var s := head + tail;
    assert s == junk + ([MESSAGE_SYNC] + tail) && s[0] == junk[0] && s[|head|..] == tail;
    CheckExtends(junk, [MESSAGE_SYNC] + tail);
    ThroughFirst(head, |head|);
    ThroughSyncExtends(head, tail);
    var st' := State(false, true, st.next);
    assert Find(st, s) == Take(st', |head|, [Nak(st.next, true)]);
    DrainStep(st, s);
    StreamIsDispatched(st', payloads, count);
    assert ([Nak(st.next, true)] + Drain(st', tail).events)[1..] == Drain(st', tail).events;
  }

  /** Sync bytes in front of a stream are skipped without an answer. */
  lemma {:induction false} SyncBytesAreSkipped(st: State, n: nat, payloads: seq<seq<u8>>, count: nat)
    requires !st.needSync && payloads != [] && Sendable(payloads) && st.next == Number(count)
    ensures var o := Drain(st, seq(n, _ => MESSAGE_SYNC) + Stream(payloads, count));
            Dispatches(o.events, Sent(payloads, count)) && o.rest == []
    decreases n
  {
    hide Drain, Sent, Dispatches, Stream, Number, Joined;
    var tail := Stream(payloads, count);
    var s := seq(n, _ => MESSAGE_SYNC) + tail;
    if n == 0 {
      assert s == tail;
      StreamIsDispatched(st, payloads, count);
    } else {
      var less := seq(n - 1, _ => MESSAGE_SYNC) + tail;
      assert s[1..] == less && s[0] == MESSAGE_SYNC;
      StreamIsLong(payloads, count);
      assert Find(st, s) == Take(st, 1, []);
      DrainStep(st, s);
      SyncBytesAreSkipped(st, n - 1, payloads, count);
      assert [] + Drain(st, less).events == Drain(st, less).events;
    }
  }

  lemma StreamIsLong(payloads: seq<seq<u8>>, count: nat)
    requires payloads != [] && Sendable(payloads)
    ensures |Stream(payloads, count)| >= MESSAGE_MIN
  {
    StreamStep(payloads, count);
  }
}
