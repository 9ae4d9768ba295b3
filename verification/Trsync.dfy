/**
 Synchronized triggers: a list of stop signals that a trigger dispatches exactly once.
 */
module Trsyncs {
  import opened Steppers

  /** The stop signal of a stepper; it is active while it waits in the list of a trigger. */
  class Signal {
    var next: Signal?
    var active: bool
    const stepper: Stepper
    ghost var calls: nat       // how often the signal has been dispatched

    constructor (stepper: Stepper)
      ensures this.stepper == stepper && next == null && !active && calls == 0
    {
      this.stepper := stepper;
      next, active, calls := null, false, 0;
    }
  }

  ghost predicate Chained(c: seq<Signal>, head: Signal?)
    reads c`next
  {
    && (if c == [] then head == null else head == c[0] && c[|c|-1].next == null)
    && forall i {:trigger c[i].next} :: 0 <= i < |c| - 1 ==> c[i].next == c[i+1]
  }

  lemma ChainHead(c: seq<Signal>, head: Signal?)
    requires Chained(c, head)
    ensures head == null <==> c == []
    ensures c != [] ==> head == c[0]
  {
  }

  lemma ChainTail(c: seq<Signal>, k: nat, head: Signal?)
    requires k < |c| && Chained(c[k..], head)
    ensures Chained(c[k+1..], c[k].next)
  {
    assert c[k..][1..] == c[k+1..];
  }

  lemma ChainCons(s: Signal, c: seq<Signal>, head: Signal?)
    requires Chained(c, head) && s.next == head
    ensures Chained([s] + c, s)
  {
  }

  /** Distinct signals of distinct steppers. */
  ghost predicate Separate(c: seq<Signal>) {
    forall i, j :: 0 <= i < j < |c| ==> c[i] != c[j] && c[i].stepper != c[j].stepper
  }

  lemma SeparateCons(s: Signal, c: seq<Signal>)
    requires Separate(c) && s !in c && s.stepper !in SteppersOf(c)
    ensures Separate([s] + c)
  {
    assert forall i :: 0 <= i < |c| ==> c[i].stepper in SteppersOf(c);
  }

  ghost function SteppersOf(c: seq<Signal>): (r: set<Stepper>) {
    set s | s in c :: s.stepper
  }

  /** A signal of the list that has been dispatched n times; its stepper may be moving. */
  ghost predicate Waits(s: Signal, n: nat)
    reads s`active, s`calls, s.stepper
  {
    s.active && s.calls == n && s.stepper.Valid()
  }

  /** A signal that has left the list after n dispatches; its stepper is stopped. */
  ghost predicate Fired(s: Signal, n: nat)
    reads s`active, s`next, s`calls, s.stepper
  {
    !s.active && s.next == null && s.calls == n && s.stepper.Valid() && s.stepper.Stopped()
  }

  /** The stepper was stopped; a position that was exact still is if it can be read back. */
  twostate predicate KeptPosition(st: Stepper)
    reads st
  {
    old(st.Tracked()) ==> (st.Tracked() <==> st.Readable())
  }

  ghost function CallsOf(c: seq<Signal>): (n: seq<nat>)
    reads c`calls
    ensures |n| == |c| && forall i :: 0 <= i < |c| ==> n[i] == c[i].calls
  {
    if c == [] then [] else [c[0].calls] + CallsOf(c[1..])
  }

  class Trsync {
    var signals: Signal?
    var canTrigger: bool
    var report: bool
    var triggerReason: int
    var expireReason: int
    ghost var sigs: seq<Signal>    // the signals of the list, first one first

    ghost predicate Valid()
      reads this, sigs, SteppersOf(sigs)
    {
      && Chained(sigs, signals) && Separate(sigs)
      && forall i :: 0 <= i < |sigs| ==> Waits(sigs[i], sigs[i].calls)
    }

    constructor ()
      ensures Valid() && sigs == [] && !canTrigger && triggerReason == 0
    {
      signals, sigs, canTrigger, report, triggerReason, expireReason := null, [], false, false, 0, 0;
    }

    /** Takes the first signal off the list and dispatches it. */
    method DispatchFirst()
      requires Chained(sigs, signals) && Separate(sigs) && signals != null && Waits(signals, signals.calls)
      modifies `signals, `sigs, signals, signals.stepper
      ensures sigs == old(sigs)[1..] && Chained(sigs, signals)
      ensures Fired(old(signals), old(signals.calls) + 1) && KeptPosition(old(signals).stepper)
    {
      hide Stepper.Valid, Stepper.Tracked, Stepper.Stopped, Stepper.Readable;
      var tss := signals;
      signals := tss.next;
      tss.next := null;
      tss.active := false;
      tss.calls := tss.calls + 1;
      sigs := sigs[1..];
      tss.stepper.Stop();
    }

    /** Dispatches all signals of the list. */
    method DispatchAll(ghost c: seq<Signal>, ghost n: seq<nat>)
      requires sigs == c && Chained(c, signals) && Separate(c)
      requires |n| == |c| && forall i :: 0 <= i < |c| ==> Waits(c[i], n[i])
      modifies `signals, `sigs, c, SteppersOf(c)
      ensures sigs == [] && signals == null
      ensures forall i :: 0 <= i < |c| ==> Fired(c[i], n[i] + 1) && KeptPosition(c[i].stepper)
    {
      hide Waits, Fired, Chained, Stepper.Tracked, Stepper.Readable;
      ghost var k := 0;
      ChainHead(sigs, signals);
      while signals != null
        invariant 0 <= k <= |c| && sigs == c[k..] && Chained(sigs, signals)
        invariant signals == null <==> k == |c|
        invariant forall i :: k <= i < |c| ==> Waits(c[i], n[i])
        invariant forall i :: 0 <= i < k ==> Fired(c[i], n[i] + 1) && KeptPosition(c[i].stepper)
        invariant forall i :: k <= i < |c| ==> unchanged(c[i].stepper)
        decreases |c| - k
      {
        ChainHead(sigs, signals);
        assert signals == c[k] && c[k] in c;
        WaitingCall(c[k], n[k]);
        DispatchFirst();
        k := k + 1;
        ChainHead(sigs, signals);
      }
    }

    lemma WaitingCall(s: Signal, n: nat)
      requires Waits(s, n)
      ensures s.calls == n
    {
    }

    /**
     Activates the trigger: every signal is taken off the list and its stepper stopped,
     once.  A trigger that has been activated already does nothing.
     */
    method DoTrigger(reason: int)
      requires Valid()
      modifies `signals, `canTrigger, `report, `triggerReason, `sigs, sigs, SteppersOf(sigs)
      ensures Valid() && !canTrigger
      ensures !old(canTrigger) ==>
                && sigs == old(sigs) && CallsOf(sigs) == old(CallsOf(sigs))
                && triggerReason == old(triggerReason) && report == old(report)
      ensures old(canTrigger) ==> sigs == [] && triggerReason == reason && report
      ensures old(canTrigger) ==> forall i :: 0 <= i < |old(sigs)| ==> Fired(old(sigs)[i], old(CallsOf(sigs))[i] + 1)
      ensures old(canTrigger) ==> forall i :: 0 <= i < |old(sigs)| ==> KeptPosition(old(sigs)[i].stepper)
    {
      hide Waits, Fired, CallsOf, Stepper.Tracked, Stepper.Readable;
      if !canTrigger {
        return;
      }
      triggerReason := reason;
      canTrigger, report := false, true;
      DispatchAll(sigs, CallsOf(sigs));
    }

    lemma NewWaits(s: Signal)
      requires s.active && s.stepper.Valid()
      ensures Waits(s, s.calls)
    {
    }

    /** Adds a signal to be dispatched by the trigger; refused with a shutdown if it is active already. */
    method AddSignal(s: Signal) returns (ok: bool)
      requires Valid() && s.stepper.Valid()
      requires !s.active ==> s !in sigs && s.stepper !in SteppersOf(sigs)
      modifies `signals, `sigs, s`active, s`next
      ensures ok <==> !old(s.active)
      ensures Valid() && sigs == if ok then [s] + old(sigs) else old(sigs)
    {
      hide Waits, Chained, Separate, SteppersOf, Stepper.Valid;
      ok := !s.active;
      if ok {
        ghost var c := sigs;
        SeparateCons(s, c);
        s.active := true;
        NewWaits(s);
        s.next := signals;
        ChainCons(s, c, signals);
        signals := s;
        sigs := [s] + c;
        assert forall i :: 1 <= i < |sigs| ==> sigs[i] == c[i-1] && sigs[i] in c;
      }
    }

    /** Unregisters all signals without dispatching them and disables the trigger. */
    method Clear()
      requires Valid()
      modifies `signals, `sigs, `canTrigger, `report, `triggerReason, `expireReason, sigs`next, sigs`active
      ensures Valid() && sigs == [] && !canTrigger && !report && triggerReason == 0 && expireReason == 0
      ensures forall s :: s in old(sigs) ==> !s.active && s.next == null
    {
      hide Waits, Chained;
      ghost var c, k := sigs, 0;
      var tss := signals;
      ChainHead(c, tss);
      while tss != null
        invariant 0 <= k <= |c| && Chained(c[k..], tss) && (tss == null <==> k == |c|)
        invariant forall i :: 0 <= i < k ==> !c[i].active && c[i].next == null
        decreases |c| - k
      {
        ChainHead(c[k..], tss);
        ChainTail(c, k, tss);
        var next := tss.next;
        tss.active := false;
        tss.next := null;
        tss := next;
        k := k + 1;
        ChainHead(c[k..], tss);
      }
      signals, sigs := null, [];
      canTrigger, report, triggerReason, expireReason := false, false, 0, 0;
    }

    /** Arms the trigger anew. */
    method Start(expireReason: int)
      requires Valid()
      modifies `signals, `sigs, `canTrigger, `report, `triggerReason, `expireReason, sigs`next, sigs`active
      ensures Valid() && sigs == [] && canTrigger && !report && triggerReason == 0 && this.expireReason == expireReason
      ensures forall s :: s in old(sigs) ==> !s.active && s.next == null
    {
      Clear();
      canTrigger := true;
      this.expireReason := expireReason;
    }

    /** The trigger command: activates the trigger and reports the reason of the first activation. */
    method CommandTrigger(reason: int) returns (reported: int)
      requires Valid()
      modifies `signals, `canTrigger, `report, `triggerReason, `sigs, sigs, SteppersOf(sigs)
      ensures Valid() && !canTrigger && !report
      ensures reported == triggerReason == if old(canTrigger) then reason else old(triggerReason)
      ensures old(canTrigger) ==> forall i :: 0 <= i < |old(sigs)| ==> Fired(old(sigs)[i], old(CallsOf(sigs))[i] + 1)
      ensures old(canTrigger) ==> forall i :: 0 <= i < |old(sigs)| ==> KeptPosition(old(sigs)[i].stepper)
    {
      hide Waits, Fired, CallsOf, Chained, Separate;
      DoTrigger(reason);
      canTrigger, report := false, false;
      reported := triggerReason;
    }
  }
}
