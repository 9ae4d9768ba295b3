/**
 The timer list of the firmware scheduler.

 Timers form a singly linked list that is changed in place.  The wake time of a timer
 is a 32-bit tick count; its ghost field wake is the unbounded time it stands for.
 A dispatch is split in two: RunNext starts the callback of the first timer, which may
 add and delete other timers, and FinishDone or FinishReschedule takes its result.
 */
module Sched {
  import opened Clock32

  // ---------- Ordered insertion on wake times ----------

  ghost predicate Sorted(ws: seq<int>) {
    forall i, j :: 0 <= i < j < |ws| ==> ws[i] <= ws[j]
  }

  class Timer {
    var next: Timer?
    var waketime: u32
    ghost var wake: int

    constructor (wake: int)
      ensures next == null && waketime == Wrap(wake) && this.wake == wake
    {
      next, waketime, this.wake := null, Wrap(wake), wake;
    }
  }

  /** The timers of c are linked in this order and no other one follows. */
  ghost predicate Linked(c: seq<Timer>)
    reads c`next
  {
    && c != []
    && (forall i {:trigger c[i].next} :: 0 <= i < |c| - 1 ==> c[i].next == c[i+1])
    && c[|c|-1].next == null
  }

  /** Where a new time goes in c: behind every timer that is not later. */
  ghost predicate IsSlot(c: seq<Timer>, k: nat, w: int)
    reads c`wake
  {
    && k < |c|
    && (forall i :: 0 <= i < k ==> c[i].wake <= w)
    && w < c[k].wake
  }

  lemma SlotIsUnique(c: seq<Timer>, k: nat, l: nat, w: int)
    requires SortedFrom(c, 0) && IsSlot(c, k, w) && IsSlot(c, l, w)
    ensures k == l
  {
  }

  /** Links t behind the timers after pos that are not later than waketime. */
  method InsertTimer(pos: Timer, t: Timer, waketime: u32, ghost c: seq<Timer>, ghost k: nat, ghost m: nat)
    requires Linked(c) && k < m < |c| && pos == c[k] && t != c[m-1]
    requires forall j :: k < j < m ==> !TimerIsBefore(waketime, c[j].waketime)
    requires TimerIsBefore(waketime, c[m].waketime)
    modifies t`next, {c[m-1]}`next
    ensures t.next == c[m] && c[m-1].next == t
    ensures t !in c && (forall i, j :: 0 <= i < j < |c| ==> c[i] != c[j]) ==> Linked(Inserted(c, m, t))
    ensures t == c[0] && 2 <= m && (forall i, j :: 0 <= i < j < |c| ==> c[i] != c[j]) ==>
              Linked(Inserted(c[1..], m - 1, t))
  {
    ghost var i := k;
    var prev, p := pos, pos;
    while true
      invariant k <= i < m && p == c[i]
      decreases m - i
    {
      prev := p;
      p := p.next;
      i := i + 1;
      assert p == c[i];
      if TimerIsBefore(waketime, p.waketime) {
        break;
      }
    }
    t.next := p;
    prev.next := t;
    if t !in c && (forall i, j :: 0 <= i < j < |c| ==> c[i] != c[j]) {
      LinkedInserted(c, m, t);
    }
    if t == c[0] && 2 <= m && (forall i, j :: 0 <= i < j < |c| ==> c[i] != c[j]) {
      LinkedInserted(c[1..], m - 1, t);
    }
  }

  /** The list c with the timer t put in at position k. */
  function Inserted(c: seq<Timer>, k: nat, t: Timer): (r: seq<Timer>)
    requires k <= |c|
  {
    c[..k] + [t] + c[k..]
  }

  lemma LinkedTail(c: seq<Timer>)
    requires Linked(c) && |c| >= 2
    ensures Linked(c[1..]) && c[0].next == c[1]
  {
  }

  lemma LinkedFront(t: Timer, c: seq<Timer>, d: seq<Timer>)
    requires Linked(c) && t.next == c[0] && d == [t] + c
    ensures Linked(d)
  {
    assert forall i :: 1 <= i < |d| ==> d[i] == c[i-1];
  }

  ghost predicate SortedFrom(c: seq<Timer>, k: nat)
    reads c`wake
  {
    forall i, j :: k <= i < j < |c| ==> c[i].wake <= c[j].wake
  }

  lemma LinkedInserted(c: seq<Timer>, k: nat, t: Timer)
    requires 0 < k < |c|
    requires forall i {:trigger c[i].next} :: 0 <= i < |c| - 1 && i != k - 1 ==> c[i].next == c[i+1]
    requires c[k-1].next == t && t.next == c[k] && c[|c|-1].next == null
    ensures Linked(Inserted(c, k, t))
  {
    var d := Inserted(c, k, t);
    forall i | 0 <= i < |d| - 1 ensures d[i].next == d[i+1] {
      if i >= k + 1 {
        assert d[i] == c[i-1] && d[i+1] == c[i];
      }
    }
  }

  /** The list c without its timer at position k. */
  function Removed(c: seq<Timer>, k: nat): (r: seq<Timer>)
    requires k < |c|
  {
    c[..k] + c[k+1..]
  }

  lemma LinkedRemoved(c: seq<Timer>, k: nat)
    requires 0 < k < |c| - 1
    requires forall i {:trigger c[i].next} :: 0 <= i < |c| - 1 && i != k - 1 ==> c[i].next == c[i+1]
    requires c[k-1].next == c[k+1] && c[|c|-1].next == null
    ensures Linked(Removed(c, k))
  {
    var d := Removed(c, k);
    forall i | 0 <= i < |d| - 1 ensures d[i].next == d[i+1] {
      if i >= k {
        assert d[i] == c[i+1] && d[i+1] == c[i+2];
      }
    }
  }

  lemma SortedInserted(c: seq<Timer>, k: nat, t: Timer)
    requires SortedFrom(c, 0) && k <= |c|
    requires forall i :: 0 <= i < k ==> c[i].wake <= t.wake
    requires k < |c| ==> t.wake < c[k].wake
    ensures SortedFrom(Inserted(c, k, t), 0)
  {
    var d := Inserted(c, k, t);
    forall i, j | 0 <= i < j < |d| ensures d[i].wake <= d[j].wake {
      assert i < k ==> d[i] == c[i];
      assert i > k ==> d[i] == c[i-1];
      assert j < k ==> d[j] == c[j];
      assert j > k ==> d[j] == c[j-1];
    }
  }

  class Scheduler {
    const periodic: Timer
    const sentinel: Timer
    const deleted: Timer
    var timerList: Timer
    var lastInsert: Timer
    ghost var nodes: seq<Timer>   // the timer list, first timer first
    ghost var running: bool       // the callback of the first timer is active
    ghost var floor: int          // no timer is due before this time
    ghost var log: seq<int>       // wake times of all callbacks so far

    ghost predicate User(t: Timer) {
      t != periodic && t != sentinel && t != deleted
    }

    /** c ends in the sentinel, holds the periodic timer, and the deleted timer can only be first. */
    ghost predicate Shape(c: seq<Timer>)
    {
      && periodic != sentinel && periodic != deleted && sentinel != deleted
      && |c| >= 2 && periodic in c && c[|c|-1] == sentinel
      && (forall i, j :: 0 <= i < j < |c| ==> c[i] != c[j])
      && (forall i :: 0 < i < |c| ==> c[i] != deleted)
    }

    /** Wake times are less than 2^31 ticks from the periodic timer, and the sentinel is exactly that far. */
    ghost predicate Window(c: seq<Timer>)
      reads `floor, c`wake, c`waketime, periodic`wake, sentinel`wake
    {
      && (forall i :: 0 <= i < |c| ==> c[i].waketime == Wrap(c[i].wake))
      && sentinel.wake == periodic.wake + HALF
      && periodic.wake - HALF <= floor
      && (forall i :: 0 <= i < |c| - 1 ==> floor <= c[i].wake < periodic.wake + HALF)
    }

    ghost predicate Logged()
      reads `log, `floor
    {
      Sorted(log) && (log != [] ==> log[|log|-1] <= floor)
    }

    /** The hint points into the list, at a timer that was not scheduled too far ahead. */
    ghost predicate Hinted(c: seq<Timer>)
      reads `lastInsert, `floor, lastInsert`wake
    {
      && lastInsert in c && lastInsert != sentinel && lastInsert != deleted
      && lastInsert.wake - HALF <= floor
    }

    /** All that Valid says of a timer list except how it is linked. */
    ghost predicate Ordered(c: seq<Timer>)
      reads `floor, `log, `running, c`wake, c`waketime, periodic`wake, sentinel`wake
    {
      && Shape(c) && Window(c) && SortedFrom(c, 0) && Logged()
      && (running ==> floor == c[0].wake)
    }

    ghost predicate Valid()
      reads this, nodes, periodic, sentinel, lastInsert
    {
      Ordered(nodes) && Linked(nodes) && Hinted(nodes) && timerList == nodes[0]
    }

    constructor ()
      ensures Valid() && !running && nodes == [periodic, sentinel] && log == []
    {
      var p := new Timer(0);
      var s := new Timer(HALF);
      periodic, sentinel, timerList, lastInsert := p, s, p, p;
      deleted := new Timer(0);
      nodes, running, floor, log := [p, s], false, 0, [];
      new;
      p.next := s;
    }

    lemma OrderedHasShape()
      requires Valid()
      ensures Shape(nodes)
    {
    }

    /** What the operations need to know of a valid list. */
    lemma Facts()
      requires Valid()
      ensures forall i, j :: 0 <= i < j < |nodes| ==> nodes[i] != nodes[j]
      ensures |nodes| >= 2 && nodes[|nodes|-1] == sentinel && periodic in nodes
      ensures forall i :: 0 < i < |nodes| ==> nodes[i] != deleted
      ensures periodic != sentinel && periodic != deleted && sentinel != deleted && timerList != sentinel
      ensures lastInsert in nodes && lastInsert != sentinel && lastInsert != deleted && lastInsert.wake - HALF <= floor
      ensures periodic.wake - HALF <= floor <= timerList.wake <= periodic.wake
      ensures timerList.waketime == Wrap(timerList.wake)
      ensures running ==> floor == timerList.wake
    {
    }

    /** Where the walk of an insertion stops, for a time less than 2^31 after the first of the timers passed. */
    lemma WalkStops(c: seq<Timer>, w: int, m: nat, low: int)
      requires Window(c) && low <= w < low + HALF
      requires 0 < m < |c|
      requires forall j :: 0 < j < m ==> low <= c[j].wake <= w
      requires w < c[m].wake <= w + HALF
      ensures forall j :: 0 < j < m ==> !TimerIsBefore(Wrap(w), c[j].waketime)
      ensures TimerIsBefore(Wrap(w), c[m].waketime)
    {
      forall j | 0 < j < m ensures !TimerIsBefore(Wrap(w), c[j].waketime) {
        BeforeIsLess(w, c[j].wake);
      }
      BeforeIsLess(w, c[m].wake);
    }

    /** The first later timer is at most 2^31 later, because the periodic timer or the sentinel comes in between. */
    lemma NextIsNear(c: seq<Timer>, w: int, m: nat)
      requires Shape(c) && Window(c) && SortedFrom(c, 1) && 0 < m < |c|
      requires floor <= w && (periodic in c[1..] || periodic.wake <= w)
      requires forall j :: 0 < j < m ==> c[j].wake <= w
      ensures c[m].wake <= w + HALF
    {
      assert c[|c|-1].wake == periodic.wake + HALF;
      if periodic.wake > w {
        var p :| 0 < p < |c| && c[p] == periodic;
        assert m <= p;
        assert c[m].wake <= c[p].wake;
      } else {
        assert c[m].wake <= c[|c|-1].wake;
      }
    }

    lemma InsertedShape(c: seq<Timer>, k: nat, t: Timer, d: seq<Timer>)
      requires Shape(c) && 0 < k < |c| && User(t) && t !in c && d == Inserted(c, k, t)
      ensures Shape(d) && d[0] == c[0] && forall n :: n in c ==> n in d
    {
      forall i | 0 <= i < |d| ensures d[i] == if i < k then c[i] else if i == k then t else c[i-1] {}
      forall n | n in c ensures n in d {
        var p :| 0 <= p < |c| && c[p] == n;
        assert d[if p < k then p else p + 1] == n;
      }
    }

    lemma InsertedWindow(c: seq<Timer>, k: nat, t: Timer, d: seq<Timer>)
      requires Window(c) && 0 < k < |c| && d == Inserted(c, k, t)
      requires t.waketime == Wrap(t.wake) && floor <= t.wake < periodic.wake + HALF
      ensures Window(d)
    {
      forall i | 0 <= i < |d| ensures d[i] == if i < k then c[i] else if i == k then t else c[i-1] {}
    }

    /** The first k of the timers that are not later than w. */
    ghost function CountUpTo(c: seq<Timer>, w: int, k: nat): (n: nat)
      reads c`wake
      requires k <= |c|
      ensures n <= |c| && k <= n
      ensures forall i :: k <= i < n ==> c[i].wake <= w
      ensures n < |c| ==> w < c[n].wake
      decreases |c| - k
    {
      if k == |c| || w < c[k].wake then k else CountUpTo(c, w, k + 1)
    }

    /** The place of a time not earlier than the first timer, and where the walk to it stops. */
    lemma PlaceOf(w: int) returns (m: nat)
      requires Valid() && 0 <= w - timerList.wake < HALF
      ensures IsSlot(nodes, m, w) && 0 < m < |nodes|
      ensures forall j :: 0 < j < m ==> !TimerIsBefore(Wrap(w), nodes[j].waketime)
      ensures TimerIsBefore(Wrap(w), nodes[m].waketime)
      ensures floor <= w < periodic.wake + HALF
    {
      m := CountUpTo(nodes, w, 0);
      Facts();
      NextIsNear(nodes, w, m);
      WalkStops(nodes, w, m, timerList.wake);
    }

    /** With the wake time of add set, the list with add at its slot keeps everything but the links. */
    lemma PlacedKeeps(c: seq<Timer>, m: nat, add: Timer, d: seq<Timer>)
      requires Ordered(c) && Hinted(c)
      requires User(add) && add !in c && add.waketime == Wrap(add.wake)
      requires IsSlot(c, m, add.wake) && 0 < m && d == Inserted(c, m, add)
      requires floor <= add.wake < periodic.wake + HALF
      ensures Ordered(d) && Hinted(d) && d[0] == c[0]
    {
      SortedInserted(c, m, add);
      InsertedShape(c, m, add, d);
      InsertedWindow(c, m, add, d);
    }

    /** Links add, which is not earlier than the first timer, into the list. */
    method AddBehind(add: Timer, ghost wake: int) returns (ghost m: nat)
      requires Valid() && User(add) && add !in nodes && add.waketime == Wrap(wake)
      requires 0 <= wake - timerList.wake < HALF
      modifies `nodes, nodes`next, add`next, add`wake
      ensures Valid() && add.wake == wake
      ensures old(IsSlot(nodes, m, wake)) && nodes == Inserted(old(nodes), m, add)
    {
      hide Ordered, Hinted, Linked, IsSlot, Inserted;
      ghost var c := nodes;
      m := PlaceOf(wake);
      Facts();
      add.wake := wake;
      ghost var d := Inserted(c, m, add);
      PlacedKeeps(c, m, add, d);
      assert Ordered(d) && Hinted(d);
      InsertTimer(timerList, add, add.waketime, c, 0, m);
      assert Ordered(d) && Hinted(d);
      nodes := d;
    }

    /** The timer list without the deleted timer. */
    function Live(c: seq<Timer>): (r: seq<Timer>)
      requires c != []
    {
      if c[0] == deleted then c[1..] else c
    }

    /** All that matters of the timers other than the deleted one. */
    ghost predicate LiveOrdered(c: seq<Timer>)
      reads `floor, `log, c`wake, c`waketime, periodic`wake, sentinel`wake
    {
      deleted !in c && Shape(c) && Window(c) && SortedFrom(c, 0) && Logged()
    }

    lemma LiveIsOrdered(c: seq<Timer>)
      requires Ordered(c)
      ensures LiveOrdered(Live(c)) && Live(c)[0].wake >= c[0].wake
      ensures Linked(c) ==> Linked(Live(c)) && (c[0] == deleted ==> deleted.next == Live(c)[0])
      ensures forall t :: t in Live(c) ==> t in c && t != deleted
      ensures forall t :: t in c && t != deleted ==> t in Live(c)
      ensures periodic in c && sentinel in c && periodic != deleted && sentinel != deleted
    {
      if c[0] == deleted {
        TailKeeps(c);
      }
    }

    /** Without its first timer, if that is not the periodic timer, the list keeps its order. */
    lemma TailKeeps(c: seq<Timer>)
      requires Shape(c) && Window(c) && c[0] != periodic
      ensures Shape(c[1..]) && Window(c[1..])
      ensures SortedFrom(c, 1) ==> SortedFrom(c[1..], 0)
      ensures forall t :: t in c && t != c[0] ==> t in c[1..]
      ensures deleted !in c[1..] && c[0] !in c[1..]
    {
      var d := c[1..];
      forall i | 0 <= i < |d| ensures d[i] == c[i+1] {}
      forall t | t in c && t != c[0] ensures t in d {
        var i :| 0 <= i < |c| && c[i] == t;
        assert d[i-1] == t;
      }
    }

    /** The timer list c with the new first timer add, announced by the deleted timer. */
    function Fronted(c: seq<Timer>, add: Timer): (r: seq<Timer>)
      requires c != []
    {
      [deleted, add] + Live(c)
    }

    /** Adding a timer loses none and adds no other one but the stand-in, at either place. */
    lemma NoTimerIsLost(c: seq<Timer>, add: Timer, k: nat)
      requires c != []
      ensures forall t :: t in Fronted(c, add) <==> t == add || t == deleted || t in c
      ensures k <= |c| ==> forall t :: t in Inserted(c, k, add) <==> t == add || t in c
    {
      assert c == [c[0]] + c[1..];
      if k <= |c| {
        assert c == c[..k] + c[k..];
      }
    }

    lemma FrontedShape(c: seq<Timer>, add: Timer)
      requires c != [] && deleted !in Live(c) && Shape(Live(c)) && User(add) && add !in Live(c)
      ensures Shape(Fronted(c, add)) && forall t :: t in Live(c) ==> t in Fronted(c, add)
    {
      var l, d := Live(c), Fronted(c, add);
      assert forall i :: 2 <= i < |d| ==> d[i] == l[i-2];
      assert d[2..] == l;
    }

    lemma FrontedKeeps(c: seq<Timer>, add: Timer)
      requires c != [] && LiveOrdered(Live(c)) && !running && User(add) && add !in Live(c)
      requires floor <= add.wake <= Live(c)[0].wake
      requires add.waketime == deleted.waketime == Wrap(add.wake) && deleted.wake == add.wake
      ensures Ordered(Fronted(c, add)) && forall t :: t in Live(c) ==> t in Fronted(c, add)
    {
      var l, d := Live(c), Fronted(c, add);
      FrontedShape(c, add);
      assert l[0].wake <= periodic.wake;
      hide Shape, Live, Logged;
      assert forall i :: 2 <= i < |d| ==> d[i] == l[i-2];
      assert d[0] == deleted && d[1] == add;
    }

    /** Links add and the deleted timer in front of the list. */
    method LinkFront(add: Timer)
      requires Linked(nodes) && nodes[0] == timerList && Linked(Live(nodes)) && User(add) && add !in nodes
      requires deleted !in Live(nodes) && (nodes[0] == deleted ==> deleted.next == Live(nodes)[0])
      modifies add`next, deleted`next, deleted`waketime
      ensures Linked(Fronted(nodes, add)) && deleted.waketime == add.waketime
    {
      ghost var d := Fronted(nodes, add);
      if timerList == deleted {
        add.next := deleted.next;
      } else {
        add.next := timerList;
      }
      deleted.waketime := add.waketime;
      deleted.next := add;
      LinkedFront(add, Live(nodes), d[1..]);
      LinkedFront(deleted, d[1..], d);
    }

    /** Puts add, which is earlier than the first timer, in front of the list. */
    method AddFront(add: Timer, ghost wake: int)
      requires Valid() && !running && User(add) && add !in nodes && add.waketime == Wrap(wake)
      requires floor <= wake < timerList.wake
      modifies `timerList, `nodes, add`next, add`wake, deleted`next, deleted`wake, deleted`waketime
      ensures Valid() && add.wake == wake && timerList == deleted
      ensures nodes == Fronted(old(nodes), add)
    {
      hide Ordered, LiveOrdered, Linked, Hinted, Live;
      Facts();
      ghost var c := Live(nodes);
      LiveIsOrdered(nodes);
      assert add !in c && deleted !in c && c[0] in c && LiveOrdered(c);
      LinkFront(add);
      add.wake, deleted.wake := wake, wake;
      assert LiveOrdered(c);
      FrontedKeeps(nodes, add);
      timerList, nodes := deleted, Fronted(nodes, add);
      HintKept();
    }

    /**
     Adds a timer.  Its 32-bit waketime is read as the time nearest to the first timer
     that it can stand for; now is the current time.
     */
    method SchedAddTimer(add: Timer, now: u32, isShutdown: bool, ghost wake: int, ghost clock: int)
      returns (tooClose: bool, kick: bool, ghost m: nat)
      requires Valid() && User(add) && add !in nodes
      requires add.waketime == Wrap(wake) && now == Wrap(clock) && floor <= clock
      requires -HALF <= wake - timerList.wake < HALF && -HALF <= wake - clock
      requires isShutdown ==> wake >= floor && (running ==> wake >= timerList.wake)
      modifies `timerList, `nodes, nodes`next, add`next, add`wake, deleted`next, deleted`wake, deleted`waketime
      ensures Valid()
      ensures tooClose <==> wake < old(timerList.wake) && wake < clock && !isShutdown
      ensures tooClose ==> nodes == old(nodes)
      ensures kick <==> !tooClose && wake < old(timerList.wake)
      ensures kick ==> nodes == Fronted(old(nodes), add)
      ensures !kick && !tooClose ==> old(IsSlot(nodes, m, wake)) && nodes == Inserted(old(nodes), m, add)
      ensures !tooClose ==> add.wake == wake
    {
      hide Ordered, Hinted, Linked;
      Facts();
      BeforeIsLess(wake, timerList.wake);
      m := 0;
      tooClose, kick := false, TimerIsBefore(add.waketime, timerList.waketime);
      if kick {
        // A new first timer; it must not be in the past.
        BeforeIsLess(wake, clock);
        if TimerIsBefore(add.waketime, now) && !isShutdown {
          return true, false, 0;
        }
        AddFront(add, wake);
      } else {
        m := AddBehind(add, wake);
      }
    }

    lemma RemovedShape(c: seq<Timer>, k: nat, d: seq<Timer>)
      requires Shape(c) && 0 < k < |c| - 1 && c[k] != periodic && d == Removed(c, k)
      ensures Shape(d) && d[0] == c[0] && c[k] !in d && forall n :: n in c && n != c[k] ==> n in d
    {
      forall i | 0 <= i < |d| ensures d[i] == if i < k then c[i] else c[i+1] {}
      forall n | n in c && n != c[k] ensures n in d {
        var p :| 0 <= p < |c| && c[p] == n;
        assert d[if p < k then p else p - 1] == n;
      }
    }

    lemma RemovedKeeps(c: seq<Timer>, k: nat, d: seq<Timer>)
      requires Ordered(c) && 0 < k < |c| - 1 && c[k] != periodic && d == Removed(c, k)
      ensures Ordered(d)
    {
      hide Shape;
      RemovedShape(c, k, d);
      assert forall i :: 0 <= i < |d| ==> d[i] == c[if i < k then i else i + 1];
    }

    lemma ReplacedKeeps(c: seq<Timer>, d: seq<Timer>)
      requires Ordered(c) && User(c[0]) && d == [deleted] + c[1..]
      requires deleted.waketime == c[0].waketime && deleted.wake == c[0].wake
      ensures Ordered(d) && c[0] !in d && forall n :: n in c && n != c[0] ==> n in d
    {
      TailKeeps(c);
    }

    /** A hint that stays in the list, or goes back to the periodic timer, stays valid. */
    lemma HintKept()
      requires Ordered(nodes) && lastInsert in nodes && lastInsert != sentinel && lastInsert != deleted
      requires lastInsert == periodic || lastInsert.wake - HALF <= floor
      ensures Hinted(nodes)
    {
    }

    /** Finds del behind the first timer and unlinks it. */
    method Unlink(del: Timer) returns (ghost k: nat)
      requires Shape(nodes) && Linked(nodes) && timerList == nodes[0]
      requires User(del) && del != timerList
      modifies `nodes, nodes`next
      ensures Linked(nodes)
      ensures del !in old(nodes) ==> nodes == old(nodes)
      ensures del in old(nodes) ==> 0 < k < |old(nodes)| - 1 && old(nodes)[k] == del && nodes == Removed(old(nodes), k)
    {
      k := 0;
      var pos := timerList;
      while pos.next != null
        invariant 0 <= k < |nodes| && pos == nodes[k] && Linked(nodes) && nodes == old(nodes)
        invariant forall j :: 0 <= j <= k ==> nodes[j] != del
        decreases |nodes| - k
      {
        assert pos.next == nodes[k+1];
        if pos.next == del {
          pos.next := del.next;
          k := k + 1;
          LinkedRemoved(nodes, k);
          nodes := Removed(nodes, k);
          return;
        }
        pos := pos.next;
        k := k + 1;
      }
    }

    /** Puts the deleted timer in the place of the first timer. */
    method ReplaceFirst()
      requires Valid() && User(timerList)
      modifies `timerList, `nodes, deleted`next, deleted`wake, deleted`waketime
      ensures Ordered(nodes) && Linked(nodes) && timerList == nodes[0] && nodes == [deleted] + old(nodes)[1..]
      ensures old(timerList) !in nodes && forall n :: n in old(nodes) && n != old(timerList) ==> n in nodes
      ensures |nodes| > 1 && old(timerList).next == nodes[1]
    {
      hide Ordered, Linked;
      ghost var c := nodes;
      Facts();
      LinkedTail(c);
      deleted.waketime, deleted.wake := timerList.waketime, timerList.wake;
      deleted.next := timerList.next;
      timerList := deleted;
      nodes := [deleted] + c[1..];
      LinkedFront(deleted, c[1..], nodes);
      ReplacedKeeps(c, nodes);
    }

    /** Takes a timer off the list if it is on it; a callback may delete its own timer too. */
    method SchedDelTimer(del: Timer) returns (ghost k: nat)
      requires Valid() && User(del)
      modifies `timerList, `lastInsert, `nodes, nodes`next, deleted`next, deleted`wake, deleted`waketime
      ensures Valid() && del !in nodes
      ensures del !in old(nodes) ==> nodes == old(nodes)
      ensures del in old(nodes) ==> k < |old(nodes)| && old(nodes)[k] == del
      ensures del in old(nodes) ==>
                nodes == if k == 0 then [deleted] + old(nodes)[1..] else Removed(old(nodes), k)
      ensures del == old(timerList) ==> k == 0 && |nodes| > 1 && del.next == nodes[1]
    {
      hide Ordered, Hinted, Linked;
      ghost var c := nodes;
      Facts();
      OrderedHasShape();
      k := 0;
      if timerList == del {
        ReplaceFirst();
      } else {
        k := Unlink(del);
        if del in c {
          RemovedShape(c, k, nodes);
          RemovedKeeps(c, k, nodes);
        }
      }
      if lastInsert == del {
        lastInsert := periodic;
      }
      HintKept();
    }

    lemma ResetKeeps()
      requires Valid()
      ensures LiveOrdered([periodic, sentinel])
      ensures sentinel.next == null && periodic.waketime == Wrap(periodic.wake) && periodic.wake - HALF <= floor
      ensures periodic != sentinel && periodic != deleted && sentinel != deleted
    {
    }

    /** The deleted timer in front of the two timers that are always there. */
    lemma ResetList(c: seq<Timer>)
      requires LiveOrdered([periodic, sentinel]) && c == [deleted, periodic, sentinel] && !running
      requires deleted.waketime == periodic.waketime && deleted.wake == periodic.wake
      ensures Ordered(c)
    {
    }

    /** Links the three timers that a reset leaves. */
    method LinkReset()
      requires deleted != periodic && deleted != sentinel && periodic != sentinel && sentinel.next == null
      modifies deleted`next, periodic`next
      ensures Linked([deleted, periodic, sentinel])
    {
      deleted.next := periodic;
      periodic.next := sentinel;
    }

    /** Removes all user timers. */
    method SchedTimerReset()
      requires Valid()
      modifies `timerList, `lastInsert, `nodes, `running, deleted`next, deleted`wake, deleted`waketime, periodic`next
      ensures Valid() && !running && nodes == [deleted, periodic, sentinel]
    {
      hide Ordered, LiveOrdered, Linked, Wrap;
      ResetKeeps();
      timerList := deleted;
      deleted.waketime, deleted.wake := periodic.waketime, periodic.wake;
      lastInsert := periodic;
      LinkReset();
      nodes, running := [deleted, periodic, sentinel], false;
      ResetList(nodes);
      HintKept();
    }

    /** Starts the callback of the first timer. */
    method RunNext() returns (t: Timer)
      requires Valid() && !running
      modifies `running, `floor, `log
      ensures Valid() && running && t == timerList && t != sentinel
      ensures log == old(log) + [t.wake] && floor == t.wake >= old(floor)
    {
      t := timerList;
      Facts();
      running, floor, log := true, t.wake, log + [t.wake];
    }

    lemma DoneKeeps()
      requires Valid() && timerList != periodic
      ensures var d := nodes[1..];
              LiveOrdered(d) && Linked(d) && d[0] == nodes[1] != sentinel && d[0].waketime == Wrap(d[0].wake)
      ensures timerList.next == nodes[1] && nodes[1].wake - HALF <= floor && nodes[1] != deleted
      ensures lastInsert != timerList ==> lastInsert in nodes[1..]
    {
      TailKeeps(nodes);
    }

    lemma LiveKeeps(c: seq<Timer>)
      requires LiveOrdered(c) && !running
      ensures Ordered(c)
    {
    }

    /**
     The callback of timer t is done with it.  A callback that has deleted its own timer leaves the
     list complete exactly if no timer has come to, or gone from, the front of the list since.
     */
    method FinishDone(t: Timer) returns (nextWaketime: u32)
      requires Valid() && running && t != periodic && t.next != null
      requires t == timerList || (timerList == deleted && t !in nodes)
      modifies `timerList, `lastInsert, `nodes, `running
      ensures !running && nodes == old(nodes)[1..] && timerList == t.next && nextWaketime == timerList.waketime
      ensures Valid() <==> t.next == nodes[0]
      ensures t == old(timerList) ==> Valid()
    {
      hide Ordered, LiveOrdered, Linked;
      ghost var d := nodes[1..];
      Facts();
      DoneKeeps();
      nextWaketime := t.next.waketime;
      timerList := t.next;
      if lastInsert == t {
        lastInsert := t.next;
      }
      running := false;
      LiveKeeps(d);
      nodes := d;
    }

    /** The callback of the first timer has set its new time; the others are still in order. */
    ghost predicate Requeueable(c: seq<Timer>)
      reads `floor, `log, c`wake, c`waketime, periodic`wake, sentinel`wake
    {
      && Shape(c) && Window(c) && SortedFrom(c, 1) && Logged()
      && c[0] != deleted && c[0].wake < floor + HALF
    }

    lemma RequeuedShape(c: seq<Timer>, m: nat, d: seq<Timer>)
      requires Shape(c) && m < |c| - 1 && c[0] != deleted && d == Inserted(c[1..], m, c[0])
      ensures Shape(d) && forall n :: n in c ==> n in d
    {
      RequeuedHolds(c, m, d);
      forall i | 0 <= i < |d| ensures d[i] == c[if i < m then i + 1 else if i == m then 0 else i] {}
    }

    lemma RequeuedHolds(c: seq<Timer>, m: nat, d: seq<Timer>)
      requires m < |c| - 1 && d == Inserted(c[1..], m, c[0])
      ensures forall n :: n in c ==> n in d
    {
      forall n | n in c ensures n in d {
        var p :| 0 <= p < |c| && c[p] == n;
        assert d[if p == 0 then m else if p <= m then p - 1 else p] == n;
      }
    }

    lemma RequeuedWindow(c: seq<Timer>, m: nat, d: seq<Timer>)
      requires Window(c) && m < |c| - 1 && d == Inserted(c[1..], m, c[0])
      ensures Window(d)
    {
      forall i | 0 <= i < |d| ensures d[i] == if i < m then c[i+1] else if i == m then c[0] else c[i] {}
    }

    lemma RequeuedKeeps(c: seq<Timer>, m: nat, d: seq<Timer>)
      requires Requeueable(c) && IsSlot(c[1..], m, c[0].wake) && d == Inserted(c[1..], m, c[0]) && !running
      ensures Ordered(d) && forall n :: n in c ==> n in d
    {
      RequeuedShape(c, m, d);
      RequeuedWindow(c, m, d);
      SortedInserted(c[1..], m, c[0]);
    }

    /** The timers behind the first one have a place for it, at the sentinel at the latest. */
    lemma SlotInRest(c: seq<Timer>) returns (m: nat)
      requires Shape(c) && Window(c) && SortedFrom(c, 1) && c[0].wake < floor + HALF
      ensures IsSlot(c[1..], m, c[0].wake)
      ensures periodic in c[1..] || periodic.wake <= c[0].wake
      ensures forall j :: 0 < j < m + 1 ==> floor <= c[j].wake <= c[0].wake
    {
      m := CountUpTo(c[1..], c[0].wake, 0);
      if c[0] != periodic {
        var p :| 0 <= p < |c| && c[p] == periodic;
        assert c[1..][p-1] == periodic;
      }
      assert c[1..][|c|-2] == sentinel;
      forall j | 0 < j < m + 1 ensures floor <= c[j].wake <= c[0].wake {
        assert c[1..][j-1] == c[j];
      }
    }

    /** The new place of the first timer, and where a walk to it stops. */
    lemma NewPlace(c: seq<Timer>) returns (m: nat)
      requires Requeueable(c)
      ensures IsSlot(c[1..], m, c[0].wake)
      ensures forall j :: 0 < j <= m ==> !TimerIsBefore(c[0].waketime, c[j].waketime)
      ensures TimerIsBefore(c[0].waketime, c[m+1].waketime)
    {
      assert floor <= c[0].wake && |c| >= 2;
      hide Shape, Window, SortedFrom;
      m := SlotInRest(c);
      assert c[1..][m] == c[m+1];
      NextIsNear(c, c[0].wake, m + 1);
      WalkStops(c, c[0].wake, m + 1, floor);
    }

    /** A hint is used only if it is not later than the new time; then the walk may start there. */
    lemma HintIsSafe(c: seq<Timer>, m: nat, k: nat)
      requires Requeueable(c) && IsSlot(c[1..], m, c[0].wake) && k < |c| - 1
      requires c[k].wake - HALF <= floor
      requires !TimerIsBefore(c[0].waketime, c[k].waketime)
      ensures k <= m
    {
      BeforeIsLess(c[0].wake, c[k].wake);
    }

    /** Moves the first timer to its new place behind others, starting at the hint if that is possible. */
    method MoveBack(ghost c: seq<Timer>, ghost m: nat, ghost d: seq<Timer>)
      requires Requeueable(c) && Linked(c) && Hinted(c) && timerList == c[0] && nodes == c
      requires 0 < m && IsSlot(c[1..], m, c[0].wake) && d == Inserted(c[1..], m, c[0])
      requires forall j :: 0 < j <= m ==> !TimerIsBefore(c[0].waketime, c[j].waketime)
      requires TimerIsBefore(c[0].waketime, c[m+1].waketime)
      modifies `timerList, `lastInsert, nodes`next
      ensures Linked(d) && timerList == d[0] == c[1] && lastInsert == c[0]
    {
      hide Requeueable, Linked;
      RequeueFacts(c);
      ghost var k: nat :| k < |c| && c[k] == lastInsert;
      LinkedTail(c);
      var t := timerList;
      timerList := t.next;
      var pos := lastInsert;
      if TimerIsBefore(t.waketime, pos.waketime) {
        pos, k := timerList, 1;
      } else {
        HintIsSafe(c, m, k);
      }
      InsertTimer(pos, t, t.waketime, c, k, m + 1);
      lastInsert := t;
    }

    /** Gives the first timer, whose time has been set anew, its new place in the list. */
    method Requeue() returns (nextWaketime: u32, ghost m: nat)
      requires running && Requeueable(nodes) && Linked(nodes) && Hinted(nodes) && timerList == nodes[0]
      modifies `timerList, `lastInsert, `nodes, `running, nodes`next
      ensures Valid() && !running
      ensures old(IsSlot(nodes[1..], m, timerList.wake))
      ensures nodes == Inserted(old(nodes)[1..], m, old(timerList))
      ensures nextWaketime == timerList.waketime
    {
      hide Requeueable, Ordered, Inserted, Linked;
      var t := timerList;
      ghost var c := nodes;
      RequeueFacts(c);
      LinkedTail(c);
      m := NewPlace(c);
      ghost var d := Inserted(c[1..], m, t);
      running := false;
      RequeuedKeeps(c, m, d);
      assert Ordered(d);
      nextWaketime := t.waketime;
      if !TimerIsBefore(t.waketime, t.next.waketime) {
        nextWaketime := t.next.waketime;
        MoveBack(c, m, d);
      } else {
        StaysFirst(c, m, d);
      }
      assert Ordered(d);
      nodes := d;
      HintKept();
    }

    lemma StaysFirst(c: seq<Timer>, m: nat, d: seq<Timer>)
      requires c != [] && m < |c| && d == Inserted(c[1..], m, c[0]) && m == 0
      ensures d == c
    {
    }

    lemma RequeueFacts(c: seq<Timer>)
      requires Requeueable(c)
      ensures |c| >= 2 && c[|c|-1] == sentinel && c[0] != sentinel && c[0] != deleted
      ensures forall i, j :: 0 <= i < j < |c| ==> c[i] != c[j]
      ensures c[0].wake - HALF <= floor
    {
    }

    /** The callback asks to be run again at a later time. */
    method FinishReschedule(updated: u32, ghost wake: int) returns (nextWaketime: u32, ghost m: nat)
      requires Valid() && running && User(timerList)
      requires updated == Wrap(wake) && 0 <= wake - timerList.wake < HALF
      modifies `timerList, `lastInsert, `nodes, `running, nodes`next, timerList`waketime, timerList`wake
      ensures Valid() && !running && old(timerList).wake == wake
      ensures old(IsSlot(nodes[1..], m, wake))
      ensures nodes == Inserted(old(nodes)[1..], m, old(timerList))
      ensures nextWaketime == timerList.waketime
    {
      timerList.waketime, timerList.wake := updated, wake;
      nextWaketime, m := Requeue();
    }

    lemma PeriodicRequeues(c: seq<Timer>, ticks: int)
      requires Shape(c) && Logged() && c[0] == periodic && 0 < ticks < HALF
      requires periodic.wake == floor + ticks && sentinel.wake == periodic.wake + HALF
      requires periodic.waketime == Wrap(periodic.wake) && sentinel.waketime == Wrap(sentinel.wake)
      requires forall i :: 0 < i < |c| - 1 ==> c[i].waketime == Wrap(c[i].wake) && floor <= c[i].wake < floor + HALF
      requires forall i, j :: 0 < i < j < |c| - 1 ==> c[i].wake <= c[j].wake
      ensures Requeueable(c)
    {
    }

    lemma PeriodicFacts()
      requires Valid() && running && timerList == periodic
      ensures Shape(nodes) && Logged()
      ensures forall i :: 0 < i < |nodes| - 1 ==>
                && nodes[i] != periodic && nodes[i] != sentinel
                && nodes[i].waketime == Wrap(nodes[i].wake) && floor <= nodes[i].wake < floor + HALF
      ensures forall i, j :: 0 < i < j < |nodes| - 1 ==> nodes[i].wake <= nodes[j].wake
    {
    }

    /** The new times of the periodic timer and of the sentinel. */
    method PeriodicEvent(ticks: u32)
      requires Valid() && running && timerList == periodic && 0 < ticks < HALF
      modifies periodic`waketime, periodic`wake, sentinel`waketime, sentinel`wake
      ensures Requeueable(nodes) && Linked(nodes) && Hinted(nodes)
      ensures periodic.wake == old(periodic.wake) + ticks
    {
      hide Ordered, Linked, Shape, Logged, Requeueable, Wrap;
      ghost var c := nodes;
      Facts();
      PeriodicFacts();
      WrapStep(periodic.wake, ticks);
      periodic.waketime, periodic.wake := Wrap(periodic.waketime + ticks), periodic.wake + ticks;
      WrapStep(periodic.wake, HALF);
      sentinel.waketime, sentinel.wake := Wrap(periodic.waketime + HALF), periodic.wake + HALF;
      PeriodicRequeues(c, ticks);
    }

    /** The callback of the periodic timer: it runs again after the given ticks and moves the sentinel along. */
    method FinishPeriodic(ticks: u32) returns (nextWaketime: u32, ghost m: nat)
      requires Valid() && running && timerList == periodic && 0 < ticks < HALF
      modifies `timerList, `lastInsert, `nodes, `running, nodes`next
      modifies periodic`waketime, periodic`wake, sentinel`waketime, sentinel`wake
      ensures Valid() && !running && periodic.wake == old(periodic.wake) + ticks
      ensures IsSlot(old(nodes)[1..], m, periodic.wake) && nodes == Inserted(old(nodes)[1..], m, periodic)
      ensures nextWaketime == timerList.waketime
    {
      hide Requeueable, Ordered, Hinted, Linked, IsSlot;
      Facts();
      ghost var tail := nodes[1..];
      PeriodicEvent(ticks);
      nextWaketime, m := Requeue();
      assert IsSlot(tail, m, periodic.wake);
    }
  }
}
