/** The steps that a sequence of queue_step commands asks for. */
module StepTiming {
  import opened Clock32

  type i16 = x: int | -0x8000 <= x < 0x8000
  type u16 = x: int | 0 <= x < 0x1_0000
  type posu16 = x: int | 0 < x < 0x1_0000 witness 1

  /** One step pulse: its direction and the time it is scheduled for. */
  datatype Step = Step(dir: bool, time: u32)

  /** A queued move; flip asks for the direction to be reversed before it. */
  datatype StepMove = StepMove(interval: u32, add: i16, count: posu16, flip: bool)

  /** n steps, the first at time t and the second one interval later. */
  function Steps(dir: bool, t: u32, interval: u32, add: i16, n: nat): (s: seq<Step>)
    ensures |s| == n
    decreases n
  {
    if n == 0 then []
    else [Step(dir, t)] + Steps(dir, Wrap(t + interval), Wrap(interval + add), add, n - 1)
  }

  /** The time of the last of n steps. */
  function LastTime(t: u32, interval: u32, add: i16, n: nat): (r: u32)
    requires n > 0
    decreases n
  {
    if n == 1 then t else LastTime(Wrap(t + interval), Wrap(interval + add), add, n - 1)
  }

  /** The steps of a move that follows a step scheduled at t. */
  function MoveSteps(m: StepMove, dir: bool, t: u32): (s: seq<Step>)
    ensures |s| == m.count
  {
    Steps(dir, Wrap(t + m.interval), Wrap(m.interval + m.add), m.add, m.count)
  }

  /** The time of the last step of such a move. */
  function MoveEnd(m: StepMove, t: u32): (r: u32)
  {
    LastTime(Wrap(t + m.interval), Wrap(m.interval + m.add), m.add, m.count)
  }

  function Flipped(dir: bool, m: StepMove): (r: bool) {
    dir != m.flip
  }

  /** The steps of queued moves that follow a step in direction dir scheduled at t. */
  function QueueSteps(q: seq<StepMove>, dir: bool, t: u32): (r: seq<Step>) {
    if q == [] then []
    else MoveSteps(q[0], Flipped(dir, q[0]), t) + QueueSteps(q[1..], Flipped(dir, q[0]), MoveEnd(q[0], t))
  }

  function QueueEnd(q: seq<StepMove>, t: u32): (r: u32) {
    if q == [] then t else QueueEnd(q[1..], MoveEnd(q[0], t))
  }

  function QueueDir(q: seq<StepMove>, dir: bool): (r: bool) {
    if q == [] then dir else QueueDir(q[1..], Flipped(dir, q[0]))
  }

  /** A move put at the end of the queue adds its steps at the end. */
  lemma {:induction false} QueueAppend(q: seq<StepMove>, m: StepMove, dir: bool, t: u32)
    ensures QueueSteps(q + [m], dir, t)
         == QueueSteps(q, dir, t) + MoveSteps(m, Flipped(QueueDir(q, dir), m), QueueEnd(q, t))
    ensures QueueEnd(q + [m], t) == MoveEnd(m, QueueEnd(q, t))
    ensures QueueDir(q + [m], dir) == Flipped(QueueDir(q, dir), m)
  {
    hide MoveSteps, MoveEnd;
    if q == [] {
      assert (q + [m])[1..] == [];
      assert QueueSteps([], Flipped(dir, m), MoveEnd(m, t)) == [];
    } else {
      var dir', t' := Flipped(dir, q[0]), MoveEnd(q[0], t);
      assert (q + [m])[1..] == q[1..] + [m] && (q + [m])[0] == q[0];
      QueueAppend(q[1..], m, dir', t');
      Regrouped(MoveSteps(q[0], dir', t), QueueSteps(q[1..], dir', t'),
                MoveSteps(m, Flipped(QueueDir(q, dir), m), QueueEnd(q, t)));
    }
  }

  lemma Regrouped<T>(a: seq<T>, b: seq<T>, c: seq<T>)
    ensures a + (b + c) == a + b + c
  {
  }

  /** The sum of the integers below k. */
  function Below(k: nat): (r: nat) {
    if k == 0 then 0 else (k - 1) + Below(k - 1)
  }

  lemma {:induction false} BelowClosed(k: nat)
    ensures 2 * Below(k) == k * (k - 1)
  {
    if k > 0 {
      BelowClosed(k - 1);
      assert k * (k - 1) == (k - 1) * (k - 2) + 2 * (k - 1);
    }
  }

  /** The k-th of n steps comes k intervals and k*(k-1)/2 increments after the first one. */
  lemma {:induction false} StepsClosed(dir: bool, t: u32, interval: u32, add: i16, n: nat, k: nat)
    requires k < n
    ensures Steps(dir, t, interval, add, n)[k] == Step(dir, Wrap(t + k * interval + Below(k) * add))
    decreases n
  {
    if k > 0 {
      var t', i' := Wrap(t + interval), Wrap(interval + add);
      StepsClosed(dir, t', i', add, n - 1, k - 1);
      BelowSum(k);
      Regroup(t, interval, add, k - 1, Below(k - 1));
    }
  }

  lemma BelowSum(k: nat)
    requires k > 0
    ensures Below(k) == (k - 1) + Below(k - 1)
  {
  }

  lemma Regroup(t: u32, interval: u32, add: i16, k: nat, b: nat)
    ensures Wrap(Wrap(t + interval) + k * Wrap(interval + add) + b * add)
         == Wrap(t + (k + 1) * interval + (k + b) * add)
  {
    var p, r := (t + interval) / WRAP, (interval + add) / WRAP;
    assert Wrap(t + interval) == t + interval - p * WRAP;
    assert Wrap(interval + add) == interval + add - r * WRAP;
    assert k * Wrap(interval + add) == k * interval + k * add - (k * r) * WRAP by {
      assert k * (interval + add - r * WRAP) == k * interval + k * add - (k * r) * WRAP;
    }
    var x := t + (k + 1) * interval + (k + b) * add;
    assert (k + b) * add == k * add + b * add;
    assert (k + 1) * interval == k * interval + interval;
    assert Wrap(t + interval) + k * Wrap(interval + add) + b * add == x + (-p - k * r) * WRAP;
    WrapShift(x, -p - k * r);
  }

  /** Times of a queued move: the k-th step (from 0) is at t + (k+1)*interval + add*k*(k+1)/2. */
  lemma MoveStepsClosed(m: StepMove, dir: bool, t: u32, k: nat)
    requires k < m.count
    ensures MoveSteps(m, dir, t)[k] == Step(dir, Wrap(t + (k + 1) * m.interval + (k * (k + 1) / 2) * m.add))
  {
    StepsClosed(dir, Wrap(t + m.interval), Wrap(m.interval + m.add), m.add, m.count, k);
    Regroup(t, m.interval, m.add, k, Below(k));
    Triangle(k);
  }

  lemma Triangle(k: nat)
    ensures k + Below(k) == k * (k + 1) / 2
  {
    BelowClosed(k + 1);
  }

  /** The last step of a move carries the time from which the next move counts. */
  lemma {:induction false} LastOfSteps(dir: bool, t: u32, interval: u32, add: i16, n: nat)
    requires n > 0
    ensures Steps(dir, t, interval, add, n)[n-1].time == LastTime(t, interval, add, n)
    decreases n
  {
    if n > 1 {
      LastOfSteps(dir, Wrap(t + interval), Wrap(interval + add), add, n - 1);
    }
  }

  /** What a stepper still has to do: n steps, the first at time t, and then the moves of q. */
  datatype Todo = Todo(dir: bool, t: u32, interval: u32, add: i16, n: nat, q: seq<StepMove>) {

    /** All steps to come; with no step left of the current move, t is the time of its last step. */
    function All(): (r: seq<Step>) {
      if n == 0 then QueueSteps(q, dir, t)
      else Steps(dir, t, interval, add, n) + QueueSteps(q, dir, LastTime(t, interval, add, n))
    }

    /** The time of the last step to come. */
    function End(): (r: u32) {
      QueueEnd(q, if n == 0 then t else LastTime(t, interval, add, n))
    }

    function EndDir(): (r: bool) {
      QueueDir(q, dir)
    }

    /** After one step has been taken. */
    function Taken(): (r: Todo)
      requires n > 0
    {
      if n == 1 then this.(n := 0)
      else this.(t := Wrap(t + interval), interval := Wrap(interval + add), n := n - 1)
    }

    /** After the next move has been loaded. */
    function Loaded(): (r: Todo)
      requires q != []
    {
      var m := q[0];
      Todo(Flipped(dir, m), Wrap(t + m.interval), Wrap(m.interval + m.add), m.add, m.count, q[1..])
    }

    /** After a move has been put at the end of the queue. */
    function Pushed(m: StepMove): (r: Todo) {
      this.(q := q + [m])
    }
  }

  lemma TakenSteps(w: Todo)
    requires w.n > 0
    ensures w.All() == [Step(w.dir, w.t)] + w.Taken().All()
    ensures w.End() == w.Taken().End() && w.EndDir() == w.Taken().EndDir()
  {
    if w.n > 1 {
      var rest := QueueSteps(w.q, w.dir, LastTime(w.t, w.interval, w.add, w.n));
      assert ([Step(w.dir, w.t)] + Steps(w.dir, w.Taken().t, w.Taken().interval, w.add, w.n - 1)) + rest
          == [Step(w.dir, w.t)] + (Steps(w.dir, w.Taken().t, w.Taken().interval, w.add, w.n - 1) + rest);
    }
  }

  lemma LoadedSteps(w: Todo)
    requires w.n == 0 && w.q != []
    ensures w.All() == w.Loaded().All()
    ensures w.End() == w.Loaded().End() && w.EndDir() == w.Loaded().EndDir()
  {
    hide Steps, LastTime;
  }

  lemma PushedSteps(w: Todo, m: StepMove)
    ensures w.Pushed(m).All() == w.All() + MoveSteps(m, Flipped(w.EndDir(), m), w.End())
    ensures w.Pushed(m).End() == MoveEnd(m, w.End()) && w.Pushed(m).EndDir() == Flipped(w.EndDir(), m)
  {
    hide Steps, LastTime, QueueSteps, QueueEnd, QueueDir, MoveSteps, MoveEnd;
    var t := if w.n == 0 then w.t else LastTime(w.t, w.interval, w.add, w.n);
    QueueAppend(w.q, m, w.dir, t);
    if w.n > 0 {
      var s := Steps(w.dir, w.t, w.interval, w.add, w.n);
      var x := MoveSteps(m, Flipped(w.EndDir(), m), w.End());
      assert s + (QueueSteps(w.q, w.dir, t) + x) == (s + QueueSteps(w.q, w.dir, t)) + x;
    }
  }

  /** The flip of a move decides its direction but not its timing. */
  lemma SameSteps(m: StepMove, dir: bool, t: u32)
    ensures MoveSteps(m, dir, t) == MoveSteps(m.(flip := false), dir, t)
    ensures MoveEnd(m, t) == MoveEnd(m.(flip := false), t)
  {
    hide Steps, LastTime;
  }

  /** Steps forward minus steps backward. */
  function Net(s: seq<Step>): (r: int) {
    if s == [] then 0 else Net(s[..|s|-1]) + (if s[|s|-1].dir then 1 else -1)
  }

  lemma NetAppend(s: seq<Step>, x: Step)
    ensures Net(s + [x]) == Net(s) + if x.dir then 1 else -1
  {
    assert (s + [x])[..|s|] == s;
  }
}
