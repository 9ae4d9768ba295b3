/**
 The toolhead as a whole: what the look-ahead queue hands over goes into the motion queue, and
 over a whole run the motion that comes out is continuous in time, in speed and in position.
 */
module Toolheads {
  import opened RealMath
  import opened Kinematics
  import opened Lookahead
  import opened MoveQueues
  import opened PrintTimes

  /** What the motion queue gets of a planned move. */
  function TimedOf(move: Move): (t: Timed)
    reads move`phases, move`accel
  {
    Timed(move.phases, move.accel, move.path.moveD, move.startPos, move.path.axesR)
  }

  function TimesOf(batch: seq<Move>): (ts: seq<Timed>)
    reads batch`phases, batch`accel
    ensures |ts| == |batch| && forall i :: 0 <= i < |batch| ==> ts[i] == TimedOf(batch[i])
  {
    if batch == [] then [] else [TimedOf(batch[0])] + TimesOf(batch[1..])
  }

  /** The first move starts at the position and every other one where the one before it ends. */
  ghost predicate Route(moves: seq<Move>, at: Coord) {
    moves != [] ==> moves[0].startPos == at && Route(moves[1..], moves[0].EndPos())
  }

  function RouteEnd(moves: seq<Move>, at: Coord): (r: Coord) {
    if moves == [] then at else RouteEnd(moves[1..], moves[0].EndPos())
  }

  lemma {:induction false} RouteSplit(a: seq<Move>, b: seq<Move>, at: Coord)
    ensures Route(a + b, at) <==> Route(a, at) && Route(b, RouteEnd(a, at))
    ensures RouteEnd(a + b, at) == RouteEnd(b, RouteEnd(a, at))
  {
    if a == [] {
      assert a + b == b;
    } else {
      assert (a + b)[1..] == a[1..] + b;
      RouteSplit(a[1..], b, a[0].EndPos());
    }
  }

  /** The squared speed at the end of a motion. */
  function EndV2(trace: seq<Junction>): (v2: real) {
    if trace == [] then 0.0 else trace[|trace|-1].end
  }

  /** What has been put into the motion queue: its tip and every move. */
  datatype Driven = Driven(tip: Tip, motion: seq<Timed>) {
    /** After the given moves have been put in too. */
    ghost function And(times: seq<Timed>): (d: Driven) {
      Driven(FinalTip(times, tip), motion + times)
    }
  }

    ghost function DrivenBy(log: seq<Action>): (d: Driven) {
    Driven(TipOf(log), Motion(log))
  }

  /** A move in the motion queue is driven over its whole length at the speeds that the planner gave it. */
  ghost predicate DrivesAs(t: Timed, j: Junction) {
    t.Valid() && HasSpeeds(t.phases, j)
  }

  ghost predicate DrivesAll(motion: seq<Timed>, trace: seq<Junction>) {
    |motion| == |trace| && forall i :: 0 <= i < |trace| ==> DrivesAs(motion[i], trace[i])
  }

  /** The motion queue has got exactly the motion that the planner has handed over, move by move. */
  ghost predicate Drives(d: Driven, trace: seq<Junction>) {
    0.0 <= d.tip.v && d.tip.v * d.tip.v == EndV2(trace) && DrivesAll(d.motion, trace)
  }

  lemma OneMoreDriven(motion: seq<Timed>, trace: seq<Junction>, t: Timed, j: Junction)
    requires DrivesAll(motion, trace) && DrivesAs(t, j)
    ensures DrivesAll(motion + [t], trace + [j])
  {
  }

  /** One more planned move that starts where the motion ends. */
  lemma MoveConnects(d: Driven, trace: seq<Junction>, t: Timed, j: Junction)
    requires Drives(d, trace) && DrivesAs(t, j) && j.start == EndV2(trace) && t.startPos == d.tip.at
    ensures t.Continues(d.tip) && Drives(Driven(t.End(), d.motion + [t]), trace + [j])
  {
    hide DrivesAll, Timed.Valid;
    SameRoot(t.phases.startV, d.tip.v);
    OneMoreDriven(d.motion, trace, t, j);
  }

  lemma StartsAtEnd(trace: seq<Junction>, rest: seq<Junction>)
    requires rest != [] && FromRest(trace + rest)
    ensures rest[0].start == EndV2(trace)
  {
    var all := trace + rest;
    assert all[|trace|] == rest[0] && (trace != [] ==> all[|trace|-1] == trace[|trace|-1]);
  }

  /** The first move of a batch and the others. */
  lemma BatchParts(batch: seq<Move>, plan: seq<Junction>, at: Coord)
    requires batch != [] && PlannedPrefix(batch, plan) && Route(batch, at)
    ensures var t := TimedOf(batch[0]);
            && t.startPos == at && Route(batch[1..], t.End().at)
            && RouteEnd(batch, at) == RouteEnd(batch[1..], t.End().at)
    ensures |batch| <= |plan| && DrivesAs(TimedOf(batch[0]), plan[0]) && TimedOf(batch[0]).Valid()
    ensures PlannedPrefix(batch[1..], plan[1..])
    ensures TimesOf(batch) == [TimedOf(batch[0])] + TimesOf(batch[1..])
  {
  }

  lemma OneMore(d: Driven, t: Timed, ts: seq<Timed>)
    requires t.Valid() && AllValid(ts) && t.Continues(d.tip) && Connected(ts, t.End())
    ensures AllValid([t] + ts) && Connected([t] + ts, d.tip)
    ensures d.And([t] + ts) == Driven(t.End(), d.motion + [t]).And(ts)
  {
    assert ([t] + ts)[1..] == ts;
    assert d.motion + ([t] + ts) == d.motion + [t] + ts;
  }

  lemma MoveTaken<T>(trace: seq<T>, plan: seq<T>)
    requires plan != []
    ensures trace + [plan[0]] + plan[1..] == trace + plan
  {
  }

  /** A planned batch that continues the motion can be put into the motion queue. */
  lemma {:induction false} BatchConnects(batch: seq<Move>, plan: seq<Junction>, trace: seq<Junction>, d: Driven)
    requires PlannedPrefix(batch, plan) && |batch| == |plan| && Drives(d, trace) && FromRest(trace + plan)
    requires Route(batch, d.tip.at)
    ensures AllValid(TimesOf(batch)) && Connected(TimesOf(batch), d.tip)
    ensures FinalTip(TimesOf(batch), d.tip).at == RouteEnd(batch, d.tip.at)
    ensures Drives(d.And(TimesOf(batch)), trace + plan)
    decreases |batch|
  {
    if batch == [] {
      assert trace + plan == trace;
      NoTimes(batch, d.tip);
      hide *;
      NothingConnects(d);
    } else {
      var t := TimedOf(batch[0]);
      hide *;
      BatchStarts(batch, plan, trace, d);
      BatchConnects(batch[1..], plan[1..], trace + [plan[0]], Driven(t.End(), d.motion + [t]));
      OneMore(d, t, TimesOf(batch[1..]));
    }
  }

  /** The first move of a planned batch goes on where the motion ends, and leaves the others a planned batch. */
  lemma BatchStarts(batch: seq<Move>, plan: seq<Junction>, trace: seq<Junction>, d: Driven)
    requires batch != [] && PlannedPrefix(batch, plan) && |batch| == |plan|
    requires Drives(d, trace) && FromRest(trace + plan) && Route(batch, d.tip.at)
    ensures var t := TimedOf(batch[0]);
            && t.Valid() && t.Continues(d.tip) && TimesOf(batch) == [t] + TimesOf(batch[1..])
            && PlannedPrefix(batch[1..], plan[1..])
            && Route(batch[1..], t.End().at) && RouteEnd(batch, d.tip.at) == RouteEnd(batch[1..], t.End().at)
            && Drives(Driven(t.End(), d.motion + [t]), trace + [plan[0]])
    ensures trace + [plan[0]] + plan[1..] == trace + plan
  {
    BatchParts(batch, plan, d.tip.at);
    hide *;
    MoveTaken(trace, plan);
    StartsAtEnd(trace, plan);
    MoveConnects(d, trace, TimedOf(batch[0]), plan[0]);
  }

  lemma PlannedPart(batch: seq<Move>, plan: seq<Junction>)
    requires PlannedPrefix(batch, plan)
    ensures |batch| <= |plan| && PlannedPrefix(batch, plan[..|batch|])
  {
  }

  lemma NoTimes(batch: seq<Move>, tip: Tip)
    requires batch == []
    ensures TimesOf(batch) == [] && FinalTip(TimesOf(batch), tip).at == RouteEnd(batch, tip.at)
  {
  }

  lemma NothingConnects(d: Driven)
    ensures AllValid([]) && Connected([], d.tip) && d.And([]) == d
  {
  }

  lemma NewRunAtRest()
    ensures forall tip: Tip :: tip.v == 0.0 ==> Drives(Driven(tip, []), NEW_RUN.Trace())
    ensures DrivenBy([]) == Driven(Tip(0.0, ORIGIN), [])
  {
  }

  /** A flush adds its batch to the motion; a complete flush brings it to rest. */
  lemma FlushedTrace(r: Run, lazy: bool)
    requires r.Ok()
    ensures FlushCount(r.waiting, lazy) <= |Plan(r.waiting)|
    ensures Next(r, Event.Flush(lazy)).Trace() == r.Trace() + Plan(r.waiting)[..FlushCount(r.waiting, lazy)]
    ensures FromRest(r.Trace() + Plan(r.waiting)[..FlushCount(r.waiting, lazy)])
    ensures !lazy ==> EndV2(Next(r, Event.Flush(lazy)).Trace()) == 0.0
  {
    hide Run.Ok, FromRest, Plan, LazyCount;
    var n := FlushCount(r.waiting, lazy);
    FlushKeepsOk(r, lazy);
    TraceIsSmooth(Next(r, Event.Flush(lazy)));
    assert Next(r, Event.Flush(lazy)).Trace() == r.Trace() + Plan(r.waiting)[..n] by {
      if lazy {
        assert r.settled + (r.committed + Plan(r.waiting)[..n]) == (r.settled + r.committed) + Plan(r.waiting)[..n];
      } else {
        assert Plan(r.waiting)[..n] == Plan(r.waiting);
        assert r.settled + r.committed + Plan(r.waiting) + [] == (r.settled + r.committed) + Plan(r.waiting);
      }
    }
    if !lazy {
      FullFlushKeepsOk(r);
      RestEnds(Next(r, Event.Flush(false)).Trace());
    }
  }

  lemma RestEnds(trace: seq<Junction>)
    requires RestToRest(trace)
    ensures EndV2(trace) == 0.0
  {
  }

  /** What a flush hands over can be put into the motion queue; a complete flush ends at rest. */
  lemma FlushConnects(r: Run, lazy: bool, batch: seq<Move>, d: Driven)
    requires r.Ok() && Drives(d, r.Trace()) && Route(batch, d.tip.at)
    requires PlannedPrefix(batch, Plan(r.waiting)) && |batch| == FlushCount(r.waiting, lazy)
    ensures AllValid(TimesOf(batch)) && Connected(TimesOf(batch), d.tip)
    ensures Drives(d.And(TimesOf(batch)), Next(r, Event.Flush(lazy)).Trace())
    ensures FinalTip(TimesOf(batch), d.tip).at == RouteEnd(batch, d.tip.at)
    ensures !lazy ==> FinalTip(TimesOf(batch), d.tip).v == 0.0
  {
    hide Run.Ok, Run.Trace, FromRest, Plan, PlannedPrefix, FlushCount;
    hide Next, Connected, FinalTip, TimesOf, AllValid;
    FlushedTrace(r, lazy);
    PlannedPart(batch, Plan(r.waiting));
    BatchConnects(batch, Plan(r.waiting)[..|batch|], r.Trace(), d);
    if !lazy {
      SameRoot(FinalTip(TimesOf(batch), d.tip).v, 0.0);
    }
  }

  lemma AddedTrace(r: Run, m: Limits)
    requires r.Ok() && MayFollow(r.waiting, m)
    ensures r.AfterAdd(m).Ok() && r.AfterAdd(m).Trace() == r.Trace()
  {
    hide Run.Ok, MayFollow;
    AddKeepsOk(r, m);
  }

  lemma OneMoreRouted(moves: seq<Move>, move: Move, at: Coord)
    requires Route(moves, at) && RouteEnd(moves, at) == move.startPos
    ensures Route(moves + [move], at) && RouteEnd(moves + [move], at) == move.EndPos()
  {
    RouteSplit(moves, [move], at);
  }

  /** What has been driven does not depend on the place that is given to its end. */
  lemma DrivesAnywhere(d: Driven, at: Coord, trace: seq<Junction>)
    requires Drives(d, trace)
    ensures Drives(d.(tip := d.tip.(at := at)), trace)
  {
  }

  lemma NoRoute(at: Coord)
    ensures Route([], at) && RouteEnd([], at) == at
  {
  }

  class Toolhead {
    const queue: MoveQueue
    const head: ToolHead
    var commandedPos: Coord

    /** The moves have gone into the motion queue behind the others, as they are planned. */
    ghost predicate PutIn(moves: seq<Move>, before: seq<Timed>)
      reads head`log, moves`phases, moves`accel
    {
      Motion(head.log) == before + TimesOf(moves)
    }

    /** The queued moves lead from the end of the motion to the commanded position. */
    ghost predicate Routed()
      reads this, queue`queue, head`log
    {
      var at := TipOf(head.log).at;
      Route(queue.queue, at) && RouteEnd(queue.queue, at) == commandedPos
    }

    /** Everything that the planner has handed over went into the motion queue, and nothing else did. */
    ghost predicate Together()
      reads queue`run, head`log
    {
      Drives(DrivenBy(head.log), queue.run.Trace())
    }

    /** Every move in the motion queue has the speeds that the planner gave it and is driven over its whole length. */
    lemma MotionIsPlanned(i: nat)
      requires Valid() && i < |Motion(head.log)|
      ensures |Motion(head.log)| == |queue.run.Trace()|
      ensures var m, j := Motion(head.log)[i], queue.run.Trace()[i]; var p := m.phases;
              && 0.0 <= p.startV && 0.0 <= p.cruiseV && 0.0 <= p.endV
              && p.startV * p.startV == j.start && p.cruiseV * p.cruiseV == j.cruise && p.endV * p.endV == j.end
              && p.Drive(m.distance, m.accel)
    {
      hide MoveQueue.Valid, ToolHead.Valid, Motion, TipOf, Run.Trace, Phases.Drive;
    }

    /** The planner has taken one more move, with or without a lazy flush behind it. */
    ghost predicate RunsOn(r: Run, m: Limits)
      reads queue`run
    {
      queue.run == r.AfterAdd(m) || queue.run == Next(r.AfterAdd(m), Event.Flush(true))
    }

    ghost predicate Valid()
      reads this, queue, queue.queue, head
    {
      queue.Valid() && head.Valid() && head.state != Drip && Together() && Routed()
    }

    constructor (moveFlushTime: real, bufferTimeStart: real, bufferTimeLow: real, bufferTimeHigh: real)
      ensures Valid() && fresh(queue) && fresh(head) && queue.queue == [] && head.log == [] && commandedPos == ORIGIN
    {
      hide Run.Trace, Run.Ok, Drives, TipOf, MoveQueue.WellFormed, MoveQueue.Unplanned, ToolHead.Timely;
      NewRunAtRest();
      queue := new MoveQueue();
      head := new ToolHead(moveFlushTime, bufferTimeStart, bufferTimeLow, bufferTimeHigh);
      commandedPos := ORIGIN;
      new;
      queue.SetFlushTime(bufferTimeHigh);
    }

    /**
     Flushes the look-ahead queue completely; the moves that come out bring the machine to rest.  If
     all steps are flushed behind them, the next lazy flush waits for a full buffer.
     */
    method FlushQueue(allSteps: bool, ghost d: Driven) returns (times: seq<Timed>)
      requires queue.Valid() && Drives(d, queue.run.Trace()) && Route(queue.queue, d.tip.at)
      modifies queue`queue, queue`junctionFlush, queue`countdown, queue`run
      modifies queue.queue`phases, queue.queue`junction, queue.queue`planned
      ensures queue.Valid() && queue.queue == [] && times == TimesOf(old(queue.queue))
      ensures queue.countdown == Countdown(if allSteps then head.bufferTimeHigh else LOOKAHEAD_FLUSH_TIME, [])
      ensures queue.run == Next(old(queue.run), Event.Flush(false))
      ensures AllValid(times) && Connected(times, d.tip) && FinalTip(times, d.tip).v == 0.0
      ensures Drives(d.And(times), queue.run.Trace())
      ensures FinalTip(times, d.tip).at == old(RouteEnd(queue.queue, d.tip.at))
    {
      hide Plan, Run.Ok, Run.Trace, Next, PlannedPrefix, Drives;
      hide Connected, FinalTip, AllValid, Route, RouteEnd;
      ghost var queued := queue.queue;
      ghost var r := queue.run;
      assert |queue.queue| == |r.waiting|;
      var batch := queue.Flush();
      assert batch + [] == batch == queued;
      FlushConnects(r, false, batch, d);
      times := TimesOf(batch);
      if allSteps {
        queue.SetFlushTime(head.bufferTimeHigh);
      }
    }

    /** Queues a move; the moves that the planner hands over can be put into the motion queue. */
    method AddToQueue(move: Move, settings: Settings, ghost d: Driven)
      returns (times: seq<Timed>, ghost gone: seq<Move>)
      requires queue.Valid() && Drives(d, queue.run.Trace()) && settings.Valid()
      requires move.Valid() && move.Unplanned() && Sound(move.View()) && move !in queue.queue
      requires Route(queue.queue + [move], d.tip.at)
      modifies queue`queue, queue`junctionFlush, queue`countdown, queue`run
      modifies queue.queue`phases, queue.queue`junction, queue.queue`planned
      modifies move`maxStartV2, move`maxSmoothedV2, move`phases, move`junction, move`planned
      ensures queue.Valid() && (old(queue.queue) == [] ==> times == [] && queue.queue == [move])
      ensures old(queue.queue) + [move] == gone + queue.queue && times == TimesOf(gone)
      ensures RunsOn(old(queue.run), move.View())
      ensures old(queue.queue) == [] ==> queue.run == old(queue.run).AfterAdd(move.View())
      ensures AllValid(times) && Connected(times, d.tip)
      ensures Drives(d.And(times), queue.run.Trace())
      ensures var at := FinalTip(times, d.tip).at;
              Route(queue.queue, at) && RouteEnd(queue.queue, at) == RouteEnd(old(queue.queue) + [move], d.tip.at)
    {
      hide Plan, Run.Ok, Run.Trace, Next, PlannedPrefix, Drives, Connected, AllValid;
      hide MoveQueues.Move.Valid, Sound, MayFollow, Route, RouteEnd, FinalTip, Sum;
      ghost var all := queue.queue + [move];
      ghost var r := queue.run;
      ghost var full := queue.queue != [] && queue.countdown.target <= Sum(queue.countdown.times + [move.minMoveT]);
      var batch := queue.AddMove(move, settings);
      ghost var added := r.AfterAdd(move.View());
      AddedTrace(r, move.View());
      assert [] + queue.queue == queue.queue;
      times := TimesOf(batch);
      gone := batch;
      RouteSplit(gone, queue.queue, d.tip.at);
      if full {
        FlushConnects(added, true, batch, d);
      } else {
        NothingConnects(d);
        NoTimes(batch, d.tip);
      }
    }

    /** What a move does to the buffer: once the print time is past the next check, the check is made. */
    ghost predicate StallChecked(pauses: nat, estimates: Estimates, canPause: bool, before: Stall, main: bool)
      reads head`printTime, head`stall, head`state
    {
      if head.printTime > before.needCheck then
        head.Checked(pauses, estimates, canPause, before, main) && head.state == if main then Main else Priming
      else
        head.stall == before && main == (head.state == Main)
    }

    /** The moves begin at the given time, and only steps are generated after they are put in. */
    ghost predicate PutAt(times: seq<Timed>, start: real, before: seq<Action>)
      reads head`log, head`kinFlushDelay
    {
      OnlyGenerates(before + Appends(times, start, head.kinFlushDelay), head.log)
    }

    /** The print time is at the end of the moves put in, the buffer is checked and the machine is not idle. */
    ghost predicate Processed(times: seq<Timed>, start: real, log: seq<Action>, pauses: nat,
                              estimates: Estimates, canPause: bool, before: Stall, main: bool)
      reads head`log, head`kinFlushDelay, head`printTime, head`stall, head`state
    {
      && PutAt(times, start, log) && head.printTime == start + TotalTime(times)
      && StallChecked(pauses, estimates, canPause, before, main) && head.state != Flushed
    }

    /**
     Puts what the planner has handed over into the motion queue, from time start on, and waits if
     that is too full.
     */
    method Process(times: seq<Timed>, estPrintTime: real, estimates: Estimates, canPause: bool)
      returns (pauses: nat, ghost start: real)
      requires head.Valid() && head.state != Drip && Advances(estimates)
      requires AllValid(times) && Connected(times, TipOf(head.log))
      modifies head
      ensures head.Valid() && head.state != Drip && DrivenBy(head.log) == old(DrivenBy(head.log)).And(times)
      ensures times != [] && old(head.state) != Main ==>
                estPrintTime + head.bufferTimeStart <= start && estPrintTime + MIN_KIN_TIME + head.kinFlushDelay <= start
      ensures old(head.Begins(times, start, estPrintTime))
      ensures Processed(times, start, old(head.log), pauses, estimates, canPause, old(StallAfter(times)),
                        old(head.state) == Main || times != [])
      ensures head.state == Main || head.state == Priming
    {
      assert 0.0 <= head.printTime;
      hide Connected, AllValid, Advances, ToolHead.Timely, TipOf, Motion, OnlyGenerates, Appends, ToolHead.Checked;
      start, pauses := head.printTime, 0;
      if times != [] {
        var ended;
        ended, start := head.ProcessMoves(times, estPrintTime, canPause, []);
      } else {
        NoMoves(times, TipOf(head.log), start, head.kinFlushDelay);
        assert head.log + [] == head.log;
        GeneratesNone(head.log);
      }
      if head.printTime > head.stall.needCheck {
        pauses := head.CheckStall(estimates, canPause);
      }
    }

    /** When the next check is due once the moves are in the motion queue. */
    ghost function StallAfter(times: seq<Timed>): (s: Stall)
      reads head`stall, head`state
    {
      if head.state == Main || times == [] then head.stall else head.stall.(needCheck := -1.0)
    }

    /**
     A move is queued; what the planner hands over goes on to the motion queue, from time start on.
     Unless the machine moves, that is ahead of its clock.
     */
    method Move(move: Move, settings: Settings, estPrintTime: real, estimates: Estimates, canPause: bool)
      returns (pauses: nat, ghost start: real, ghost gone: seq<Move>)
      requires Valid() && settings.Valid() && Advances(estimates)
      requires move.Valid() && move.Unplanned() && Sound(move.View())
      requires move !in queue.queue && move.startPos == commandedPos
      modifies `commandedPos, queue, queue.queue, move, head
      ensures Valid() && commandedPos == move.EndPos() && RunsOn(old(queue.run), move.View())
      ensures old(queue.queue) + [move] == gone + queue.queue && PutIn(gone, old(Motion(head.log)))
      ensures var times := TimesOf(gone);
              && old(head.Begins(times, start, estPrintTime))
              && Processed(times, start, old(head.log), pauses, estimates, canPause, old(StallAfter(times)),
                           old(head.state) == Main || times != [])
      ensures gone != [] && old(head.state) != Main ==>
                estPrintTime + head.bufferTimeStart <= start && estPrintTime + MIN_KIN_TIME + head.kinFlushDelay <= start
      ensures head.state == Main || head.state == Priming
    {
      hide Run.Trace, Drives, Connected, FinalTip, AllValid, MoveQueues.Move.Valid, Route, RouteEnd, TimesOf, TipOf, Motion;
      hide Sound, Advances, ToolHead.Valid, MoveQueue.Valid, ToolHead.Begins, StallAfter, Processed, RunsOn;
      OneMoreRouted(queue.queue, move, TipOf(head.log).at);
      var times;
      times, gone := AddToQueue(move, settings, DrivenBy(head.log));
      pauses, start := Process(times, estPrintTime, estimates, canPause);
      assert times == TimesOf(gone);
      commandedPos := move.EndPos();
    }

    /** Flushes everything that is queued and all steps. */
    method FlushStepGeneration(estPrintTime: real) returns (ghost start: real)
      requires Valid()
      modifies queue, queue.queue, head
      ensures Valid() && queue.queue == [] && head.state == Flushed
      ensures queue.countdown == Countdown(head.bufferTimeHigh, [])
      ensures PutIn(old(queue.queue), old(Motion(head.log)))
      ensures var times := TimesOf(old(queue.queue));
              && old(head.Begins(times, start, estPrintTime))
              && head.AllFlushed(times, start, old(head.log), old(head.lastKinFlushTime), old(head.lastKinMoveTime))
      ensures queue.run == Next(old(queue.run), Event.Flush(false))
    {
      hide Run.Trace, Drives, Connected, FinalTip, AllValid, ToolHead.Valid, MoveQueue.Valid;
      hide TimesOf, TipOf, Motion, Route, RouteEnd, ToolHead.Begins, ToolHead.AllFlushed;
      NoRoute(commandedPos);
      ghost var queued := queue.queue;
      var pending := FlushQueue(true, DrivenBy(head.log));
      start := head.FlushStepGeneration(pending, estPrintTime);
      assert pending == TimesOf(queued);
    }

    /** The time at which a command that follows all queued moves takes effect. */
    method GetLastMoveTime(flushEst: real, estPrintTime: real) returns (t: real, ghost s: Settled)
      requires Valid()
      modifies queue, queue.queue, head
      ensures Valid() && queue.queue == [] && t == s.time == head.printTime >= old(head.printTime)
      ensures queue.countdown
           == Countdown(if old(head.state) == Main then LOOKAHEAD_FLUSH_TIME else head.bufferTimeHigh, [])
      ensures PutIn(old(queue.queue), old(Motion(head.log)))
      ensures Settles(s, TimesOf(old(queue.queue)), old(head.state) == Main, estPrintTime, old(head.log))
      ensures var times := TimesOf(old(queue.queue)); old(head.Begins(times, s.start, flushEst))
      ensures queue.run == Next(old(queue.run), Event.Flush(false))
    {
      hide Run.Trace, Drives, Connected, FinalTip, AllValid, ToolHead.Valid, MoveQueue.Valid;
      hide TimesOf, TipOf, Motion, Route, RouteEnd, ToolHead.Begins, ToolHead.Reached;
      NoRoute(commandedPos);
      ghost var queued := queue.queue;
      var pending := FlushQueue(head.state != Main, DrivenBy(head.log));
      t, s := head.GetLastMoveTime(pending, flushEst, estPrintTime);
      assert pending == TimesOf(queued);
    }

    /** All moves are put in from s.start on, and the time for the next command is reached behind them. */
    ghost predicate Settles(s: Settled, times: seq<Timed>, main: bool, estPrintTime: real, before: seq<Action>)
      reads head`log, head`lastKinFlushTime, head`kinFlushDelay
    {
      head.Reached(s, times, main, estPrintTime) && PutAt(times, s.start, before)
    }

    method Dwell(delay: real, flushEst: real, estPrintTime: real, estimates: Estimates, canPause: bool)
      returns (pauses: nat, ghost s: Settled)
      requires Valid() && Advances(estimates)
      modifies queue, queue.queue, head
      ensures Valid() && queue.queue == [] && head.printTime == s.time + Max(0.0, delay)
      ensures s.time >= old(head.printTime) && head.state == (if old(head.state) == Main then Main else Priming)
      ensures old(head.state) == Main ==>
                head.printTime == old(head.printTime) + TotalTime(TimesOf(old(queue.queue))) + Max(0.0, delay)
      ensures PutIn(old(queue.queue), old(Motion(head.log)))
      ensures Settles(s, TimesOf(old(queue.queue)), old(head.state) == Main, estPrintTime, old(head.log))
      ensures var times := TimesOf(old(queue.queue)); old(head.Begins(times, s.start, flushEst))
      ensures queue.run == Next(old(queue.run), Event.Flush(false))
    {
      hide Run.Trace, Drives, Connected, FinalTip, AllValid, ToolHead.Valid, MoveQueue.Valid;
      hide TimesOf, TipOf, Motion, Route, RouteEnd, Advances, ToolHead.Begins, ToolHead.Reached, ToolHead.Checked;
      NoRoute(commandedPos);
      ghost var queued := queue.queue;
      var pending := FlushQueue(head.state != Main, DrivenBy(head.log));
      pauses, s := head.Dwell(delay, pending, flushEst, estPrintTime, estimates, canPause);
      assert pending == TimesOf(queued);
    }

    /** The flush timer: a machine that runs out of moves is brought to rest. */
    method FlushHandler(estPrintTime: real, flushEst: real) returns (again: bool)
      requires Valid()
      modifies queue, queue.queue, head
      ensures Valid()
      ensures again <==> old(head.printTime) - estPrintTime > head.bufferTimeLow
      ensures !again ==> queue.queue == [] && head.state == Flushed
      ensures !again ==> queue.run == Next(old(queue.run), Event.Flush(false))
      ensures !again ==> queue.countdown == Countdown(head.bufferTimeHigh, [])
      ensures !again ==> PutIn(old(queue.queue), old(Motion(head.log)))
      ensures again ==> queue.run == old(queue.run) && queue.queue == old(queue.queue) && head.log == old(head.log)
    {
      hide Run.Trace, Drives, Connected, FinalTip, AllValid, ToolHead.Valid, MoveQueue.Valid;
      hide TimesOf, TipOf, Motion, Route, RouteEnd;
      again := head.printTime - estPrintTime > head.bufferTimeLow;
      if !again {
        NoRoute(commandedPos);
        var pending := FlushQueue(true, DrivenBy(head.log));
        ghost var start;
        again, start := head.FlushHandler(pending, estPrintTime, flushEst);
      }
    }

    /** The scan time of a step generator changes once everything queued is flushed. */
    method NoteStepGenerationScanTime(delay: real, oldDelay: real, estPrintTime: real)
      requires Valid() && (oldDelay != 0.0 ==> oldDelay in head.kinFlushTimes)
      modifies queue, queue.queue, head
      ensures Valid() && queue.queue == [] && head.state == Flushed
      ensures queue.countdown == Countdown(head.bufferTimeHigh, [])
      ensures PutIn(old(queue.queue), old(Motion(head.log)))
      ensures queue.run == Next(old(queue.run), Event.Flush(false))
      ensures forall d :: d in head.kinFlushTimes ==> head.kinFlushDelay >= d
      ensures head.kinFlushDelay == SDS_CHECK_TIME || head.kinFlushDelay in head.kinFlushTimes
      ensures multiset(head.kinFlushTimes) == multiset(old(head.kinFlushTimes))
                                              - (if oldDelay != 0.0 then multiset{oldDelay} else multiset{})
                                              + (if delay != 0.0 then multiset{delay} else multiset{})
    {
      hide Run.Trace, Drives, Connected, FinalTip, AllValid, ToolHead.Valid, MoveQueue.Valid;
      hide TimesOf, TipOf, Motion, Route, RouteEnd;
      NoRoute(commandedPos);
      var pending := FlushQueue(true, DrivenBy(head.log));
      head.NoteStepGenerationScanTime(delay, oldDelay, pending, estPrintTime);
    }

    /** Everything queued is driven to rest before the position is set. */
    method SetPosition(newPos: Coord, estPrintTime: real)
      requires Valid()
      modifies `commandedPos, queue, queue.queue, head
      ensures Valid() && queue.queue == [] && head.state == Flushed && commandedPos == newPos
      ensures queue.countdown == Countdown(head.bufferTimeHigh, [])
      ensures PutIn(old(queue.queue), old(Motion(head.log)))
      ensures queue.run == Next(old(queue.run), Event.Flush(false))
    {
      hide Run.Trace, Drives, Connected, FinalTip, AllValid, ToolHead.Valid, MoveQueue.Valid;
      hide TimesOf, TipOf, Motion, Route, RouteEnd;
      NoRoute(newPos);
      ghost var d := DrivenBy(head.log);
      var pending := FlushQueue(true, d);
      head.SetPosition(newPos, pending, estPrintTime);
      DrivesAnywhere(d.And(pending), newPos, queue.run.Trace());
      commandedPos := newPos;
    }

    /** Activity outside of the queue extends the time that the next flush covers. */
    method NoteKinematicActivity(kinTime: real)
      requires Valid()
      modifies head
      ensures Valid() && queue.run == old(queue.run) && head.log == old(head.log)
      ensures head.lastKinMoveTime == Max(old(head.lastKinMoveTime), kinTime)
    {
      head.NoteKinematicActivity(kinTime);
    }

    /** The planner has flushed, taken one move and flushed again. */
    ghost predicate AloneRun(r: Run, m: Limits)
      reads queue`run
    {
      queue.run == Next(Next(r, Event.Flush(false)).AfterAdd(m), Event.Flush(false))
    }

    /** Plans a move on its own behind everything that is queued. */
    method PlanAlone(move: Move, refused: bool, settings: Settings, ghost d: Driven)
      returns (pending: seq<Timed>, moves: seq<Timed>)
      requires queue.Valid() && Drives(d, queue.run.Trace()) && settings.Valid()
      requires move.Valid() && move.Unplanned() && Sound(move.View()) && move !in queue.queue
      requires Route(queue.queue, d.tip.at) && RouteEnd(queue.queue, d.tip.at) == move.startPos
      modifies queue`queue, queue`junctionFlush, queue`countdown, queue`run
      modifies queue.queue`phases, queue.queue`junction, queue.queue`planned
      modifies move`maxStartV2, move`maxSmoothedV2, move`phases, move`junction, move`planned
      ensures queue.countdown == Countdown(head.bufferTimeHigh, [])
      ensures queue.Valid() && queue.queue == [] && Drives(d.And(pending).And(moves), queue.run.Trace())
      ensures AllValid(pending) && Connected(pending, d.tip) && FinalTip(pending, d.tip).v == 0.0
      ensures var tip := FinalTip(pending, d.tip);
              && tip.at == move.startPos && AllValid(moves) && Connected(moves, tip) && FinalTip(moves, tip).v == 0.0
              && FinalTip(moves, tip).at == if refused then move.startPos else move.EndPos()
      ensures pending == TimesOf(old(queue.queue)) && moves == if refused then [] else [TimedOf(move)]
      ensures refused ==> queue.run == Next(old(queue.run), Event.Flush(false))
      ensures !refused ==> AloneRun(old(queue.run), move.View())
    {
      hide Run.Trace, Drives, Connected, FinalTip, AllValid, MoveQueues.Move.Valid, Sound;
      hide MoveQueue.Valid, TimesOf, TimedOf, Route, RouteEnd;
      ghost var queued := queue.queue;
      pending := FlushQueue(true, d);
      ghost var e := d.And(pending);
      NothingConnects(e);
      moves := [];
      if !refused {
        moves := PlanOne(move, settings, e);
      }
      assert pending == TimesOf(queued);
    }

    /** Plans a move on its own. */
    method PlanOne(move: Move, settings: Settings, ghost d: Driven) returns (moves: seq<Timed>)
      requires queue.Valid() && Drives(d, queue.run.Trace()) && settings.Valid() && queue.queue == []
      requires move.Valid() && move.Unplanned() && Sound(move.View()) && move.startPos == d.tip.at
      modifies queue`queue, queue`junctionFlush, queue`countdown, queue`run
      modifies move`maxStartV2, move`maxSmoothedV2, move`phases, move`junction, move`planned
      ensures queue.countdown == Countdown(head.bufferTimeHigh, [])
      ensures queue.Valid() && queue.queue == [] && Drives(d.And(moves), queue.run.Trace())
      ensures AllValid(moves) && Connected(moves, d.tip) && FinalTip(moves, d.tip).v == 0.0
      ensures moves == [TimedOf(move)] && FinalTip(moves, d.tip).at == move.EndPos()
      ensures queue.run == Next(old(queue.run).AfterAdd(move.View()), Event.Flush(false))
    {
      hide Run.Trace, Drives, Connected, FinalTip, AllValid, MoveQueues.Move.Valid;
      hide Sound, MoveQueue.Valid, TimedOf, Route, RouteEnd;
      NoRoute(d.tip.at);
      OneMoreRouted([], move, d.tip.at);
      assert [] + [move] == [move];
      NothingConnects(d);
      var none;
      ghost var gone;
      none, gone := AddToQueue(move, settings, d);
      moves := FlushQueue(true, d);
    }

    /** A homing move, planned on its own; if the trigger ends it, what is left of it is dropped. */
    method DripMove(move: Move, refused: bool, settings: Settings,
                    flushEst: real, estPrintTime: real, dripEst: real,
                    estimates: Estimates, canPause: bool, observed: seq<Seen>)
      returns (ended: bool)
      requires Valid() && settings.Valid() && Advances(estimates) && UntilDone(observed)
      requires move.Valid() && move.Unplanned() && Sound(move.View())
      requires move !in queue.queue && move.startPos == commandedPos
      modifies `commandedPos, queue, queue.queue, move, head
      ensures Valid() && queue.queue == [] && head.state == Flushed
      ensures queue.countdown == Countdown(head.bufferTimeHigh, [])
      ensures commandedPos == if refused then move.startPos else move.EndPos()
      ensures ended ==> !refused && queue.run == NEW_RUN && Motion(head.log) == []
      ensures !ended ==> Motion(head.log) == old(Motion(head.log)) + TimesOf(old(queue.queue))
                                             + if refused then [] else [TimedOf(move)]
      ensures !ended && refused ==> queue.run == Next(old(queue.run), Event.Flush(false))
      ensures !ended && !refused ==> AloneRun(old(queue.run), move.View())
    {
      hide Run.Trace, Drives, Connected, FinalTip, AllValid, MoveQueues.Move.Valid, Sound, Advances;
      hide ToolHead.Valid, TipOf, Motion, MoveQueue.Valid, UntilDone, TimesOf, TimedOf, Route, RouteEnd;
      var pending, moves := PlanAlone(move, refused, settings, DrivenBy(head.log));
      ghost var s, start;
      ended, s, start := head.DripMove(pending, moves, refused, flushEst, estPrintTime, dripEst,
                             estimates, canPause, observed);
      NewRunAtRest();
      NoRoute(TipOf(head.log).at);
      if !refused {
        commandedPos := move.EndPos();
      }
      if ended {
        queue.Reset();
        queue.SetFlushTime(head.bufferTimeHigh);
      }
    }
  }
}
