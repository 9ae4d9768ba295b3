# Verified models of Klipper's motion, scheduling and protocol cores

Klipper drives a 3D printer in two halves. A host program in Python plans the motion of the toolhead
and sends timed commands; firmware in C on one or more micro-controllers executes them. This project
models the parts of both whose correctness depends on a whole run rather than on one call, and proves
what those runs keep. Objects that the program updates in place are classes here, with the same fields
and the same loops; each method is proved against a specification on values, and the promises are
lemmas about those specifications.

| file | models |
|---|---|
| `RealMath.dfy`, `Kinematics.dfy` | geometry, junction speeds and the three phases of one move |
| `Lookahead.dfy` | the look-ahead planner as mathematics: plans, cuts, runs and the finality of lazy flushes |
| `MoveQueue.dfy` | the `Move` and `MoveQueue` objects that carry the planner out |
| `PrintTime.dfy` | the toolhead's print time, step generation and buffer checks |
| `Toolhead.dfy` | both together: what the planner hands over goes into the motion queue |
| `Bytes.dfy`, `Clock32.dfy` | bytes, 32-bit tick counts and the unbounded times they stand for |
| `Sched.dfy` | the firmware's timer list |
| `StepTiming.dfy`, `Stepper.dfy` | step schedules and the stepper object |
| `Trsync.dfy` | triggers that stop steppers |
| `MovePool.dfy` | the shared pool of move nodes |
| `SoftPwm.dfy` | digital outputs with software PWM and a maximum duration |
| `Vlq.dfy`, `Messages.dfy` | variable length integers and parameter lists in both languages |
| `Frames.dfy`, `Receiver.dfy` | message blocks, check sums and the receiver |
| `ClockSync.dfy` | 64-bit clocks from 32-bit counters |
| `Tmcuart.dfy` | the edge-scheduled UART transmitter |

## Main results

- *Lazy flushes change nothing.* For every sequence of added moves, lazy flushes and complete flushes,
  the speeds handed over are those that planning only in complete batches would give. What a lazy
  flush hands over is the same in every later plan, whatever moves follow.
- *Motion is continuous and can be driven.* Over every run, each move ends at the speed at which the
  next one starts, the motion starts and ends at rest, and every move gets speeds whose three phases
  cover exactly its length at its acceleration.
- *Steps are never generated backward*, and no move enters the motion queue too close to them.
- *The motion queue gets exactly the planned motion.* Over every sequence of toolhead commands the moves
  that leave the look-ahead queue, and no others, go into the motion queue in order, each with the speeds
  that the planner handed over and the phases that drive its whole length at its acceleration. Each goes on
  when, where and as fast as the one before it ends; a pause between two of them, or a new position, comes
  only at rest. The queued moves always lead from the end of that motion to the commanded position.
- *The timer list stays sorted, distinct and complete* under wrap-around time for every sequence of
  add, delete, run and reset; the insertion hint finds the same place as a full search.
- *A corner is driven at the largest speed* at which both moves provide the centripetal acceleration of the
  circle that rounds it and touch that circle; a reversal stops, and a right angle between long moves gets
  exactly the square corner velocity. No move is driven faster than commanded.
- *A lazy flush comes exactly when enough time is queued*, and moves start at the least time ahead of the
  machine's clock, or without a gap while the machine moves.
- *The reported stepper position is exact* as long as the net number of steps is within 2^30 now and
  at every stop. What is read back is the true value if and only if the number is in that range, mid-move
  and across queued direction changes too, and a stop keeps the stored position exact if and only if it
  can be read back.
- *Blocks dispatched and naks sent depend only on the byte stream*, not on how it arrives in pieces. The
  blocks carry consecutive numbers, a stream in order is dispatched completely, and lost or broken blocks are
  answered by naks after which sending again repairs the stream. The check sum is the CCITT remainder.
- *An output with a maximum duration is limited* after a new setting if and only if its first pulse
  fits into the limit or the setting ends less than 2^31 ticks before the end of the pulse. That is so
  whenever the next update, if one is queued, is for a time between now and 2^31 ticks after the limit.
  Over every run in which each update is for a time less than 2^31 ticks after the one before it,
  settings are applied when the host means them to be and the limit always holds.
- *No move node is lost or doubled*, and the shutdown handlers restore the pool from any state in any order.
- *Each bit is on the UART line for its whole period*, except a first bit that is not a start bit, as long
  as every edge comes after the one before it and less than 2^31 ticks later; the condition is exact for
  each edge.
- *A stepper that runs until nothing is left to do* has taken exactly the commanded steps, with either
  schedule, unless it shuts down because a move starts too late.

Conventions: real numbers stand for the host's floating-point values, and the square root is a parameter
of which only `sqrt(x)*sqrt(x) == x` and non-negativity are used. 32-bit values are integers below 2^32
with explicit wrap-around. A ghost field gives the unbounded time that a 32-bit time stands for. A
shutdown is a result of the method that would cause it.

Some promises of the repository do not hold on all inputs. They are stated with the exact condition
under which they do:

- the reported stepper position beyond 2^30 net steps, and the stored one after a stop there
  (`Steppers.ReportExact`, `Steppers.StopCode`; a stepper that has gone one step too far in
  `Steppers.PositionOverrun`);
- the limit of a software PWM pin, which only a clock of the update behind a setting can break that lies
  before the time at which the setting is applied, or 2^31 ticks or more after its limit
  (`SoftPwm.DigitalOut.LoadEvent`, with a pin driven beyond its limit in `SoftPwm.StaleClockEscapesLimit`);
- signed message parameters below -2^26, which the host reads 2^32 too high (`Vlq.EveryoneReadsC`, with
  the first such value in `Vlq.SignedTooLow`);
- a first UART bit of 1, for which the line is low (`Tmcuarts.Tmcuart.BitsWereOnTheLine`, with a byte that is
  sent wrong in `Tmcuarts.FirstBitLost`);
- a UART edge that is scheduled before the present one, or 2^31 ticks or more after it
  (`Tmcuarts.Tmcuart.SendSyncEvent`, `Tmcuarts.Tmcuart.SendEvent`, with a first edge that is noted too late in
  `Tmcuarts.LateFirstEdge`);
- the rounding of the measured UART bit time, which is not to the nearest when the bits took less than
  configured (`Tmcuarts.QuarterIsNearest`);
- the timer list, when a callback deletes its own timer and others then come to or leave the front
  (`Sched.Scheduler.FinishDone`).

## Model

| member | source | states |
|---|---|---|
| Kinematics.PathOf | klipper/klippy/toolhead.py:21-39 | the length is that of the displacement and the direction times the length is the displacement; exactly the displacements shorter than 10^-9 in the three axes become extrude-only moves |
| Kinematics.LimitsOf | klipper/klippy/toolhead.py:40-48 | the cruise limit is the square of the velocity, the least time is the length over it, and the two changes are those over the whole length at the full and at the reduced acceleration; the smoothed change stays within the full one |
| Kinematics.FullRamp | klipper/klippy/toolhead.py:46 | a move driven over its whole length at its acceleration changes its squared speed by exactly its delta |
| Kinematics.RampTime | klipper/klippy/toolhead.py:102-106 | distance over average speed is the time of a ramp of constant acceleration that reaches the target speed |
| Kinematics.RampsFit | klipper/klippy/toolhead.py:92-97 | squared speeds that change by no more than the move allows leave no negative cruise distance |
| Kinematics.PhasesOf | klipper/klippy/toolhead.py:92-106 | the three phase times are non-negative and drive exactly the length of the move at its acceleration |
| Kinematics.CornerAngles | klipper/klippy/toolhead.py:72-79 | the clamped angle keeps both half-angle roots strictly between zero and one, so no division is by zero |
| Kinematics.CornerNonNegative | klipper/klippy/toolhead.py:75-88 | the corner speed limit is never negative |
| Kinematics.CornerExists | klipper/klippy/toolhead.py:72-79 | at every angle that is driven there is a circle that passes the corner at the junction deviation |
| Kinematics.CornerUnique | klipper/klippy/toolhead.py:72-79 | and only one |
| Kinematics.CornerIsRounded | klipper/klippy/toolhead.py:72-87 | a corner gets the largest speed at which both moves provide the centripetal acceleration of that circle and touch it no further away than at their middle |
| Kinematics.SquareCorner | klipper/klippy/toolhead.py:539-541 | with the deviation that the square corner velocity gives, a right angle between long moves is driven at exactly that velocity |
| Kinematics.ExtruderV2 | klipper/klippy/kinematics/extruder.py:138-142 | at the limit the extrusion rate changes at exactly the instant corner velocity; without a change the limit is that of the move |
| MoveQueues.Move.constructor | klipper/klippy/toolhead.py:15-48 | a new move has the path of its end points, may cruise at exactly the commanded speed, capped for a move of the axes at the machine's limit, and is sound for the planner; an extrude-only move ends where it starts but for the extruder |
| MoveQueues.Move.LimitSpeed | klipper/klippy/toolhead.py:49-56 | lower limits are taken over and the move stays sound, the smoothed change within the full one |
| MoveQueues.Move.CalcJunction | klipper/klippy/toolhead.py:61-91 | the junction limit, and that it links the move to its predecessor in the way finality needs |
| MoveQueues.Move.CornerStops | klipper/klippy/toolhead.py:61-71 | without two moves of the axes, and in a reversal, the junction limit is zero |
| MoveQueues.Move.CornerGoes | klipper/klippy/toolhead.py:61-88 | at every other angle it is positive |
| MoveQueues.Move.CornerIsDriven | klipper/klippy/toolhead.py:61-88 | the junction limit keeps the rounded corner, the extruder's velocity change, both cruise limits and the reachable speed, and one of these bounds is attained |
| MoveQueues.Move.SquareCornerSpeed | klipper/klippy/toolhead.py:61-88 | at a right angle between long and fast enough moves the limit is the square corner velocity |
| MoveQueues.Move.SetJunction | klipper/klippy/toolhead.py:92-106 | feasible speeds become the phases of one drive over the whole move, with the roots of the assigned squares as speeds; the move counts as planned once more |
| MoveQueues.Move.NeverFaster | klipper/klippy/toolhead.py:42-45 | a planned move is never driven faster than any speed that its cruise limit keeps, such as the commanded one and the machine's limit |
| MoveQueues.Move.AloneAtSpeed | klipper/klippy/toolhead.py:136-166 | a move planned on its own goes from rest to rest and reaches its speed if and only if it is long enough for the reduced acceleration |
| Lookahead.ProfileBounds | klipper/klippy/toolhead.py:136-141 | the smoothed profile is non-negative and below the full one, both within the junction limits |
| Lookahead.StartReachesNext | klipper/klippy/toolhead.py:138-141 | neighbouring junction speeds never differ by more than the move between them can change |
| Lookahead.StartIsGreatest | klipper/klippy/toolhead.py:131-139 | the start speeds are the greatest ones that respect all limits and stop at the end of the queue |
| Lookahead.AfterPeakIsAnchored | klipper/klippy/toolhead.py:142-147 | a move behind a peak or a delayed move that is not delayed itself starts at its junction limit in both profiles |
| Lookahead.CapAboveSmoothed | klipper/klippy/toolhead.py:151-166 | the peak cruise speed handed to delayed moves is positive and never below the smoothed speed of the next junction |
| Lookahead.PlanIsContinuous | klipper/klippy/toolhead.py:154-171 | each move ends at the speed at which the next one starts, across peaks and delayed moves |
| Lookahead.PlanStartsAndEndsAtRest | klipper/klippy/toolhead.py:131-171 | a queue that begins at rest is planned from rest to rest |
| Lookahead.PlanIsFeasible | klipper/klippy/toolhead.py:156-166 | every planned move has speeds within its limits that its length and acceleration allow |
| Lookahead.AnchorFixes | klipper/klippy/toolhead.py:136-146 | speeds and delays at or before an anchored junction are the same in every longer queue |
| Lookahead.SettledPlanFixed | klipper/klippy/toolhead.py:148-166 | the plan before a peak that is followed by an anchor is the same in every longer queue |
| Lookahead.LazyCutIsSettled | klipper/klippy/toolhead.py:148-150 | a lazy flush cuts at such a peak and leaves at least two moves |
| Lookahead.LazyLeavesMoves | klipper/klippy/toolhead.py:172-182 | a lazy flush never empties the queue, so the next move finds its true predecessor |
| Lookahead.LazyCommitIsFinal | klipper/klippy/toolhead.py:126-177 | moves handed over by a lazy flush keep their speeds in every plan of a longer queue |
| Lookahead.PlanShift | klipper/klippy/toolhead.py:126-177 | planning what is left after a cut gives the speeds of planning everything |
| Lookahead.VisitDelayed | klipper/klippy/toolhead.py:157-169 | a delayed move gets the speeds that the peak before it allows, and they are feasible |
| Lookahead.VisitPeak | klipper/klippy/toolhead.py:142-152 | when a visit finds a peak and when it is where a lazy flush cuts |
| Lookahead.VisitDirect | klipper/klippy/toolhead.py:162-166 | the speeds of a move that is planned at once, and that they are feasible |
| Lookahead.InStepLazy | klipper/klippy/toolhead.py:172-177 | after a lazy flush the speeds handed over are still a prefix of the plan of all moves of the run |
| Lookahead.InStepFull | klipper/klippy/toolhead.py:172-177 | a complete flush ends a run with the plan of one batch flush of all its moves |
| Lookahead.TraceIsSmooth | klipper/klippy/toolhead.py:126-177 | everything handed over in a run is continuous, starts at rest and ends at rest once nothing waits |
| Lookahead.FlushKeepsOk | klipper/klippy/toolhead.py:126-177 | every flush keeps what the run relies on |
| Lookahead.AddKeepsOk | klipper/klippy/toolhead.py:178-182 | every added move that is linked to its predecessor keeps it too |
| Lookahead.RunMatchesBatches | klipper/klippy/toolhead.py:126-186 | a run with lazy flushes tracks the run that plans only in complete batches |
| Lookahead.LazyFlushesChangeNothing | klipper/klippy/toolhead.py:126-186 | for every interleaving of moves, lazy and complete flushes the motion is that of complete batches |
| MoveQueues.MoveQueue.Visit | klipper/klippy/toolhead.py:136-171 | one iteration of the loop brings the running variables, the delayed list and the planned moves to the next position of the profile |
| MoveQueues.PropagatePeak | klipper/klippy/toolhead.py:153-161 | every delayed move is planned exactly once, with the speeds under the peak |
| MoveQueues.MoveQueue.PlanMoves | klipper/klippy/toolhead.py:126-173 | exactly the first flush_count moves are planned, each once, as the plan of the queue says |
| MoveQueues.MoveQueue.Flush | klipper/klippy/toolhead.py:126-177 | the planned moves leave the queue in order, no other one has been planned, and the run takes the step of the mathematical planner |
| MoveQueues.MoveQueue.Append | klipper/klippy/toolhead.py:178-182 | the new move is linked to the last queued one and put behind it |
| MoveQueues.MoveQueue.AddMove | klipper/klippy/toolhead.py:178-186 | a move is queued; a lazy flush comes exactly when the times of the moves queued behind another one since the flush time was set add up to it, and hands over what is final |
| MoveQueues.MoveQueue.RunDown | klipper/klippy/toolhead.py:183-184 | the time left is the flush time less the times queued, and it is over exactly when these reach it |
| MoveQueues.MoveQueue.Reset | klipper/klippy/toolhead.py:117-119 | all queued moves are dropped and a new run begins |
| PrintTimes.GeneratedInOrder | klipper/klippy/toolhead.py:278-294 | over a whole run the times passed to step generators never decrease |
| PrintTimes.AppendedLater | klipper/klippy/toolhead.py:295-334 | every move starts at least the flush delay after every time up to which steps were generated before |
| PrintTimes.MovesConnect | klipper/klippy/toolhead.py:305-334 | of two moves put in one after the other the second goes on when, where and as fast as the first ends, with a pause only at rest |
| PrintTimes.ToolHead.UpdateMoveTime | klipper/klippy/toolhead.py:278-294 | steps are generated up to the new print time less the delay, in order and in the fewest batches of at most half a second |
| PrintTimes.ToolHead.CalcPrintTime | klipper/klippy/toolhead.py:295-302 | the print time moves ahead of the machine's clock and of all generated steps, and no further |
| PrintTimes.ToolHead.AppendMoves | klipper/klippy/toolhead.py:315-329 | moves follow each other without a gap from the print time on and go on where and as fast as the last one ends |
| PrintTimes.AppendsAt | klipper/klippy/toolhead.py:315-329 | each move starts when all before it are over |
| PrintTimes.DurationCovers | klipper/klippy/toolhead.py:326-327 | the time given to a move takes it from its start to its end, in position and in speed |
| PrintTimes.ToolHead.ProcessMoves | klipper/klippy/toolhead.py:305-334 | from every state exactly the given moves are queued, at the print time while the machine moves and otherwise at the least time ahead of the clock just read, and their steps are generated up to the end of the last one |
| PrintTimes.ToolHead.UpdateDripMoveTime | klipper/klippy/toolhead.py:447-460 | a drip move advances by one segment for each observation that finds it not too far ahead of the machine, until it is done, and ends early exactly when an observation finds the trigger completed; it stays within its lead and one segment of the latest clock |
| PrintTimes.DripStaysNear | klipper/klippy/toolhead.py:447-460 | a drip move is never further ahead of the clocks read than allowed, and one segment |
| PrintTimes.DripAdvances | klipper/klippy/toolhead.py:447-460 | a drip move that need not wait advances by one segment for every observation |
| PrintTimes.ToolHead.FlushSteps | klipper/klippy/toolhead.py:336-346 | all steps up to the delay after the last move, and up to the print time less the delay, are generated, and no further |
| PrintTimes.ToolHead.FlushStepGeneration | klipper/klippy/toolhead.py:335-346 | queued moves are processed from their exact time on and flushed, from every state |
| PrintTimes.ToolHead.FlushHandler | klipper/klippy/toolhead.py:384-398 | exactly when the buffer runs low everything is flushed and the machine comes to rest |
| PrintTimes.ToolHead.GetLastMoveTime | klipper/klippy/toolhead.py:347-355 | the time returned is the end of the queued moves while the machine moves, and otherwise the least one behind the flush and ahead of the clock read last |
| PrintTimes.ToolHead.CheckStall | klipper/klippy/toolhead.py:356-383 | the wait ends at the first estimate with no more than the allowed time in the buffer; late moves after an idle flush are counted and the next check is set |
| PrintTimes.ToolHead.Dwell | klipper/klippy/toolhead.py:429-432 | everything queued is driven to rest, the print time is exactly the delay behind that, and the buffer is checked |
| PrintTimes.ToolHead.DripMove | klipper/klippy/toolhead.py:461-484 | a homing move starts behind the dwell and ahead of the clock just read, and ends flushed and at rest whether it is done, refused or ended by the trigger, which drops all motion; a trigger completed before ends it at once |
| PrintTimes.ToolHead.SetPosition | klipper/klippy/toolhead.py:402-409 | all queued motion is driven to rest before the next move may start at the new position |
| PrintTimes.ToolHead.NoteStepGenerationScanTime | klipper/klippy/toolhead.py:522-530 | the delay becomes the largest one asked for, after a flush under the old one |
| PrintTimes.ToolHead.NoteKinematicActivity | klipper/klippy/toolhead.py:537-538 | later activity extends the time that a flush must cover |
| PrintTimes.ChangeDelays | klipper/klippy/toolhead.py:525-528 | exactly one occurrence of the old delay is replaced by the new one |
| PrintTimes.LongestDelay | klipper/klippy/toolhead.py:529-530 | the result is the maximum of the list and the least delay |
| Toolheads.BatchConnects | klipper/klippy/toolhead.py:174-177 | a planned batch that continues the motion and its route drives each of its moves over its whole length at the planned speeds, goes on where and as fast as the motion ends, and ends where its last move does |
| Toolheads.FlushConnects | klipper/klippy/toolhead.py:126-177 | what any flush hands over continues the motion in speed and position, and a complete flush brings it to rest |
| Toolheads.RouteSplit | klipper/klippy/toolhead.py:410-418 | moves joined end to end stay so when the queue hands over the first of them |
| Toolheads.Toolhead.FlushQueue | klipper/klippy/toolhead.py:126-177 | a complete flush of the look-ahead queue gives exactly its moves, and they bring the machine to rest at the end of the last one |
| Toolheads.Toolhead.Move | klipper/klippy/toolhead.py:410-421 | a move from the commanded position is queued; exactly the moves that leave the queue go into the motion queue, ahead of the clock unless the machine moves, the rest lead on to the new commanded position, and the buffer is checked once the next check is due, which it is whenever the machine was idle |
| Toolheads.Toolhead.MotionIsPlanned | klipper/klippy/toolhead.py:315-329 | every move in the motion queue has the speeds that the planner handed over and is driven over its whole length |
| Toolheads.Toolhead.FlushStepGeneration | klipper/klippy/toolhead.py:335-346 | exactly the queued moves go into the motion queue at their time, the machine rests at the commanded position, and the next lazy flush waits for a full buffer |
| Toolheads.Toolhead.GetLastMoveTime | klipper/klippy/toolhead.py:347-355 | exactly the queued moves are put in, and the time returned is the first one behind them that the state and the clock allow |
| Toolheads.Toolhead.Dwell | klipper/klippy/toolhead.py:429-432 | all queued moves are driven and exactly the pause follows them at rest |
| Toolheads.Toolhead.FlushHandler | klipper/klippy/toolhead.py:384-398 | a machine that runs out of moves gets those still waiting for a successor and rests |
| Toolheads.Toolhead.DripMove | klipper/klippy/toolhead.py:461-484 | a homing move is planned on its own from rest to rest and driven behind all queued ones; if the trigger ends it, a new run of the planner begins at the commanded position |
| Toolheads.Toolhead.SetPosition | klipper/klippy/toolhead.py:402-409 | everything queued is driven to rest, and the next move starts at the new position |
| Toolheads.Toolhead.NoteStepGenerationScanTime | klipper/klippy/toolhead.py:522-530 | all queued moves are driven to rest before the delay becomes the largest one asked for |
| Toolheads.Toolhead.NoteKinematicActivity | klipper/klippy/toolhead.py:537-538 | later activity extends the time that a flush covers and touches no motion |
| Clock32.BeforeIsLess | klipper/src/sched.c:50-54 | times less than 2^31 apart compare like the times they stand for |
| Sched.Scheduler.constructor | klipper/src/sched.c:18-64 | the list starts with the periodic timer and the sentinel, in order |
| Sched.InsertTimer | klipper/src/sched.c:67-82 | the walk ends at or before the sentinel and links the timer before the first later one |
| Sched.SlotIsUnique | klipper/src/sched.c:67-82 | a sorted list has one place for a time, so every search that ends at such a place finds the same one |
| Sched.Scheduler.WalkStops | klipper/src/sched.c:71-78 | the wrapped comparison passes exactly the timers that are not later |
| Sched.Scheduler.NextIsNear | klipper/src/sched.c:50-54 | the periodic timer or the sentinel is always within 2^31 ticks, so the walk cannot miss its end |
| Sched.Scheduler.HintIsSafe | klipper/src/sched.c:171-174 | a hint that passes the check lies at or before the place of the timer |
| Sched.Scheduler.NewPlace | klipper/src/sched.c:168-175 | the first timer has a place among the others, and the comparisons of a walk lead to it |
| Sched.Scheduler.SchedAddTimer | klipper/src/sched.c:86-107 | a timer goes to its place, or in front behind the stand-in timer, or is refused exactly if it comes first and is in the past; the list stays valid |
| Sched.Scheduler.AddBehind | klipper/src/sched.c:67-104 | a timer not earlier than the first one goes behind all that are not later |
| Sched.Scheduler.AddFront | klipper/src/sched.c:91-102 | an earlier timer goes first, announced by the stand-in timer, which stays unique |
| Sched.Scheduler.NoTimerIsLost | klipper/src/sched.c:86-107 | at either place an added timer joins all others, and only the stand-in may come with it |
| Sched.Scheduler.SchedDelTimer | klipper/src/sched.c:122-143 | exactly the given timer leaves the list, wherever it is and whatever callback is active, and the hint stays in the list |
| Sched.Scheduler.SchedTimerReset | klipper/src/sched.c:183-190 | only the stand-in, the periodic timer and the sentinel are left, in order |
| Sched.Scheduler.RunNext | klipper/src/sched.c:147-159 | callbacks run in non-decreasing wake time and the sentinel never runs |
| Sched.Scheduler.FinishDone | klipper/src/sched.c:162-167 | a finished timer leaves the list, and the hint moves on with it; after a callback that has deleted its own timer the list is complete if and only if its front is still the one that timer was linked to |
| Sched.Scheduler.FinishReschedule | klipper/src/sched.c:168-178 | a rescheduled timer goes to the place that a search of the whole list would find |
| Sched.Scheduler.MoveBack | klipper/src/sched.c:168-176 | inserting from the hint links the same list as inserting from the front |
| Sched.Scheduler.PeriodicEvent | klipper/src/sched.c:35-43 | the periodic timer and the sentinel move on together |
| Sched.Scheduler.FinishPeriodic | klipper/src/sched.c:35-43 | the periodic timer goes back to its place and the sentinel stays last |
| StepTiming.StepsClosed | klipper/src/stepper.c:104-116 | the k-th step is k intervals and k(k-1)/2 increments after the first one, modulo 2^32 |
| StepTiming.MoveStepsClosed | klipper/src/stepper.c:65-100 | a queued move makes exactly count steps, the k-th at T + (k+1)*I + A*k(k+1)/2 modulo 2^32 |
| StepTiming.QueueAppend | klipper/src/stepper.c:232-247 | a queued move adds its steps behind those already commanded and changes none of them |
| StepTiming.TakenSteps | klipper/src/stepper.c:104-116 | taking a step removes the first one from what is left to do |
| StepTiming.LoadedSteps | klipper/src/stepper.c:65-100 | loading the next move changes none of the steps left to do |
| Steppers.Stepper.LoadMove | klipper/src/stepper.c:73-99 | the sign-flipping position and the direction pin follow the loaded move |
| Steppers.Stepper.LoadNext | klipper/src/stepper.c:65-100 | an empty queue ends the run, otherwise the next move is loaded |
| Steppers.Stepper.EventEdge | klipper/src/stepper.c:104-116 | every event is exactly the next commanded step, and the position stays exact |
| Steppers.Stepper.RunDry | klipper/src/stepper.c:104-116 | events until nothing is left to do take exactly the commanded steps, and the position stays exact |
| Steppers.Stepper.RunDryFull | klipper/src/stepper.c:141-171 | step and unstep events, whatever clocks they read, take exactly the commanded steps unless a move starts too late |
| Steppers.Stepper.EventFull | klipper/src/stepper.c:141-171 | a step event takes the next commanded step and an unstep event none; pulses keep their distance even when pushed back |
| Steppers.Stepper.UnstepEvent | klipper/src/stepper.c:148-170 | the pin is back at its idle level after every step; exactly a next move that starts more than a millisecond too late shuts down |
| Steppers.Stepper.QueueStep | klipper/src/stepper.c:221-250 | commanded steps are appended to the plan in the commanded direction, or dropped while a stop is in force |
| Steppers.Stepper.SetNextStepDir | klipper/src/stepper.c:256-263 | a new direction counts for moves queued later and changes nothing else |
| Steppers.Stepper.ResetStepClock | klipper/src/stepper.c:267-278 | the next step counts from the given time and a stop is lifted; refused while moving |
| Steppers.DecodeExact | klipper/src/stepper.c:291-295 | dropping the sign gives the position if and only if it is at most 2^31 |
| Steppers.ReportExact | klipper/src/stepper.c:282-307 | the reported position is the true one if and only if the net number of steps is within 2^30 |
| Steppers.Stepper.GetPosition | klipper/src/stepper.c:282-295 | the position read is that of the steps taken, mid-move too, and exactly right within 2^30 net steps |
| Steppers.StopCode | klipper/src/stepper.c:317-319 | the position stored by a stop is the true one for the first direction if and only if it is within range |
| Steppers.Stepper.Stop | klipper/src/stepper.c:311-328 | any stepper has no move and no event left after a stop; a position that was exact stays so if and only if it can be read back, and later commands queue nothing |
| Steppers.PositionOverrun | klipper/src/stepper.c:282-328 | a stepper that has taken 2^30 + 1 steps in one direction reports a wrong position and loses the stored one in a stop |
| Trsyncs.Trsync.DispatchAll | klipper/src/trsync.c:35-43 | the loop calls every signal of the list exactly once, unlinks it and keeps positions that can be read back |
| Trsyncs.Trsync.DoTrigger | klipper/src/trsync.c:27-45 | a trigger stops every registered stepper once, keeping positions that can be read back; a second activation does nothing and keeps the first reason |
| Trsyncs.Trsync.AddSignal | klipper/src/trsync.c:84-95 | a signal is registered once; an active one is refused |
| Trsyncs.Trsync.Clear | klipper/src/trsync.c:98-112 | all signals are unregistered without being called |
| Trsyncs.Trsync.Start | klipper/src/trsync.c:114-127 | the trigger is armed with an empty list |
| Trsyncs.Trsync.CommandTrigger | klipper/src/trsync.c:154-167 | the reported reason is that of the first activation since the start |
| MovePools.Pool.constructor | klipper/src/basecmd.c:169-178 | all nodes start on the free list |
| MovePools.Pool.Alloc | klipper/src/basecmd.c:84-94 | a node leaves the free list; an empty list is an overflow |
| MovePools.Pool.Free | klipper/src/basecmd.c:75-81 | a node handed out goes back to the free list |
| MovePools.Pool.Push | klipper/src/basecmd.c:111-122 | a node goes to the end of one queue, no other list changes, and the result tells whether it is the first |
| MovePools.Pool.IsEmpty | klipper/src/basecmd.c:97-101 | the null test tells whether the queue has nodes |
| MovePools.Pool.Pop | klipper/src/basecmd.c:125-131 | the first node leaves its queue and no other list changes |
| MovePools.Pool.Reset | klipper/src/basecmd.c:152-166 | every node is on the free list once, however the nodes were linked |
| MovePools.Pool.FreeQueue | klipper/src/stepper.c:323-327 | the pop and free loop of a stop moves the whole queue to the free list, each node once |
| MovePools.Pool.Drain | klipper/src/stepper.c:311-328 | the same loop does nothing on a cleared queue, whatever state the pool is in |
| MovePools.Pool.RunHandler | klipper/src/stepper.c:341-350 | a stepper's handler clears its queue before it frees nodes, which keeps what other handlers have done |
| MovePools.Pool.RunShutdown | klipper/src/basecmd.c:134-167 | the shutdown handlers, with and without that loop, in any order and from any state, leave all nodes free and all queues empty |
| MovePools.Pool.NodesAreConserved | klipper/src/basecmd.c:61-131 | free, queued and handed out nodes add up to the number of nodes |
| SoftPwm.NextEventInTime | klipper/src/gpiocmds.c:46-50 | the wrapped comparison ends the pulses in time exactly if the next pulse edge is less than 2^31 ticks behind the end |
| SoftPwm.RefusedIfAfter | klipper/src/gpiocmds.c:159-160 | an update is refused exactly if its clock lies after the limit, or 2^31 ticks before it |
| SoftPwm.StaleClockEscapesLimit | klipper/src/gpiocmds.c:85-113 | a pin with a limit of 1000 ticks, set up by commands that are all accepted, stays on for 2000 ticks; the clock of the second one is 2^31 - 1 ticks before the limit or 2^31 + 1 after it |
| SoftPwm.DigitalOut.constructor | klipper/klippy/mcu.py:258-269 | a pin with a limit starts at its default level and so within the limit |
| SoftPwm.DigitalOut.LoadEvent | klipper/src/gpiocmds.c:56-114 | the next setting is in force; without one the firmware shuts down; the limit holds if and only if the first pulse ends in time, as it does when the next update is for a time from now on and less than 2^31 ticks after the limit; on a run with updates less than 2^31 ticks apart it always holds |
| SoftPwm.DigitalOut.StartSetting | klipper/src/gpiocmds.c:93-113 | when the next event of a new setting comes, and when the limit holds |
| SoftPwm.OneCycle | klipper/src/gpiocmds.c:35-113 | an unlimited pulsing pin is high for the time asked for and low for the rest of every cycle |
| SoftPwm.DigitalOut.ToggleEvent | klipper/src/gpiocmds.c:35-53 | the pin changes, pulses end at the end time at the latest and a limit that held still holds |
| SoftPwm.DigitalOut.QueueDigitalOut | klipper/src/gpiocmds.c:144-173 | updates queue up in order, one behind the limit or too close shuts down, a limit that held still holds, and an update less than 2^31 ticks after the last one keeps settings on time |
| SoftPwm.DigitalOut.UpdateDigitalOut | klipper/src/gpiocmds.c:177-194 | an immediate update away from the default has its timer at exactly the limit, or shuts down if that is too close |
| SoftPwm.DigitalOut.SetPwmCycle | klipper/src/gpiocmds.c:131-140 | with an empty queue the cycle time changes and nothing else; otherwise the firmware shuts down |
| SoftPwm.DigitalOut.Shutdown | klipper/src/gpiocmds.c:197-207 | the pin is at its default level and nothing is queued |
| Vlq.ParsePy | klipper/klippy/msgproto.py:50-62 | the host's loop reads the integer that the bytes stand for |
| Vlq.ParseC | klipper/src/command.c:57-70 | the firmware's loop reads the same integer modulo 2^32 |
| Vlq.PyReadsPy | klipper/klippy/msgproto.py:39-62 | the host reads back what it wrote, exactly if and only if five bytes can carry it |
| Vlq.EveryoneReadsC | klipper/src/command.c:40-70 | both sides read what the firmware wrote modulo 2^32; signed parameters are exact if and only if at least -2^26 and otherwise 2^32 too high |
| Vlq.SignedTooLow | klipper/klippy/msgproto.py:50-62 | the five bytes of -2^26 - 1 are read by the host as 2^32 - 2^26 - 1 |
| Vlq.LengthsWithinTypes | klipper/klippy/msgproto.py:39-72 | encodings stay within the length declared for each type, on both sides |
| Vlq.EncodingIsShortest | klipper/klippy/msgproto.py:39-62 | no bytes that are read as an integer are fewer than what the host writes for it |
| Vlq.EncodePyGroups | klipper/klippy/msgproto.py:44-49 | the host's thresholds pick the number of seven-bit groups written |
| Vlq.EncodeCGroups | klipper/src/command.c:41-54 | the firmware writes what the host writes for the signed value, but for the top byte of five |
| Vlq.ReadBackExact | klipper/klippy/msgproto.py:50-60 | n groups are read back exactly if and only if the sign bits of the first one fit |
| Messages.ParseMessage | klipper/klippy/msgproto.py:185-191 | the loop reads the parameters one behind the other |
| Messages.CommandParsef | klipper/src/command.c:74-108 | the loop reads the parameters one behind the other or ends in a parser error |
| Messages.HostReadsParams | klipper/klippy/msgproto.py:173-191 | every parameter list that either side wrote is read back on the host |
| Messages.FirmwareReadsParams | klipper/src/command.c:74-108 | every parameter list that the host wrote is read in the firmware, integers modulo 2^32, without error |
| Frames.WideStepsAgree | klipper/klippy/msgproto.py:29-38 | the host's integers never leave 16 bits and agree with the firmware's check sum byte by byte |
| Frames.StepDivides | klipper/src/generic/crc16_ccitt.c:15-19 | a step of the check sum is eight bitwise divisions by x^16 + x^12 + x^5 + 1 |
| Frames.CrcDivides | klipper/src/generic/crc16_ccitt.c:10-22 | the check sum is the remainder of that division, started from all ones |
| Frames.ZeroByte | klipper/src/generic/crc16_ccitt.c:10-22 | the check sum of a single zero byte is 0x0f87 |
| Frames.Crc16 | klipper/src/generic/crc16_ccitt.c:10-22 | the firmware's loop computes the check sum |
| Frames.Crc16Py | klipper/klippy/msgproto.py:29-38 | the host's loop computes the same check sum |
| Frames.CheckPacket | klipper/klippy/msgproto.py:245-264 | the host's check of a packet classifies bytes as the receiver does |
| Frames.FrameIsGood | klipper/klippy/msgproto.py:294-300 | a framed payload passes the check, whatever follows it |
| Frames.FrameLayout | klipper/klippy/msgproto.py:294-300 | where length, number, payload, check sum and sync byte of a block are |
| Frames.GoodBlock | klipper/src/command.c:251-270 | exactly which bytes are a block |
| Frames.WaitsForMore | klipper/src/command.c:251-260 | a check waits if and only if there are fewer bytes than in the least block, or than in the one announced |
| Frames.CheckExtends | klipper/src/command.c:251-267 | more bytes change a check only if it was waiting for them |
| Receivers.Receiver.FindBlock | klipper/src/command.c:245-303 | one call of the block finder, with the state it leaves and what it sends |
| Receivers.Receiver.SkipToSync | klipper/src/command.c:288-302 | bytes go through the next sync byte and only the first loss is answered |
| Receivers.FindProgress | klipper/src/command.c:278-302 | a call waits only with less than a full block, and otherwise removes at least one byte |
| Receivers.ChunkingDoesNotMatter | klipper/src/command.c:244-303 | blocks and naks are the same however the stream is cut and whenever the receiver is called |
| Receivers.AcceptedInSequence | klipper/src/command.c:270-276 | accepted blocks follow each other in the receiver's own count, and every nak asks for the next one |
| Receivers.AcceptedByNumber | klipper/src/command.c:270-276 | of a receiver that expects n, the k-th block dispatched carries the four low bits of n + k, and a nak sent after k blocks asks for them |
| Receivers.OneNakPerLoss | klipper/src/command.c:281-302 | between two naks for lost sync a valid block was found |
| Receivers.StreamIsDispatched | klipper/src/command.c:244-303 | a stream of framed payloads numbered by the host's counter is dispatched completely, once, in order and without a nak |
| Receivers.SentAt | klipper/klippy/msgproto.py:294-300 | the k-th frame sent carries the k-th payload and the four low bits of the counter at its place |
| Receivers.GapIsRepaired | klipper/src/command.c:270-303 | blocks behind a lost one are each answered by a nak for it, and sending again from there dispatches everything |
| Receivers.RecoversAtSync | klipper/src/command.c:288-297 | after a loss the next sync byte brings the receiver back to the stream behind it |
| Receivers.GarbageIsAnswered | klipper/src/command.c:278-302 | bytes that are no block are answered by one nak and the stream behind the next sync byte is dispatched |
| Receivers.SyncBytesAreSkipped | klipper/src/command.c:278-287 | sync bytes before a block are skipped without an answer |
| ClockSync.Clock.HandleClock | klipper/klippy/clocksync.py:65-72 | a report becomes the first clock at or after the last one that it can stand for |
| ClockSync.Extend | klipper/klippy/clocksync.py:68-71 | the extended clock has the reported low word and is less than 2^32 behind the last one |
| ClockSync.TrackedExactly | klipper/klippy/clocksync.py:65-72 | a run of reports is extended exactly if and only if none is 2^32 or more ticks after the one before |
| ClockSync.Clock.Clock32ToClock64 | klipper/klippy/clocksync.py:139-144 | the result has the given low word and lies in (last - 2^31, last + 2^31] |
| ClockSync.NearestIsExact | klipper/klippy/clocksync.py:139-144 | such a result is the true clock if and only if that lies in the same range |
| ClockSync.CarryIsExact | klipper/src/basecmd.c:294-298 | comparing low words finds the carry if and only if less than 2^32 ticks have passed |
| ClockSync.Uptime.GetUptime | klipper/src/basecmd.c:294-299 | high word and clock are those of the true count |
| ClockSync.Uptime.StatsUpdate | klipper/src/basecmd.c:305-332 | statistics are reported exactly when the interval has passed, and the high word stays true |
| Tmcuarts.Tmcuart.CommandSend | klipper/src/tmcuart.c:191-217 | a busy transmitter drops a request, too much data shuts down, otherwise the transmission begins |
| Tmcuarts.BitsMakeByte | klipper/src/tmcuart.c:134 | the bits of a byte, lowest first, make up its value |
| Tmcuarts.Tmcuart.NextEdge | klipper/src/tmcuart.c:122-141 | the scan finds the first later bit that differs, and the wrapped time of the equal bit periods up to it |
| Tmcuarts.Tmcuart.SendEvent | klipper/src/tmcuart.c:115-142 | an edge now and the next one at the start of the next bit that differs; the waveform stays right if and only if that is less than 2^31 ticks away, as it is with every bit time up to 2^31 / 80 |
| Tmcuarts.Tmcuart.SendSyncEvent | klipper/src/tmcuart.c:145-170 | the sync nibble is sent edge by edge and handed over at bit 5 with the measured bit time; the waveform stays right if and only if the next edge, at the configured or the measured time, is not before the present one and less than 2^31 ticks away |
| Tmcuarts.HandOver | klipper/src/tmcuart.c:159-166 | the measured drift and bit time put the edge of bit 5 at its place if and only if their sum is from 0 up to 2^31 |
| Tmcuarts.SyncNibble | klipper/src/tmcuart.c:145-170 | after the nibble the drift is how much longer than configured its four bits took between the first and the last edge, and four bit times are within five ticks of that |
| Tmcuarts.QuarterIsNearest | klipper/src/compiler.h:41-44 | the rounding division is to the nearest integer if and only if the bits did not come early or two is left of the division by four |
| Tmcuarts.LateFirstEdge | klipper/src/tmcuart.c:155-165 | after a first edge noted 500 ticks late at 100 ticks a bit the edge of bit 5 is scheduled 524 ticks before the edge of bit 4 |
| Tmcuarts.Tmcuart.SendFinishEvent | klipper/src/tmcuart.c:98-112 | without an answer to read the line is idle again |
| Tmcuarts.EdgeCarries | klipper/src/tmcuart.c:119-141 | an edge gives every bit period up to the next edge its level and changes no earlier one |
| Tmcuarts.Tmcuart.BitsWereOnTheLine | klipper/src/tmcuart.c:115-142 | at every moment of its period, on the time that the scheduler keeps, a bit was on the line, if and only if it is not a first bit of 1 |
| Tmcuarts.FirstBitLost | klipper/src/tmcuart.c:119-121 | of the byte 1 the first bit is driven low |

## Left out

- Floating-point rounding: the planner, the print time and the square root are modelled over the reals.
- Kinematics and extruder modules: their `check_move` enters only as `LimitSpeed`, and of the extruder only its junction limit is modelled.
- Junction deviation from the square corner velocity, and changes of velocity limits by command: they are parameters (`Settings`).
- The compiled helpers for step compression, iterative solving and the motion queue: calls to them are entries of a log, one for the toolhead and the extruder together.
- Pauses and timers of the host's event loop: the observed clock is a parameter, and no other host code runs during a drip move.
- Callbacks attached to moves, errors caught in the flush timer, changes of the extruder, and printer status.
- Moves of no length, which the toolhead drops at once.
- The waits of the toolhead end: the clock readings of a drip move are a list that ends with the completed trigger, and in a stall check the estimated print time passes any time in the end.
- Sched.Scheduler.SchedAddTimer: the wake time is read as the time nearest to the first timer; once a shutdown is in progress timers are added at or after the last one run.
- Sched.Scheduler.FinishDone: a callback that has deleted its own timer neither adds it again nor reschedules it; no callback of the firmware deletes its own.
- Sched.Scheduler.FinishReschedule: a callback reschedules less than 2^31 ticks ahead and not before the time it ran for.
- Callbacks of timers are split into a start and an end, between which other operations may come; the timers' handlers are those of the other modules.
- Tasks, the wake flags and the long jump of a shutdown.
- The stepper event handler that is specific to AVR chips.
- Trsyncs.Trsync.AddSignal: a stepper waits in one trigger with one signal, which is how stop signals are configured.
- The report and timeout timers of triggers: a timeout is an activation with the reason for expiry.
- Move nodes in the stepper and output models are values in a sequence; their storage is modelled by the pool.
- The allocation of the pool's memory, object ids, the configuration check sum and the sums in the load statistics.
- SoftPwm.DigitalOut.SetPwmCycle: cycle times of 2^31 ticks and more are excluded, as the host excludes them.
- Messages.CommandParsef: reading behind the end of the receive buffer, which the firmware does not check byte by byte, ends in the parser error.
- Encoding in the firmware into a buffer of limited size, string parameters that are cut off, enumerations and message format strings.
- Dispatch of commands to handlers, and serial retransmission on the host.
- Regression, outlier filtering and frequency estimates of the host's clock.
- ClockSync.Uptime.StatsUpdate: exact while it is called at least every 2^31 ticks, which the periodic timer ensures by waking the tasks.
- Tmcuarts.Tmcuart.SendSyncEvent: edges are taken at their scheduled times, not at the later times at which the handler runs.
- Reading the answer on the UART, and the report to the host.
- Hardware PWM, buttons, endstops, sensors, displays and other pins: smaller machines of the same kinds.
