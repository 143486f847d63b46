# Klipper host: motion planning, micro-controller transport and trigger dispatch, verified

This project models the parts of Klipper's host software that carry the most protocol and arithmetic, and proves what
they are for. `dafny verify dfyconfig.toml` (Dafny 4.11) verifies the whole of it.

**Motion.** `toolhead.py` plans the speeds of moves as they arrive: `calc_junction` limits the speed in each corner,
and `LookAheadQueue.flush` makes one backward pass that keeps a real and a smoothed speed profile, a list of delayed
moves, a moving peak and, when it is lazy, a cut before which everything can already be handed over. `JunctionPlan`
states that pass as functions of the queue and proves that the plan is feasible, continuous and from rest to rest, and
that both profiles, every peak and every cruise speed are the greatest that their limits admit; `MoveShape` proves
what the corner limit means for two directions; `LookAheadRuns` proves that planning incrementally, for any
interleaving of moves and flushes, is planning once. `MoveProfile` is `set_junction`, and `MotionPipeline` takes a
planned move to the motion queue. `PrintTime` is the toolhead's clock: the print time, what has been flushed, and the
queuing state that decides when the print time may jump. `SyncTimes` proves when queued motion can start and how far
the flushes get. `MotionRuns` puts these together and proves, for every run of the toolhead, that the motion queue is
gapless and continuous in place and speed. `ToolHead` and `LookAheadQueue` are the classes with their in-place loops,
proved against those functions. `TrapTimeline`, `TrapHistory`, `TrapQueue`, `RelativeWalk` and `InputShaper` are the
trapezoid motion queue with its history, the relative-time walk along it and the shaper on top; `IterSolve`,
`StepSearch` and `StepGeneration` are the step solver, for any position callback, how it searches, and the walk that
decides what is solved. `StepSessions` proves what holds of the steps of a whole session of walks, and `Steppers` is
the class. `FlushDelay`, `GenerationRuns` and `SampleTimes` put step generation and the toolhead together: steps that
were generated stay right whatever is queued later, and everything that an input shaper looks up for later steps is
still on the motion queue.

**Transport.** `Wire`, `Crc`, `Vlq`, `VlqMessages`, `Framing` and `FrameReader` are the bytes on the line: the C and
the Python coder side by side, blocks, and the reader that resynchronises after noise. `SendWindow` is the go-back-N
window with its acknowledgements, naks and timeouts, `LinkTimes` its round trip estimate and timers, `KarnRule` the
rule for measuring round trips, `CommandScheduler` the priority scheduler over the command queues. `SerialProtocol`
puts them together as one state whose transitions are the sections that run under the lock, `SerialRuns` proves what
holds over whole sessions, in which the receive window and the line's frequency are learned on the way, `WakeUps` that
nothing queued is forgotten, `SerialBlocks` which blocks are empty, and `SerialQueue` is the class, with its loops and
buffers, proved against the transitions. `Transport` closes the loop with two lossy links and an assumed controller:
exactly once, in order. `EndToEnd` composes the two: what each caller enqueues reaches the controller once and in
order, and a notification means delivery.

**Trigger dispatch.** `Clocks` converts between clocks and times with the wrapping and truncation of the source.
`TriggerDispatch` is the dead man's switch over several controllers, `DeadlineMessages` what the words of its messages
tell them, `TriggerSessions` whole sessions from setup to stop, and `TriggerDispatcher` the objects that run it.

Each mutating method states its whole effect as a function of the old state; what the source promises is then proved
about those functions, as invariants of every run. Where the code does not keep a promise, the exact condition is
proved; where two members are named, the second one gives an input:

- a notification can fire before its block is acknowledged (`SerialRuns.NotifiedEarly`, `EarlyNotificationExample`);
- a clock estimate whose conversion point lies in the future makes the scheduler send empty blocks
  (`SerialBlocks.EmptyBlock`, `EmptyBlockExample`);
- one family of double-byte changes across the end of a payload is not detected, and every block with a payload has a
  member of it (`Framing.ShortBurst`, `UndetectedNeighbour`); and a changed length byte can make a message of another
  length (`Framing.ChangedLength`, `NestedBlock`);
- an unsigned comparison can move a deadline back (`TriggerDispatch.ReportMovesBack`, `DeadlineMovesBack`);
- the two encoders differ near the ends of the 32-bit ranges (`Vlq.EncodersAgree`);
- a clock before the conversion point comes back a tick late (`Clocks.ClockRoundTrip`);
- a receive window that is smaller than what is in flight when it is learned is exceeded until acknowledgements come in
  (`SerialRuns.WindowRespected`, `LateWindow.LateWindowExample`);
- an input shaper looks up positions before the beginning of the motion queue when the queue begins within its window of
  time 0 (`SampleTimes.SamplesOnList`, `EarlyListExample`).

Reals stand for doubles. The square root is a parameter, known only to be non-negative and to square to its argument.
The extruder's junction limit, the estimated print time, clock readings and the micro-controller's behaviour are
parameters.

## Model

| member | source | states |
|---|---|---|
| MoveShape.HalfAngle | rootfs/home/qidi/klipper/klippy/toolhead.py:73-79 | between the two early exits both half-angle roots lie strictly between 0 and 1, so no division of the corner formula is by zero |
| MoveShape.JunctionCapNonNegative | rootfs/home/qidi/klipper/klippy/toolhead.py:66-89 | every corner limit is a speed that exists, and never above the extruder's own limit |
| MoveShape.CornerGeometry | rootfs/home/qidi/klipper/klippy/toolhead.py:68-88 | from the two directions alone: a corner is a full stop exactly when they turn back on each other; anywhere else the cap is the greatest squared speed that the circle of the allowed deviation permits at either acceleration without touching a move beyond its middle, and that the extruder allows, with the sine and tangent of half the corner's angle fixed by the length of the sum of the directions |
| MoveShape.StraightAndBack | rootfs/home/qidi/klipper/klippy/toolhead.py:70-75 | going on in the same direction is never a full stop, going straight back always is |
| JunctionPlan.Cut | rootfs/home/qidi/klipper/klippy/toolhead.py:149-151 | a lazy pass cuts at a peak that is not the last one, or nowhere |
| JunctionPlan.CutIsFirst | rootfs/home/qidi/klipper/klippy/toolhead.py:135-151 | the cut is the first such peak on the way back: no later move could have been it, and when there is no cut no move could |
| JunctionPlan.Bounds | rootfs/home/qidi/klipper/klippy/toolhead.py:139-142 | the smoothed start never exceeds the real one; both are non-negative and within the move's limits |
| JunctionPlan.ForwardLimit | rootfs/home/qidi/klipper/klippy/toolhead.py:84-92 | the backward pass also keeps the forward limits: no move starts faster than the previous one can reach, in either profile |
| JunctionPlan.OptimalJunctions | rootfs/home/qidi/klipper/klippy/toolhead.py:137-171 | the start_v2 profile of the backward pass is the pointwise greatest one that respects the start limits, deceleration and the final stop, and it respects acceleration too |
| JunctionPlan.PlanBetween | rootfs/home/qidi/klipper/klippy/toolhead.py:137-171 | the speed handed over at each junction is at least that of the smoothed profile and at most that of the greatest one |
| JunctionPlan.SmoothedJunctionExample | rootfs/home/qidi/klipper/klippy/toolhead.py:147-167 | two moves whose junction is planned far below the greatest speed, because the smoothed profile decides the peak |
| JunctionPlan.OptimalSmoothed | rootfs/home/qidi/klipper/klippy/toolhead.py:141-142 | the smoothed profile is the pointwise greatest one for the smoothed limits, and keeps to acceleration as well |
| JunctionPlan.KindMeans | rootfs/home/qidi/klipper/klippy/toolhead.py:143-146 | a move is delayed exactly when it slows down over its whole smoothed budget; it sets a peak exactly when it is not delayed, and does not speed up over all of it unless a delayed move follows |
| JunctionPlan.PeakIsGreatest | rootfs/home/qidi/klipper/klippy/toolhead.py:152-153 | a peak is the greatest squared speed, up to max_cruise_v2, that the move can reach and leave again between its smoothed start and the next one within smooth_delta_v2: exactly those up to it can be |
| JunctionPlan.PeakHolds | rootfs/home/qidi/klipper/klippy/toolhead.py:136-153 | a peak stays until another is set on the way back; before the first it is 0 |
| JunctionPlan.DirectCruiseIsGreatest | rootfs/home/qidi/klipper/klippy/toolhead.py:163-167 | a direct move cruises at the greatest squared speed that it can reach and leave again between the real starts within delta_v2, that max_cruise_v2 and that the peak allows |
| JunctionPlan.DelayedCruiseIsGreatest | rootfs/home/qidi/klipper/klippy/toolhead.py:154-161 | a delayed move cruises at the greatest squared speed that the peak of the last direct move before it and every start since allow |
| JunctionPlan.EndsAreGreatest | rootfs/home/qidi/klipper/klippy/toolhead.py:160-167 | the speeds at the two ends are the greatest that the start profile and the cruise speed allow |
| JunctionPlan.PeakAboveSmoothed | rootfs/home/qidi/klipper/klippy/toolhead.py:152-153 | the peak found at a direct move is positive and not below its smoothed start |
| JunctionPlan.DelayedCruiseBounds | rootfs/home/qidi/klipper/klippy/toolhead.py:154-161 | a delayed move cruises between its smoothed and its real start speed, and moves at all |
| JunctionPlan.FirstIsDirect | rootfs/home/qidi/klipper/klippy/toolhead.py:143-146 | the first move of a queue is never in the delayed branch, so no move is left without speeds |
| JunctionPlan.PlanFeasible | rootfs/home/qidi/klipper/klippy/toolhead.py:154-167 | in both branches 0 <= start, end <= cruise <= max_cruise_v2, cruise > 0 and 2*cruise - start - end <= delta_v2 |
| JunctionPlan.PlanContinuous | rootfs/home/qidi/klipper/klippy/toolhead.py:135-172 | the end speed of each planned move is the start speed of the next, across direct and delayed moves |
| JunctionPlan.PlanRestToRest | rootfs/home/qidi/klipper/klippy/toolhead.py:132-172 | a full flush plans feasible moves that join without a jump, from rest to rest |
| JunctionPlan.CutSettled | rootfs/home/qidi/klipper/klippy/toolhead.py:149-153 | at the cut of a lazy flush nothing that can still arrive changes what lies before it |
| JunctionPlan.SettledTriple | rootfs/home/qidi/klipper/klippy/toolhead.py:147-171 | before a settled cut the three speeds of a move are the same with and without later moves |
| JunctionPlan.SettledStable | rootfs/home/qidi/klipper/klippy/toolhead.py:149-153 | a settled cut stays settled as moves arrive |
| JunctionPlan.SuffixTriple | rootfs/home/qidi/klipper/klippy/toolhead.py:177-178 | dropping handed-over moves does not change the plan of those that stay |
| LookAheadRuns.ConnectLinks | rootfs/home/qidi/klipper/klippy/toolhead.py:62-92 | calc_junction, its early exits included, gives limits for which the planner's assumptions hold |
| LookAheadRuns.CornerIsGreatest | rootfs/home/qidi/klipper/klippy/toolhead.py:62-92 | calc_junction leaves a move next to an extrude-only one, or one that turns back, as it is; otherwise max_start_v2 is the greatest that the corner's geometry, the extruder, both cruise limits and the previous move allow, max_smoothed_v2 the greatest that it and the smoothed limit of the previous move allow, and nothing else changes |
| LookAheadRuns.AddRefines | rootfs/home/qidi/klipper/klippy/toolhead.py:193-196 | adding a move extends the open stretch of the one-shot reference |
| LookAheadRuns.LazyRefines | rootfs/home/qidi/klipper/klippy/toolhead.py:149-178 | a lazy flush hands over exactly what the one-shot plan of the open stretch begins with |
| LookAheadRuns.FullRefines | rootfs/home/qidi/klipper/klippy/toolhead.py:127-178 | a full flush completes the one-shot plan of the open stretch |
| LookAheadRuns.IncrementalIsOneShot | rootfs/home/qidi/klipper/klippy/toolhead.py:127-200 | for every sequence of moves and flushes, what was handed over, completed by a full flush, is exactly the one-shot plan of every stretch |
| LookAheadRuns.ExactlyOnceInOrder | rootfs/home/qidi/klipper/klippy/toolhead.py:175-178 | at any time the moves handed over followed by those queued are the moves added, in order |
| LookAheadRuns.RunSeamless | rootfs/home/qidi/klipper/klippy/toolhead.py:127-200 | at any moment of any run, across flushes, every move handed over ends at the speed the next one starts with, and the first starts from rest |
| LookAheadRuns.RunStops | rootfs/home/qidi/klipper/klippy/toolhead.py:127-200 | after a full flush of any run the motion is feasible, jump-free and from rest to rest |
| MoveProfile.ProfileCovers | rootfs/home/qidi/klipper/klippy/toolhead.py:93-107 | accel, cruise and decel times are defined and non-negative, the distances they cover are non-negative and add up to move_d |
| MotionPipeline.ExactLanding | rootfs/home/qidi/klipper/klippy/toolhead.py:93-107 | the segments made from a planned move start and end exactly where, when and as fast as the move does, and join without a jump |
| MotionPipeline.FeedProfileRolls | rootfs/home/qidi/klipper/klippy/toolhead.py:376-388 | handing one planned move to a smooth timeline keeps it smooth |
| MotionPipeline.RunRests | rootfs/home/qidi/klipper/klippy/toolhead.py:62-64 | in every run the moves before and after an extrude-only move are at rest there |
| MotionPipeline.RunItinerary | rootfs/home/qidi/klipper/klippy/toolhead.py:179-196 | in every run the moves handed over form a connected itinerary of executable moves |
| PrintTimes.FinalizeRolls | rootfs/home/qidi/klipper/klippy/toolhead.py:327-343 | finalizing behind what is still to be continued, or at rest, leaves a motion queue that can be continued as before |
| PrintTimes.AdvanceMoveDrives | rootfs/home/qidi/klipper/klippy/toolhead.py:347-356 | moving the print time on, in batches, finalizes nothing that is still to be continued |
| PrintTimes.DripDrives | rootfs/home/qidi/klipper/klippy/toolhead.py:560-575 | so does the piecewise advance of a drip move |
| PrintTimes.ResyncDrives | rootfs/home/qidi/klipper/klippy/toolhead.py:357-375 | the print time is synchronised only outside the main state, where the motion is at rest; afterwards it is ahead of everything flushed |
| PrintTimes.ProcessDrives | rootfs/home/qidi/klipper/klippy/toolhead.py:367-396 | one call of _process_moves continues the motion where it was left, in every queuing state |
| SyncTimes.SyncedIsEarliest | rootfs/home/qidi/klipper/klippy/toolhead.py:357-364 | the synchronised print time is the earliest one that does not go back and is 0.25 s after the estimated one, and kin_flush_delay after both 0.1 s past the estimated one and the earliest restart |
| SyncTimes.ProcessQueuesLate | rootfs/home/qidi/klipper/klippy/toolhead.py:367-396 | whatever a call of _process_moves puts on the motion queue, or shows the step generators, was there before, is a filler, or starts at the synchronised print time or later |
| SyncTimes.FlushStartsLate | rootfs/home/qidi/klipper/klippy/toolhead.py:357-396 | in every run: a flush outside the main state queues no motion that starts before the estimated print time plus 0.25 s, or within the flush delay of the earliest restart; in the main state none before the print time |
| SyncTimes.FlushGoes | rootfs/home/qidi/klipper/klippy/toolhead.py:327-346 | flushing never goes back; steps are generated 0.05 s beyond what is flushed but not beyond kin_flush_delay before the print time, unless more is flushed; the earliest restart is the least time not before itself and them |
| SyncTimes.StepsStayNear | rootfs/home/qidi/klipper/klippy/toolhead.py:327-593 | in every run steps are generated no further than 0.05 s beyond what is flushed |
| SyncTimes.MoveReaches | rootfs/home/qidi/klipper/klippy/toolhead.py:327-356 | when the print time moves on, steps are generated exactly up to kin_flush_delay before it, and flushed 0.05 s less, unless more was flushed before |
| SyncTimes.BatchesAreShort | rootfs/home/qidi/klipper/klippy/toolhead.py:352-356 | after the first, which catches up, no call of the step generators is for more than half a second |
| SyncTimes.DripIsFine | rootfs/home/qidi/klipper/klippy/toolhead.py:560-575 | a drip move ends at its time with all its steps generated, and once it has caught up no call generates steps for more than 0.05 s |
| MotionRuns.RowRolls | rootfs/home/qidi/klipper/klippy/toolhead.py:376-388 | a row of planned moves is driven without a jump, from where the last one ended |
| MotionRuns.ActStands | rootfs/home/qidi/klipper/klippy/toolhead.py:367-556 | every action of the toolhead keeps the motion queue ending where, and as fast as, the last move handed over |
| MotionRuns.RunFlows | rootfs/home/qidi/klipper/klippy/toolhead.py:127-593 | for every run of moves, lazy and full flushes, waits, drip moves and background flushes the motion queue is gapless and continuous in place and speed; outside the main state it is at rest; in it nothing flushed is ahead of the print time |
| MotionRuns.PrintTimeGrows | rootfs/home/qidi/klipper/klippy/toolhead.py:347-366 | in every run the print time never goes back |
| ToolHeads.Move.constructor | rootfs/home/qidi/klipper/klippy/toolhead.py:15-49 | when a move is extrude-only, and what it then keeps of its end point; its axes, length, acceleration, speed and limits in either case, and limits as the planner needs them; the axes of a kinematic move are a unit direction; min_move_t is distance over speed |
| ToolHeads.Move.LimitSpeed | rootfs/home/qidi/klipper/klippy/toolhead.py:50-57 | speed and acceleration are lowered to the limits given, all derived limits with them |
| ToolHeads.Move.CalcJunction | rootfs/home/qidi/klipper/klippy/toolhead.py:62-92 | the two start limits become the connection with the previous move under the corner's cap, which LookAheadRuns.CornerIsGreatest characterises by geometry |
| ToolHeads.Move.SetJunction | rootfs/home/qidi/klipper/klippy/toolhead.py:93-107 | the six speeds and times become those of the junction profile |
| ToolHeads.ToolHead.CalcPrintTime | rootfs/home/qidi/klipper/klippy/toolhead.py:357-364 | the print time becomes the one that SyncTimes.SyncedIsEarliest characterises; nothing else changes |
| ToolHeads.ToolHead.AdvanceFlushTime | rootfs/home/qidi/klipper/klippy/toolhead.py:327-346 | times, motion queue and the record of what the step generators are called for change as one flush of the run model |
| ToolHeads.ToolHead.AdvanceMoveTime | rootfs/home/qidi/klipper/klippy/toolhead.py:347-356 | the loop flushes in batches up to the wanted time, as the run model says |
| ToolHeads.ToolHead.UpdateDripMoveTime | rootfs/home/qidi/klipper/klippy/toolhead.py:560-575 | the loop takes the print time to the end of the move, segment by segment |
| ToolHeads.ToolHead.QueueMoves | rootfs/home/qidi/klipper/klippy/toolhead.py:376-388 | every kinematic move is appended to the motion queue at its time, in order |
| ToolHeads.ToolHead.ProcessMoves | rootfs/home/qidi/klipper/klippy/toolhead.py:367-396 | queuing state, times, motion queue and calls of the step generators change as the run model says, of which SyncTimes and GenerationRuns prove what is queued when |
| LookAheadQueues.PropagatePeak | rootfs/home/qidi/klipper/klippy/toolhead.py:154-162 | the delayed moves, taken in reverse, get the peak as far as their own speeds allow |
| LookAheadQueues.ResolveDelayed | rootfs/home/qidi/klipper/klippy/toolhead.py:154-162 | every delayed move gets exactly the speeds of the plan |
| LookAheadQueues.BackwardPass | rootfs/home/qidi/klipper/klippy/toolhead.py:135-172 | the loop gives every move it hands over the speeds of the plan, which are the greatest ones that JunctionPlan characterises, and finds the cut |
| LookAheadQueues.LookAheadQueue.PlanQueue | rootfs/home/qidi/klipper/klippy/toolhead.py:128-174 | the number of moves ready is the cut of a lazy pass or the whole queue, and these have their planned speeds |
| LookAheadQueues.LookAheadQueue.HandOver | rootfs/home/qidi/klipper/klippy/toolhead.py:175-178 | the ready moves are processed and removed |
| LookAheadQueues.LookAheadQueue.Flush | rootfs/home/qidi/klipper/klippy/toolhead.py:127-178 | the queue and everything handed over change as the lazy or the full flush of the run model, a suffix of the queue remains, and the toolhead changes as that action does |
| LookAheadQueues.LookAheadQueue.Enqueue | rootfs/home/qidi/klipper/klippy/toolhead.py:193-196 | the queue with the new move, built under whatever velocity limits, is the appended queue of the run model |
| LookAheadQueues.LookAheadQueue.AddMove | rootfs/home/qidi/klipper/klippy/toolhead.py:179-200 | adding is an Add event, followed by a Lazy one exactly when the flush time is used up; what remains of the queue, the flush time left and the change of the toolhead |
| LookAheadQueues.LookAheadQueue.FlushLookahead | rootfs/home/qidi/klipper/klippy/toolhead.py:397-403 | a full flush, and back to the priming state, with the whole flush time before the next lazy flush |
| LookAheadQueues.LookAheadQueue.FlushStepGeneration | rootfs/home/qidi/klipper/klippy/toolhead.py:404-407 | the same, then one flush of the steps noted, and nothing restarts before the print time |
| LookAheadQueues.LookAheadQueue.GetLastMoveTime | rootfs/home/qidi/klipper/klippy/toolhead.py:408-414 | a full flush; outside the main state the print time is synchronised after it |
| LookAheadQueues.LookAheadQueue.Dwell | rootfs/home/qidi/klipper/klippy/toolhead.py:542-544 | the same, and then the print time moves on by the delay |
| TrapTimeline.GaplessIff | rootfs/home/qidi/klipper/klippy/chelper/trapq.c:96-116 | exactly which append times keep the timeline gapless: any on an idle queue, otherwise those not before the end of the motion queued |
| TrapTimeline.AddMoveSound | rootfs/home/qidi/klipper/klippy/chelper/trapq.c:96-116 | adding an entry that can follow keeps the timeline sound, with the filler that may be needed |
| TrapTimeline.AppendLeads | rootfs/home/qidi/klipper/klippy/chelper/trapq.c:118-164 | the segments of one append lead from its start to exactly the length it asks for, with the end speed asked for, also when segments take no time |
| TrapTimeline.AppendSound | rootfs/home/qidi/klipper/klippy/chelper/trapq.c:118-164 | an append that can follow keeps the timeline gapless and ends when it should |
| TrapTimeline.FinalizeSound | rootfs/home/qidi/klipper/klippy/chelper/trapq.c:166-199 | expiring entries keeps the timeline sound |
| TrapHistory.HistoryIsComplete | rootfs/home/qidi/klipper/klippy/chelper/trapq.c:166-199 | after any run the history and the queue, fillers left out, are everything appended, in order, but for a first part that ended by a time up to which history was to be cleared |
| TrapHistory.FinalizedKept | rootfs/home/qidi/klipper/klippy/chelper/trapq.c:166-199 | finalizing drops from the history only what ended by the clear time, as much of it as it can, and never the newest entry |
| TrapTimeline.CheckSentinelsSound | rootfs/home/qidi/klipper/klippy/chelper/trapq.c:75-92 | afterwards the tail sentinel starts where the motion ends |
| TrapTimeline.RunGapless | rootfs/home/qidi/klipper/klippy/chelper/trapq.c:75-199 | after any run of append, finalize and check_sentinels with non-decreasing append times each entry starts when the previous one ends |
| RelativeWalk.WalkLands | rootfs/home/qidi/klipper/klippy/chelper/kin_shaper.c:77-89 | the relative-time walk stays on the list exactly when the absolute time lies on it, and then lands on an entry that holds that time |
| RelativeWalk.QueueIsTrack | rootfs/home/qidi/klipper/klippy/chelper/trapq.c:75-92 | after check_sentinels the queue with its tail sentinel is a list that walks can use |
| RelativeWalk.PositionByTime | rootfs/home/qidi/klipper/klippy/chelper/kin_shaper.c:68-89 | the position depends on the absolute time alone, whichever entry a walk lands on |
| TrapQueues.TrapQueue.AddMove | rootfs/home/qidi/klipper/klippy/chelper/trapq.c:96-116 | the lists change as the timeline does |
| TrapQueues.TrapQueue.Append | rootfs/home/qidi/klipper/klippy/chelper/trapq.c:118-164 | the lists change as the timeline does |
| TrapQueues.TrapQueue.FinalizeMoves | rootfs/home/qidi/klipper/klippy/chelper/trapq.c:166-199 | both loops together expire and prune as the timeline does |
| TrapQueues.TrapQueue.UpdateSentinels | rootfs/home/qidi/klipper/klippy/chelper/trapq.c:75-92 | the tail sentinel changes as in the timeline |
| TrapQueues.FindAxisPosition | rootfs/home/qidi/klipper/klippy/chelper/kin_shaper.c:77-89 | the two loops find the axis position at the absolute time, on an entry that holds it |
| TrapQueues.CalcPosition | rootfs/home/qidi/klipper/klippy/chelper/kin_shaper.c:91-103 | the loop over the pulses computes the convolution |
| InputShaper.ShaperPulses.Shift | rootfs/home/qidi/klipper/klippy/chelper/kin_shaper.c:28-39 | the pulse times are shifted by their first moment |
| InputShaper.ShaperPulses.Init | rootfs/home/qidi/klipper/klippy/chelper/kin_shaper.c:41-61 | the pulses are normalised, reversed and shifted; a bad count is refused and leaves none |
| InputShaper.InitIsBalanced | rootfs/home/qidi/klipper/klippy/chelper/kin_shaper.c:41-61 | whatever pulses are configured, the weights add up to 1 and the first moment is 0 |
| InputShaper.ShapingKeepsConstantSpeed | rootfs/home/qidi/klipper/klippy/chelper/kin_shaper.c:28-39 | on constant-speed motion shaping is the identity, across any number of entries |
| InputShaper.ShapedIsEchoes | rootfs/home/qidi/klipper/klippy/chelper/kin_shaper.c:41-105 | the shaped position is the weighted mean of where the motion is so much earlier as each configured pulse says, all moved on by their mean delay; positions are looked up by absolute time, whichever entry holds it |
| IterSolve.ProbeInRange | rootfs/home/qidi/klipper/klippy/chelper/itersolve.c:47-68 | the time looked at next lies between the bounds, by secant, bisection or search |
| IterSolve.BoundedKeeps | rootfs/home/qidi/klipper/klippy/chelper/itersolve.c:72-105 | the bounds stay ordered, a bracket's upper bound is past the target, and a change of direction moves the target but not the commanded position |
| IterSolve.BracketIsJustified | rootfs/home/qidi/klipper/klippy/chelper/itersolve.c:77-107 | a step submitted because the bracket is a nanosecond wide has, within that nanosecond, a position beyond its mark |
| IterSolve.AdvancedIsOk | rootfs/home/qidi/klipper/klippy/chelper/itersolve.c:111-122 | after a step the commanded position has moved by one step distance in its direction and the search starts anew |
| IterSolve.ProbeIsAhead | rootfs/home/qidi/klipper/klippy/chelper/itersolve.c:47-68 | and after the start of the range, which the callback is never asked for |
| StepSearch.SecantIsExact | rootfs/home/qidi/klipper/klippy/chelper/itersolve.c:47-51 | from two guesses on a line the secant finds the time at which the line is at the target |
| StepSearch.SteadyStep | rootfs/home/qidi/klipper/klippy/chelper/itersolve.c:47-122 | at constant speed, once a step is found on its mark, every further one costs a single look, at exactly its time, until the end of the range |
| StepSearch.SearchDoubles | rootfs/home/qidi/klipper/klippy/chelper/itersolve.c:52-68 | while nothing beyond the mark was found the look is at the secant if that is within the bounds, and otherwise at the upper one, which moves to twice as far from the last step, until the end of the range |
| StepSearch.ProbeIsNew | rootfs/home/qidi/klipper/klippy/chelper/itersolve.c:52-68 | every look is at a time not looked at before: strictly inside a bracket, and beyond the lower bound before there is one |
| StepSearch.TurnNext | rootfs/home/qidi/klipper/klippy/chelper/itersolve.c:85-92 | a position more than a step back, and the slack, turns the search around, to between the last step and this look |
| StepSearch.SearchStartsAnew | rootfs/home/qidi/klipper/klippy/chelper/itersolve.c:111-122 | after a step the search reaches ahead by one and a half times the last interval, a nanosecond at least, a tenth of a millisecond at most after a turn, and never beyond the end |
| StepSearch.RangeMeans | rootfs/home/qidi/klipper/klippy/chelper/itersolve.c:33-38 | a time is in the range exactly when it is on the move and in the requested stretch |
| StepSearch.OvershootNext | rootfs/home/qidi/klipper/klippy/chelper/itersolve.c:52-84 | after a look beyond the mark the next is at the secant of the last two if that is inside the bracket, in its middle otherwise, and in any case when the bracket was closed in from above twice |
| IterSolve.GenStepsRange | rootfs/home/qidi/klipper/klippy/chelper/itersolve.c:27-128 | for any position callback: it is asked only for times after the start and up to the end; every look leads to a step at its time, or to a commit exactly when the stepper is at the commanded position or beyond, in the direction of the last step, and no look since that step saw a turn, or to nothing; step times never decrease and lie in the range; every step is justified by the position; commanded_pos changes by step_dist times the net steps, and stays if the compressor reports an error; at the end the position is within half a step of it, and the slack with which a change of direction is noticed, unless the last step fell on the end |
| StepGeneration.FindFirst | rootfs/home/qidi/klipper/klippy/chelper/itersolve.c:154-156 | the walk starts at the first move that is not over at the last flush |
| StepGeneration.LeadCovered | rootfs/home/qidi/klipper/klippy/chelper/itersolve.c:162-178 | once the moves from the one that holds gen_steps_pre_active before an active one are solved, so is the whole lead |
| StepGeneration.StopActive | rootfs/home/qidi/klipper/klippy/chelper/itersolve.c:185-188 | the walk may stop at an active move that reaches the flush time: every active move is solved, and every time within pre or post of activity |
| StepGeneration.StopInactive | rootfs/home/qidi/klipper/klippy/chelper/itersolve.c:193-208 | it may stop at an inactive move that reaches gen_steps_pre_active beyond the flush time |
| StepGeneration.WantedNear | rootfs/home/qidi/klipper/klippy/chelper/itersolve.c:193-203 | what is solved of an inactive move is no later than gen_steps_post_active after activity |
| StepGeneration.FlushIsMarked | rootfs/home/qidi/klipper/klippy/chelper/itersolve.c:185-188 | last_move_time at the end of a walk belongs to an active move, or to the time that leads up to one |
| StepSessions.ReachedNext | rootfs/home/qidi/klipper/klippy/chelper/itersolve.c:124-127 | the commanded position after a call is where all its steps led |
| StepSessions.WalkTimes | rootfs/home/qidi/klipper/klippy/chelper/itersolve.c:145-212 | over a whole walk, through every move that is solved, no step comes before an earlier one or outside the flush times |
| StepSessions.SessionSteps | rootfs/home/qidi/klipper/klippy/chelper/itersolve.c:145-212 | over a whole session of walks, each from the times and the commanded position that the last one left: no step comes before an earlier one, and every step is justified by the position at its time, from where all the steps before it led |
| Steppers.StepperKinematics.Solve | rootfs/home/qidi/klipper/klippy/chelper/itersolve.c:27-128 | the steps found go to the compressor and commanded_pos follows them; an error of the compressor, for the step after those handed over, leaves it |
| Steppers.StepperKinematics.LeadUp | rootfs/home/qidi/klipper/klippy/chelper/itersolve.c:162-179 | the moves before an active one are solved from gen_steps_pre_active before it, but nothing a second time |
| Steppers.StepperKinematics.Walk | rootfs/home/qidi/klipper/klippy/chelper/itersolve.c:145-212 | the calls are in time order and within the flush times; every active move is solved, every time within pre or post of activity and no other; last_move_time never goes back; an error ends the walk |
| Steppers.StepperKinematics.Generate | rootfs/home/qidi/klipper/klippy/chelper/itersolve.c:145-212 | the session goes on with a walk from the last flush time; commanded_pos stays step_dist times the net of all steps from where it began |
| FlushDelay.FlushGenerates | rootfs/home/qidi/klipper/klippy/toolhead.py:327-346 | one flush calls the step generators from where they stopped, with a list without holes that grew from the one they saw last; they stay kin_flush_delay behind the print time if they were |
| FlushDelay.ResyncedIsBehind | rootfs/home/qidi/klipper/klippy/toolhead.py:357-375 | after the print time is synchronised, steps are generated no further than kin_flush_delay before it |
| FlushDelay.ProcessGenerates | rootfs/home/qidi/klipper/klippy/toolhead.py:367-396 | so it is after any call of _process_moves |
| FlushDelay.LaterMovesStartLater | rootfs/home/qidi/klipper/klippy/toolhead.py:331-340 | what a later call of the step generators sees was there before, or starts kin_flush_delay after what was generated, or later |
| FlushDelay.PositionStays | rootfs/home/qidi/klipper/klippy/toolhead.py:331-340 | at every time within kin_flush_delay of where the step generators stopped, their next call finds the position that they found, also where the motion queue began anew in between |
| GenerationRuns.RunTended | rootfs/home/qidi/klipper/klippy/toolhead.py:327-593 | in every run of the toolhead all calls of the step generators fit together, and the queue goes on from where the last one left it |
| GenerationRuns.LaterIsLater | rootfs/home/qidi/klipper/klippy/toolhead.py:327-593 | in every run the step generators never go back, and nothing is ever queued that starts within kin_flush_delay of steps generated before |
| GenerationRuns.StepsStayRight | rootfs/home/qidi/klipper/klippy/toolhead.py:327-593 | in every run the positions that generated steps rest on, as far ahead as a shaper looks, are not changed by what is queued until the next call |
| SampleTimes.WindowHolds | rootfs/home/qidi/klipper/klippy/chelper/kin_shaper.c:180-196 | every pulse lies between gen_steps_pre_active and gen_steps_post_active |
| SampleTimes.WindowIsLeast | rootfs/home/qidi/klipper/klippy/chelper/kin_shaper.c:180-196 | and the two times are the least that cover the pulses, from 0 on unless the first axis has pulses |
| SampleTimes.InitAscends | rootfs/home/qidi/klipper/klippy/chelper/kin_shaper.c:53-57 | pulses configured in the order of their times are installed in the order of theirs |
| SampleTimes.AskedOnList | rootfs/home/qidi/klipper/klippy/chelper/itersolve.c:145-212 | a walk asks for no time that is less than gen_steps_post_active after the beginning of the list, unless the list begins that close to time 0 |
| SampleTimes.SamplesOnList | rootfs/home/qidi/klipper/klippy/chelper/kin_shaper.c:77-103 | in every run of the toolhead, with entries finalized all the time, every position that an input shaper looks up for a step lies on the motion queue, so that the walk along it never leaves it, unless the queue begins within gen_steps_post_active of time 0 |
| SampleTimes.EarlyListIsLeft | rootfs/home/qidi/klipper/klippy/chelper/itersolve.c:157-203 | there it does leave it: the first walk covers a time that is less than gen_steps_post_active after the beginning of the list |
| GenerationRuns.EarlyRunBegins | rootfs/home/qidi/klipper/klippy/toolhead.py:357-396 | one move handed over within the first second of print time makes a motion queue that begins at time 0 |
| SampleTimes.EarlyListExample | rootfs/home/qidi/klipper/klippy/chelper/kin_shaper.c:77-103 | in that run a stepper with a shaper looks up a position before the motion queue |
| SendWindow.AcceptedNibbles | rootfs/home/qidi/klipper/klippy/chelper/serialqueue.c:224-235 | the nibble is decoded within the next sixteen numbers; it is accepted exactly if it lies in the window or nothing was acknowledged yet |
| SendWindow.StaleIsRefused | rootfs/home/qidi/klipper/klippy/chelper/serialqueue.c:224-235 | after the first acknowledgement one that is one to three blocks stale is always refused |
| SendWindow.ReleaseKeeps | rootfs/home/qidi/klipper/klippy/chelper/serialqueue.c:161-183 | releasing blocks, or restarting the window at connection init, keeps the window sound |
| SendWindow.AcknowledgedKeeps | rootfs/home/qidi/klipper/klippy/chelper/serialqueue.c:157-264 | every accepted block keeps the window sound: at most 12 blocks, numbered by place, bytes counted exactly, rto in range |
| SendWindow.RetransmittedKeeps | rootfs/home/qidi/klipper/klippy/chelper/serialqueue.c:394-441 | a retransmission keeps the window sound |
| SendWindow.BuiltKeeps | rootfs/home/qidi/klipper/klippy/chelper/serialqueue.c:443-525 | a block built when the window is open keeps it sound |
| SendWindow.AcknowledgedWithin | rootfs/home/qidi/klipper/klippy/chelper/serialqueue.c:161-183 | acknowledging never takes what may lie in the receive buffer, the last block acknowledged without an empty block included, beyond the receive window |
| SendWindow.BuiltWithin | rootfs/home/qidi/klipper/klippy/chelper/serialqueue.c:518-525 | while more may lie in the receive buffer than the receive window holds nothing is sent, and whatever is sent leaves no more than it holds, or is the only block in flight |
| SendWindow.OpenMeans | rootfs/home/qidi/klipper/klippy/chelper/serialqueue.c:514-525 | a block is let out exactly when fewer than twelve are in flight and the receive buffer holds the largest one in addition, or has no limit, or nothing is in flight |
| SendWindow.WindowSetKeeps | rootfs/home/qidi/klipper/klippy/chelper/serialqueue.c:890-897 | a new receive window keeps the rest, and is respected at once exactly when what may lie in the receive buffer fits it |
| SendWindow.BurstIsUnacked | rootfs/home/qidi/klipper/klippy/chelper/serialqueue.c:406-417 | the burst fits its buffer, and a reader, in step or not, takes from it exactly the unacknowledged blocks |
| SendWindow.AcknowledgedArmed | rootfs/home/qidi/klipper/klippy/chelper/serialqueue.c:208-215 | the retransmission timer is set exactly while blocks are in flight |
| SendWindow.BuiltArmed | rootfs/home/qidi/klipper/klippy/chelper/serialqueue.c:500-501 | building a block arms the timer if it was not |
| SendWindow.RetransmittedArmed | rootfs/home/qidi/klipper/klippy/chelper/serialqueue.c:437-440 | a retransmission sets the timer again |
| SendWindow.NaksAreIgnored | rootfs/home/qidi/klipper/klippy/chelper/serialqueue.c:420-434 | after a timeout no nak starts a retransmission before everything sent by then is acknowledged; after a nak none before the window moved; after a second one none before the first retransmission is acknowledged |
| SendWindow.NakMeans | rootfs/home/qidi/klipper/klippy/chelper/serialqueue.c:258-264 | of the accepted blocks exactly the naks make a retransmission due at once: empty, with a number acknowledged before that is past the ignored ones, and with blocks from it on in flight; an empty block with a new number becomes the last acknowledgement |
| SendWindow.NaksAreHeard | rootfs/home/qidi/klipper/klippy/chelper/serialqueue.c:258-264 | after a retransmission and any frames, an acknowledgement past the ignored point that comes twice, while blocks from it on are in flight, starts another one |
| LinkTimes.LineCosts | rootfs/home/qidi/klipper/klippy/chelper/serialqueue.c:140-155 | bytes cost nothing before the line's frequency is set, then ten bits each on a serial line, and on a CAN bus what their frames of eight bytes take, less the last gap |
| LinkTimes.SampledMoves | rootfs/home/qidi/klipper/klippy/chelper/serialqueue.c:189-197 | section 2 of RFC 6298: a sample moves the round trip time by an eighth of the difference and its variation by a quarter; the first one sets them, the time to its tenfold |
| LinkTimes.TimeoutCovers | rootfs/home/qidi/klipper/klippy/chelper/serialqueue.c:198-205 | the timeout is the least in its range that is a millisecond and four times the variation above the round trip time |
| LinkTimes.SamplesBound | rootfs/home/qidi/klipper/klippy/chelper/serialqueue.c:195-196 | between bounds that all samples keep, the round trip time stays, however many come |
| LinkTimes.SamplesConverge | rootfs/home/qidi/klipper/klippy/chelper/serialqueue.c:195-196 | while samples stay the same, each takes an eighth off the error of the round trip time |
| LinkTimes.SampleStarts | rootfs/home/qidi/klipper/klippy/chelper/serialqueue.c:187-207 | a measurement is of the first block sent while there is none, and the first acknowledgement beyond it gives the sample |
| LinkTimes.OneSampleEach | rootfs/home/qidi/klipper/klippy/chelper/serialqueue.c:186-206 | after a sample no acknowledgement gives another until a block sent later is acknowledged |
| LinkTimes.TimeoutsBackOff | rootfs/home/qidi/klipper/klippy/chelper/serialqueue.c:427-432 | any number of timeouts in a row double the timeout as often, up to five seconds, and keep the blocks in flight |
| LinkTimes.NakKeepsTimeout | rootfs/home/qidi/klipper/klippy/chelper/serialqueue.c:421-426 | a retransmission for a nak leaves the timeout as it is |
| LinkTimes.TimerIsDue | rootfs/home/qidi/klipper/klippy/chelper/serialqueue.c:208-215 | after an acknowledgement, a retransmission or a first block the timer runs out one timeout after the first block in flight can have left the line |
| KarnRule.BuiltIsHonest | rootfs/home/qidi/klipper/klippy/chelper/serialqueue.c:502-506 | building a block keeps the fields tied to what was transmitted |
| KarnRule.RetransmittedIsHonest | rootfs/home/qidi/klipper/klippy/chelper/serialqueue.c:434-435 | a retransmission keeps them tied |
| KarnRule.AcknowledgedIsHonest | rootfs/home/qidi/klipper/klippy/chelper/serialqueue.c:187-206 | an acknowledgement keeps them tied |
| KarnRule.KarnsRule | rootfs/home/qidi/klipper/klippy/chelper/serialqueue.c:187-207 | a round trip is sampled, and a time put on a message, only from a block that was transmitted exactly once |
| KarnRule.TimesAreGiven | rootfs/home/qidi/klipper/klippy/chelper/serialqueue.c:176-181 | the other half: a received block that acknowledges one sent since the last retransmission is given the time of that one |
| KarnRule.RetransmissionEndsSample | rootfs/home/qidi/klipper/klippy/chelper/serialqueue.c:434-435 | a retransmission of the blocks in flight ends every measurement on them |
| CommandScheduler.MostUrgentIs | rootfs/home/qidi/klipper/klippy/chelper/serialqueue.c:450-464 | the search finds the ready head with the least req_clock, the first listed queue among equals |
| CommandScheduler.SomethingUrgent | rootfs/home/qidi/klipper/klippy/chelper/serialqueue.c:449-464 | while bytes are ready the search finds a message |
| CommandScheduler.TakeFromKeeps | rootfs/home/qidi/klipper/klippy/chelper/serialqueue.c:468-473 | taking a message keeps the queues orderly; an empty queue leaves the list |
| CommandScheduler.PackConserves | rootfs/home/qidi/klipper/klippy/chelper/serialqueue.c:448-481 | what leaves a queue is its front, in order; the payload fits, and is not empty if something is ready |
| CommandScheduler.PackInOrder | rootfs/home/qidi/klipper/klippy/chelper/serialqueue.c:449-481 | each message packed is the most urgent at that moment, until none is ready or the next one does not fit |
| CommandScheduler.RaisedIsPaced | rootfs/home/qidi/klipper/klippy/chelper/serialqueue.c:785-790 | unless it is a background message, min_clock is at least req_clock less 2^31; nothing else changes |
| CommandScheduler.RaisedMeans | rootfs/home/qidi/klipper/klippy/chelper/serialqueue.c:785-788 | a message may be sent from its own min_clock on and no earlier than half a turn before it is due, a background message from its own |
| CommandScheduler.SendBatchKeeps | rootfs/home/qidi/klipper/klippy/chelper/serialqueue.c:777-806 | a batch goes behind what its queue holds, no other queue changes, and the byte count stays exact |
| CommandScheduler.PromotedKeeps | rootfs/home/qidi/klipper/klippy/chelper/serialqueue.c:533-547 | promotion moves messages between the two lists without losing, adding or reordering any, and keeps both byte counts exact |
| CommandScheduler.NoneReadyEarly | rootfs/home/qidi/klipper/klippy/chelper/serialqueue.c:535-547 | nothing becomes ready before its min_clock, nor more than 2^31 ticks before its req_clock unless it is a background message |
| CommandScheduler.MinStalledIsLeast | rootfs/home/qidi/klipper/klippy/chelper/serialqueue.c:538-542 | the stalled clock is the least min_clock of the waiting heads |
| CommandScheduler.MinReadyIsLeast | rootfs/home/qidi/klipper/klippy/chelper/serialqueue.c:548-559 | the ready clock is the least due clock of the ready heads |
| SerialProtocol.HandleKeeps | rootfs/home/qidi/klipper/klippy/chelper/serialqueue.c:218-296 | a received block keeps window and queues in order |
| SerialProtocol.HandleNak | rootfs/home/qidi/klipper/klippy/chelper/serialqueue.c:218-264 | a received block makes a retransmission due at once exactly when it is accepted and a nak |
| SerialProtocol.BuildKeeps | rootfs/home/qidi/klipper/klippy/chelper/serialqueue.c:443-508 | a built block keeps them, and takes one place of the window |
| SerialProtocol.DecideKeeps | rootfs/home/qidi/klipper/klippy/chelper/serialqueue.c:510-579 | the decision loses no message, and is to send now only if the window is open |
| SerialProtocol.CommandStep | rootfs/home/qidi/klipper/klippy/chelper/serialqueue.c:589-605 | one turn of the command loop; each block fills a place of the window, so the loop ends |
| SerialRuns.HandleKept | rootfs/home/qidi/klipper/klippy/chelper/serialqueue.c:218-296 | a received block keeps the whole invariant of the queue |
| SerialRuns.BuildKept | rootfs/home/qidi/klipper/klippy/chelper/serialqueue.c:443-508 | a built block keeps it |
| SerialRuns.EnqueueKept | rootfs/home/qidi/klipper/klippy/chelper/serialqueue.c:777-806 | a batch keeps it |
| SerialRuns.CommandKept | rootfs/home/qidi/klipper/klippy/chelper/serialqueue.c:581-608 | the whole of command_event keeps it |
| SerialRuns.NothingLost | rootfs/home/qidi/klipper/klippy/chelper/serialqueue.c:443-481 | after any run of a session, window and frequency learned on the way: per command queue, enqueued = shipped then held; notify messages shipped = notified then waiting, in order; counters exact; window sound and timer armed |
| SerialRuns.CommandPossible | rootfs/home/qidi/klipper/klippy/chelper/serialqueue.c:581-608 | command_event can come after every run |
| SerialRuns.CommandWithin | rootfs/home/qidi/klipper/klippy/chelper/serialqueue.c:518-525 | one run of command_event leaves no more in flight than the window holds, unless it sends nothing and there was more before |
| SerialRuns.NextWithin | rootfs/home/qidi/klipper/klippy/chelper/serialqueue.c:890-897 | only a change of the window can make what is in flight exceed it, and exactly when it does not fit |
| SerialRuns.WindowRespected | rootfs/home/qidi/klipper/klippy/serialhdl.py:79-110 | throughout a session what is in flight stays within the receive window exactly when every window learned finds no more in flight than it holds, or one block |
| LateWindow.LateWindowExample | rootfs/home/qidi/klipper/klippy/serialhdl.py:79-110 | a run of a new session that exceeds it: two full blocks are sent before a window of 100 bytes is learned |
| SerialRuns.FramesMeasureHonestly | rootfs/home/qidi/klipper/klippy/chelper/serialqueue.c:186-207 | any frame measures only a block transmitted once, and only the one it acknowledges |
| SerialRuns.RoundTripsAreHonest | rootfs/home/qidi/klipper/klippy/chelper/serialqueue.c:266-274 | Karn's rule, section 3 of RFC 6298, over all runs of a session |
| SerialRuns.NotifiedEarly | rootfs/home/qidi/klipper/klippy/chelper/serialqueue.c:240-248 | a notification fires before its block is acknowledged exactly when a message with the first sequence number arrives before any acknowledgement, because the subtraction wraps |
| SerialRuns.AllNotifiedEarly | rootfs/home/qidi/klipper/klippy/chelper/serialqueue.c:240-255 | in that case every waiting notification fires although nothing is acknowledged |
| SerialRuns.EarlyNotificationExample | rootfs/home/qidi/klipper/klippy/chelper/serialqueue.c:240-248 | a run from a new session that gets there: one message enqueued and sent, then any data message with the first number; the notification is given while its block still waits |
| SerialRuns.NotifiedAfterAck | rootfs/home/qidi/klipper/klippy/chelper/serialqueue.c:240-255 | in every other case a notification means that the window starts beyond its block |
| SerialRuns.CommandWrites | rootfs/home/qidi/klipper/klippy/chelper/serialqueue.c:589-605 | every block built is written exactly once, in order, behind what the buffer held |
| SerialRuns.CommandOnWire | rootfs/home/qidi/klipper/klippy/chelper/serialqueue.c:589-605 | a controller in step takes from what command_event writes exactly the blocks it built, in order, with nothing skipped |
| SerialBlocks.EmptyDecision | rootfs/home/qidi/klipper/klippy/chelper/serialqueue.c:562-573 | with an open window and nothing ready, the decision is to send now exactly when the clock reaches the greatest one a message can have |
| SerialBlocks.EmptyBlock | rootfs/home/qidi/klipper/klippy/chelper/serialqueue.c:510-578 | exactly when the block that is built next is empty |
| SerialBlocks.EmptyBlockExample | rootfs/home/qidi/klipper/klippy/chelper/serialqueue.c:567-573 | a new session whose first event sends an empty block, because the clock estimate lies in the future |
| SerialBlocks.NoBlockIsEmpty | rootfs/home/qidi/klipper/klippy/chelper/serialqueue.c:581-608 | in every session whose clocks are neither negative nor near the greatest one when command_event starts, no block in flight is ever empty |
| SerialRuns.WakesInTime | rootfs/home/qidi/klipper/klippy/chelper/serialqueue.c:571-578 | otherwise the wake-up is later than now, not after any waiting message may become ready, and a quarter second before the most urgent one is due |
| WakeUps.SendsNow | rootfs/home/qidi/klipper/klippy/chelper/serialqueue.c:565-572 | with the window open a block is sent at once exactly when a whole one can be filled or a ready message is due within a quarter of a second; while the clock is not known, when anything is ready |
| WakeUps.HandleWakes | rootfs/home/qidi/klipper/klippy/chelper/serialqueue.c:183-184 | a block that moves the window has the next commands considered at once, any other leaves the command timer alone |
| WakeUps.KickMeans | rootfs/home/qidi/klipper/klippy/chelper/serialqueue.c:795-806 | a batch kicks exactly when its first message may go before the clock the handler waits for |
| WakeUps.NeverForgotten | rootfs/home/qidi/klipper/klippy/chelper/serialqueue.c:443-608 | after every run, while the command timer is off and no kick is on its way, blocks are in flight with the retransmission timer set, or nothing is ready and the next batch that may be sent kicks |
| WakeUps.CommandTakesLine | rootfs/home/qidi/klipper/klippy/chelper/serialqueue.c:493-604 | the blocks of a command event leave one after the other from when the line is free, are stamped with the time at which each has left, and the line is busy until the last has |
| WakeUps.HandleRefuses | rootfs/home/qidi/klipper/klippy/chelper/serialqueue.c:228-236 | a refused block leaves everything as it is but for its length in bytes_invalid |
| WakeUps.RetransmissionOnWire | rootfs/home/qidi/klipper/klippy/chelper/serialqueue.c:406-418 | what a retransmission writes is read, by a reader in step or not, as exactly the unacknowledged blocks, in order; the queues stay as they are |
| WakeUps.RetransmissionTakes | rootfs/home/qidi/klipper/klippy/chelper/serialqueue.c:409-436 | after a retransmission the line is busy until the sync byte and every unacknowledged block have left |
| SerialQueues.SerialQueue.constructor | rootfs/home/qidi/klipper/klippy/chelper/serialqueue.c:624-693 | a new queue is the empty state of the run model, its window and the frequency of its line unknown |
| SerialQueues.SerialQueue.SetWireFrequency | rootfs/home/qidi/klipper/klippy/chelper/serialqueue.c:878-889 | the time per byte or bit becomes that of the frequency |
| SerialQueues.SerialQueue.SetReceiveWindow | rootfs/home/qidi/klipper/klippy/chelper/serialqueue.c:891-897 | the window is set and nothing else |
| SerialQueues.SerialQueue.ReleaseSent | rootfs/home/qidi/klipper/klippy/chelper/serialqueue.c:161-183 | the loop releases blocks up to the one acknowledged, or restarts the window |
| SerialQueues.SerialQueue.SampleRoundTrip | rootfs/home/qidi/klipper/klippy/chelper/serialqueue.c:189-206 | the estimate of section 2 of RFC 6298, clamped |
| SerialQueues.SerialQueue.UpdateReceiveSeq | rootfs/home/qidi/klipper/klippy/chelper/serialqueue.c:157-216 | the window advances, samples and rearms as specified |
| SerialQueues.SerialQueue.WakeNotified | rootfs/home/qidi/klipper/klippy/chelper/serialqueue.c:240-255 | exactly the head of the notify queue up to the wake number moves to the receive queue |
| SerialQueues.SerialQueue.HandleMessage | rootfs/home/qidi/klipper/klippy/chelper/serialqueue.c:218-275 | the whole state changes as the transition for a received block, naks included |
| SerialQueues.SerialQueue.RetransmitEvent | rootfs/home/qidi/klipper/klippy/chelper/serialqueue.c:394-441 | the burst is written and the whole state changes as the transition for a retransmission |
| SerialQueues.SerialQueue.PackReady | rootfs/home/qidi/klipper/klippy/chelper/serialqueue.c:448-481 | the loop packs what the specification packs, into the buffer, and notes the messages to notify |
| SerialQueues.SerialQueue.BuildAndSendCommand | rootfs/home/qidi/klipper/klippy/chelper/serialqueue.c:443-508 | the buffer gets exactly the new block, and the whole state changes as the transition for a built block |
| SerialQueues.SerialQueue.PromoteAll | rootfs/home/qidi/klipper/klippy/chelper/serialqueue.c:533-560 | the loops promote what is due and find the two clocks |
| SerialQueues.SerialQueue.CheckSendCommand | rootfs/home/qidi/klipper/klippy/chelper/serialqueue.c:510-579 | the decision and the new queues are those specified |
| SerialQueues.SerialQueue.CommandEvent | rootfs/home/qidi/klipper/klippy/chelper/serialqueue.c:581-608 | the whole loop, with its buffer, does what the specified loop does, and ends |
| SerialQueues.SerialQueue.SendBatch | rootfs/home/qidi/klipper/klippy/chelper/serialqueue.c:777-806 | the whole state changes as the transition for a batch |
| SerialQueues.SerialQueue.Pull | rootfs/home/qidi/klipper/klippy/chelper/serialqueue.c:838-864 | the first received message leaves the queue |
| SerialQueues.FindUrgent | rootfs/home/qidi/klipper/klippy/chelper/serialqueue.c:450-464 | the loop finds the most urgent head |
| SerialQueues.FillBlock | rootfs/home/qidi/klipper/klippy/chelper/serialqueue.c:483-490 | header and trailer make a complete block of the payload |
| Transport.ReplyIsRead | rootfs/home/qidi/klipper/klippy/chelper/serialqueue.c:224-237 | a reply about a block between the window's ends is read as exactly that number and never refused, so the init branch never fires |
| Transport.McuReceiveIsSafe | rootfs/home/qidi/klipper/klippy/chelper/serialqueue.c:483-507 | of the copies that can be in transit only the next expected block has its nibble |
| Transport.HostReceiveIsSafe | rootfs/home/qidi/klipper/klippy/chelper/serialqueue.c:159-237 | an acknowledgement releases only blocks that were delivered |
| Transport.StepIsSafe | rootfs/home/qidi/klipper/klippy/chelper/serialqueue.c:159-517 | every step of sender, links and controller, new windows and frequencies included, keeps the end-to-end invariant |
| Transport.ExactlyOnceInOrder | rootfs/home/qidi/klipper/klippy/chelper/serialqueue.c:159-517 | with lossy links that keep the order and a controller that accepts the next nibble, the blocks accepted are always a prefix of the blocks built |
| Transport.RepliesAreRead | rootfs/home/qidi/klipper/klippy/chelper/serialqueue.c:224-237 | after any run the next reply is read as the number it stands for and releases blocks in flight, so a connection in step is never taken for a new one |
| EndToEnd.BuildCarried | rootfs/home/qidi/klipper/klippy/chelper/serialqueue.c:443-508 | building a block from the command queues is a step of the transport, whose payload is what was packed |
| EndToEnd.CommandCarried | rootfs/home/qidi/klipper/klippy/chelper/serialqueue.c:581-608 | so is the whole of command_event, block by block |
| EndToEnd.StepIsGood | rootfs/home/qidi/klipper/klippy/chelper/serialqueue.c:218-608 | every event of callers, host, links and controller keeps the queue's and the transport's invariants together |
| EndToEnd.PayloadBytes | rootfs/home/qidi/klipper/klippy/chelper/serialqueue.c:447-481 | the payloads of the first blocks are the bytes of the messages shipped in them, in order |
| EndToEnd.EveryQueueInOrder | rootfs/home/qidi/klipper/klippy/chelper/serialqueue.c:443-608 | after any run, whatever was lost or retransmitted, the bytes the controller accepted are those of the first messages shipped, and for each command queue these are the first ones enqueued there, in order |
| EndToEnd.NotifiedIsDelivered | rootfs/home/qidi/klipper/klippy/chelper/serialqueue.c:240-255 | in a run in which no message comes before the first acknowledgement, the notifications given are the first ones asked for among the messages the controller has accepted |
| Crc.Ccitt16 | rootfs/home/qidi/klipper/klippy/chelper/msgblock.c:18-31 | the C loop computes the code of the first len bytes |
| Crc.PyCcitt16 | rootfs/home/qidi/klipper/klippy/msgproto.py:29-35 | the Python loop computes the same code, as two bytes |
| Crc.StepsAgree | rootfs/home/qidi/klipper/klippy/chelper/msgblock.c:23-29 | one turn of the C loop and one of the Python loop agree |
| Crc.PyStepExact | rootfs/home/qidi/klipper/klippy/msgproto.py:31-34 | the unbounded Python integers never outgrow sixteen bits |
| Crc.StepInjective | rootfs/home/qidi/klipper/klippy/chelper/msgblock.c:23-29 | for one byte, different states lead to different states |
| Crc.PairInjective | rootfs/home/qidi/klipper/klippy/chelper/msgblock.c:23-29 | two bytes can be told from the state they lead to |
| Crc.ShortBurstDetected | rootfs/home/qidi/klipper/klippy/chelper/msgblock.c:18-31 | buffers of one length that differ only within two neighbouring bytes have different codes |
| Crc.BoundaryBurst | rootfs/home/qidi/klipper/klippy/chelper/msgblock.c:53-56 | exactly which change of a last byte and of the high code byte goes unnoticed: bits 0x91 and 0x85 |
| Crc.WordMatches | rootfs/home/qidi/klipper/klippy/chelper/msgblock.c:53-56 | comparing the codes as words is comparing both bytes |
| Vlq.ValueWithin | rootfs/home/qidi/klipper/klippy/chelper/msgblock.c:88-102 | an n-byte code means a value between the bounds that encode_int tests |
| Vlq.CRoundTrip | rootfs/home/qidi/klipper/klippy/chelper/msgblock.c:71-102 | the C code of a word is well formed, at most five bytes, and means that word |
| Vlq.PyRoundTrip | rootfs/home/qidi/klipper/klippy/msgproto.py:42-60 | the Python code of an integer means it exactly in the range of five bytes, which holds both 32-bit ranges |
| Vlq.PyModulo | rootfs/home/qidi/klipper/klippy/msgproto.py:42-60 | modulo 2^32 the Python code of every integer means it |
| Vlq.CShortest | rootfs/home/qidi/klipper/klippy/chelper/msgblock.c:71-86 | no code means the word in fewer bytes |
| Vlq.PyShortest | rootfs/home/qidi/klipper/klippy/msgproto.py:42-47 | no code means the integer in fewer bytes |
| Vlq.EncodersAgree | rootfs/home/qidi/klipper/klippy/msgproto.py:42-47 | exactly where on both 32-bit ranges the two encoders write the same bytes |
| VlqMessages.ParseInt | rootfs/home/qidi/klipper/klippy/chelper/msgblock.c:88-102 | the loop reads exactly one code and returns its value as a word |
| VlqMessages.PyParse | rootfs/home/qidi/klipper/klippy/msgproto.py:48-60 | the loop reads exactly one code, signed or unsigned, and fails exactly when the buffer runs out |
| VlqMessages.CodeIsRead | rootfs/home/qidi/klipper/klippy/chelper/msgblock.c:88-102 | a code embedded in a buffer is read whole, whatever surrounds it |
| VlqMessages.RoundTrips | rootfs/home/qidi/klipper/klippy/chelper/msgblock.c:71-102 | either reader recovers modulo 2^32 what either encoder wrote |
| VlqMessages.PyExact | rootfs/home/qidi/klipper/klippy/msgproto.py:42-60 | exactly which integers the signed and the unsigned Python reader recover |
| VlqMessages.EncodeInt | rootfs/home/qidi/klipper/klippy/chelper/msgblock.c:71-86 | the chain of writes puts exactly the code into the buffer and touches nothing else |
| VlqMessages.PyEncode | rootfs/home/qidi/klipper/klippy/msgproto.py:42-47 | the code is appended to the list |
| VlqMessages.AllocAndEncode | rootfs/home/qidi/klipper/klippy/chelper/msgblock.c:145-164 | a payload that fits is written whole, one that does not gives length 0; no write leaves the 64 bytes |
| VlqMessages.Decode | rootfs/home/qidi/klipper/klippy/chelper/msgblock.c:104-119 | the loop reads what the specification reads and no byte beyond the block |
| VlqMessages.ListRoundTrip | rootfs/home/qidi/klipper/klippy/chelper/msgblock.c:104-164 | the payload of a list is read back as that list, and as no list of another length |
| Framing.CheckBounds | rootfs/home/qidi/klipper/klippy/chelper/msgblock.c:33-69 | bounds of each outcome; a skip ends at the first SYNC, so an error skip never crosses one |
| Framing.CheckStable | rootfs/home/qidi/klipper/klippy/chelper/msgblock.c:33-69 | a decision stands however the stream goes on; only a skip that ran out of bytes looks further |
| Framing.ReadersAgree | rootfs/home/qidi/klipper/klippy/msgproto.py:243-262 | the Python reader decides as the C reader does |
| Framing.DrainEnds | rootfs/home/qidi/klipper/klippy/chelper/serialqueue.c:327-345 | every pass ends, with at most 63 bytes held back, and every byte is delivered, skipped or held back |
| Framing.ReadSplit | rootfs/home/qidi/klipper/klippy/chelper/serialqueue.c:327-345 | reading two pieces at once comes, up to the pending skip, to reading one after the other |
| Framing.ChunksDoNotMatter | rootfs/home/qidi/klipper/klippy/chelper/serialqueue.c:325-345 | however a stream is cut into reads, messages and skipped bytes are those of one read of the whole |
| Framing.SameStream | rootfs/home/qidi/klipper/klippy/chelper/serialqueue.c:325-345 | two ways of cutting one stream deliver the same messages |
| Framing.NormReads | rootfs/home/qidi/klipper/klippy/chelper/msgblock.c:60-68 | a reader may be replaced by its normal form for everything still to come |
| Framing.Resync | rootfs/home/qidi/klipper/klippy/chelper/msgblock.c:60-68 | after noise that ends in SYNC parsing resumes right there, or a block with a valid code starts inside the noise, or fewer than 64 bytes are still awaited |
| Framing.BlockAccepted | rootfs/home/qidi/klipper/klippy/chelper/serialqueue.c:483-490 | every block written is accepted by both readers with exactly its length, whatever follows |
| Framing.BlocksDelivered | rootfs/home/qidi/klipper/klippy/chelper/serialqueue.c:327-345 | a run of blocks is delivered block by block with nothing skipped |
| Framing.BurstDelivered | rootfs/home/qidi/klipper/klippy/chelper/serialqueue.c:406-416 | a SYNC followed by blocks is understood from either state of the reader, at the cost of the SYNC |
| Framing.ShortBurst | rootfs/home/qidi/klipper/klippy/chelper/msgblock.c:51-58 | exactly which change within two neighbouring bytes of a block, its first ones included, leaves a block of its length |
| Framing.ChangedLength | rootfs/home/qidi/klipper/klippy/chelper/msgblock.c:34-68 | exactly when a block whose length byte was changed, with or without its sequence byte, is accepted as a message, in terms of the bytes that were not changed; a shorter one is accepted whatever follows, a longer one waits for more |
| Framing.NestedBlock | rootfs/home/qidi/klipper/klippy/chelper/msgblock.c:34-68 | a block whose payload is the rest of a shorter block: with one byte changed, its length, both readers accept the shorter one |
| Framing.UndetectedNeighbour | rootfs/home/qidi/klipper/klippy/chelper/msgblock.c:34-68 | every block with a payload has such a neighbour, which both readers accept in its place |
| FrameReaders.MemChr | rootfs/home/qidi/klipper/klippy/chelper/msgblock.c:62-62 | the first SYNC, or the length |
| FrameReaders.MsgblockCheck | rootfs/home/qidi/klipper/klippy/chelper/msgblock.c:33-69 | the result and need_sync are those of the decision |
| FrameReaders.FrameReader.MemMove | rootfs/home/qidi/klipper/klippy/chelper/serialqueue.c:342-344 | the rest of the buffer moves to its front |
| FrameReaders.FrameReader.InputEvent | rootfs/home/qidi/klipper/klippy/chelper/serialqueue.c:325-345 | whatever is read, the messages found are those of the specification, and the buffer always has room for the next read |
| Clocks.Clock32Extends | rootfs/home/qidi/klipper/klippy/chelper/msgblock.c:190-195 | the extension is the one clock with these low 32 bits within half a turn of the last one |
| Clocks.TicksMonotone | rootfs/home/qidi/klipper/klippy/chelper/msgblock.c:204-209 | later times never have smaller clocks |
| Clocks.TicksNear | rootfs/home/qidi/klipper/klippy/chelper/msgblock.c:204-209 | the clock of a time is the exact one rounded; before the conversion point it may be a tick late |
| Clocks.ClockRoundTrip | rootfs/home/qidi/klipper/klippy/chelper/msgblock.c:197-209 | a clock converted to a time and back is unchanged exactly when it does not precede the conversion point, otherwise one tick later |
| TriggerDispatch.ScanIsScanned | rootfs/home/qidi/klipper/klippy/chelper/trdispatch.c:95-107 | the loop finds the least and the second least status time |
| TriggerDispatch.HorizonIsLeast | rootfs/home/qidi/klipper/klippy/chelper/trdispatch.c:108-113 | the time granted to a controller is the least status time of the others, its own only when it is alone |
| TriggerDispatch.ReportArrives | rootfs/home/qidi/klipper/klippy/chelper/trdispatch.c:67-72 | a report encoded in a block is read back, and only by the controller it is for |
| TriggerDispatch.DisarmedIsSilent | rootfs/home/qidi/klipper/klippy/chelper/trdispatch.c:77-78 | once disarmed nothing is sent, whatever arrives, until the next start |
| TriggerDispatch.OneTriggerEach | rootfs/home/qidi/klipper/klippy/chelper/trdispatch.c:40-88 | the first report of a trigger or timeout sends to every controller exactly one message of its trigger tag, its object and the reason of the start, and it is the last message until the next start |
| TriggerDispatch.OnlyFailuresTrigger | rootfs/home/qidi/klipper/klippy/chelper/trdispatch.c:49-119 | no other event sends a trigger: a step adds at most one message to a queue, of the timeout tag, the object and the low half of the deadline held afterwards |
| TriggerDispatch.StartIsBounded | rootfs/home/qidi/klipper/klippy/mcu.py:196-204 | deadlines that are the allowance after statuses of one time are within bounds |
| TriggerDispatch.ExtendMeans | rootfs/home/qidi/klipper/klippy/chelper/trdispatch.c:113-118 | a deadline never moves back, stays within what it was granted, and is never left min_extend_ticks behind |
| TriggerDispatch.ReportKeepsBound | rootfs/home/qidi/klipper/klippy/chelper/trdispatch.c:90-119 | a report keeps every deadline within its bound, moves none back, and leaves none behind |
| TriggerDispatch.DeadManSwitch | rootfs/home/qidi/klipper/klippy/chelper/trdispatch.c:74-143 | over a whole session no deadline exceeds the last status of any other controller by more than its expire_ticks, and none moves back |
| TriggerDispatch.DeadlineInTime | rootfs/home/qidi/klipper/klippy/chelper/trdispatch.c:113-114 | the same bound in time, with the rounding: half a tick, one and a half before the conversion point |
| TriggerDispatch.MovesBack | rootfs/home/qidi/klipper/klippy/chelper/trdispatch.c:114-116 | without any of the session's assumptions, exactly when a report moves a deadline back: the comparison is unsigned |
| TriggerDispatch.ReportMovesBack | rootfs/home/qidi/klipper/klippy/chelper/trdispatch.c:111-118 | the same for the report of any controller: which deadlines it moves back, by the horizon it leaves |
| TriggerDispatch.DeadlineMovesBack | rootfs/home/qidi/klipper/klippy/chelper/trdispatch.c:111-118 | a session start and one report, with a clock estimate that was corrected, after which a deadline is earlier |
| DeadlineMessages.StepAdds | rootfs/home/qidi/klipper/klippy/chelper/trdispatch.c:40-119 | word by word what any event adds to a controller's queue: for the failure acted on, the trigger's tag, the object and the reason of the start; otherwise nothing, and the deadline stands, or the timeout's tag, the object and the low half of the deadline held from then on, to be sent by then |
| DeadlineMessages.DeadlinesAreTold | rootfs/home/qidi/klipper/klippy/chelper/trdispatch.c:49-119 | in every run the last timeout queued for a controller is the low half of the deadline the host holds for it |
| DeadlineMessages.ReadDeadlineIsBounded | rootfs/home/qidi/klipper/klippy/chelper/trdispatch.c:49-143 | over a whole session the deadline that a controller reads is the one the host holds, and exceeds the last status of any controller it watches by no more than its expire_ticks |
| TriggerSessions.SetUpStarts | rootfs/home/qidi/klipper/klippy/mcu.py:195-203 | after one setup of each controller, with statuses of one time, the deadlines are those that a session starts with, and nothing was sent |
| TriggerSessions.FailurePassesOn | rootfs/home/qidi/klipper/klippy/chelper/trdispatch.c:80-143 | from a start, whatever is reported in between, later starts included, the first failure sends every controller its trigger with the reason of that start |
| TriggerSessions.StoppedIsSilent | rootfs/home/qidi/klipper/klippy/chelper/trdispatch.c:145-162 | once stopped nothing is sent, whatever arrives, until the next start |
| TriggerDispatchers.DispatchMcu.ExtendTo | rootfs/home/qidi/klipper/klippy/chelper/trdispatch.c:113-118 | the deadline is extended and the message queued as the transition says; DeadlineMessages proves what its words tell the controller |
| TriggerDispatchers.DispatchMcu.Setup | rootfs/home/qidi/klipper/klippy/chelper/trdispatch.c:212-226 | the fields are set, the messages sent stay |
| TriggerDispatchers.Dispatcher.Start | rootfs/home/qidi/klipper/klippy/chelper/trdispatch.c:125-143 | a start arms an inactive dispatcher that has controllers, and does nothing otherwise |
| TriggerDispatchers.Dispatcher.Stop | rootfs/home/qidi/klipper/klippy/chelper/trdispatch.c:145-162 | a stop makes it inactive |
| TriggerDispatchers.Dispatcher.FindLeast | rootfs/home/qidi/klipper/klippy/chelper/trdispatch.c:95-107 | the loop computes the two least times of the specification |
| TriggerDispatchers.Dispatcher.HandleTrsyncState | rootfs/home/qidi/klipper/klippy/chelper/trdispatch.c:61-123 | a message of any content changes every controller as the transition says |

## Left out

- Floating point: rounding, overflow and NaN; reals are used, and a division by zero in the step solver is a guess out of bounds, as a NaN is in the source.
- IterSolve.GenStepsRange: takes the number of looks as a bound, because the termination of the root search for an arbitrary position callback is not claimed; everything it promises holds for any bound, and a search that ends within it has the result of the source.
- Steppers.StepperKinematics.Walk: the results of the step compressor are an input, and so is which moves concern the stepper; the compressor may still take back a step when the direction changes soon after it.
- SampleTimes.SamplesOnList: requires that the shaper looks no further than kin_flush_delay, which the toolhead is told to keep above it, and no further than a first filler in all; a stepper starts with last_move_time 0.
- Transport.ExactlyOnceInOrder: assumes a controller that accepts the block whose nibble it expects, and a connection that starts with matching numbers; the firmware is not part of this model.
- EndToEnd.EveryQueueInOrder: under the same assumptions; what the replies of the controller carry is arbitrary.
- SerialQueues.SerialQueue.SetWireFrequency: requires a frequency other than zero, for which the source's quotient is infinite.
- SerialQueues.SerialQueue.HandleMessage: the fast readers and the waking of the receiver are left out; the reports a fast reader would get are the input of the trigger dispatcher.
- SerialQueues.SerialQueue.SendBatch: finds its command queue by number, and an empty queue is not kept as an object; the pipe that wakes the background thread is left out.
- SerialQueues.SerialQueue.RetransmitEvent: the flush of the terminal's output queue is left out; bytes that it drops are bytes the link loses.
- Sequence numbers are unbounded; 2^64 blocks are not reached. The one place where the source's 64-bit subtraction wraps is modelled.
- ToolHeads.ToolHead.ProcessMoves: the extruder's queue, timing callbacks and the waiting of a drip move are left out; the estimated print time is an input.
- ToolHeads.ToolHead.AdvanceFlushTime: what the step generators are called for is recorded, for the steppers to be driven with; the extruder's queue and the flush of the step compressor are left out, and the flush delay of the kinematics is fixed.
- MotionRuns.RunFlows: drip moves that are cut short by a trigger, resets of the look-ahead queue and `set_position` are left out, because there the motion does not go on where it ended.
- LookAheadQueues.LookAheadQueue.Enqueue: the moves share one square root; their velocity limits may differ.
- ToolHeads.Move.constructor: requires a positive speed, which the g-code layer ensures.
- InputShaper.ShaperPulses.Init: weights that add up to zero, for which the source divides by zero, are not accepted.
- TriggerDispatch.DeadManSwitch: assumes fixed clock estimates, reported clocks that do not go back, and times in the range of a clock; without any of them TriggerDispatch.ReportMovesBack says what happens.
- Linked lists are sequences; freeing memory, debug queues and statistics other than the invalid byte count are left out.
- CAN frames, the terminal, pipes, threads and the poll reactor; each section under a lock is one step.
- The debug-file mode of the serial queue, in which the receive sequence is -1.
- `MessageParser.encode_msgblock`, message formats and the data dictionary; the C writer of blocks is modelled.
- `ToolHead.move` and its extrusion accumulator, pauses, homing moves, and the kinematics of particular printers.
- `stepcompress.c`, the extruder's and the shaper's stepper kinematics, `trapq_set_position` and history queries.
- The regression that estimates clocks, and everything above these layers: g-code, configuration, web interfaces.
