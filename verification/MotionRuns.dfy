/** Whole runs of the toolhead: moves are added, lazily or fully flushed, and fed to the motion queue, while the queuing
  * state decides when the print time may jump and the queue is finalized behind the motion. */
module MotionRuns {
  import opened RealMath
  import opened JunctionPlan
  import opened LookAheadRuns
  import opened MotionPipeline
  import opened PrintTimes
  import opened Options
  import T = TrapTimeline

  /** What the toolhead does, one call at a time.  get_last_move_time, dwell, wait_moves, flush_step_generation and
    * drip_move are sequences of these. */
  datatype Action =
    | AddMove(move: Limits, cap: Option<real>)
    | LazyFlush(now: Now)
    | Flush(now: Now)
    | ToNeedPrime  // the rest of _flush_lookahead, after the flush
    | Settle(est: real)  // _calc_print_time, after _flush_lookahead
    | Prime  // _check_pause
    | Wait(seconds: real, clear: real)  // the rest of dwell, after the flush
    | ToDrip  // the start of a drip move
    | Background(flushTime: real, clear: real)  // _advance_flush_time, called outside _process_moves
    | HoldRestart  // the end of flush_step_generation

  /** What an action does to the look-ahead queue. */
  function Planning(a: Action): seq<Event> {
    match a
    case AddMove(m, cap) => [Add(m, cap)]
    case LazyFlush(_) => [Lazy]
    case Flush(_) => [Full]
    case _ => []
  }

  function Planner(acts: seq<Action>): seq<Event> {
    if acts == [] then [] else Planner(acts[..|acts| - 1]) + Planning(acts[|acts| - 1])
  }

  function LogOf(acts: seq<Action>): seq<Planned> {
    Run(Planner(acts)).log
  }

  /** Moves are added as they are built, each beginning where the previous one ended. */
  predicate WellBuilt(acts: seq<Action>) {
    BuiltEvents(Planner(acts)) && Chained(Added(StretchesOf(Planner(acts))))
  }

  /** What the last action hands over. */
  function Handed(acts: seq<Action>): seq<Planned>
    requires acts != []
  {
    var before := LogOf(acts[..|acts| - 1]);
    if |before| <= |LogOf(acts)| then LogOf(acts)[|before|..] else []
  }

  /** When an action can come, on the look-ahead queue and the toolhead as they are. */
  predicate Possible(queue: seq<Limits>, d: Drive, a: Action) {
    match a
    case LazyFlush(_) => d.mode != Drip
    case ToNeedPrime => queue == []
    case Settle(_) => queue == [] && d.mode != Main
    case Wait(_, _) => queue == []
    case ToDrip => queue == []
    case Background(_, _) => d.mode != Main
    case _ => true
  }

  function Act(sqrt: real -> real, delay: real, d: Drive, a: Action, handed: seq<Planned>): Drive
    requires IsSqrt(sqrt) && AllTimed(handed)
  {
    match a
    case AddMove(_, _) => d
    case LazyFlush(now) => if handed == [] then d else ProcessRow(d, delay, now, RowOf(sqrt, handed))
    case Flush(now) => if handed == [] then d else ProcessRow(d, delay, now, RowOf(sqrt, handed))
    case ToNeedPrime => d.(mode := NeedPrime)
    case Settle(est) => CalcPrintTime(d, delay, est)
    case Prime => if d.mode == Main then d else d.(mode := Priming)
    case Wait(seconds, clear) => AdvanceMove(d, delay, d.t + Max(0.0, seconds), clear)
    case ToDrip => d.(mode := Drip)
    case Background(flushTime, clear) => AdvanceFlush(d, delay, flushTime, clear)
    case HoldRestart => RestartHeld(d)
  }

  /** The toolhead after a run of actions. */
  ghost function DriveOf(sqrt: real -> real, delay: real, acts: seq<Action>): Drive
    requires IsSqrt(sqrt) && WellBuilt(acts)
  {
    if acts == [] then IDLE
    else
      var n := |acts| - 1;
      Earlier(acts);
      HandedTimed(acts);
      Act(sqrt, delay, DriveOf(sqrt, delay, acts[..n]), acts[n], Handed(acts))
  }

  ghost predicate IsRun(sqrt: real -> real, delay: real, acts: seq<Action>)
    requires IsSqrt(sqrt) && WellBuilt(acts)
  {
    acts != [] ==>
      var n := |acts| - 1;
      Earlier(acts);
      && IsRun(sqrt, delay, acts[..n])
      && Possible(Run(Planner(acts[..n])).queue, DriveOf(sqrt, delay, acts[..n]), acts[n])
  }

  // ----- prefixes -----

  lemma AddedGrows(es: seq<Event>)
    requires es != []
    ensures Added(StretchesOf(es[..|es| - 1])) <= Added(StretchesOf(es))
  {
    var r := StretchesOf(es[..|es| - 1]);
    if es[|es| - 1].Full? {
      assert (r.closed + [r.open])[..|r.closed|] == r.closed;
      assert Flat(r.closed) + r.open + [] == Flat(r.closed) + r.open;
    }
  }

  lemma PlannerStep(acts: seq<Action>)
    requires acts != []
    ensures var es := Planner(acts); var before := Planner(acts[..|acts| - 1]);
            if Planning(acts[|acts| - 1]) == [] then es == before
            else es != [] && es[..|es| - 1] == before && Planning(acts[|acts| - 1]) == [es[|es| - 1]]
  {
  }

  lemma Earlier(acts: seq<Action>)
    requires acts != [] && WellBuilt(acts)
    ensures WellBuilt(acts[..|acts| - 1])
  {
    hide StretchesOf;
    PlannerStep(acts);
    var es, before := Planner(acts), Planner(acts[..|acts| - 1]);
    if es != before {
      AddedGrows(es);
      BuiltEarlier(es);
      ChainedPrefix(Added(StretchesOf(before)), Added(StretchesOf(es)));
    }
  }

  lemma BuiltEarlier(es: seq<Event>)
    requires es != [] && BuiltEvents(es)
    ensures BuiltEvents(es[..|es| - 1])
  {
  }

  lemma ChainedPrefix(a: seq<Limits>, b: seq<Limits>)
    requires a <= b && Chained(b)
    ensures Chained(a)
  {
    forall i | 0 < i < |a|
      ensures ContinuesAt(a, i)
    {
      assert ContinuesAt(b, i);
    }
  }

  lemma ReadyIsTimed(ps: seq<Planned>)
    requires AllReady(ps)
    ensures AllTimed(ps)
  {
    forall i | 0 <= i < |ps|
      ensures Timed(ps[i])
    {
      assert Ready(ps[i]);
    }
  }

  lemma HandedTimed(acts: seq<Action>)
    requires acts != [] && WellBuilt(acts)
    ensures AllTimed(Handed(acts))
  {
    RunRests(Planner(acts));
    ReadyIsTimed(LogOf(acts));
  }

  /** What was handed over before, followed by what is handed over now. */
  lemma LogGrows(acts: seq<Action>)
    requires acts != []
    ensures LogOf(acts) == LogOf(acts[..|acts| - 1]) + Handed(acts)
    ensures acts[|acts| - 1].LazyFlush? || acts[|acts| - 1].Flush? || Handed(acts) == []
  {
    hide Cut, Triple, Append;
    PlannerStep(acts);
  }

  // ----- where the motion stands -----

  function EndPos(log: seq<Planned>): T.Coord {
    if log == [] then T.ORIGIN else log[|log| - 1].limits.shape.endPos.XYZ()
  }

  function EndV(sqrt: real -> real, log: seq<Planned>): real {
    if log == [] then 0.0 else sqrt(log[|log| - 1].junction.end)
  }

  /** The motion queue ends where, and as fast as, the last move handed over. */
  ghost predicate Standing(sqrt: real -> real, delay: real, d: Drive, log: seq<Planned>) {
    && Drives(d, delay, d.t, EndPos(log), EndV(sqrt, log))
    && Primed(d, delay, EndV(sqrt, log))
    && (log == [] ==> d.q.moves == [])
  }

  /** A log that can be driven as it stands. */
  predicate Drivable(log: seq<Planned>) {
    Seamless(log) && Itinerary(log) && AllReady(log)
  }

  lemma LogDrivable(acts: seq<Action>)
    requires WellBuilt(acts)
    ensures Drivable(LogOf(acts))
  {
    hide Itinerary, Seamless;
    RunSeamless(Planner(acts));
    RunItinerary(Planner(acts));
  }

  lemma DrivablePrefix(log: seq<Planned>, ps: seq<Planned>)
    requires Drivable(log + ps) && ps != []
    ensures Drivable(log + ps[..|ps| - 1])
  {
    var all := log + ps;
    assert log + ps[..|ps| - 1] == all[..|all| - 1];
    ItineraryPrefix(all);
    assert forall i :: 0 <= i < |all| - 1 ==> all[..|all| - 1][i] == all[i];
  }

  /** The last move of a log starts where the log before it ended, with the same speed. */
  lemma LastContinues(sqrt: real -> real, log: seq<Planned>)
    requires IsSqrt(sqrt) && Drivable(log) && log != []
    ensures var n := |log| - 1; var p := log[n];
            && Ready(p) && sqrt(p.junction.start) == EndV(sqrt, log[..n])
            && (n != 0 ==> p.limits.shape.startPos.XYZ() == EndPos(log[..n]))
            && (!p.limits.shape.kinematic ==> p.junction.start == 0.0 && p.junction.end == 0.0)
  {
    var n := |log| - 1;
    RootOfZero(sqrt);
    if n != 0 {
      assert JoinsNext(log, n - 1) && Continues(log, n);
    }
  }

  lemma {:induction false} RowRolls(sqrt: real -> real, f: Feed, log: seq<Planned>, ps: seq<Planned>)
    requires IsSqrt(sqrt) && Drivable(log + ps) && AllTimed(ps) && 0.0 < f.t
    requires Rolling(f, EndPos(log), EndV(sqrt, log)) && (log == [] ==> f.q.moves == [])
    ensures var r := FeedProfiles(f, RowOf(sqrt, ps));
            && Rolling(r, EndPos(log + ps), EndV(sqrt, log + ps)) && f.t <= r.t
            && (log + ps == [] ==> r.q.moves == [])
    decreases |ps|
  {
    hide *;
    if ps == [] {
      RowEmpty(sqrt, f, log);
    } else {
      var n := |ps| - 1;
      TimedPrefix(ps);
      DrivablePrefix(log, ps);
      RowRolls(sqrt, f, log, ps[..n]);
      RowSnoc(sqrt, f, ps);
      SnocEnds(log, ps);
      NextRolls(sqrt, FeedProfiles(f, RowOf(sqrt, ps[..n])), log + ps);
    }
  }

  lemma RowEmpty(sqrt: real -> real, f: Feed, log: seq<Planned>)
    requires IsSqrt(sqrt)
    ensures FeedProfiles(f, RowOf(sqrt, [])) == f && log + [] == log
  {
  }

  lemma TimedPrefix(ps: seq<Planned>)
    requires AllTimed(ps) && ps != []
    ensures AllTimed(ps[..|ps| - 1]) && Timed(ps[|ps| - 1])
  {
    hide Timed;
  }

  lemma SnocEnds(log: seq<Planned>, ps: seq<Planned>)
    requires ps != []
    ensures var all := log + ps;
            all != [] && all[..|all| - 1] == log + ps[..|ps| - 1] && all[|all| - 1] == ps[|ps| - 1]
  {
  }

  lemma NextRolls(sqrt: real -> real, g: Feed, log: seq<Planned>)
    requires IsSqrt(sqrt) && Drivable(log) && log != [] && Timed(log[|log| - 1]) && 0.0 < g.t
    requires var before := log[..|log| - 1];
             Rolling(g, EndPos(before), EndV(sqrt, before)) && (before == [] ==> g.q.moves == [])
    ensures var r := FeedOne(sqrt, g, log[|log| - 1]);
            Rolling(r, EndPos(log), EndV(sqrt, log)) && g.t <= r.t
  {
    hide Rolling, Drivable, Ready, FeedOne, EndPos, EndV;
    var p, before := log[|log| - 1], log[..|log| - 1];
    LastContinues(sqrt, log);
    AnyStart(g, EndPos(before), p.limits.shape.startPos.XYZ(), EndV(sqrt, before));
    FeedKeepsRolling(sqrt, g, p);
    EndsWith(sqrt, log);
  }

  lemma EndsWith(sqrt: real -> real, log: seq<Planned>)
    requires log != []
    ensures EndPos(log) == log[|log| - 1].limits.shape.endPos.XYZ()
    ensures EndV(sqrt, log) == sqrt(log[|log| - 1].junction.end)
  {
  }

  /** An empty queue can be continued anywhere. */
  lemma AnyStart(f: Feed, pos: T.Coord, start: T.Coord, v: real)
    requires Rolling(f, pos, v) && (f.q.moves == [] || start == pos)
    ensures Rolling(f, start, v)
  {
  }

  lemma RowSnoc(sqrt: real -> real, f: Feed, ps: seq<Planned>)
    requires IsSqrt(sqrt) && AllTimed(ps) && ps != []
    ensures FeedProfiles(f, RowOf(sqrt, ps))
         == FeedOne(sqrt, FeedProfiles(f, RowOf(sqrt, ps[..|ps| - 1])), ps[|ps| - 1])
  {
    assert RowOf(sqrt, ps)[..|ps| - 1] == RowOf(sqrt, ps[..|ps| - 1]);
  }

  // ----- every action -----

  lemma ProcessStands(sqrt: real -> real, delay: real, d: Drive, now: Now, log: seq<Planned>, handed: seq<Planned>)
    requires IsSqrt(sqrt) && Standing(sqrt, delay, d, log) && Drivable(log + handed) && AllTimed(handed)
    requires handed != [] && (d.mode == Drip ==> AtRest(log + handed))
    ensures var p := ProcessRow(d, delay, now, RowOf(sqrt, handed));
            Standing(sqrt, delay, p, log + handed) && d.t <= p.t
  {
    hide Rolling, Drivable, Resynced, ProcessRow, FeedProfiles, Drives, InStep;
    ResyncDrives(d, delay, now.est, EndPos(log), EndV(sqrt, log));
    var r := Resynced(d, delay, now.est);
    DrivesRolls(r, delay, EndPos(log), EndV(sqrt, log));
    RowRolls(sqrt, Feed(r.q, r.t), log, handed);
    ProcessDrives(d, delay, now, RowOf(sqrt, handed), EndPos(log), EndV(sqrt, log),
                  EndPos(log + handed), EndV(sqrt, log + handed));
    RootOfZero(sqrt);
    ResyncLater(d, delay, now.est);
  }

  lemma DrivesRolls(d: Drive, delay: real, pos: T.Coord, v: real)
    requires Drives(d, delay, d.t, pos, v)
    ensures Rolling(Feed(d.q, d.t), pos, v)
  {
  }

  lemma ResyncLater(d: Drive, delay: real, est: real)
    ensures d.t <= Resynced(d, delay, est).t
  {
  }

  lemma ModeStands(sqrt: real -> real, delay: real, d: Drive, log: seq<Planned>, mode: Queuing)
    requires Standing(sqrt, delay, d, log) && EndV(sqrt, log) == 0.0 && mode != Main
    ensures Standing(sqrt, delay, d.(mode := mode), log)
  {
    hide Rolling;
  }

  lemma SettleStands(sqrt: real -> real, delay: real, d: Drive, log: seq<Planned>, est: real)
    requires Standing(sqrt, delay, d, log) && d.mode != Main
    ensures Standing(sqrt, delay, CalcPrintTime(d, delay, est), log) && d.t <= CalcPrintTime(d, delay, est).t
  {
    hide Rolling, CalcPrintTime;
    CalcDrives(d, delay, est, EndPos(log));
    CalcIgnoresMode(d, delay, est, d.mode);
  }

  lemma WaitStands(sqrt: real -> real, delay: real, d: Drive, log: seq<Planned>, seconds: real, clear: real)
    requires Standing(sqrt, delay, d, log) && EndV(sqrt, log) == 0.0
    ensures var r := AdvanceMove(d, delay, d.t + Max(0.0, seconds), clear);
            Standing(sqrt, delay, r, log) && d.t <= r.t
  {
    hide Rolling, AdvanceMove, Drives, InStep;
    var next := d.t + Max(0.0, seconds);
    WaitDrives(d, delay, d.t, EndPos(log), next);
    AdvanceMoveDrives(d, delay, next, clear, next, EndPos(log), 0.0);
  }

  lemma BackgroundStands(sqrt: real -> real, delay: real, d: Drive, log: seq<Planned>, flushTime: real, clear: real)
    requires Standing(sqrt, delay, d, log) && d.mode != Main
    ensures Standing(sqrt, delay, AdvanceFlush(d, delay, flushTime, clear), log)
  {
    hide Rolling, AdvanceFlush, Drives, InStep;
    AdvanceFlushDrives(d, delay, flushTime, clear, d.t, EndPos(log), 0.0);
    SameTime(d, delay, flushTime, clear);
  }

  lemma HeldStands(sqrt: real -> real, delay: real, d: Drive, log: seq<Planned>)
    requires Standing(sqrt, delay, d, log)
    ensures Standing(sqrt, delay, RestartHeld(d), log)
  {
    hide Rolling;
  }

  /** With nothing queued the moves handed over end at rest. */
  lemma EmptyAtRest(es: seq<Event>)
    requires ValidEvents(es) && Run(es).queue == []
    ensures AtRest(Run(es).log)
  {
    hide Run;
    RunStops(es);
    assert FullFlush(Run(es)).log == Run(es).log + PlanOf([]) == Run(es).log;
  }

  lemma FlushedAtRest(acts: seq<Action>)
    requires WellBuilt(acts) && acts != [] && acts[|acts| - 1].Flush?
    ensures AtRest(LogOf(acts))
  {
    PlannerStep(acts);
    EmptyAtRest(Planner(acts));
  }

  lemma RestingV(sqrt: real -> real, log: seq<Planned>)
    requires IsSqrt(sqrt) && AtRest(log)
    ensures EndV(sqrt, log) == 0.0
  {
    RootOfZero(sqrt);
  }

  lemma ActStands(sqrt: real -> real, delay: real, d: Drive, acts: seq<Action>)
    requires IsSqrt(sqrt) && acts != [] && WellBuilt(acts) && AllTimed(Handed(acts))
    requires var before := acts[..|acts| - 1];
             && Standing(sqrt, delay, d, LogOf(before))
             && Possible(Run(Planner(before)).queue, d, acts[|acts| - 1])
             && (Run(Planner(before)).queue == [] ==> AtRest(LogOf(before)))
    ensures var r := Act(sqrt, delay, d, acts[|acts| - 1], Handed(acts));
            Standing(sqrt, delay, r, LogOf(acts)) && d.t <= r.t
  {
    hide Standing, Drivable, LogOf, WellBuilt, Handed, ProcessRow, CalcPrintTime, AdvanceMove, AdvanceFlush;
    var log, handed := LogOf(acts[..|acts| - 1]), Handed(acts);
    LogGrows(acts);
    LogDrivable(acts);
    assert log + [] == log;
    if AtRest(log) {
      RestingV(sqrt, log);
    }
    match acts[|acts| - 1]
    case AddMove(_, _) =>
    case LazyFlush(now) =>
      if handed != [] {
        ProcessStands(sqrt, delay, d, now, log, handed);
      }
    case Flush(now) =>
      FlushedAtRest(acts);
      if handed != [] {
        ProcessStands(sqrt, delay, d, now, log, handed);
      }
    case ToNeedPrime => ModeStands(sqrt, delay, d, log, NeedPrime);
    case Settle(est) => SettleStands(sqrt, delay, d, log, est);
    case Prime =>
      if d.mode != Main {
        SpecialRests(sqrt, delay, d, log);
        ModeStands(sqrt, delay, d, log, Priming);
      }
    case Wait(seconds, clear) => WaitStands(sqrt, delay, d, log, seconds, clear);
    case ToDrip => ModeStands(sqrt, delay, d, log, Drip);
    case Background(flushTime, clear) =>
      BackgroundStands(sqrt, delay, d, log, flushTime, clear);
      SameTime(d, delay, flushTime, clear);
    case HoldRestart => HeldStands(sqrt, delay, d, log);
  }

  lemma SpecialRests(sqrt: real -> real, delay: real, d: Drive, log: seq<Planned>)
    requires Standing(sqrt, delay, d, log) && d.mode != Main
    ensures EndV(sqrt, log) == 0.0
  {
  }

  // ----- whole runs -----

  lemma IdleStands(sqrt: real -> real, delay: real)
    requires 0.0 < delay
    ensures Standing(sqrt, delay, IDLE, [])
  {
  }

  lemma {:induction false} RunStands(sqrt: real -> real, delay: real, acts: seq<Action>)
    requires IsSqrt(sqrt) && 0.0 < delay && WellBuilt(acts) && IsRun(sqrt, delay, acts)
    ensures Standing(sqrt, delay, DriveOf(sqrt, delay, acts), LogOf(acts))
    ensures acts != [] ==> WellBuilt(acts[..|acts| - 1])
                           && DriveOf(sqrt, delay, acts[..|acts| - 1]).t <= DriveOf(sqrt, delay, acts).t
  {
    hide Standing, WellBuilt, Handed, Act, Possible;
    if acts == [] {
      IdleStands(sqrt, delay);
      assert LogOf(acts) == [];
    } else {
      var n := |acts| - 1;
      Earlier(acts);
      RunStands(sqrt, delay, acts[..n]);
      HandedTimed(acts);
      if Run(Planner(acts[..n])).queue == [] {
        WellBuiltValid(acts[..n]);
        EmptyAtRest(Planner(acts[..n]));
      }
      ActStands(sqrt, delay, DriveOf(sqrt, delay, acts[..n]), acts);
    }
  }

  lemma WellBuiltValid(acts: seq<Action>)
    requires WellBuilt(acts)
    ensures ValidEvents(Planner(acts))
  {
  }

  /** The whole motion path, for every run of the toolhead: the motion queue never has a hole, and no two consecutive
    * entries differ in place or speed where they meet; it ends where, and as fast as, the last move handed over;
    * outside the main state, where the print time may jump, that is at rest; in the main state what is flushed stays
    * the flush delay behind the print time. */
  lemma RunFlows(sqrt: real -> real, delay: real, acts: seq<Action>)
    requires IsSqrt(sqrt) && 0.0 < delay && WellBuilt(acts) && IsRun(sqrt, delay, acts)
    ensures var d := DriveOf(sqrt, delay, acts); var log := LogOf(acts);
            && T.Sound(d.q) && Flowing(d.q.moves)
            && (d.q.moves != [] ==>
                var m := T.EndOf(T.Last(d.q.moves));
                log != [] && m.p == EndPos(log) && m.t <= d.t && (m.t < d.t ==> EndV(sqrt, log) == 0.0)
                && (m.t == d.t ==> m.v == EndV(sqrt, log)))
            && (d.mode != Main ==> EndV(sqrt, log) == 0.0)
            && (d.mode == Main ==> d.lastFlush + delay <= d.t)
  {
    hide DriveOf, IsRun, WellBuilt, T.Sound, Flowing;
    RunStands(sqrt, delay, acts);
  }

  /** The print time never goes back. */
  lemma PrintTimeGrows(sqrt: real -> real, delay: real, acts: seq<Action>)
    requires IsSqrt(sqrt) && 0.0 < delay && WellBuilt(acts) && IsRun(sqrt, delay, acts) && acts != []
    ensures WellBuilt(acts[..|acts| - 1])
    ensures DriveOf(sqrt, delay, acts[..|acts| - 1]).t <= DriveOf(sqrt, delay, acts).t
  {
    hide *;
    RunStands(sqrt, delay, acts);
  }
}
