/** The calls of the step generators over whole runs of the toolhead. */
module GenerationRuns {
  import opened RealMath
  import opened JunctionPlan
  import opened MoveProfile
  import opened LookAheadRuns
  import opened MotionPipeline
  import opened PrintTimes
  import opened MotionRuns
  import opened FlushDelay
  import opened Options
  import opened RelativeWalk
  import T = TrapTimeline

  /** The calls of the step generators fit, and the queue goes on from where they left it to where the log ends. */
  ghost predicate Tended(d: Drive, delay: real, log: seq<Planned>) {
    Generating(d, delay, EndPos(log)) && (d.mode == Main ==> Behind(d, delay)) && (log == [] ==> Idle(d))
  }

  lemma IdleTended(delay: real)
    requires 0.0 < delay
    ensures Tended(IDLE, delay, [])
  {
    assert GrownBy([], -delay, delay, [], 0);
  }

  // Feeding planned moves.

  lemma OneGrows(sqrt: real -> real, f: Feed, p: Planned, was: seq<T.Entry>, free: real, bound: real, pos: T.Coord)
    requires IsSqrt(sqrt) && Ready(p) && 0.0 < f.t && bound <= f.t && Grown(was, free, bound, f.q.moves)
    requires Rejoins(was, free, f.q.moves, pos) && (was != [] ==> p.limits.shape.startPos.XYZ() == pos)
    ensures var ms := FeedOne(sqrt, f, p).q.moves;
            Grown(was, free, bound, ms) && Rejoins(was, free, ms, p.limits.shape.endPos.XYZ())
  {
    hide Grown, T.Append, T.Drivable, T.Expired;
    var s := p.limits.shape;
    if s.kinematic {
      ProfileCovers(sqrt, s.moveD, s.accel, p.junction);
      Landing(ProfileOf(sqrt, p), s, f.t);
      AppendedIsGrown(was, free, bound, f.q, TrapezoidOf(s, ProfileOf(sqrt, p), f.t));
      AppendedRejoins(was, free, f.q, TrapezoidOf(s, ProfileOf(sqrt, p), f.t), s.endPos.XYZ());
    }
  }

  /** A list that begins with a filler and this trapezoid starts at the trapezoid's place. */
  lemma AppendedRejoins(was: seq<T.Entry>, free: real, q: T.Timeline, a: T.Trapezoid, to: T.Coord)
    requires Rejoins(was, free, q.moves, a.startPos) && T.Drivable(a)
    ensures Rejoins(was, free, T.Append(q, a).moves, to)
  {
    hide T.Leads, T.Pieces, T.Expired, T.AddAll;
    T.AppendLeads(a);
    var from := T.Moment(a.printTime, a.startPos, a.startV);
    var end := T.Moment(a.printTime + T.Duration(a), T.Along(a.startPos, a.axesR, T.Length(a)), T.EndV(a));
    T.AddAllMoves(q, T.Pieces(a), from, end);
    StartsAt(T.Pieces(a), from, end);
  }

  lemma StartsAt(ms: seq<T.Entry>, from: T.Moment, to: T.Moment)
    requires ms != [] && T.Leads(ms, from, to)
    ensures ms[0].startPos == from.p && ms[0].printTime == from.t
  {
  }

  lemma {:induction false} RowGrows(sqrt: real -> real, f: Feed, log: seq<Planned>, ps: seq<Planned>,
                                    was: seq<T.Entry>, free: real, bound: real)
    requires IsSqrt(sqrt) && MotionRuns.Drivable(log + ps) && AllTimed(ps) && 0.0 < f.t
    requires Rolling(f, EndPos(log), EndV(sqrt, log)) && (log == [] ==> f.q.moves == [] && was == [])
    requires bound <= f.t && Grown(was, free, bound, f.q.moves) && Rejoins(was, free, f.q.moves, EndPos(log))
    ensures var ms := FeedProfiles(f, RowOf(sqrt, ps)).q.moves;
            Grown(was, free, bound, ms) && Rejoins(was, free, ms, EndPos(log + ps))
    decreases |ps|
  {
    hide *;
    if ps == [] {
      RowEmpty(sqrt, f, log);
    } else {
      var n := |ps| - 1;
      TimedPrefix(ps);
      DrivablePrefix(log, ps);
      RowGrows(sqrt, f, log, ps[..n], was, free, bound);
      RowRolls(sqrt, f, log, ps[..n]);
      RowSnoc(sqrt, f, ps);
      SnocEnds(log, ps);
      LastContinues(sqrt, log + ps);
      EndsWith(sqrt, log + ps);
      OneGrows(sqrt, FeedProfiles(f, RowOf(sqrt, ps[..n])), ps[n], was, free, bound, EndPos(log + ps[..n]));
    }
  }

  lemma ProcessTended(sqrt: real -> real, delay: real, d: Drive, now: Now, log: seq<Planned>, handed: seq<Planned>)
    requires IsSqrt(sqrt) && Standing(sqrt, delay, d, log) && MotionRuns.Drivable(log + handed) && AllTimed(handed)
    requires Tended(d, delay, log) && handed != []
    ensures Tended(ProcessRow(d, delay, now, RowOf(sqrt, handed)), delay, log + handed)
  {
    hide Rolling, MotionRuns.Drivable, Resynced, ProcessRow, FeedProfiles, Grown, Rejoins, EndsAt, Drives, Generating,
      Behind, Flowing, T.Sound, EndPos, EndV;
    ResyncDrives(d, delay, now.est, EndPos(log), EndV(sqrt, log));
    var r := Resynced(d, delay, now.est);
    SameGenerations(d, delay, now.est);
    DrivesRolls(r, delay, EndPos(log), EndV(sqrt, log));
    StandingParts(sqrt, delay, d, log);
    ResyncedIsBehind(d, delay, now.est, EndPos(log));
    TendedParts(r, delay, EndPos(log));
    var f := Feed(r.q, r.t);
    RowRolls(sqrt, f, log, handed);
    RowGrows(sqrt, f, log, handed, MovesBefore(r.gens), Generated(r.gens) - delay, Generated(r.gens) + delay);
    RollingIsSound(FeedProfiles(f, RowOf(sqrt, handed)), EndPos(log + handed), EndV(sqrt, log + handed));
    ProcessGenerates(d, delay, now, RowOf(sqrt, handed), EndPos(log), EndPos(log + handed));
  }

  lemma SameGenerations(d: Drive, delay: real, est: real)
    ensures Resynced(d, delay, est).gens == d.gens && Resynced(d, delay, est).q == d.q
  {
  }

  lemma StandingParts(sqrt: real -> real, delay: real, d: Drive, log: seq<Planned>)
    requires Standing(sqrt, delay, d, log)
    ensures Ordered(d) && 0.0 < delay
  {
  }

  /** What Generating says about the queue. */
  lemma TendedParts(d: Drive, delay: real, pos: T.Coord)
    requires Generating(d, delay, pos)
    ensures Extends(d.gens, delay, d.q.moves, pos) && T.Sound(d.q)
    ensures Behind(d, delay) ==> Generated(d.gens) + delay <= d.t
  {
  }

  lemma RollingIsSound(f: Feed, pos: T.Coord, v: real)
    requires Rolling(f, pos, v)
    ensures T.Sound(f.q) && Flowing(f.q.moves) && EndsAt(f.q.moves, pos)
  {
  }

  // Every action.

  lemma ModeTended(d: Drive, delay: real, log: seq<Planned>, mode: Queuing)
    requires Tended(d, delay, log) && mode != Main
    ensures Tended(d.(mode := mode), delay, log)
  {
    hide Generating, Behind;
    LaterGenerates(d, delay, d.t, mode, d.minRestart, EndPos(log));
    assert d.(t := d.t, mode := mode, minRestart := d.minRestart) == d.(mode := mode);
  }

  lemma SettleTended(d: Drive, delay: real, log: seq<Planned>, est: real)
    requires Tended(d, delay, log) && Ordered(d)
    ensures Tended(CalcPrintTime(d, delay, est), delay, log)
  {
    hide Generating, Behind;
    SyncedIsBehind(d, delay, est, EndPos(log));
  }

  lemma WaitTended(d: Drive, delay: real, log: seq<Planned>, seconds: real, clear: real)
    requires Tended(d, delay, log)
    ensures Tended(AdvanceMove(d, delay, d.t + Max(0.0, seconds), clear), delay, log)
  {
    hide Generating, Behind, AdvanceMove, Idle;
    AdvanceMoveGenerates(d, delay, d.t + Max(0.0, seconds), clear, EndPos(log));
    TendedParts(d, delay, EndPos(log));
    if log == [] {
      AdvanceMoveIdle(d, delay, d.t + Max(0.0, seconds), clear);
    }
  }

  lemma BackgroundTended(d: Drive, delay: real, log: seq<Planned>, flushTime: real, clear: real)
    requires Tended(d, delay, log) && d.mode != Main
    ensures Tended(AdvanceFlush(d, delay, flushTime, clear), delay, log)
  {
    hide Generating, Behind, AdvanceFlush, Idle;
    FlushGenerates(d, delay, flushTime, clear, EndPos(log));
    SameTime(d, delay, flushTime, clear);
    TendedParts(d, delay, EndPos(log));
    if log == [] {
      FlushIdle(d, delay, flushTime, clear);
    }
  }

  lemma HeldTended(d: Drive, delay: real, log: seq<Planned>)
    requires Tended(d, delay, log)
    ensures Tended(RestartHeld(d), delay, log)
  {
    hide Generating, Behind;
    LaterGenerates(d, delay, d.t, d.mode, Max(d.minRestart, d.t), EndPos(log));
    assert d.(t := d.t, mode := d.mode, minRestart := Max(d.minRestart, d.t)) == RestartHeld(d);
  }

  lemma ActTended(sqrt: real -> real, delay: real, d: Drive, acts: seq<Action>)
    requires IsSqrt(sqrt) && acts != [] && WellBuilt(acts) && AllTimed(Handed(acts))
    requires var before := acts[..|acts| - 1];
             && Standing(sqrt, delay, d, LogOf(before)) && Tended(d, delay, LogOf(before))
             && Possible(Run(Planner(before)).queue, d, acts[|acts| - 1])
    ensures Tended(Act(sqrt, delay, d, acts[|acts| - 1], Handed(acts)), delay, LogOf(acts))
  {
    hide Tended, Standing, MotionRuns.Drivable, LogOf, WellBuilt, Handed, ProcessRow, CalcPrintTime, AdvanceMove,
      AdvanceFlush;
    var log, handed := LogOf(acts[..|acts| - 1]), Handed(acts);
    LogGrows(acts);
    LogDrivable(acts);
    assert log + [] == log;
    StandingParts(sqrt, delay, d, log);
    match acts[|acts| - 1]
    case AddMove(_, _) =>
    case LazyFlush(now) =>
      if handed != [] {
        ProcessTended(sqrt, delay, d, now, log, handed);
      }
    case Flush(now) =>
      if handed != [] {
        ProcessTended(sqrt, delay, d, now, log, handed);
      }
    case ToNeedPrime => ModeTended(d, delay, log, NeedPrime);
    case Settle(est) => SettleTended(d, delay, log, est);
    case Prime =>
      if d.mode != Main {
        ModeTended(d, delay, log, Priming);
      }
    case Wait(seconds, clear) => WaitTended(d, delay, log, seconds, clear);
    case ToDrip => ModeTended(d, delay, log, Drip);
    case Background(flushTime, clear) => BackgroundTended(d, delay, log, flushTime, clear);
    case HoldRestart => HeldTended(d, delay, log);
  }

  lemma {:induction false} RunTended(sqrt: real -> real, delay: real, acts: seq<Action>)
    requires IsSqrt(sqrt) && 0.0 < delay && WellBuilt(acts) && IsRun(sqrt, delay, acts)
    ensures Tended(DriveOf(sqrt, delay, acts), delay, LogOf(acts))
  {
    hide Tended, Standing, WellBuilt, Handed, Act, Possible;
    if acts == [] {
      IdleTended(delay);
      assert LogOf(acts) == [];
    } else {
      var n := |acts| - 1;
      Earlier(acts);
      RunTended(sqrt, delay, acts[..n]);
      RunStands(sqrt, delay, acts[..n]);
      HandedTimed(acts);
      ActTended(sqrt, delay, DriveOf(sqrt, delay, acts[..n]), acts);
    }
  }

  /** Over every run of the toolhead: the step generators are called for one stretch of time after the other, each time
    * with a queue without holes; and nothing that is queued after some of them were called starts within the flush
    * delay of what they generated. */
  lemma LaterIsLater(sqrt: real -> real, delay: real, acts: seq<Action>, n: nat, k: nat, m: T.Entry)
    requires IsSqrt(sqrt) && 0.0 < delay && WellBuilt(acts) && IsRun(sqrt, delay, acts)
    requires var gens := DriveOf(sqrt, delay, acts).gens; n < k < |gens| && m in MovesOf(gens[k]) && !Quiet(m)
    ensures var gens := DriveOf(sqrt, delay, acts).gens;
            && (m in MovesOf(gens[n]) || gens[n].to + delay <= m.printTime)
            && gens[n].from <= gens[n].to <= gens[k].from <= gens[k].to
  {
    hide DriveOf, IsRun, WellBuilt, Grown, Rejoins, Connected, Track, MovesOf, Quiet, Idle, LogOf, EndsAt;
    RunTended(sqrt, delay, acts);
    var gens := DriveOf(sqrt, delay, acts).gens;
    LaterMovesStartLater(gens, delay, n, k, m);
    assert Fits(gens, n, delay) && Fits(gens, k, delay);
    assert gens[..k][k - 1] == gens[k - 1];
    GenerationsGrow(gens, delay, n, k - 1);
  }

  /** Over every run of the toolhead, steps that were generated stay right: whatever is queued before the step
    * generators are called again, at every time within the flush delay of where they stopped, and that is as far as a
    * shaper looks, they find the position that they found before. */
  lemma StepsStayRight(sqrt: real -> real, delay: real, acts: seq<Action>, n: nat, x: real,
                       i: nat, u: real, j: nat, v: real)
    requires IsSqrt(sqrt) && 0.0 < delay && WellBuilt(acts) && IsRun(sqrt, delay, acts)
    requires var gens := DriveOf(sqrt, delay, acts).gens;
             && n + 1 < |gens| && gens[n].to - delay <= x <= gens[n].to + delay && x < T.NEVER_TIME
             && HoldsAt(gens[n].es, i, u, x) && HoldsAt(gens[n + 1].es, j, v, x)
    ensures var gens := DriveOf(sqrt, delay, acts).gens;
            i < |gens[n].es| && j < |gens[n + 1].es| && gens[n].es[i].At(u) == gens[n + 1].es[j].At(v)
  {
    hide DriveOf, IsRun, WellBuilt, Grown, Rejoins, Connected, Track, Quiet, Idle, LogOf, EndsAt;
    RunTended(sqrt, delay, acts);
    var gens := DriveOf(sqrt, delay, acts).gens;
    assert Fits(gens, n, delay) && Fits(gens, n + 1, delay);
    assert gens[..n + 1][n] == gens[n];
    PositionStays(gens[n], gens[n + 1], delay, x, i, u, j, v);
  }

  // A run whose motion queue begins at time 0.

  lemma {:induction false} FirstStays(d: Drive, delay: real, flush: real, want: real, clear: real)
    ensures d.gens <= AdvanceTo(d, delay, flush, want, clear).gens
    ensures AdvanceTo(d, delay, flush, want, clear).gens != []
    ensures d.gens == [] ==> AdvanceTo(d, delay, flush, want, clear).gens[0]
                             == AdvanceFlush(d, delay, Min(flush + MOVE_BATCH_TIME, want), clear).gens[0]
    decreases 2.0 * (want - flush)
  {
    hide T.Finalize, T.CheckSentinels, StepGenTime;
    var f := Min(flush + MOVE_BATCH_TIME, want);
    if f < want {
      FirstStays(AdvanceFlush(d, delay, f, clear), delay, f, want, clear);
    }
  }

  /** The first call of the step generators. */
  lemma FirstGeneration(d: Drive, delay: real, next: real, clear: real)
    requires 0.0 < delay < d.t && d.gens == [] && d.lastFlush == 0.0 && d.q.moves != []
    ensures var gens := AdvanceMove(d, delay, next, clear).gens;
            gens != [] && gens[0].es != [] && gens[0].es[0] == d.q.moves[0] && gens[0].from == 0.0 < gens[0].to
  {
    hide AdvanceTo, T.Finalize;
    var lag := delay + STEPCOMPRESS_FLUSH_TIME;
    var flush := Max(d.lastFlush, d.t - lag);
    var moved := d.(t := Max(d.t, next));
    FirstStays(moved, delay, flush, Max(flush, moved.t - lag), clear);
  }

  /** A first move within a second of time 0 is preceded by a filler from time 0. */
  lemma FirstFiller(a: T.Trapezoid)
    requires T.Drivable(a) && 0.0 < a.printTime <= T.MAX_NULL_MOVE
    ensures var ms := T.Append(T.EMPTY, a).moves; ms != [] && ms[0].printTime == 0.0
  {
    hide *;
    T.AppendLeads(a);
    AppendIs(a);
    FirstOfAll(T.Pieces(a), T.Moment(a.printTime, a.startPos, a.startV),
               T.Moment(a.printTime + T.Duration(a), T.Along(a.startPos, a.axesR, T.Length(a)), T.EndV(a)));
  }

  lemma AppendIs(a: T.Trapezoid)
    ensures T.Append(T.EMPTY, a) == T.AddAll(T.EMPTY, T.Pieces(a)) && T.MAX_NULL_MOVE == 1.0
  {
  }

  lemma FirstOfAll(ms: seq<T.Entry>, from: T.Moment, to: T.Moment)
    requires ms != [] && T.Leads(ms, from, to) && 0.0 < from.t <= 1.0
    ensures var r := T.AddAll(T.EMPTY, ms).moves; r != [] && r[0].printTime == 0.0
  {
    hide T.AddAll, T.Meets;
    T.AddAllMoves(T.EMPTY, ms, from, to);
    assert ms[0].printTime == from.t;
    assert T.Filled([], ms[0]) == [T.Filler(T.HEAD, ms[0])];
  }

  /** One move, and a flush that comes when the estimated print time is still close to 0. */
  function EarlyRun(m: Limits, now: Now): seq<Action> {
    [AddMove(m, None), Flush(now)]
  }

  lemma EarlyHanded(m: Limits, now: Now)
    ensures Handed(EarlyRun(m, now)) == PlanOf([m]) && LogOf(EarlyRun(m, now)[..1]) == []
    ensures Run(Planner(EarlyRun(m, now)[..1])).queue == [m]
  {
    var acts := EarlyRun(m, now);
    assert acts[..1] == [AddMove(m, None)] && acts[..1][..0] == [];
    assert Planner(acts[..1]) == [Add(m, None)];
    assert Planner(acts) == [Add(m, None), Full];
    assert [Add(m, None), Full][..1] == [Add(m, None)] && [Add(m, None)][..0] == [];
    assert Run([Add(m, None)]) == LookAhead([m], []);
    assert [] + PlanOf([m]) == PlanOf([m]);
  }

  /** Its first call of the step generators sees a motion queue that begins at time 0. */
  lemma EarlyRunBegins(sqrt: real -> real, delay: real, m: Limits, now: Now)
    requires IsSqrt(sqrt) && 0.0 < delay && 0.0 <= now.est && WellBuilt(EarlyRun(m, now)) && m.shape.kinematic
    requires now.est + BUFFER_TIME_START <= T.MAX_NULL_MOVE && now.est + MIN_KIN_TIME + delay <= T.MAX_NULL_MOVE
    ensures IsRun(sqrt, delay, EarlyRun(m, now))
    ensures var gens := DriveOf(sqrt, delay, EarlyRun(m, now)).gens;
            gens != [] && gens[0].es != [] && gens[0].es[0].printTime == 0.0 == gens[0].from < gens[0].to
  {
    hide WellBuilt, AdvanceMove, T.Append, FeedProfiles, Handed, LogOf;
    var acts := EarlyRun(m, now);
    EarlyHanded(m, now);
    HandedTimed(acts);
    var first := acts[..1];
    assert first == [AddMove(m, None)] && first[..0] == [];
    Earlier(acts);
    Earlier(first);
    assert DriveOf(sqrt, delay, first) == IDLE;
    assert first[..|first| - 1] == [] && IsRun(sqrt, delay, first);
    assert acts[..|acts| - 1] == first;
    var row := RowOf(sqrt, Handed(acts));
    var d := Resynced(IDLE, delay, now.est);
    EarlyFed(sqrt, acts, m, d.t);
    var f := FeedProfiles(Feed(d.q, d.t), row);
    FirstGeneration(d.(q := f.q), delay, f.t, now.clear);
    assert |acts| - 1 == 1 && acts[1] == Flush(now) && Handed(acts) != [];
    assert DriveOf(sqrt, delay, acts) == ProcessRow(IDLE, delay, now, row);
  }

  lemma EarlyFed(sqrt: real -> real, acts: seq<Action>, m: Limits, t: real)
    requires IsSqrt(sqrt) && acts != [] && WellBuilt(acts) && Handed(acts) == PlanOf([m]) && AllTimed(Handed(acts))
    requires LogOf(acts[..|acts| - 1]) == [] && m.shape.kinematic && 0.0 < t <= T.MAX_NULL_MOVE
    ensures var ms := FeedProfiles(Feed(T.EMPTY, t), RowOf(sqrt, Handed(acts))).q.moves;
            ms != [] && ms[0].printTime == 0.0
  {
    hide WellBuilt, T.Append, T.Drivable, Triple, Handed, FeedOne, LogOf, Seamless, Itinerary, Timed, Ready,
      FeedProfiles;
    LogGrows(acts);
    LogDrivable(acts);
    var p := Handed(acts)[0];
    assert LogOf(acts)[0] == p && Ready(p);
    OneFed(sqrt, p, t);
    assert Handed(acts) == [p];
    RowSnoc(sqrt, Feed(T.EMPTY, t), Handed(acts));
    assert Handed(acts)[..0] == [];
    RowEmpty(sqrt, Feed(T.EMPTY, t), []);
  }

  lemma OneFed(sqrt: real -> real, p: Planned, t: real)
    requires IsSqrt(sqrt) && Ready(p) && p.limits.shape.kinematic && 0.0 < t <= T.MAX_NULL_MOVE
    ensures Timed(p)
    ensures var ms := FeedOne(sqrt, Feed(T.EMPTY, t), p).q.moves; ms != [] && ms[0].printTime == 0.0
  {
    hide T.Append, T.Drivable;
    var s := p.limits.shape;
    ProfileCovers(sqrt, s.moveD, s.accel, p.junction);
    Landing(ProfileOf(sqrt, p), s, t);
    FirstFiller(TrapezoidOf(s, ProfileOf(sqrt, p), t));
  }
}
