/** What synchronising the print time is for: whatever is queued after a pause starts late enough for the controllers;
  * and how far the flushes that follow the print time get. */
module SyncTimes {
  import opened RealMath
  import MoveShape
  import opened MoveProfile
  import opened LookAheadRuns
  import opened MotionPipeline
  import opened PrintTimes
  import opened MotionRuns
  import opened FlushDelay
  import opened GenerationRuns
  import T = TrapTimeline

  /** The synchronised print time is the earliest one that does not go back, leaves the controllers their start-up
    * buffer, and keeps the flush delay behind it both after the estimated time and after all that was flushed; nothing
    * else changes. */
  lemma SyncedIsEarliest(d: Drive, delay: real, est: real, x: real)
    ensures var r := CalcPrintTime(d, delay, est);
            && r == d.(t := r.t)
            && (r.t <= x <==> d.t <= x && est + 0.250 <= x && est + 0.100 + delay <= x && d.minRestart + delay <= x)
  {
  }

  // What a call of _process_moves queues.

  /** Of these entries, those that move were there before or start at `bound` or later. */
  predicate OldOrLate(ms: seq<T.Entry>, was: seq<T.Entry>, bound: real) {
    forall i :: 0 <= i < |ms| ==> ms[i] in was || Quiet(ms[i]) || bound <= ms[i].printTime
  }

  /** The same for the queue and for all that the step generators were called for since. */
  predicate AllOldOrLate(d: Drive, n: nat, was: seq<T.Entry>, bound: real) {
    && T.Sound(d.q) && OldOrLate(d.q.moves, was, bound) && n <= |d.gens|
    && forall k :: n <= k < |d.gens| ==> OldOrLate(MovesOf(d.gens[k]), was, bound)
  }

  lemma FlushKeepsLate(d: Drive, delay: real, f: real, clear: real, n: nat, was: seq<T.Entry>, bound: real)
    requires AllOldOrLate(d, n, was, bound)
    ensures AllOldOrLate(AdvanceFlush(d, delay, f, clear), n, was, bound)
  {
    hide T.Sound, AdvanceFlush, StepGenTime, T.CheckSentinels, Quiet;
    FlushParts(d, delay, f, clear);
    CallMoves(d, StepGenTime(d, delay, Max(f, d.lastFlush)));
  }

  lemma CallMoves(d: Drive, sg: real)
    requires T.Sound(d.q)
    ensures MovesOf(CallFor(d, sg)) == d.q.moves
  {
    hide T.Sound;
    TailIsQuiet(d.q);
  }

  lemma {:induction false} AdvanceToKeepsLate(d: Drive, delay: real, flush: real, want: real, clear: real,
                                              n: nat, was: seq<T.Entry>, bound: real)
    requires AllOldOrLate(d, n, was, bound)
    ensures AllOldOrLate(AdvanceTo(d, delay, flush, want, clear), n, was, bound)
    decreases 2.0 * (want - flush)
  {
    hide AllOldOrLate, AdvanceFlush;
    var f := Min(flush + MOVE_BATCH_TIME, want);
    FlushKeepsLate(d, delay, f, clear, n, was, bound);
    if f < want {
      AdvanceToKeepsLate(AdvanceFlush(d, delay, f, clear), delay, f, want, clear, n, was, bound);
    }
  }

  lemma AdvanceMoveKeepsLate(d: Drive, delay: real, next: real, clear: real, n: nat, was: seq<T.Entry>, bound: real)
    requires AllOldOrLate(d, n, was, bound)
    ensures AllOldOrLate(AdvanceMove(d, delay, next, clear), n, was, bound)
  {
    hide T.Sound, OldOrLate, AdvanceTo;
    var lag := delay + STEPCOMPRESS_FLUSH_TIME;
    var flush := Max(d.lastFlush, d.t - lag);
    var moved := d.(t := Max(d.t, next));
    AdvanceToKeepsLate(moved, delay, flush, Max(flush, moved.t - lag), clear, n, was, bound);
  }

  lemma {:induction false} DripKeepsLate(d: Drive, delay: real, next: real, clear: real,
                                         n: nat, was: seq<T.Entry>, bound: real)
    requires AllOldOrLate(d, n, was, bound)
    ensures AllOldOrLate(DripTo(d, delay, next, clear), n, was, bound)
    decreases if d.t < next then 1.0 + 20.0 * (next - d.t) else 0.0
  {
    hide AllOldOrLate, AdvanceMove;
    if d.t < next {
      var npt := Min(d.t + DRIP_SEGMENT_TIME, next);
      AdvanceMoveKeepsLate(d, delay, npt, clear, n, was, bound);
      DripKeepsLate(AdvanceMove(d, delay, npt, clear), delay, next, clear, n, was, bound);
    }
  }

  lemma NothingExpired(q: T.Timeline)
    requires T.Sound(q)
    ensures T.Expired(q.moves, -1.0) == 0
  {
    if q.moves != [] {
      assert 0.0 <= q.moves[0].printTime && 0.0 < q.moves[0].moveT;
    }
  }

  lemma FedIsLate(sqrt: real -> real, f: Feed, log: seq<Planned>, ps: seq<Planned>)
    requires IsSqrt(sqrt) && MotionRuns.Drivable(log + ps) && AllTimed(ps) && 0.0 < f.t
    requires Rolling(f, EndPos(log), EndV(sqrt, log)) && (log == [] ==> f.q.moves == [])
    ensures OldOrLate(FeedProfiles(f, RowOf(sqrt, ps)).q.moves, f.q.moves, f.t)
  {
    hide *;
    RollingIsSound(f, EndPos(log), EndV(sqrt, log));
    NothingExpired(f.q);
    var was := f.q.moves;
    StaysItself(was, f.t, EndPos(log));
    RowGrows(sqrt, f, log, ps, was, -1.0, f.t);
    GrownIsLate(was, f.t, FeedProfiles(f, RowOf(sqrt, ps)).q.moves);
  }

  lemma StaysItself(was: seq<T.Entry>, bound: real, pos: T.Coord)
    requires T.Expired(was, -1.0) == 0
    ensures Grown(was, -1.0, bound, was) && Rejoins(was, -1.0, was, pos)
  {
    hide Quiet;
    assert GrownBy(was, -1.0, bound, was, 0);
  }

  lemma GrownIsLate(was: seq<T.Entry>, bound: real, ms: seq<T.Entry>)
    requires T.Expired(was, -1.0) == 0 && Grown(was, -1.0, bound, ms)
    ensures OldOrLate(ms, was, bound)
  {
    hide Quiet, T.Expired;
    forall i | 0 <= i < |ms|
      ensures ms[i] in was || Quiet(ms[i]) || bound <= ms[i].printTime
    {
      if i < |was| {
        assert ms[i] == was[i];
      }
    }
  }

  lemma ProcessQueuesLate(sqrt: real -> real, delay: real, d: Drive, now: Now, log: seq<Planned>, handed: seq<Planned>)
    requires IsSqrt(sqrt) && Standing(sqrt, delay, d, log) && MotionRuns.Drivable(log + handed) && AllTimed(handed)
    ensures AllOldOrLate(ProcessRow(d, delay, now, RowOf(sqrt, handed)), |d.gens|, d.q.moves,
                         Resynced(d, delay, now.est).t)
  {
    hide Rolling, MotionRuns.Drivable, Resynced, FeedProfiles, Drives, Flowing, T.Sound, EndPos, EndV, OldOrLate,
      AdvanceMove, DripTo;
    ResyncDrives(d, delay, now.est, EndPos(log), EndV(sqrt, log));
    var r := Resynced(d, delay, now.est);
    SameGenerations(d, delay, now.est);
    DrivesRolls(r, delay, EndPos(log), EndV(sqrt, log));
    var f := Feed(r.q, r.t);
    FedIsLate(sqrt, f, log, handed);
    RowRolls(sqrt, f, log, handed);
    RollingIsSound(FeedProfiles(f, RowOf(sqrt, handed)), EndPos(log + handed), EndV(sqrt, log + handed));
    var g := FeedProfiles(f, RowOf(sqrt, handed));
    var fed := r.(q := g.q);
    if fed.mode == Drip {
      DripKeepsLate(fed, delay, g.t, now.clear, |d.gens|, d.q.moves, r.t);
      AdvanceMoveKeepsLate(DripTo(fed, delay, g.t, now.clear), delay, g.t, now.clear, |d.gens|, d.q.moves, r.t);
    } else {
      AdvanceMoveKeepsLate(fed, delay, g.t, now.clear, |d.gens|, d.q.moves, r.t);
    }
  }

  /** An entry that is queued by this state, or was when the step generators were called, at their n-th call or later. */
  predicate QueuedSince(d: Drive, n: nat, m: T.Entry) {
    m in d.q.moves || exists k :: n <= k < |d.gens| && m in MovesOf(d.gens[k])
  }

  lemma SinceIsLate(d: Drive, n: nat, was: seq<T.Entry>, bound: real, m: T.Entry)
    requires AllOldOrLate(d, n, was, bound) && QueuedSince(d, n, m) && m !in was && !Quiet(m)
    ensures bound <= m.printTime
  {
    hide T.Sound, Quiet, MovesOf;
    if m in d.q.moves {
      var i :| 0 <= i < |d.q.moves| && d.q.moves[i] == m;
    } else {
      var k :| n <= k < |d.gens| && m in MovesOf(d.gens[k]);
      var i :| 0 <= i < |MovesOf(d.gens[k])| && MovesOf(d.gens[k])[i] == m;
    }
  }

  lemma FlushedLate(sqrt: real -> real, delay: real, d: Drive, now: Now, log: seq<Planned>, handed: seq<Planned>,
                    m: T.Entry)
    requires IsSqrt(sqrt) && Standing(sqrt, delay, d, log) && MotionRuns.Drivable(log + handed) && AllTimed(handed)
    requires QueuedSince(if handed == [] then d else ProcessRow(d, delay, now, RowOf(sqrt, handed)), |d.gens|, m)
    requires m !in d.q.moves && !Quiet(m)
    ensures d.t <= m.printTime
    ensures d.mode != Main ==> now.est + 0.250 <= m.printTime && now.est + 0.100 + delay <= m.printTime
                               && d.minRestart + delay <= m.printTime
  {
    hide Standing, MotionRuns.Drivable, ProcessRow, Quiet, AllOldOrLate, CalcPrintTime, MovesOf;
    ProcessQueuesLate(sqrt, delay, d, now, log, handed);
    SinceIsLate(ProcessRow(d, delay, now, RowOf(sqrt, handed)), |d.gens|, d.q.moves, Resynced(d, delay, now.est).t, m);
    var mode := if d.mode == Drip then Drip else Main;
    SyncedIsEarliest(d.(mode := mode), delay, now.est, m.printTime);
  }

  /** Over every run of the toolhead: a flush that hands moves over while the toolhead is not in the main state, as after
    * every pause, queues no motion that starts before the estimated print time plus the start-up buffer, or within the
    * flush delay of the earliest time at which the controllers can take steps or of what was flushed.  In the main state
    * it queues none before the print time. */
  lemma FlushStartsLate(sqrt: real -> real, delay: real, acts: seq<Action>, now: Now, m: T.Entry)
    requires IsSqrt(sqrt) && 0.0 < delay && WellBuilt(acts) && IsRun(sqrt, delay, acts) && acts != []
    requires acts[|acts| - 1] == LazyFlush(now) || acts[|acts| - 1] == Flush(now)
    requires WellBuilt(acts[..|acts| - 1])
    requires var before := DriveOf(sqrt, delay, acts[..|acts| - 1]);
             QueuedSince(DriveOf(sqrt, delay, acts), |before.gens|, m) && m !in before.q.moves && !Quiet(m)
    ensures var before := DriveOf(sqrt, delay, acts[..|acts| - 1]);
            && before.t <= m.printTime
            && (before.mode != Main ==>
                now.est + 0.250 <= m.printTime && now.est + 0.100 + delay <= m.printTime
                && before.minRestart + delay <= m.printTime)
  {
    hide Standing, WellBuilt, LogOf, Handed, ProcessRow, Quiet, QueuedSince;
    var n := |acts| - 1;
    RunStands(sqrt, delay, acts[..n]);
    LogGrows(acts);
    LogDrivable(acts);
    HandedTimed(acts);
    FlushedLate(sqrt, delay, DriveOf(sqrt, delay, acts[..n]), now, LogOf(acts[..n]), Handed(acts), m);
  }

  // How far the flushes get that follow the print time.

  /** Flushing never goes back; steps are generated for a step compression time beyond what is flushed, but not beyond the
    * flush delay before the print time, unless more than that is flushed; and the earliest restart is the least time that
    * does not go back and is not before them. */
  lemma FlushGoes(d: Drive, delay: real, f: real, clear: real, x: real)
    ensures var r := AdvanceFlush(d, delay, f, clear);
            && (r.lastFlush <= x <==> d.lastFlush <= x && f <= x)
            && (Generated(r.gens) <= x <==> r.lastFlush <= x && (r.lastFlush + 0.050 <= x || d.t - delay <= x))
            && (r.minRestart <= x <==> d.minRestart <= x && Generated(r.gens) <= x)
  {
    hide T.Finalize, T.CheckSentinels;
  }

  lemma FlushReaches(d: Drive, delay: real, f: real, clear: real)
    ensures var r := AdvanceFlush(d, delay, f, clear);
            && r.lastFlush == Max(f, d.lastFlush) && r.t == d.t
            && r.gens == d.gens + [r.gens[|d.gens|]] && |r.gens| == |d.gens| + 1
            && r.gens[|d.gens|].from == Generated(d.gens) && r.gens[|d.gens|].to == Generated(r.gens)
            && Generated(r.gens) == StepGenTime(d, delay, r.lastFlush)
  {
    hide T.Finalize, T.CheckSentinels, StepGenTime;
  }

  /** The loop ends with everything flushed up to `want`. */
  lemma {:induction false} AdvanceToReaches(d: Drive, delay: real, flush: real, want: real, clear: real)
    requires d.lastFlush <= flush <= want
    ensures var r := AdvanceTo(d, delay, flush, want, clear);
            && r.lastFlush == want && Generated(r.gens) == StepGenTime(d, delay, want) && |d.gens| < |r.gens|
    decreases 2.0 * (want - flush)
  {
    hide AdvanceFlush, Generated;
    var f := Min(flush + MOVE_BATCH_TIME, want);
    FlushReaches(d, delay, f, clear);
    if f < want {
      AdvanceToReaches(AdvanceFlush(d, delay, f, clear), delay, f, want, clear);
    }
  }

  /** Each time the print time moves on, steps are generated right up to the flush delay before it, and flushed up to a
    * step compression time less, unless more was flushed before. */
  lemma MoveReaches(d: Drive, delay: real, next: real, clear: real)
    ensures var r := AdvanceMove(d, delay, next, clear);
            && r.t == Max(d.t, next)
            && Generated(r.gens) == Max(r.t - delay, d.lastFlush)
            && r.lastFlush == Max(r.t - delay - 0.050, d.lastFlush)
  {
    hide AdvanceTo, Generated;
    var lag := delay + STEPCOMPRESS_FLUSH_TIME;
    var flush := Max(d.lastFlush, d.t - lag);
    var moved := d.(t := Max(d.t, next));
    AdvanceToReaches(moved, delay, flush, Max(flush, moved.t - lag), clear);
  }

  /** Of the calls from the n-th on, each generates steps for no longer than this. */
  predicate Short(gens: seq<Generation>, n: nat, span: real) {
    forall k :: n <= k < |gens| ==> gens[k].to - gens[k].from <= span
  }

  lemma ShortNext(gens: seq<Generation>, n: nat, span: real, g: Generation)
    requires Short(gens, n, span) && g.to - g.from <= span
    ensures Short(gens + [g], n, span)
  {
  }

  lemma {:induction false} AdvanceToIsShort(d: Drive, delay: real, flush: real, want: real, clear: real, n: nat)
    requires d.lastFlush == flush <= want && Generated(d.gens) == StepGenTime(d, delay, flush) && Short(d.gens, n, 0.500)
    ensures Short(AdvanceTo(d, delay, flush, want, clear).gens, n, 0.500)
    decreases 2.0 * (want - flush)
  {
    hide AdvanceFlush, Generated, Short;
    var f := Min(flush + MOVE_BATCH_TIME, want);
    FlushReaches(d, delay, f, clear);
    var r := AdvanceFlush(d, delay, f, clear);
    ShortNext(d.gens, n, 0.500, r.gens[|d.gens|]);
    if f < want {
      AdvanceToIsShort(r, delay, f, want, clear, n);
    }
  }

  lemma FirstIsShort(d: Drive, delay: real, flush: real, want: real, clear: real)
    requires d.lastFlush <= flush <= want
    ensures Short(AdvanceTo(d, delay, flush, want, clear).gens, |d.gens| + 1, 0.500)
  {
    hide AdvanceFlush, Generated;
    var f := Min(flush + MOVE_BATCH_TIME, want);
    FlushReaches(d, delay, f, clear);
    if f < want {
      AdvanceToIsShort(AdvanceFlush(d, delay, f, clear), delay, f, want, clear, |d.gens| + 1);
    }
  }

  /** However far the print time moves, the steps are generated in batches: after the first call, which catches up, none
    * is for more than half a second. */
  lemma BatchesAreShort(d: Drive, delay: real, next: real, clear: real)
    ensures Short(AdvanceMove(d, delay, next, clear).gens, |d.gens| + 1, 0.500)
  {
    hide AdvanceTo, Generated;
    var lag := delay + STEPCOMPRESS_FLUSH_TIME;
    var flush := Max(d.lastFlush, d.t - lag);
    var moved := d.(t := Max(d.t, next));
    FirstIsShort(moved, delay, flush, Max(flush, moved.t - lag), clear);
  }

  /** The calls from the n-th on lie between these times. */
  predicate Between(gens: seq<Generation>, n: nat, low: real, high: real) {
    forall k :: n <= k < |gens| ==> low <= gens[k].from && gens[k].to <= high
  }

  lemma BetweenNext(gens: seq<Generation>, n: nat, low: real, high: real, g: Generation)
    requires Between(gens, n, low, high) && low <= g.from && g.to <= high
    ensures Between(gens + [g], n, low, high)
  {
  }

  lemma {:induction false} AdvanceToBetween(d: Drive, delay: real, flush: real, want: real, clear: real,
                                            n: nat, low: real)
    requires d.lastFlush <= flush <= want && low <= Generated(d.gens) <= StepGenTime(d, delay, flush)
    requires Between(d.gens, n, low, StepGenTime(d, delay, want))
    ensures Between(AdvanceTo(d, delay, flush, want, clear).gens, n, low, StepGenTime(d, delay, want))
    decreases 2.0 * (want - flush)
  {
    hide AdvanceFlush, Generated, Between;
    var f := Min(flush + MOVE_BATCH_TIME, want);
    FlushReaches(d, delay, f, clear);
    var r := AdvanceFlush(d, delay, f, clear);
    BetweenNext(d.gens, n, low, StepGenTime(d, delay, want), r.gens[|d.gens|]);
    if f < want {
      AdvanceToBetween(r, delay, f, want, clear, n, low);
    }
  }

  /** Steps are generated right up to the flush delay before the print time. */
  predicate Level(d: Drive, delay: real) {
    Generated(d.gens) == d.t - delay && InStep(d, delay)
  }

  lemma SegmentIsShort(d: Drive, delay: real, next: real, clear: real, n: nat)
    requires Level(d, delay) && d.t <= next <= d.t + 0.050 && n <= |d.gens| && Short(d.gens, n, 0.050)
    ensures Level(AdvanceMove(d, delay, next, clear), delay) && Short(AdvanceMove(d, delay, next, clear).gens, n, 0.050)
  {
    hide AdvanceTo, Generated;
    var lag := delay + STEPCOMPRESS_FLUSH_TIME;
    var flush := Max(d.lastFlush, d.t - lag);
    var moved := d.(t := Max(d.t, next));
    AdvanceToGrows(moved, delay, flush, Max(flush, moved.t - lag), clear);
    AdvanceToBetween(moved, delay, flush, Max(flush, moved.t - lag), clear, |d.gens|, d.t - delay);
    MoveReaches(d, delay, next, clear);
    var gens := AdvanceMove(d, delay, next, clear).gens;
    forall k | n <= k < |gens|
      ensures gens[k].to - gens[k].from <= 0.050
    {
      if k < |d.gens| {
        assert gens[k] == d.gens[k];
      }
    }
  }

  lemma {:induction false} AdvanceToGrows(d: Drive, delay: real, flush: real, want: real, clear: real)
    ensures d.gens <= AdvanceTo(d, delay, flush, want, clear).gens
    decreases 2.0 * (want - flush)
  {
    hide AdvanceFlush;
    var f := Min(flush + MOVE_BATCH_TIME, want);
    FlushReaches(d, delay, f, clear);
    if f < want {
      AdvanceToGrows(AdvanceFlush(d, delay, f, clear), delay, f, want, clear);
    }
  }

  lemma {:induction false} LevelDrip(d: Drive, delay: real, next: real, clear: real, n: nat)
    requires Level(d, delay) && n <= |d.gens| && Short(d.gens, n, 0.050)
    ensures Level(DripTo(d, delay, next, clear), delay) && Short(DripTo(d, delay, next, clear).gens, n, 0.050)
    decreases if d.t < next then 1.0 + 20.0 * (next - d.t) else 0.0
  {
    hide Level, AdvanceMove, Short;
    if d.t < next {
      var npt := Min(d.t + DRIP_SEGMENT_TIME, next);
      SegmentIsShort(d, delay, npt, clear, n);
      MoveGrows(d, delay, npt, clear);
      LevelDrip(AdvanceMove(d, delay, npt, clear), delay, next, clear, n);
    }
  }

  lemma MoveGrows(d: Drive, delay: real, next: real, clear: real)
    ensures d.gens <= AdvanceMove(d, delay, next, clear).gens
  {
    hide AdvanceTo;
    var lag := delay + STEPCOMPRESS_FLUSH_TIME;
    var flush := Max(d.lastFlush, d.t - lag);
    var moved := d.(t := Max(d.t, next));
    AdvanceToGrows(moved, delay, flush, Max(flush, moved.t - lag), clear);
  }

  /** A drip move ends where it should with all its steps generated, and it takes small segments: once the first one has
    * caught up, no call generates steps for more than a twentieth of a second, so no more than that has been sent when a
    * trigger cuts it short. */
  lemma DripIsFine(d: Drive, delay: real, next: real, clear: real)
    requires InStep(d, delay) && d.t < next
    ensures var r := DripTo(d, delay, next, clear); var first := AdvanceMove(d, delay, Min(d.t + 0.050, next), clear);
            && r.t == next && Generated(r.gens) == next - delay
            && first.t <= d.t + 0.050 && Short(r.gens, |first.gens|, 0.050)
  {
    hide AdvanceMove, Generated;
    var npt := Min(d.t + DRIP_SEGMENT_TIME, next);
    MoveReaches(d, delay, npt, clear);
    LevelDrip(AdvanceMove(d, delay, npt, clear), delay, next, clear, |AdvanceMove(d, delay, npt, clear).gens|);
  }

  /** Steps are generated no further than a step compression time beyond what is flushed. */
  predicate Near(d: Drive) {
    Generated(d.gens) <= d.lastFlush + 0.050
  }

  lemma {:induction false} AdvanceToIsNear(d: Drive, delay: real, flush: real, want: real, clear: real)
    ensures Near(AdvanceTo(d, delay, flush, want, clear))
    decreases 2.0 * (want - flush)
  {
    hide AdvanceFlush, Generated;
    var f := Min(flush + MOVE_BATCH_TIME, want);
    var r := AdvanceFlush(d, delay, f, clear);
    FlushGoes(d, delay, f, clear, r.lastFlush + 0.050);
    FlushGoes(d, delay, f, clear, r.lastFlush);
    if f < want {
      AdvanceToIsNear(r, delay, f, want, clear);
    }
  }

  lemma AdvanceMoveIsNear(d: Drive, delay: real, next: real, clear: real)
    ensures Near(AdvanceMove(d, delay, next, clear))
  {
    hide AdvanceTo, Near;
    var lag := delay + STEPCOMPRESS_FLUSH_TIME;
    var flush := Max(d.lastFlush, d.t - lag);
    var moved := d.(t := Max(d.t, next));
    AdvanceToIsNear(moved, delay, flush, Max(flush, moved.t - lag), clear);
  }

  lemma ActIsNear(sqrt: real -> real, delay: real, d: Drive, a: Action, handed: seq<Planned>)
    requires IsSqrt(sqrt) && AllTimed(handed) && Near(d)
    ensures Near(Act(sqrt, delay, d, a, handed))
  {
    hide AdvanceMove, AdvanceFlush, ProcessRow, Generated;
    match a
    case LazyFlush(now) => ProcessIsNear(d, delay, now, RowOf(sqrt, handed));
    case Flush(now) => ProcessIsNear(d, delay, now, RowOf(sqrt, handed));
    case Wait(seconds, clear) => AdvanceMoveIsNear(d, delay, d.t + Max(0.0, seconds), clear);
    case Background(flushTime, clear) =>
      var r := AdvanceFlush(d, delay, flushTime, clear);
      FlushGoes(d, delay, flushTime, clear, r.lastFlush + 0.050);
      FlushGoes(d, delay, flushTime, clear, r.lastFlush);
    case _ =>
  }

  lemma ProcessIsNear(d: Drive, delay: real, now: Now, row: seq<(MoveShape.Shape, Profile)>)
    ensures Near(ProcessRow(d, delay, now, row))
  {
    hide AdvanceMove, DripTo, FeedProfiles, Resynced, Near;
    var r := Resynced(d, delay, now.est);
    var f := FeedProfiles(Feed(r.q, r.t), row);
    var fed := r.(q := f.q);
    AdvanceMoveIsNear(if fed.mode == Drip then DripTo(fed, delay, f.t, now.clear) else fed, delay, f.t, now.clear);
  }

  /** In every run steps are generated no further than a step compression time, a twentieth of a second, beyond what is
    * flushed to the controllers. */
  lemma {:induction false} StepsStayNear(sqrt: real -> real, delay: real, acts: seq<Action>)
    requires IsSqrt(sqrt) && WellBuilt(acts)
    ensures Near(DriveOf(sqrt, delay, acts))
  {
    hide Near, WellBuilt, Handed, Act;
    if acts == [] {
      IdleIsNear();
    } else {
      var n := |acts| - 1;
      Earlier(acts);
      StepsStayNear(sqrt, delay, acts[..n]);
      HandedTimed(acts);
      ActIsNear(sqrt, delay, DriveOf(sqrt, delay, acts[..n]), acts[n], Handed(acts));
    }
  }

  lemma IdleIsNear()
    ensures Near(IDLE)
  {
  }
}
