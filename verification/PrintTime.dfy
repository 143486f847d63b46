/** The toolhead's clock: the print time up to which motion is queued, the time up to which steps have been flushed,
  * and the queuing state that decides when the print time may jump. */
module PrintTimes {
  import opened RealMath
  import opened MoveShape
  import opened MoveProfile
  import opened MotionPipeline
  import T = TrapTimeline

  const BUFFER_TIME_START := 0.250
  const MIN_KIN_TIME := 0.100
  const MOVE_BATCH_TIME := 0.500
  const STEPCOMPRESS_FLUSH_TIME := 0.050
  const DRIP_SEGMENT_TIME := 0.050

  /** special_queuing_state; Main is its empty string. */
  datatype Queuing = Main | NeedPrime | Priming | Drip

  /** One call of the step generators: the motion queue with its tail sentinel, and the times from which and up to
    * which they generate steps. */
  datatype Generation = Generation(es: seq<T.Entry>, from: real, to: real)

  /** The motion queue with the times and the state that the toolhead keeps about it, and a record of what the step
    * generators were called for. */
  datatype Drive = Drive(q: T.Timeline, t: real, mode: Queuing, lastFlush: real, minRestart: real,
                         gens: seq<Generation>)

  const IDLE := Drive(T.EMPTY, 0.0, NeedPrime, 0.0, 0.0, [])

  /** How far steps are generated. */
  function Generated(gens: seq<Generation>): real {
    if gens == [] then 0.0 else gens[|gens| - 1].to
  }

  /** What a call needs from outside: the estimated print time, and how much history to keep. */
  datatype Now = Now(est: real, clear: real)

  /** _calc_print_time; `delay` is kin_flush_delay. */
  function CalcPrintTime(d: Drive, delay: real, est: real): Drive {
    var kinTime := Max(est + MIN_KIN_TIME, d.minRestart) + delay;
    d.(t := Max(d.t, Max(est + BUFFER_TIME_START, kinTime)))
  }

  /** How far steps are generated when everything up to f is flushed. */
  function StepGenTime(d: Drive, delay: real, f: real): real {
    Max(Min(f + STEPCOMPRESS_FLUSH_TIME, d.t - delay), f)
  }

  /** _advance_flush_time, as far as the motion queue sees it. */
  function AdvanceFlush(d: Drive, delay: real, flushTime: real, clear: real): Drive {
    var f := Max(flushTime, d.lastFlush);
    var sg := StepGenTime(d, delay, f);
    var q := T.CheckSentinels(d.q);
    d.(q := T.Finalize(q, sg - delay, clear), lastFlush := f, minRestart := Max(d.minRestart, sg),
       gens := d.gens + [Generation(q.moves + [q.tail], Generated(d.gens), sg)])
  }

  /** The loop of _advance_move_time. */
  function AdvanceTo(d: Drive, delay: real, flush: real, want: real, clear: real): (r: Drive)
    ensures r.t == d.t && r.mode == d.mode
    decreases 2.0 * (want - flush)
  {
    var f := Min(flush + MOVE_BATCH_TIME, want);
    var r := AdvanceFlush(d, delay, f, clear);
    if f >= want then r else AdvanceTo(r, delay, f, want, clear)
  }

  /** _advance_move_time */
  function AdvanceMove(d: Drive, delay: real, next: real, clear: real): (r: Drive)
    ensures r.t == Max(d.t, next) && r.mode == d.mode
  {
    var lag := delay + STEPCOMPRESS_FLUSH_TIME;
    var flush := Max(d.lastFlush, d.t - lag);
    var moved := d.(t := Max(d.t, next));
    AdvanceTo(moved, delay, flush, Max(flush, moved.t - lag), clear)
  }

  /** _update_drip_move_time, for a move that is not cut short. */
  function DripTo(d: Drive, delay: real, next: real, clear: real): (r: Drive)
    ensures d.t <= r.t && r.mode == d.mode && (d.t <= next ==> r.t == next)
    decreases if d.t < next then 1.0 + 20.0 * (next - d.t) else 0.0
  {
    if d.t >= next then d
    else DripTo(AdvanceMove(d, delay, Min(d.t + DRIP_SEGMENT_TIME, next), clear), delay, next, clear)
  }

  /** The start of _process_moves: outside the main state the print time is synchronised first. */
  function Resynced(d: Drive, delay: real, est: real): Drive {
    if d.mode == Main then d
    else CalcPrintTime(d.(mode := if d.mode == Drip then Drip else Main), delay, est)
  }

  /** _process_moves, from the shapes and profiles of the moves. */
  function ProcessRow(d: Drive, delay: real, now: Now, row: seq<(Shape, Profile)>): Drive {
    var r := Resynced(d, delay, now.est);
    var f := FeedProfiles(Feed(r.q, r.t), row);
    var fed := r.(q := f.q);
    AdvanceMove(if fed.mode == Drip then DripTo(fed, delay, f.t, now.clear) else fed, delay, f.t, now.clear)
  }

  /** The end of flush_step_generation. */
  function RestartHeld(d: Drive): Drive {
    d.(minRestart := Max(d.minRestart, d.t))
  }

  // ----- what the clock keeps -----

  /** Nothing is flushed that is still to be driven: flushed times stay the flush delay behind the print time. */
  predicate InStep(d: Drive, delay: real) {
    d.lastFlush + delay <= d.t
  }

  /** Times that only grow, from 0 on. */
  predicate Ordered(d: Drive) {
    0.0 <= d.t && 0.0 <= d.minRestart && d.lastFlush <= d.minRestart
  }

  /** The motion queue moves smoothly up to `end`, where it has speed v; it may be finalized because what is still to
    * be continued lies ahead of what is flushed, or because it is at rest. */
  predicate Drives(d: Drive, delay: real, end: real, pos: T.Coord, v: real) {
    && Rolling(Feed(d.q, end), pos, v) && Ordered(d) && 0.0 < delay && d.t <= end
    && (InStep(d, delay) || v == 0.0)
  }

  lemma FinalizeRolls(f: Feed, pos: T.Coord, v: real, free: real, clear: real)
    requires Rolling(f, pos, v) && (free < f.t || v == 0.0)
    ensures Rolling(Feed(T.Finalize(T.CheckSentinels(f.q), free, clear), f.t), pos, v)
    ensures f.q.moves == [] ==> T.Finalize(T.CheckSentinels(f.q), free, clear).moves == []
  {
    hide T.Sound, T.Prune, T.Archive;
    var q := T.CheckSentinels(f.q);
    T.CheckSentinelsSound(f.q);
    T.FinalizeSound(q, free, clear);
    var n := T.Expired(q.moves, free);
    var rest := q.moves[n..];
    forall i | 0 < i < |rest|
      ensures T.Meets(rest, i)
    {
      assert T.Meets(q.moves, n + i);
    }
    if rest == [] && q.moves != [] {
      assert q.moves[|q.moves| - 1].EndTime() <= free;
    }
  }

  lemma AdvanceFlushDrives(d: Drive, delay: real, f: real, clear: real, end: real, pos: T.Coord, v: real)
    requires Drives(d, delay, end, pos, v) && (f + delay <= d.t || v == 0.0)
    ensures Drives(AdvanceFlush(d, delay, f, clear), delay, end, pos, v)
    ensures f + delay <= d.t && InStep(d, delay) ==> InStep(AdvanceFlush(d, delay, f, clear), delay)
    ensures d.q.moves == [] ==> AdvanceFlush(d, delay, f, clear).q.moves == []
  {
    hide Rolling, T.Finalize, T.CheckSentinels;
    FinalizeRolls(Feed(d.q, end), pos, v, StepGenTime(d, delay, Max(f, d.lastFlush)) - delay, clear);
  }

  lemma {:induction false} AdvanceToDrives(d: Drive, delay: real, flush: real, want: real, clear: real,
                                           end: real, pos: T.Coord, v: real)
    requires Drives(d, delay, end, pos, v) && (want + delay <= d.t || v == 0.0)
    ensures Drives(AdvanceTo(d, delay, flush, want, clear), delay, end, pos, v)
    ensures want + delay <= d.t && InStep(d, delay) ==> InStep(AdvanceTo(d, delay, flush, want, clear), delay)
    ensures d.q.moves == [] ==> AdvanceTo(d, delay, flush, want, clear).q.moves == []
    decreases 2.0 * (want - flush)
  {
    hide Drives, AdvanceFlush, InStep;
    var f := Min(flush + MOVE_BATCH_TIME, want);
    var r := AdvanceFlush(d, delay, f, clear);
    AdvanceFlushDrives(d, delay, f, clear, end, pos, v);
    SameTime(d, delay, f, clear);
    if f < want {
      AdvanceToDrives(r, delay, f, want, clear, end, pos, v);
    }
  }

  lemma SameTime(d: Drive, delay: real, f: real, clear: real)
    ensures AdvanceFlush(d, delay, f, clear).t == d.t && AdvanceFlush(d, delay, f, clear).mode == d.mode
  {
  }

  /** The print time may move up to where the motion ends, and beyond when it ends at rest. */
  lemma AdvanceMoveDrives(d: Drive, delay: real, next: real, clear: real, end: real, pos: T.Coord, v: real)
    requires Drives(d, delay, end, pos, v) && next <= end
    ensures Drives(AdvanceMove(d, delay, next, clear), delay, end, pos, v)
    ensures InStep(d, delay) ==> InStep(AdvanceMove(d, delay, next, clear), delay)
    ensures d.q.moves == [] ==> AdvanceMove(d, delay, next, clear).q.moves == []
  {
    hide Rolling, AdvanceTo;
    var lag := delay + STEPCOMPRESS_FLUSH_TIME;
    var flush := Max(d.lastFlush, d.t - lag);
    var moved := d.(t := Max(d.t, next));
    AdvanceToDrives(moved, delay, flush, Max(flush, moved.t - lag), clear, end, pos, v);
  }

  lemma {:induction false} DripDrives(d: Drive, delay: real, next: real, clear: real, end: real, pos: T.Coord, v: real)
    requires Drives(d, delay, end, pos, v) && next <= end
    ensures Drives(DripTo(d, delay, next, clear), delay, end, pos, v)
    ensures InStep(d, delay) ==> InStep(DripTo(d, delay, next, clear), delay)
    decreases if d.t < next then 1.0 + 20.0 * (next - d.t) else 0.0
  {
    hide Drives, InStep, AdvanceMove;
    if d.t < next {
      var npt := Min(d.t + DRIP_SEGMENT_TIME, next);
      AdvanceMoveDrives(d, delay, npt, clear, end, pos, v);
      DripDrives(AdvanceMove(d, delay, npt, clear), delay, next, clear, end, pos, v);
    }
  }

  /** At rest the motion can go on at any later time. */
  lemma WaitDrives(d: Drive, delay: real, end: real, pos: T.Coord, later: real)
    requires Drives(d, delay, end, pos, 0.0) && end <= later
    ensures Drives(d, delay, later, pos, 0.0)
  {
    hide T.Sound, Flowing;
  }

  lemma CalcDrives(d: Drive, delay: real, est: real, pos: T.Coord)
    requires Drives(d, delay, d.t, pos, 0.0)
    ensures var r := CalcPrintTime(d, delay, est);
            && Drives(r, delay, r.t, pos, 0.0) && InStep(r, delay) && 0.0 < r.t && d.t <= r.t
  {
    hide Rolling;
    WaitDrives(d, delay, d.t, pos, CalcPrintTime(d, delay, est).t);
  }

  /** Outside the main state the motion is at rest, so that the print time may jump; in it, the print time is ahead of
    * what is flushed. */
  predicate Primed(d: Drive, delay: real, v: real) {
    if d.mode == Main then InStep(d, delay) && 0.0 < d.t else v == 0.0
  }

  lemma ResyncDrives(d: Drive, delay: real, est: real, pos: T.Coord, v: real)
    requires Drives(d, delay, d.t, pos, v) && Primed(d, delay, v)
    ensures var r := Resynced(d, delay, est);
            && Drives(r, delay, r.t, pos, v) && InStep(r, delay) && 0.0 < r.t
            && r.q == d.q && r.mode == (if d.mode == Drip then Drip else Main)
  {
    hide Rolling, CalcPrintTime;
    if d.mode != Main {
      CalcDrives(d, delay, est, pos);
      CalcIgnoresMode(d, delay, est, if d.mode == Drip then Drip else Main);
    }
  }

  lemma CalcIgnoresMode(d: Drive, delay: real, est: real, mode: Queuing)
    ensures CalcPrintTime(d.(mode := mode), delay, est) == CalcPrintTime(d, delay, est).(mode := mode)
    ensures CalcPrintTime(d, delay, est).q == d.q
  {
  }

  /** _process_moves: the moves continue the motion where it was left, and nothing that is still to be continued is
    * finalized. */
  lemma ProcessDrives(d: Drive, delay: real, now: Now, row: seq<(Shape, Profile)>, pos: T.Coord, v: real,
                      to: T.Coord, w: real)
    requires Drives(d, delay, d.t, pos, v) && Primed(d, delay, v)
    requires var r := Resynced(d, delay, now.est);
             var f := FeedProfiles(Feed(r.q, r.t), row);
             Rolling(f, to, w) && r.t <= f.t
    ensures var p := ProcessRow(d, delay, now, row);
            && Drives(p, delay, p.t, to, w) && InStep(p, delay) && 0.0 < p.t
            && p.t == FeedProfiles(Feed(d.q, Resynced(d, delay, now.est).t), row).t
            && p.mode == (if d.mode == Drip then Drip else Main)
  {
    hide Rolling, Resynced, FeedProfiles, AdvanceMove, DripTo;
    ResyncDrives(d, delay, now.est, pos, v);
    var r := Resynced(d, delay, now.est);
    var f := FeedProfiles(Feed(r.q, r.t), row);
    var fed := r.(q := f.q);
    FedDrives(r, delay, f, pos, v, to, w);
    if fed.mode == Drip {
      DripDrives(fed, delay, f.t, now.clear, f.t, to, w);
      AdvanceMoveDrives(DripTo(fed, delay, f.t, now.clear), delay, f.t, now.clear, f.t, to, w);
    } else {
      AdvanceMoveDrives(fed, delay, f.t, now.clear, f.t, to, w);
    }
  }

  lemma FedDrives(r: Drive, delay: real, f: Feed, pos: T.Coord, v: real, to: T.Coord, w: real)
    requires Drives(r, delay, r.t, pos, v) && InStep(r, delay) && Rolling(f, to, w) && r.t <= f.t
    ensures Drives(r.(q := f.q), delay, f.t, to, w) && InStep(r.(q := f.q), delay)
  {
    hide Rolling;
  }
}
