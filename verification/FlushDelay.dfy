/** Why steps are generated kin_flush_delay behind the print time, and entries finalized as long again behind the steps:
  * what is generated stays right whatever is queued later, and what later steps look back at is still on the list. */
module FlushDelay {
  import opened RealMath
  import opened MoveShape
  import opened MoveProfile
  import opened MotionPipeline
  import opened PrintTimes
  import opened RelativeWalk
  import T = TrapTimeline

  /** No stepper is active during such an entry: a filler, or a tail sentinel. */
  predicate Quiet(m: T.Entry) {
    m.axesR == T.ORIGIN
  }

  /** A list that began anew: a filler first, which is as long as a first filler can be, or starts at time 0. */
  predicate Led(ms: seq<T.Entry>) {
    ms != [] ==> 1 < |ms| && Quiet(ms[0]) && (ms[0].printTime == 0.0 || ms[0].moveT == T.MAX_NULL_MOVE)
  }

  /** What became of a list `was`, of which n entries were finalized, having ended by `free`: the others are still
    * there, followed by fillers and by entries that start at `bound` or later; if none was left, the list began anew.
    */
  predicate GrownBy(was: seq<T.Entry>, free: real, bound: real, ms: seq<T.Entry>, n: nat) {
    && n <= |was| && |was| - n <= |ms| && ms[..|was| - n] == was[n..]
    && (forall i :: 0 <= i < n ==> was[i].EndTime() <= free)
    && (forall i :: |was| - n <= i < |ms| ==> Quiet(ms[i]) || bound <= ms[i].printTime)
    && (n == |was| ==> Led(ms))
  }

  predicate Grown(was: seq<T.Entry>, free: real, bound: real, ms: seq<T.Entry>) {
    GrownBy(was, free, bound, ms, T.Expired(was, free))
  }

  /** A list that ends at a place. */
  predicate EndsAt(ms: seq<T.Entry>, pos: T.Coord) {
    ms != [] ==> T.Last(ms).EndPos() == pos
  }

  /** A list that began anew goes on from the place where the list before it ended; `pos` is the place while there is
    * nothing on it. */
  predicate Rejoins(was: seq<T.Entry>, free: real, ms: seq<T.Entry>, pos: T.Coord) {
    was != [] && T.Expired(was, free) == |was| ==>
      T.Last(was).EndPos() == if ms == [] then pos else ms[0].startPos
  }

  /** What is left of a list when it is finalized. */
  function Remaining(ms: seq<T.Entry>, free: real): seq<T.Entry> {
    ms[T.Expired(ms, free)..]
  }

  lemma FinalizedIsGrown(ms: seq<T.Entry>, free: real, bound: real, pos: T.Coord)
    requires EndsAt(ms, pos)
    ensures Grown(ms, free, bound, Remaining(ms, free)) && Rejoins(ms, free, Remaining(ms, free), pos)
    ensures EndsAt(Remaining(ms, free), pos)
  {
  }

  lemma AddedIsGrown(was: seq<T.Entry>, free: real, bound: real, q: T.Timeline, m: T.Entry)
    requires Grown(was, free, bound, q.moves) && bound <= m.printTime && 0.0 < m.printTime
    ensures Grown(was, free, bound, T.AddMove(q, m).moves)
  {
    var n := T.Expired(was, free);
    assert GrownBy(was, free, bound, q.moves, n);
  }

  lemma {:induction false} AllAddedIsGrown(was: seq<T.Entry>, free: real, bound: real, q: T.Timeline, ms: seq<T.Entry>)
    requires Grown(was, free, bound, q.moves)
    requires forall i :: 0 <= i < |ms| ==> bound <= ms[i].printTime && 0.0 < ms[i].printTime
    ensures Grown(was, free, bound, T.AddAll(q, ms).moves)
    decreases |ms|
  {
    hide Grown, T.AddMove;
    if ms != [] {
      AllAddedIsGrown(was, free, bound, q, ms[..|ms| - 1]);
      AddedIsGrown(was, free, bound, T.AddAll(q, ms[..|ms| - 1]), ms[|ms| - 1]);
    }
  }

  lemma AppendedIsGrown(was: seq<T.Entry>, free: real, bound: real, q: T.Timeline, a: T.Trapezoid)
    requires Grown(was, free, bound, q.moves) && bound <= a.printTime && 0.0 < a.printTime && T.Drivable(a)
    ensures Grown(was, free, bound, T.Append(q, a).moves)
  {
    hide Grown, T.Leads, T.Pieces, T.AddAll;
    T.AppendLeads(a);
    var from := T.Moment(a.printTime, a.startPos, a.startV);
    var to := T.Moment(a.printTime + T.Duration(a), T.Along(a.startPos, a.axesR, T.Length(a)), T.EndV(a));
    forall i | 0 <= i < |T.Pieces(a)|
      ensures a.printTime <= T.Pieces(a)[i].printTime
    {
      T.LaterStarts(T.Pieces(a), from, to, i);
    }
    AllAddedIsGrown(was, free, bound, q, T.Pieces(a));
  }

  // What the step generators are called for.

  function MovesOf(g: Generation): seq<T.Entry> {
    if g.es == [] then [] else g.es[..|g.es| - 1]
  }

  function MovesBefore(gens: seq<Generation>): seq<T.Entry> {
    if gens == [] then [] else MovesOf(gens[|gens| - 1])
  }

  /** One call: the queue without holes or jumps, then the tail sentinel, which never ends; from where the last call
    * stopped, not backwards; and the list grew from what the last call saw. */
  ghost predicate Fits(gens: seq<Generation>, n: nat, delay: real)
    requires n < |gens|
  {
    var g := gens[n];
    && Track(g.es) && Connected(g.es) && Quiet(g.es[|g.es| - 1]) && T.NEVER_TIME <= g.es[|g.es| - 1].EndTime()
    && (MovesOf(g) == [] ==> g.es[0].printTime == T.NEVER_TIME)
    && g.from == Generated(gens[..n]) && g.from <= g.to
    && Grown(MovesBefore(gens[..n]), g.from - delay, g.from + delay, MovesOf(g))
    && (MovesOf(g) != [] ==> Rejoins(MovesBefore(gens[..n]), g.from - delay, MovesOf(g), T.ORIGIN))
  }

  ghost predicate AllFit(gens: seq<Generation>, delay: real) {
    forall n: nat :: n < |gens| ==> Fits(gens, n, delay)
  }

  lemma FitsNext(gens: seq<Generation>, g: Generation, delay: real)
    requires AllFit(gens, delay) && Fits(gens + [g], |gens|, delay)
    ensures AllFit(gens + [g], delay)
  {
    hide Grown, Track, Rejoins, Connected;
    var r := gens + [g];
    forall n: nat | n < |r|
      ensures Fits(r, n, delay)
    {
      if n < |gens| {
        assert r[..n] == gens[..n];
        assert Fits(gens, n, delay);
      }
    }
  }

  /** The calls so far fit, the queue, which ends at `pos`, grew from what the last one saw, and steps are never
    * generated beyond what is flushed and what is queued. */
  ghost predicate Generating(d: Drive, delay: real, pos: T.Coord) {
    && 0.0 < delay && T.Sound(d.q) && Flowing(d.q.moves) && AllFit(d.gens, delay)
    && EndsAt(d.q.moves, pos) && Extends(d.gens, delay, d.q.moves, pos)
    && Generated(d.gens) <= d.minRestart && Generated(d.gens) <= StepGenTime(d, delay, d.lastFlush)
  }

  /** The queue grew from what the last call saw. */
  predicate Extends(gens: seq<Generation>, delay: real, ms: seq<T.Entry>, pos: T.Coord) {
    && Grown(MovesBefore(gens), Generated(gens) - delay, Generated(gens) + delay, ms)
    && Rejoins(MovesBefore(gens), Generated(gens) - delay, ms, pos)
  }

  /** Steps are generated no further than kin_flush_delay before the print time. */
  predicate Behind(d: Drive, delay: real) {
    Generated(d.gens) + delay <= d.t && InStep(d, delay)
  }

  lemma TailIsQuiet(q: T.Timeline)
    requires T.Sound(q)
    ensures var r := T.CheckSentinels(q);
            && Quiet(r.tail) && T.NEVER_TIME <= r.tail.EndTime() && r.moves == q.moves
            && (q.moves == [] ==> r.tail.printTime == T.NEVER_TIME)
  {
    T.CheckSentinelsSound(q);
    if q.moves != [] {
      var n := |q.moves| - 1;
      assert 0.0 <= q.moves[n].printTime && 0.0 < q.moves[n].moveT;
    }
  }

  lemma QueueIsConnected(q: T.Timeline)
    requires T.Sound(q) && Flowing(q.moves)
    ensures Connected(T.CheckSentinels(q).moves + [T.CheckSentinels(q).tail])
  {
    var es := T.CheckSentinels(q).moves + [T.CheckSentinels(q).tail];
    forall i | 0 < i < |es|
      ensures Touches(es, i)
    {
      if i < |q.moves| {
        assert T.Meets(q.moves, i);
      }
    }
  }

  lemma RemainingFlows(ms: seq<T.Entry>, free: real)
    requires Flowing(ms)
    ensures Flowing(Remaining(ms, free))
  {
    var n := T.Expired(ms, free);
    forall i | 0 < i < |ms[n..]|
      ensures T.Meets(ms[n..], i)
    {
      assert T.Meets(ms, n + i);
    }
  }

  /** What the step generators are called for when they have to get to `sg`. */
  function CallFor(d: Drive, sg: real): Generation {
    var q := T.CheckSentinels(d.q);
    Generation(q.moves + [q.tail], Generated(d.gens), sg)
  }

  lemma CallFits(d: Drive, delay: real, sg: real, pos: T.Coord)
    requires Generating(d, delay, pos) && Generated(d.gens) <= sg
    ensures AllFit(d.gens + [CallFor(d, sg)], delay) && MovesOf(CallFor(d, sg)) == d.q.moves
  {
    hide Grown, Rejoins, EndsAt, Flowing, T.Sound, Track, Connected, AllFit, T.CheckSentinels;
    var g := CallFor(d, sg);
    TailIsQuiet(d.q);
    QueueIsTrack(d.q);
    QueueIsConnected(d.q);
    var gens := d.gens + [g];
    assert gens[..|d.gens|] == d.gens && MovesOf(g) == d.q.moves;
    if d.q.moves != [] {
      RejoinsAnywhere(MovesBefore(d.gens), g.from - delay, d.q.moves, pos);
    }
    assert Fits(gens, |d.gens|, delay);
    FitsNext(d.gens, g, delay);
  }

  lemma FlushParts(d: Drive, delay: real, f: real, clear: real)
    requires T.Sound(d.q)
    ensures var r := AdvanceFlush(d, delay, f, clear); var sg := StepGenTime(d, delay, Max(f, d.lastFlush));
            && r.gens == d.gens + [CallFor(d, sg)] && Generated(r.gens) == sg && MovesBefore(r.gens) == d.q.moves
            && r.q.moves == Remaining(d.q.moves, sg - delay) && T.Sound(r.q)
  {
    hide T.Sound, T.Prune, T.Archive, T.Expired, StepGenTime;
    T.CheckSentinelsSound(d.q);
    T.FinalizeSound(T.CheckSentinels(d.q), StepGenTime(d, delay, Max(f, d.lastFlush)) - delay, clear);
  }

  lemma FlushTimes(d: Drive, delay: real, f: real, clear: real, pos: T.Coord)
    requires Generating(d, delay, pos)
    ensures var r := AdvanceFlush(d, delay, f, clear); var sg := StepGenTime(d, delay, Max(f, d.lastFlush));
            && Generated(d.gens) <= sg == Generated(r.gens) <= r.minRestart && sg <= StepGenTime(r, delay, r.lastFlush)
            && (f + delay <= d.t && Behind(d, delay) ==> Behind(r, delay))
  {
    hide T.Sound, T.Finalize, T.CheckSentinels, AllFit, Extends, EndsAt, Flowing;
  }

  lemma FlushGenerates(d: Drive, delay: real, f: real, clear: real, pos: T.Coord)
    requires Generating(d, delay, pos)
    ensures Generating(AdvanceFlush(d, delay, f, clear), delay, pos)
    ensures f + delay <= d.t && Behind(d, delay) ==> Behind(AdvanceFlush(d, delay, f, clear), delay)
  {
    hide AdvanceFlush, Grown, Rejoins, EndsAt, Flowing, T.Sound, AllFit, Remaining, MovesOf, MovesBefore, CallFor,
      Generated, StepGenTime, Behind;
    var sg := StepGenTime(d, delay, Max(f, d.lastFlush));
    FlushParts(d, delay, f, clear);
    FlushTimes(d, delay, f, clear, pos);
    CallFits(d, delay, sg, pos);
    RemainingFlows(d.q.moves, sg - delay);
    FinalizedIsGrown(d.q.moves, sg - delay, sg + delay, pos);
  }

  lemma RejoinsAnywhere(was: seq<T.Entry>, free: real, ms: seq<T.Entry>, pos: T.Coord)
    requires Rejoins(was, free, ms, pos) && ms != []
    ensures Rejoins(was, free, ms, T.ORIGIN)
  {
  }

  lemma {:induction false} AdvanceToGenerates(d: Drive, delay: real, flush: real, want: real, clear: real,
                                             pos: T.Coord)
    requires Generating(d, delay, pos)
    ensures Generating(AdvanceTo(d, delay, flush, want, clear), delay, pos)
    ensures want + delay <= d.t && Behind(d, delay) ==> Behind(AdvanceTo(d, delay, flush, want, clear), delay)
    decreases 2.0 * (want - flush)
  {
    hide Generating, Behind, AdvanceFlush;
    var f := Min(flush + MOVE_BATCH_TIME, want);
    FlushGenerates(d, delay, f, clear, pos);
    SameTime(d, delay, f, clear);
    if f < want {
      AdvanceToGenerates(AdvanceFlush(d, delay, f, clear), delay, f, want, clear, pos);
    }
  }

  /** A later print time, another mode, another earliest restart that is no earlier. */
  lemma LaterGenerates(d: Drive, delay: real, t: real, mode: Queuing, minRestart: real, pos: T.Coord)
    requires Generating(d, delay, pos) && d.t <= t && d.minRestart <= minRestart
    ensures Generating(d.(t := t, mode := mode, minRestart := minRestart), delay, pos)
    ensures Behind(d, delay) ==> Behind(d.(t := t, mode := mode, minRestart := minRestart), delay)
  {
    hide Grown, Rejoins, EndsAt, Flowing, T.Sound, AllFit;
  }

  lemma AdvanceMoveGenerates(d: Drive, delay: real, next: real, clear: real, pos: T.Coord)
    requires Generating(d, delay, pos)
    ensures Generating(AdvanceMove(d, delay, next, clear), delay, pos)
    ensures Behind(d, delay) ==> Behind(AdvanceMove(d, delay, next, clear), delay)
  {
    hide Generating, AdvanceTo, Generated;
    var lag := delay + STEPCOMPRESS_FLUSH_TIME;
    var flush := Max(d.lastFlush, d.t - lag);
    var moved := d.(t := Max(d.t, next));
    LaterGenerates(d, delay, Max(d.t, next), d.mode, d.minRestart, pos);
    AdvanceToGenerates(moved, delay, flush, Max(flush, moved.t - lag), clear, pos);
  }

  lemma {:induction false} DripGenerates(d: Drive, delay: real, next: real, clear: real, pos: T.Coord)
    requires Generating(d, delay, pos)
    ensures Generating(DripTo(d, delay, next, clear), delay, pos)
    ensures Behind(d, delay) ==> Behind(DripTo(d, delay, next, clear), delay)
    decreases if d.t < next then 1.0 + 20.0 * (next - d.t) else 0.0
  {
    hide Generating, Behind, AdvanceMove;
    if d.t < next {
      var npt := Min(d.t + DRIP_SEGMENT_TIME, next);
      AdvanceMoveGenerates(d, delay, npt, clear, pos);
      DripGenerates(AdvanceMove(d, delay, npt, clear), delay, next, clear, pos);
    }
  }

  /** After the print time was synchronised, steps are generated no further than the flush delay before it. */
  lemma SyncedIsBehind(d: Drive, delay: real, est: real, pos: T.Coord)
    requires Generating(d, delay, pos) && Ordered(d)
    ensures Generating(CalcPrintTime(d, delay, est), delay, pos) && Behind(CalcPrintTime(d, delay, est), delay)
  {
    hide Grown, Rejoins, EndsAt, Flowing, T.Sound, AllFit;
    LaterGenerates(d, delay, CalcPrintTime(d, delay, est).t, d.mode, d.minRestart, pos);
  }

  lemma ResyncedIsBehind(d: Drive, delay: real, est: real, pos: T.Coord)
    requires Generating(d, delay, pos) && Ordered(d) && (d.mode == Main ==> Behind(d, delay))
    ensures Generating(Resynced(d, delay, est), delay, pos) && Behind(Resynced(d, delay, est), delay)
  {
    hide Generating, Behind, CalcPrintTime;
    if d.mode != Main {
      var mode := if d.mode == Drip then Drip else Main;
      LaterGenerates(d, delay, d.t, mode, d.minRestart, pos);
      assert d.(t := d.t, mode := mode, minRestart := d.minRestart) == d.(mode := mode);
      SyncedIsBehind(d.(mode := mode), delay, est, pos);
    }
  }

  /** The list grows by moves that start at the print time or later. */
  lemma FedGenerates(d: Drive, delay: real, q: T.Timeline, pos: T.Coord, to: T.Coord)
    requires Generating(d, delay, pos) && Behind(d, delay) && T.Sound(q) && Flowing(q.moves)
    requires EndsAt(q.moves, to) && Extends(d.gens, delay, q.moves, to)
    ensures Generating(d.(q := q), delay, to) && Behind(d.(q := q), delay)
  {
    hide Extends, EndsAt, Flowing, T.Sound, AllFit;
  }

  lemma ProcessGenerates(d: Drive, delay: real, now: Now, row: seq<(Shape, Profile)>, pos: T.Coord, to: T.Coord)
    requires Generating(d, delay, pos) && Ordered(d) && (d.mode == Main ==> Behind(d, delay))
    requires var r := Resynced(d, delay, now.est); var q := FeedProfiles(Feed(r.q, r.t), row).q;
             T.Sound(q) && Flowing(q.moves) && EndsAt(q.moves, to) && Extends(r.gens, delay, q.moves, to)
    ensures Generating(ProcessRow(d, delay, now, row), delay, to) && Behind(ProcessRow(d, delay, now, row), delay)
  {
    hide Generating, Behind, Extends, EndsAt, Flowing, T.Sound, Resynced, AdvanceMove, DripTo, FeedProfiles, Ordered;
    ResyncedIsBehind(d, delay, now.est, pos);
    var r := Resynced(d, delay, now.est);
    var f := FeedProfiles(Feed(r.q, r.t), row);
    FedGenerates(r, delay, f.q, pos, to);
    var fed := r.(q := f.q);
    if fed.mode == Drip {
      DripGenerates(fed, delay, f.t, now.clear, to);
      AdvanceMoveGenerates(DripTo(fed, delay, f.t, now.clear), delay, f.t, now.clear, to);
    } else {
      AdvanceMoveGenerates(fed, delay, f.t, now.clear, to);
    }
  }

  // Before the first move.

  /** Nothing is queued, nor was it when the step generators were called last. */
  predicate Idle(d: Drive) {
    d.q.moves == [] && MovesBefore(d.gens) == []
  }

  lemma FlushIdle(d: Drive, delay: real, f: real, clear: real)
    requires Idle(d) && T.Sound(d.q)
    ensures Idle(AdvanceFlush(d, delay, f, clear)) && T.Sound(AdvanceFlush(d, delay, f, clear).q)
  {
    hide T.Sound, AdvanceFlush, CallFor, StepGenTime;
    FlushParts(d, delay, f, clear);
  }

  lemma {:induction false} AdvanceToIdle(d: Drive, delay: real, flush: real, want: real, clear: real)
    requires Idle(d) && T.Sound(d.q)
    ensures Idle(AdvanceTo(d, delay, flush, want, clear))
    decreases 2.0 * (want - flush)
  {
    hide T.Sound, AdvanceFlush, Idle;
    var f := Min(flush + MOVE_BATCH_TIME, want);
    FlushIdle(d, delay, f, clear);
    if f < want {
      AdvanceToIdle(AdvanceFlush(d, delay, f, clear), delay, f, want, clear);
    }
  }

  lemma AdvanceMoveIdle(d: Drive, delay: real, next: real, clear: real)
    requires Idle(d) && T.Sound(d.q)
    ensures Idle(AdvanceMove(d, delay, next, clear))
  {
    hide T.Sound, AdvanceTo;
    var lag := delay + STEPCOMPRESS_FLUSH_TIME;
    var flush := Max(d.lastFlush, d.t - lag);
    var moved := d.(t := Max(d.t, next));
    AdvanceToIdle(moved, delay, flush, Max(flush, moved.t - lag), clear);
  }

  // What follows for the calls of the step generators.

  /** Whatever is queued after steps were generated starts at least the flush delay after them: nothing that those steps
    * were generated from can still change. */
  lemma {:induction false} LaterMovesStartLater(gens: seq<Generation>, delay: real, n: nat, k: nat, m: T.Entry)
    requires AllFit(gens, delay) && n < k < |gens| && m in MovesOf(gens[k]) && !Quiet(m)
    ensures m in MovesOf(gens[n]) || gens[n].to + delay <= m.printTime
    decreases k
  {
    hide Track, Connected, Rejoins, Quiet, Grown, MovesOf;
    assert Fits(gens, k, delay);
    assert gens[..k][k - 1] == gens[k - 1];
    OldOrLater(MovesOf(gens[k - 1]), gens[k].from - delay, gens[k].from + delay, MovesOf(gens[k]), m);
    if m in MovesOf(gens[k - 1]) {
      if n < k - 1 {
        LaterMovesStartLater(gens, delay, n, k - 1, m);
      }
    } else {
      GenerationsGrow(gens, delay, n, k - 1);
    }
  }

  lemma OldOrLater(was: seq<T.Entry>, free: real, bound: real, ms: seq<T.Entry>, m: T.Entry)
    requires Grown(was, free, bound, ms) && m in ms && !Quiet(m)
    ensures m in was || bound <= m.printTime
  {
    hide Quiet, Led;
    var n := T.Expired(was, free);
    var i :| 0 <= i < |ms| && ms[i] == m;
    if i < |was| - n {
      assert ms[..|was| - n][i] == was[n..][i] == was[n + i];
    }
  }

  lemma {:induction false} GenerationsGrow(gens: seq<Generation>, delay: real, n: nat, k: nat)
    requires AllFit(gens, delay) && n <= k < |gens|
    ensures gens[n].to <= gens[k].to && gens[n].from <= gens[k].from
    decreases k
  {
    hide Track, Connected, Rejoins, Quiet, Grown;
    if n < k {
      GenerationsGrow(gens, delay, n, k - 1);
      assert Fits(gens, k, delay) && Fits(gens, k - 1, delay);
      assert gens[..k][k - 1] == gens[k - 1];
    }
  }

  // Positions that were looked up do not change.

  lemma QuietStays(m: T.Entry, t: real)
    requires Quiet(m) || t == 0.0
    ensures m.At(t) == m.startPos
  {
    assert t == 0.0 ==> m.Distance(t) == 0.0;
  }

  lemma {:induction false} QuietRun(es: seq<T.Entry>, a: nat, j: nat)
    requires Connected(es) && a <= j < |es| && forall k :: a <= k < j ==> Quiet(es[k])
    ensures es[j].startPos == es[a].startPos
  {
    if a < j {
      QuietRun(es, a, j - 1);
      assert Touches(es, j);
      QuietStays(es[j - 1], es[j - 1].moveT);
    }
  }

  /** Where everything is a filler or starts at `bound` or later, the position up to `bound` is the first one. */
  lemma RestsUntil(es: seq<T.Entry>, a: nat, bound: real, j: nat, v: real)
    requires Track(es) && Connected(es) && a <= j < |es| && 0.0 <= v && es[j].printTime + v <= bound
    requires forall k :: a <= k < |es| ==> Quiet(es[k]) || bound <= es[k].printTime
    ensures es[j].At(v) == es[a].startPos
  {
    forall k | a <= k < j
      ensures Quiet(es[k])
    {
      TrackStarts(es, k, j);
    }
    QuietRun(es, a, j);
    QuietStays(es[j], v);
  }

  predicate HoldsAt(es: seq<T.Entry>, i: nat, u: real, x: real) {
    i < |es| && 0.0 <= u <= es[i].moveT && es[i].printTime + u == x
  }

  lemma SamePlace(es: seq<T.Entry>, i: nat, u: real, j: nat, v: real, x: real)
    requires Track(es) && Connected(es) && HoldsAt(es, i, u, x) && HoldsAt(es, j, v, x)
    ensures es[i].At(u) == es[j].At(v)
  {
    if i <= j {
      PositionByTime(es, i, u, j, v);
    } else {
      PositionByTime(es, j, v, i, u);
    }
  }

  /** After its last move the list rests where that move ends. */
  lemma AtTheEnd(es: seq<T.Entry>, i: nat, u: real, x: real)
    requires Track(es) && Connected(es) && 1 < |es| && Quiet(es[|es| - 1]) && HoldsAt(es, i, u, x)
    requires es[|es| - 2].EndTime() <= x
    ensures es[i].At(u) == es[|es| - 2].EndPos()
  {
    var n := |es| - 1;
    assert T.Abuts(es, n) && Touches(es, n);
    if i < n {
      TrackStarts(es, i, n - 1);
      SamePlace(es, i, u, n - 1, es[n - 1].moveT, x);
    } else {
      QuietStays(es[n], u);
    }
  }

  /** What two lists have in common: their entries from n on, and from the beginning on. */
  lemma CommonPlace(es: seq<T.Entry>, hs: seq<T.Entry>, n: nat, i: nat, u: real, j: nat, v: real, x: real)
    requires Track(es) && Connected(es) && Track(hs) && Connected(hs) && n < |es| - 1
    requires |es| - 1 - n <= |hs| && forall k :: n <= k < |es| - 1 ==> hs[k - n] == es[k]
    requires HoldsAt(es, i, u, x) && HoldsAt(hs, j, v, x) && i < |es| - 1
    ensures es[i].At(u) == hs[j].At(v)
  {
    TrackStarts(hs, 0, j);
    if n <= i {
      SamePlace(hs, i - n, u, j, v, x);
    } else {
      TrackStarts(es, i, n);
      SamePlace(es, i, u, n, 0.0, x);
      SamePlace(hs, 0, 0.0, j, v, x);
    }
  }

  /** One call of the step generators after another: at every time within the flush delay of where the first one
    * stopped, the second one sees the position that the first one saw. */
  lemma PositionStays(g: Generation, h: Generation, delay: real, x: real, i: nat, u: real, j: nat, v: real)
    requires Track(g.es) && Connected(g.es) && Quiet(g.es[|g.es| - 1]) && Track(h.es) && Connected(h.es)
    requires Quiet(h.es[|h.es| - 1]) && MovesOf(g) != [] && MovesOf(h) != []
    requires Grown(MovesOf(g), h.from - delay, h.from + delay, MovesOf(h))
    requires Rejoins(MovesOf(g), h.from - delay, MovesOf(h), T.ORIGIN)
    requires h.from - delay <= x <= h.from + delay && HoldsAt(g.es, i, u, x) && HoldsAt(h.es, j, v, x)
    ensures g.es[i].At(u) == h.es[j].At(v)
  {
    hide Track, Connected, Led, T.Expired, Quiet;
    var was, ms := MovesOf(g), MovesOf(h);
    var n, last := T.Expired(was, h.from - delay), |g.es| - 2;
    NewAreLater(was, h, delay, n);
    if n < |was| && i <= last {
      forall k | n <= k < |g.es| - 1
        ensures h.es[k - n] == g.es[k]
      {
        assert ms[..|was| - n][k - n] == was[n..][k - n];
      }
      CommonPlace(g.es, h.es, n, i, u, j, v, x);
    } else {
      EndedBy(g, x, i, u, n);
      AtTheEnd(g.es, i, u, x);
      if n < |was| {
        assert h.es[last - n] == ms[..|was| - n][last - n] == was[n..][last - n] == g.es[last];
        AfterCommon(h.es, last - n, h.from + delay, j, v, x);
      } else {
        RestsUntil(h.es, 0, h.from + delay, j, v);
      }
    }
  }

  lemma NewAreLater(was: seq<T.Entry>, h: Generation, delay: real, n: nat)
    requires h.es != [] && Quiet(h.es[|h.es| - 1]) && GrownBy(was, h.from - delay, h.from + delay, MovesOf(h), n)
    ensures forall k :: |was| - n <= k < |h.es| ==> Quiet(h.es[k]) || h.from + delay <= h.es[k].printTime
  {
    hide Quiet;
  }

  /** A time on the tail, or on an entry of a list that has ended as a whole, comes after the last move. */
  lemma EndedBy(g: Generation, x: real, i: nat, u: real, n: nat)
    requires Track(g.es) && MovesOf(g) != [] && HoldsAt(g.es, i, u, x)
    requires i == |g.es| - 1 || (n == |MovesOf(g)| && forall k :: 0 <= k < n ==> MovesOf(g)[k].EndTime() <= x)
    ensures g.es[|g.es| - 2].EndTime() <= x
  {
    assert T.Abuts(g.es, |g.es| - 1);
    if i < |g.es| - 1 {
      assert MovesOf(g)[|g.es| - 2] == g.es[|g.es| - 2];
    }
  }

  /** Beyond what is common, the position rests until something new starts. */
  lemma AfterCommon(hs: seq<T.Entry>, s: nat, bound: real, j: nat, v: real, x: real)
    requires Track(hs) && Connected(hs) && s + 1 < |hs| && HoldsAt(hs, j, v, x) && hs[s].EndTime() <= x <= bound
    requires forall k :: s < k < |hs| ==> Quiet(hs[k]) || bound <= hs[k].printTime
    ensures hs[j].At(v) == hs[s].EndPos()
  {
    if j <= s {
      TrackStarts(hs, j, s);
      SamePlace(hs, j, v, s, hs[s].moveT, x);
    } else {
      assert Touches(hs, s + 1);
      RestsUntil(hs, s + 1, bound, j, v);
    }
  }
}
