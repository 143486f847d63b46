/** From planned junctions to the motion timeline: `set_junction`, `_process_moves` and `trapq_append`
  * taken together, for the moves of a whole run. */
module MotionPipeline {
  import opened RealMath
  import opened MoveShape
  import opened JunctionPlan
  import opened MoveProfile
  import opened LookAheadRuns
  import T = TrapTimeline

  /** What construction establishes about geometry and delta_v2. */
  predicate Built(m: Limits) {
    Straight(m.shape) && m.delta == 2.0 * m.shape.moveD * m.shape.accel
  }

  /** A planned move whose speeds its own geometry leaves room for. */
  predicate Ready(p: Planned) {
    Built(p.limits) && Feasible(p.limits, p.junction)
  }

  /** A planned move whose times are defined. */
  predicate Timed(p: Planned) {
    MoveProfile.Drivable(p.limits.shape.accel, p.junction)
  }

  function ProfileOf(sqrt: real -> real, p: Planned): Profile
    requires IsSqrt(sqrt) && Timed(p)
  {
    SetJunction(sqrt, p.limits.shape.moveD, p.limits.shape.accel, p.junction)
  }

  /** The arguments `_process_moves` passes to trapq_append. */
  function TrapezoidOf(s: Shape, f: Profile, t: real): T.Trapezoid {
    T.Trapezoid(t, f.accelT, f.cruiseT, f.decelT, s.startPos.XYZ(), s.axesR.XYZ(), f.startV, f.cruiseV, s.accel)
  }

  function TimeOf(f: Profile): real {
    f.accelT + f.cruiseT + f.decelT
  }

  /** The timeline and the print time at which the next move starts. */
  datatype Feed = Feed(q: T.Timeline, t: real)

  /** One round of the loop in `_process_moves`. */
  function FeedOne(sqrt: real -> real, f: Feed, p: Planned): Feed
    requires IsSqrt(sqrt) && Timed(p)
  {
    FeedProfile(f, p.limits.shape, ProfileOf(sqrt, p))
  }

  function FeedProfile(f: Feed, s: Shape, profile: Profile): Feed {
    Feed(if s.kinematic then T.Append(f.q, TrapezoidOf(s, profile, f.t)) else f.q, f.t + TimeOf(profile))
  }

  /** The loop in `_process_moves`, from the shapes and profiles that the moves carry. */
  function FeedProfiles(f: Feed, ms: seq<(Shape, Profile)>): Feed
    decreases |ms|
  {
    if ms == [] then f
    else
      var (s, p) := ms[|ms| - 1];
      FeedProfile(FeedProfiles(f, ms[..|ms| - 1]), s, p)
  }

  predicate AllTimed(ps: seq<Planned>) {
    forall i :: 0 <= i < |ps| ==> Timed(ps[i])
  }

  /** Shapes and profiles of planned moves. */
  function RowOf(sqrt: real -> real, ps: seq<Planned>): (ms: seq<(Shape, Profile)>)
    requires IsSqrt(sqrt) && AllTimed(ps)
    ensures |ms| == |ps|
  {
    seq(|ps|, i requires 0 <= i < |ps| => (ps[i].limits.shape, ProfileOf(sqrt, ps[i])))
  }

  // ----- exact landing of one move -----

  lemma CoversDuration(f: Profile, moveD: real, accel: real)
    requires Covers(f, moveD, accel) && 0.0 < moveD
    ensures 0.0 < TimeOf(f)
  {
    if f.accelT == 0.0 && f.cruiseT == 0.0 && f.decelT == 0.0 {
      NoTimeNoDistance(f);
    }
  }

  lemma NoTimeNoDistance(f: Profile)
    requires f.accelT == 0.0 && f.cruiseT == 0.0 && f.decelT == 0.0
    ensures Average(f.startV, f.cruiseV, f.accelT) + f.cruiseV * f.cruiseT + Average(f.endV, f.cruiseV, f.decelT) == 0.0
  {
  }

  lemma CoversLength(f: Profile, s: Shape, t: real)
    requires Covers(f, s.moveD, s.accel) && 0.0 < s.moveD
    ensures T.Drivable(TrapezoidOf(s, f, t))
    ensures T.EndV(TrapezoidOf(s, f, t)) == f.endV
    ensures T.Length(TrapezoidOf(s, f, t)) == s.moveD
  {
    CoversDuration(f, s.moveD, s.accel);
  }

  lemma Landing(f: Profile, s: Shape, t: real)
    requires Covers(f, s.moveD, s.accel) && Straight(s) && s.kinematic
    ensures T.Drivable(TrapezoidOf(s, f, t)) && T.Pieces(TrapezoidOf(s, f, t)) != []
    ensures T.Leads(T.Pieces(TrapezoidOf(s, f, t)), T.Moment(t, s.startPos.XYZ(), f.startV),
                    T.Moment(t + TimeOf(f), s.endPos.XYZ(), f.endV))
  {
    CoversLength(f, s, t);
    T.AppendLeads(TrapezoidOf(s, f, t));
  }

  /** The segments of one move start where and when the move does, at its planned start speed, join
    * without a jump in time, place or speed, and end exactly at its end position with its end speed. */
  lemma ExactLanding(sqrt: real -> real, p: Planned, t: real)
    requires IsSqrt(sqrt) && Ready(p) && p.limits.shape.kinematic
    ensures var f, s := ProfileOf(sqrt, p), p.limits.shape;
            && f.startV == sqrt(p.junction.start) && f.endV == sqrt(p.junction.end)
            && T.Pieces(TrapezoidOf(s, f, t)) != []
            && T.Leads(T.Pieces(TrapezoidOf(s, f, t)), T.Moment(t, s.startPos.XYZ(), f.startV),
                       T.Moment(t + TimeOf(f), s.endPos.XYZ(), f.endV))
  {
    ProfileCovers(sqrt, p.limits.shape.moveD, p.limits.shape.accel, p.junction);
    Landing(ProfileOf(sqrt, p), p.limits.shape, t);
  }

  // ----- the whole timeline -----

  /** Entries join in time, place and speed. */
  predicate Flowing(ms: seq<T.Entry>) {
    forall i :: 0 < i < |ms| ==> T.Meets(ms, i)
  }

  /** The motion so far ends at `pos`, and either exactly now with speed v, or earlier and at rest. */
  predicate Rolling(f: Feed, pos: T.Coord, v: real) {
    && T.Sound(f.q) && Flowing(f.q.moves)
    && if f.q.moves == [] then v == 0.0
       else
         var m := T.EndOf(f.q.moves[|f.q.moves| - 1]);
         m.p == pos && (if m.t == f.t then m.v == v else m.t < f.t && m.v == 0.0 && v == 0.0)
  }

  lemma FlowingConcat(a: seq<T.Entry>, b: seq<T.Entry>)
    requires Flowing(a) && Flowing(b)
    requires a != [] && b != [] ==> T.StartOf(b[0]) == T.EndOf(a[|a| - 1])
    ensures Flowing(a + b)
  {
    forall i | 0 < i < |a + b| ensures T.Meets(a + b, i) {
      if i < |a| {
        assert T.Meets(a, i);
      } else if i > |a| {
        assert T.Meets(b, i - |a|);
      }
    }
  }

  /** A filler rests where the next entry starts. */
  lemma FillerFlows(prev: T.Entry, m: T.Entry)
    requires m.startV == 0.0
    ensures T.EndOf(T.Filler(prev, m)) == T.StartOf(m)
    ensures T.Filler(prev, m).startPos == m.startPos && T.Filler(prev, m).startV == 0.0
  {
    var f := T.Filler(prev, m);
    assert f.Distance(f.moveT) == 0.0;
  }

  /** Motion so far, filler if any, new motion. */
  lemma JoinFlows(before: seq<T.Entry>, ms: seq<T.Entry>)
    requires Flowing(before) && ms != [] && Flowing(ms)
    requires before == [] ==> ms[0].startV == 0.0
    requires before != [] ==>
      var m := T.EndOf(T.Last(before));
      m == T.StartOf(ms[0])
      || (m.t < ms[0].printTime && m.p == ms[0].startPos && m.v == 0.0 && ms[0].startV == 0.0
          && T.Last(before).printTime != 0.0)
    ensures Flowing(T.Filled(before, ms[0]) + ms)
  {
    if T.Gap(T.Last(before), ms[0]) {
      var f := T.Filler(T.Last(before), ms[0]);
      FillerFlows(T.Last(before), ms[0]);
      FlowingConcat(before, [f]);
      assert T.Filled(before, ms[0]) == before + [f];
    }
    FlowingConcat(T.Filled(before, ms[0]), ms);
  }

  lemma SmoothAppend(f: Feed, ms: seq<T.Entry>, from: T.Moment, to: T.Moment)
    requires Rolling(f, from.p, from.v) && from.t == f.t && 0.0 < f.t && ms != [] && T.Leads(ms, from, to)
    ensures T.Sound(T.AddAll(f.q, ms)) && Flowing(T.AddAll(f.q, ms).moves)
    ensures T.AddAll(f.q, ms).moves != [] && T.EndOf(T.Last(T.AddAll(f.q, ms).moves)) == to
  {
    T.AddAllSound(f.q, ms, from, to);
    T.AddAllMoves(f.q, ms, from, to);
    RollingMeets(f, ms, from, to);
    JoinFlows(f.q.moves, ms);
  }

  lemma RollingMeets(f: Feed, ms: seq<T.Entry>, from: T.Moment, to: T.Moment)
    requires Rolling(f, from.p, from.v) && from.t == f.t && 0.0 < f.t && ms != [] && T.Leads(ms, from, to)
    ensures T.CanFollow(f.q.moves, from.t) && Flowing(ms) && T.StartOf(ms[0]) == from
    ensures f.q.moves == [] ==> ms[0].startV == 0.0
    ensures f.q.moves != [] ==>
      var m := T.EndOf(T.Last(f.q.moves));
      T.Last(f.q.moves).printTime != 0.0
      && (m == from || (m.t < from.t && m.p == from.p && m.v == 0.0 && from.v == 0.0))
  {
  }

  lemma AppendFlows(f: Feed, pos: T.Coord, a: T.Trapezoid)
    requires Rolling(f, pos, a.startV) && T.Drivable(a) && a.printTime == f.t && 0.0 < f.t && a.startPos == pos
    ensures T.Sound(T.Append(f.q, a)) && Flowing(T.Append(f.q, a).moves)
    ensures T.Append(f.q, a).moves != []
    ensures T.EndOf(T.Last(T.Append(f.q, a).moves))
            == T.Moment(a.printTime + T.Duration(a), T.Along(a.startPos, a.axesR, T.Length(a)), T.EndV(a))
  {
    T.AppendLeads(a);
    SmoothAppend(f, T.Pieces(a), T.Moment(a.printTime, a.startPos, a.startV),
                 T.Moment(a.printTime + T.Duration(a), T.Along(a.startPos, a.axesR, T.Length(a)), T.EndV(a)));
  }

  lemma FeedProfileRolls(f: Feed, s: Shape, profile: Profile)
    requires Covers(profile, s.moveD, s.accel) && Straight(s)
    requires Rolling(f, s.startPos.XYZ(), profile.startV) && 0.0 < f.t
    requires !s.kinematic ==> profile.startV == 0.0 && profile.endV == 0.0
    ensures Rolling(FeedProfile(f, s, profile), s.endPos.XYZ(), profile.endV)
    ensures f.t < FeedProfile(f, s, profile).t
  {
    CoversDuration(profile, s.moveD, s.accel);
    if s.kinematic {
      CoversLength(profile, s, f.t);
      AppendFlows(f, s.startPos.XYZ(), TrapezoidOf(s, profile, f.t));
    }
  }

  lemma FeedKeepsRolling(sqrt: real -> real, f: Feed, p: Planned)
    requires IsSqrt(sqrt) && Ready(p)
    requires Rolling(f, p.limits.shape.startPos.XYZ(), sqrt(p.junction.start)) && 0.0 < f.t
    requires !p.limits.shape.kinematic ==> p.junction.start == 0.0 && p.junction.end == 0.0
    ensures Rolling(FeedOne(sqrt, f, p), p.limits.shape.endPos.XYZ(), sqrt(p.junction.end))
    ensures f.t < FeedOne(sqrt, f, p).t
  {
    hide Rolling, FeedProfile;
    ProfileCovers(sqrt, p.limits.shape.moveD, p.limits.shape.accel, p.junction);
    RootOfZero(sqrt);
    FeedProfileRolls(f, p.limits.shape, ProfileOf(sqrt, p));
  }

  lemma RootOfZero(sqrt: real -> real)
    requires IsSqrt(sqrt)
    ensures sqrt(0.0) == 0.0
  {
    ZeroRoot(sqrt(0.0));
  }

  lemma ZeroRoot(r: real)
    requires 0.0 <= r && r * r == 0.0
    ensures r == 0.0
  {
    NonZeroSquare(r, r * r);
  }

  lemma NonZeroSquare(r: real, square: real)
    requires square == r * r
    ensures r != 0.0 ==> square != 0.0
  {
    if r != 0.0 {
      var k := 1.0 / r;
      assert r * k == 1.0;
      assert square * k == r * (r * k);
    }
  }

  // ----- the moves of a whole run -----

  predicate AllReady(ps: seq<Planned>) {
    forall i :: 0 <= i < |ps| ==> Ready(ps[i])
  }

  predicate Continues(ps: seq<Planned>, i: int)
    requires 0 < i < |ps|
  {
    ps[i].limits.shape.startPos.XYZ() == ps[i - 1].limits.shape.endPos.XYZ()
  }

  /** Each move begins where the previous one ended, and extrude-only moves happen at rest. */
  predicate Itinerary(ps: seq<Planned>) {
    && (forall i :: 0 < i < |ps| ==> Continues(ps, i))
    && (forall i :: 0 <= i < |ps| && !ps[i].limits.shape.kinematic ==>
          ps[i].junction.start == 0.0 && ps[i].junction.end == 0.0)
  }

  lemma ItineraryPrefix(ps: seq<Planned>)
    requires ps != [] && Seamless(ps) && Itinerary(ps)
    ensures Seamless(ps[..|ps| - 1]) && Itinerary(ps[..|ps| - 1])
  {
    var n := |ps| - 1;
    forall i | 0 <= i < n - 1 ensures JoinsNext(ps[..n], i) {
      assert JoinsNext(ps, i);
    }
    forall i | 0 < i < n ensures Continues(ps[..n], i) {
      assert Continues(ps, i);
    }
  }

  // ----- what every run of the planner provides -----

  predicate BuiltEvents(es: seq<Event>) {
    ValidEvents(es) && forall i :: 0 <= i < |es| && es[i].Add? ==> Built(es[i].move)
  }

  /** The motion stops before and after every extrude-only move. */
  predicate StopsAround(q: seq<Limits>) {
    && (forall i :: 0 <= i < |q| ==> Built(q[i]))
    && (forall i :: 0 <= i < |q| && !q[i].shape.kinematic ==> q[i].maxStart == 0.0)
    && (forall i :: 0 < i < |q| && !q[i - 1].shape.kinematic ==> q[i].maxStart == 0.0)
  }

  lemma {:induction false} StretchesStop(es: seq<Event>)
    requires BuiltEvents(es)
    ensures StopsAround(StretchesOf(es).open)
    ensures forall i :: 0 <= i < |StretchesOf(es).closed| ==> StopsAround(StretchesOf(es).closed[i])
  {
    if es != [] {
      StretchesStop(es[..|es| - 1]);
    }
  }

  predicate RestsWhenExtruding(ps: seq<Planned>) {
    AllReady(ps) && forall i :: 0 <= i < |ps| && !ps[i].limits.shape.kinematic ==>
      ps[i].junction.start == 0.0 && ps[i].junction.end == 0.0
  }

  lemma TripleRests(q: seq<Limits>, i: nat)
    requires Chain(q) && i < |q| && q[i].maxStart == 0.0 && Feasible(q[i], Triple(q, i))
    requires i + 1 < |q| ==> q[i + 1].maxStart == 0.0
    ensures Triple(q, i).start == 0.0 && Triple(q, i).end == 0.0
  {
    Bounds(q, i);
    Bounds(q, i + 1);
  }

  lemma PlannedAt(q: seq<Limits>, i: nat)
    requires FreshChain(q) && StopsAround(q) && i < |q|
    ensures Ready(Planned(q[i], Triple(q, i)))
    ensures !q[i].shape.kinematic ==> Triple(q, i).start == 0.0 && Triple(q, i).end == 0.0
  {
    FirstIsDirect(q);
    PlanFeasible(q, i);
    if !q[i].shape.kinematic {
      TripleRests(q, i);
    }
  }

  lemma PlanRests(q: seq<Limits>)
    requires FreshChain(q) && StopsAround(q)
    ensures RestsWhenExtruding(PlanOf(q))
  {
    forall i | 0 <= i < |q|
      ensures Ready(PlanOf(q)[i])
      ensures !q[i].shape.kinematic ==> PlanOf(q)[i].junction.start == 0.0 && PlanOf(q)[i].junction.end == 0.0
    {
      PlannedAt(q, i);
    }
  }

  lemma {:induction false} OneShotRests(closed: seq<seq<Limits>>)
    requires forall i :: 0 <= i < |closed| ==> FreshChain(closed[i]) && StopsAround(closed[i])
    ensures RestsWhenExtruding(OneShot(closed))
  {
    if closed != [] {
      OneShotRests(closed[..|closed| - 1]);
      PlanRests(closed[|closed| - 1]);
    }
  }

  lemma RunRests(es: seq<Event>)
    requires BuiltEvents(es)
    ensures RestsWhenExtruding(Run(es).log)
  {
    IncrementalIsOneShot(es);
    StretchesFresh(es);
    StretchesStop(es);
    OneShotRests(StretchesOf(es).closed);
    PlanRests(StretchesOf(es).open);
    var log, whole := Run(es).log, FullFlush(Run(es)).log;
    assert forall i :: 0 <= i < |log| ==> log[i] == whole[i];
  }

  /** Each move begins where the previous one ended, as `_do_actual_move` arranges with commanded_pos. */
  predicate Chained(ms: seq<Limits>) {
    forall i :: 0 < i < |ms| ==> ContinuesAt(ms, i)
  }

  predicate ContinuesAt(ms: seq<Limits>, i: int)
    requires 0 < i < |ms|
  {
    ms[i].shape.startPos.XYZ() == ms[i - 1].shape.endPos.XYZ()
  }

  lemma RunItinerary(es: seq<Event>)
    requires BuiltEvents(es) && Chained(Added(StretchesOf(es)))
    ensures Itinerary(Run(es).log) && AllReady(Run(es).log)
  {
    RunRests(es);
    ExactlyOnceInOrder(es);
    var log, all := Run(es).log, Added(StretchesOf(es));
    forall i | 0 < i < |log| ensures Continues(log, i) {
      assert log[i].limits == Moves(log)[i] == all[i] && log[i - 1].limits == Moves(log)[i - 1] == all[i - 1];
      assert ContinuesAt(all, i);
    }
  }
}
