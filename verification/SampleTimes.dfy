/** Where a stepper looks: every position that its walks ask the input shaper for lies on the motion queue, although the
  * shaper looks back and ahead of the move, and although entries are finalized behind the steps. */
module SampleTimes {
  import opened RealMath
  import opened JunctionPlan
  import opened RelativeWalk
  import opened StepGeneration
  import opened StepSessions
  import opened PrintTimes
  import opened FlushDelay
  import opened InputShaper
  import R = MotionRuns
  import G = GenerationRuns
  import T = TrapTimeline

  /** active_flags */
  datatype Axes = Axes(x: bool, y: bool, z: bool)

  /** check_active */
  predicate CheckActive(a: Axes, m: T.Entry) {
    (a.x && m.axesR.x != 0.0) || (a.y && m.axesR.y != 0.0) || (a.z && m.axesR.z != 0.0)
  }

  function ActiveIn(a: Axes, es: seq<T.Entry>): (r: seq<bool>)
    ensures |r| == |es| && forall i :: 0 <= i < |es| ==> r[i] == CheckActive(a, es[i])
  {
    seq(|es|, i requires 0 <= i < |es| => CheckActive(a, es[i]))
  }

  /** A call of the step generator of a stepper. */
  function JobFor(g: Generation, a: Axes, pre: real, post: real): Job {
    Job(g.es, ActiveIn(a, g.es), g.from, g.to, pre, post)
  }

  lemma QuietIsInactive(a: Axes, m: T.Entry)
    requires Quiet(m)
    ensures !CheckActive(a, m)
  {
  }

  /** The range solver, working for a call, asks for the position at this time. */
  predicate Asked(j: Job, c: Call, t: real) {
    c.index < |j.es| && Lo(j, c) < t <= Hi(j, c)
  }

  // What is known of last_move_time, before and after each walk.

  /** It lies the flush delay behind the walk, or nothing has moved yet, or it belongs to an entry on the list. */
  ghost predicate Accounted(g: Generation, delay: real, last: real) {
    last <= g.from - delay || last <= 0.0 || exists i :: 0 <= i < |MovesOf(g)| && last <= MovesOf(g)[i].EndTime()
  }

  /** The list begins the flush delay behind the walk, or it began anew, and then it began after the last activity, or
    * the stepper is already active in it. */
  predicate Begun(g: Generation, delay: real, pre: real, last: real) {
    MovesOf(g) != [] ==>
      var m := MovesOf(g)[0];
      || m.printTime <= g.from - delay
      || (Led(MovesOf(g)) && (last <= g.from - delay || last <= 0.0 || m.EndTime() - pre <= last))
  }

  ghost predicate Placed(g: Generation, delay: real, pre: real, last: real) {
    Accounted(g, delay, last) && Begun(g, delay, pre, last)
  }

  lemma PlacedAfter(g: Generation, a: Axes, delay: real, pre: real, post: real, w: Walked)
    requires Track(g.es) && Quiet(g.es[|g.es| - 1]) && w.j == JobFor(g, a, pre, post) && Sparing(w)
    requires Placed(g, delay, pre, w.before)
    ensures Placed(g, delay, pre, w.after)
  {
    if w.after != w.before {
      var k: nat :| w.first <= k && MarkedBy(w.j, k, w.after);
      QuietIsInactive(a, g.es[|g.es| - 1]);
      assert MovesOf(g)[k] == g.es[k] && w.after <= MovesOf(g)[k].EndTime();
      if Quiet(g.es[0]) {
        QuietIsInactive(a, g.es[0]);
        TrackStarts(g.es, 0, k);
      }
    }
  }

  lemma PlacedNext(g: Generation, h: Generation, delay: real, pre: real, last: real)
    requires Track(g.es) && Placed(g, delay, pre, last) && g.from <= h.from
    requires Grown(MovesOf(g), h.from - delay, h.from + delay, MovesOf(h))
    ensures Placed(h, delay, pre, last)
  {
    var was, ms := MovesOf(g), MovesOf(h);
    var n := T.Expired(was, h.from - delay);
    assert GrownBy(was, h.from - delay, h.from + delay, ms, n);
    if n < |was| {
      assert ms[0] == ms[..|was| - n][0] == was[n..][0];
      if 0 < n {
        assert T.Abuts(g.es, n);
        assert was[n - 1].EndTime() <= h.from - delay;
      }
    }
    if i :| 0 <= i < |was| && last <= was[i].EndTime() {
      if n <= i {
        assert ms[i - n] == ms[..|was| - n][i - n] == was[n..][i - n];
      }
    }
  }

  lemma PlacedFirst(g: Generation, delay: real, pre: real, last: real)
    requires Grown([], g.from - delay, g.from + delay, MovesOf(g)) && last <= 0.0
    ensures Placed(g, delay, pre, last)
  {
  }

  /** A stepper whose step generator is called as recorded. */
  ghost predicate Driven(gens: seq<Generation>, a: Axes, pre: real, post: real, k: Kinematics, from: real,
                         ws: seq<Walked>)
  {
    && Session(k, from, ws) && |ws| <= |gens| && (ws != [] ==> ws[0].before <= 0.0)
    && forall n :: 0 <= n < |ws| ==> ws[n].j == JobFor(gens[n], a, pre, post)
  }

  lemma {:induction false} AllPlaced(gens: seq<Generation>, delay: real, a: Axes, pre: real, post: real, k: Kinematics,
                                     from: real, ws: seq<Walked>, n: nat)
    requires AllFit(gens, delay) && Driven(gens, a, pre, post, k, from, ws) && n < |ws|
    ensures Placed(gens[n], delay, pre, ws[n].before)
  {
    hide Placed, Grown, MovesOf, Track, Quiet, Sparing, WalkedFrom, JobFor, After, AllSteps;
    assert Fits(gens, n, delay);
    if n == 0 {
      assert gens[..0] == [];
      PlacedFirst(gens[0], delay, pre, ws[0].before);
    } else {
      AllPlaced(gens, delay, a, pre, post, k, from, ws, n - 1);
      assert Fits(gens, n - 1, delay);
      assert gens[..n][n - 1] == gens[n - 1];
      assert Follows(k, from, ws, n - 1) && Follows(k, from, ws, n);
      WalkSparing(k, After(k, from, AllSteps(ws[..n - 1])), ws[n - 1]);
      PlacedAfter(gens[n - 1], a, delay, pre, post, ws[n - 1]);
      PlacedNext(gens[n - 1], gens[n], delay, pre, ws[n - 1].after);
    }
  }

  lemma WalkSparing(k: Kinematics, from: real, w: Walked)
    requires WalkedFrom(k, from, w)
    ensures Sparing(w) && Proper(w.j) && forall c :: c in w.calls ==> Within(w.j, c)
  {
  }

  /** A time that is asked for, less the time after activity that is still solved, is not before the list; unless the
    * list begins within that time of time 0, before which nothing is queued. */
  lemma AskedOnList(g: Generation, delay: real, a: Axes, pre: real, post: real, w: Walked, c: Call, t: real)
    requires Track(g.es) && Quiet(g.es[|g.es| - 1]) && w.j == JobFor(g, a, pre, post) && Sparing(w)
    requires 0.0 <= pre && 0.0 <= post <= delay && pre + post <= T.MAX_NULL_MOVE
    requires Placed(g, delay, pre, w.before) && c in w.calls && Within(w.j, c) && Asked(w.j, c, t)
    ensures g.es[0].printTime <= t - post || g.es[0].printTime < post
  {
    TrackStarts(g.es, 0, c.index);
    assert Holds(w.j, c, t);
    assert Wanted(w.j, w.first, w.before, t);
    if MovesOf(g) != [] && g.from - delay < g.es[0].printTime && w.before + post < t {
      var k: nat :| w.first <= k && WantedFor(w.j, k, t);
      QuietIsInactive(a, g.es[0]);
      TrackStarts(g.es, 0, k);
    }
  }

  // The times that the pulses of a shaper add.

  /** gen_steps_pre_active, from the pulses of the axes that concern the stepper. */
  function PreActive(a: Axes, xs: seq<Pulse>, ys: seq<Pulse>): real {
    var pre := if a.x && xs != [] then xs[|xs| - 1].t else 0.0;
    if a.y && ys != [] then Max(ys[|ys| - 1].t, pre) else pre
  }

  /** gen_steps_post_active */
  function PostActive(a: Axes, xs: seq<Pulse>, ys: seq<Pulse>): real {
    var post := if a.x && xs != [] then -xs[0].t else 0.0;
    if a.y && ys != [] then Max(-ys[0].t, post) else post
  }

  predicate Ascends(ps: seq<Pulse>) {
    forall i, k :: 0 <= i < k < |ps| ==> ps[i].t <= ps[k].t
  }

  lemma WindowHolds(a: Axes, xs: seq<Pulse>, ys: seq<Pulse>, p: Pulse)
    requires Ascends(xs) && Ascends(ys) && ((a.x && p in xs) || (a.y && p in ys))
    ensures -PostActive(a, xs, ys) <= p.t <= PreActive(a, xs, ys)
  {
  }

  /** Neither time is longer than it has to be: they are the least that cover the pulses, from 0 on unless the first axis
    * has pulses that count. */
  lemma WindowIsLeast(a: Axes, xs: seq<Pulse>, ys: seq<Pulse>, x: real)
    requires Ascends(xs) && Ascends(ys)
    ensures PreActive(a, xs, ys) <= x <==>
              && (a.x && xs != [] ==> forall p :: p in xs ==> p.t <= x) && ((a.x && xs != []) || 0.0 <= x)
              && (a.y ==> forall p :: p in ys ==> p.t <= x)
    ensures PostActive(a, xs, ys) <= x <==>
              && (a.x && xs != [] ==> forall p :: p in xs ==> -x <= p.t) && ((a.x && xs != []) || 0.0 <= x)
              && (a.y ==> forall p :: p in ys ==> -x <= p.t)
  {
    if xs != [] {
      assert xs[0] in xs && xs[|xs| - 1] in xs;
    }
    if ys != [] {
      assert ys[0] in ys && ys[|ys| - 1] in ys;
    }
  }

  /** Pulses that are configured in the order of their times are installed in the order of theirs. */
  lemma InitAscends(a: seq<real>, t: seq<real>)
    requires |a| == |t| && (a != [] ==> Total(a) != 0.0)
    requires forall i, k :: 0 <= i < k < |t| ==> t[i] <= t[k]
    ensures Ascends(ShiftedBy(Reversed(a, t), Moment1(Reversed(a, t))))
  {
    hide Total, Moment1;
  }

  /** Where the walk along the list in relative times stays on it. */
  predicate OnList(es: seq<T.Entry>, i: nat, time: real) {
    i < |es| && es[0].printTime <= es[i].printTime + time <= es[|es| - 1].EndTime()
  }

  /** In every run of the toolhead, for every stepper whose shaper looks no further than the flush delay, and no further
    * than a first filler in all: whatever time the range solver asks for, all positions that the shaper then looks up
    * lie on the motion queue; unless the queue begins within gen_steps_post_active of time 0. */
  lemma SamplesOnList(sqrt: real -> real, delay: real, acts: seq<R.Action>, a: Axes, xs: seq<Pulse>, ys: seq<Pulse>,
                      k: Kinematics, from: real, ws: seq<Walked>, n: nat, c: Call, t: real)
    requires IsSqrt(sqrt) && 0.0 < delay && R.WellBuilt(acts) && R.IsRun(sqrt, delay, acts)
    requires Ascends(xs) && Ascends(ys)
    requires var pre, post := PreActive(a, xs, ys), PostActive(a, xs, ys);
             && 0.0 <= pre <= delay && 0.0 <= post <= delay && pre + post <= T.MAX_NULL_MOVE
             && Driven(R.DriveOf(sqrt, delay, acts).gens, a, pre, post, k, from, ws)
    requires n < |ws| && c in ws[n].calls && Asked(ws[n].j, c, t)
    ensures var gens := R.DriveOf(sqrt, delay, acts).gens;
            && n < |gens| && ws[n].j.es == gens[n].es
            && var es := gens[n].es;
               || es[0].printTime < PostActive(a, xs, ys)
               || forall p :: (a.x && p in xs) || (a.y && p in ys) ==>
                    OnList(es, c.index, (t - es[c.index].printTime) + p.t)
  {
    hide R.DriveOf, R.IsRun, R.WellBuilt, Grown, MovesOf, Placed, Sparing, Ascends, PreActive, PostActive;
    var gens, pre, post := R.DriveOf(sqrt, delay, acts).gens, PreActive(a, xs, ys), PostActive(a, xs, ys);
    G.RunTended(sqrt, delay, acts);
    var g, w := gens[n], ws[n];
    assert Fits(gens, n, delay);
    assert Follows(k, from, ws, n);
    WalkSparing(k, After(k, from, AllSteps(ws[..n])), w);
    AllPlaced(gens, delay, a, pre, post, k, from, ws, n);
    AskedOnList(g, delay, a, pre, post, w, c, t);
    forall p | (a.x && p in xs) || (a.y && p in ys)
      ensures g.es[0].printTime < post || OnList(g.es, c.index, (t - g.es[c.index].printTime) + p.t)
    {
      WindowHolds(a, xs, ys, p);
    }
  }

  /** There, a position before the list is looked up: the first walk covers a time less than gen_steps_post_active after
    * the beginning of the list, as if an activity had just ended at time 0. */
  lemma EarlyListIsLeft(j: Job, calls: seq<Call>)
    requires Proper(j) && Achieved(j, calls, 0, 0.0)
    requires j.lastFlush == 0.0 <= j.es[0].printTime < Min(j.post, j.flush)
    ensures exists t :: Covered(j, calls, t) && t - j.post < j.es[0].printTime
  {
    var t := (j.es[0].printTime + Min(j.post, j.flush)) * 0.5;
    assert InRange(j, 0, t);
    assert Served(j, calls, 0, 0.0, t);
  }

  /** A run that gets there: one move, handed over while the estimated print time is close to 0.  Any stepper with a
    * shaper then covers a time for which a position before the motion queue is looked up. */
  lemma EarlyListExample(sqrt: real -> real, delay: real, m: Limits, now: Now, a: Axes, pre: real, post: real,
                         calls: seq<Call>)
    requires IsSqrt(sqrt) && 0.0 < delay && R.WellBuilt(G.EarlyRun(m, now)) && m.shape.kinematic
    requires 0.0 <= now.est && now.est + BUFFER_TIME_START <= T.MAX_NULL_MOVE
    requires now.est + MIN_KIN_TIME + delay <= T.MAX_NULL_MOVE
    requires var gens := R.DriveOf(sqrt, delay, G.EarlyRun(m, now)).gens;
             gens != [] ==> var j := JobFor(gens[0], a, pre, post); Proper(j) && Achieved(j, calls, 0, 0.0)
    requires 0.0 < post
    ensures R.IsRun(sqrt, delay, G.EarlyRun(m, now))
    ensures var gens := R.DriveOf(sqrt, delay, G.EarlyRun(m, now)).gens;
            && gens != []
            && var j := JobFor(gens[0], a, pre, post);
               j.es != [] && exists t :: Covered(j, calls, t) && t - post < j.es[0].printTime
  {
    hide R.DriveOf, R.IsRun, R.WellBuilt, Proper, Achieved, Covered, ActiveIn;
    G.EarlyRunBegins(sqrt, delay, m, now);
    var gens := R.DriveOf(sqrt, delay, G.EarlyRun(m, now)).gens;
    EarlyListIsLeft(JobFor(gens[0], a, pre, post), calls);
  }
}
