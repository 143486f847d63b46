/** What one backward pass of the look-ahead planner computes, as functions of the queue.
  *
  * Every quantity is a squared speed, so the whole plan is linear arithmetic.  `LookAheadQueue.Flush`
  * (LookAheadQueue.dfy) is proved to compute `Triple`; this module proves what those numbers mean. */
module JunctionPlan {
  import opened RealMath
  import opened MoveShape

  /** The limits of a queued move that the backward pass reads. */
  datatype Limits = Limits(shape: Shape, maxStart: real, maxCruise: real, delta: real, maxSmoothed: real, smoothDelta: real)

  /** Squared speeds given to `set_junction`. */
  datatype Junction = Junction(start: real, cruise: real, end: real)

  /** A move on its own: what construction and `limit_speed` establish before it is queued. */
  predicate Sane(m: Limits) {
    && 0.0 < m.smoothDelta <= m.delta
    && 0.0 <= m.maxSmoothed <= m.maxStart <= m.maxCruise
    && 0.0 < m.maxCruise
  }

  /** Neighbouring moves: what `calc_junction` establishes. */
  predicate Linked(p: Limits, m: Limits) {
    && m.maxStart <= p.maxCruise
    && m.maxStart <= p.maxStart + p.delta
    && m.maxSmoothed == Min(m.maxStart, p.maxSmoothed + p.smoothDelta)
  }

  predicate Chain(q: seq<Limits>) {
    && (forall i :: 0 <= i < |q| ==> Sane(q[i]))
    && (forall i :: 0 < i < |q| ==> Linked(q[i - 1], q[i]))
  }

  /** A chain that starts from standstill: nothing precedes its first move. */
  predicate FreshChain(q: seq<Limits>) {
    Chain(q) && (q != [] ==> q[0].maxStart == 0.0)
  }

  // ----- the backward pass -----

  /** start_v2 of move i; the speed after the last move is 0. */
  function StartV2(q: seq<Limits>, i: nat): real
    requires i <= |q|
    decreases |q| - i
  {
    if i == |q| then 0.0 else Min(q[i].maxStart, StartV2(q, i + 1) + q[i].delta)
  }

  /** smoothed_v2 of move i. */
  function SmoothedV2(q: seq<Limits>, i: nat): real
    requires i <= |q|
    decreases |q| - i
  {
    if i == |q| then 0.0 else Min(q[i].maxSmoothed, SmoothedV2(q, i + 1) + q[i].smoothDelta)
  }

  /** Move i cannot accelerate in the smoothed profile, so it waits for the peak before it. */
  predicate Delayed(q: seq<Limits>, i: nat)
    requires i < |q|
  {
    !(SmoothedV2(q, i) < SmoothedV2(q, i + 1) + q[i].smoothDelta)
  }

  /** Move i sets a new peak cruise speed. */
  predicate Peaks(q: seq<Limits>, i: nat)
    requires i < |q|
  {
    && !Delayed(q, i)
    && (SmoothedV2(q, i) + q[i].smoothDelta > SmoothedV2(q, i + 1) || (i + 1 < |q| && Delayed(q, i + 1)))
  }

  /** peak_cruise_v2 after the pass has handled move i. */
  function Peak(q: seq<Limits>, i: nat): real
    requires i <= |q|
    decreases |q| - i
  {
    if i == |q| then 0.0
    else if Peaks(q, i) then
      Min(q[i].maxCruise, (SmoothedV2(q, i) + (SmoothedV2(q, i + 1) + q[i].smoothDelta)) * 0.5)
    else Peak(q, i + 1)
  }

  /** mc_v2 of a delayed move: the peak before it, lowered by every start speed on the way. */
  function DelayedCruise(q: seq<Limits>, i: nat): real
    requires i < |q|
  {
    if i == 0 then StartV2(q, 0)
    else Min(if Delayed(q, i - 1) then DelayedCruise(q, i - 1) else Peak(q, i - 1), StartV2(q, i))
  }

  function DirectCruise(q: seq<Limits>, i: nat): real
    requires i < |q|
  {
    Min(Min((StartV2(q, i) + (StartV2(q, i + 1) + q[i].delta)) * 0.5, q[i].maxCruise), Peak(q, i))
  }

  function CruiseV2(q: seq<Limits>, i: nat): real
    requires i < |q|
  {
    if Delayed(q, i) then DelayedCruise(q, i) else DirectCruise(q, i)
  }

  /** The speeds that a full flush of `q` hands to `set_junction` of move i. */
  function Triple(q: seq<Limits>, i: nat): Junction
    requires i < |q|
  {
    var c := CruiseV2(q, i);
    Junction(Min(StartV2(q, i), c), c, Min(StartV2(q, i + 1), c))
  }

  function Plan(q: seq<Limits>): (p: seq<Junction>)
    ensures |p| == |q|
  {
    seq(|q|, i requires 0 <= i < |q| => Triple(q, i))
  }

  /** The cut chosen by a lazy pass that has handled moves i and later: the first peak, going
    * backwards, that is not the last one.  -1 when there is none. */
  function Cut(q: seq<Limits>, i: nat): (c: int)
    requires i <= |q|
    ensures -1 <= c < |q|
    ensures c != -1 ==> i <= c && Peaks(q, c) && Peak(q, c + 1) != 0.0
    decreases |q| - i
  {
    if i == |q| then -1
    else
      var c := Cut(q, i + 1);
      if c != -1 then c else if Peaks(q, i) && Peak(q, i + 1) != 0.0 then i else -1
  }

  /** It is the first one on the way back: no later move could have been the cut, and when there is none, no move
    * could. */
  lemma {:induction false} CutIsFirst(q: seq<Limits>, i: nat, k: nat)
    requires i <= k < |q| && Cut(q, i) < k
    ensures !(Peaks(q, k) && Peak(q, k + 1) != 0.0)
    decreases |q| - i
  {
    hide Peaks, Peak;
    if i < k {
      CutIsFirst(q, i + 1, k);
    }
  }

  // ----- the two profiles -----

  lemma {:induction false} Bounds(q: seq<Limits>, i: nat)
    requires Chain(q) && i <= |q|
    ensures 0.0 <= SmoothedV2(q, i) <= StartV2(q, i)
    ensures i < |q| ==> SmoothedV2(q, i) <= q[i].maxSmoothed && StartV2(q, i) <= q[i].maxStart
    decreases |q| - i
  {
    if i < |q| {
      Bounds(q, i + 1);
    }
  }

  /** The pass also honours the forward limit, so the accelerating side never has to be revisited. */
  lemma {:induction false} ForwardLimit(q: seq<Limits>, i: nat)
    requires Chain(q) && i < |q|
    ensures StartV2(q, i + 1) <= StartV2(q, i) + q[i].delta
    ensures SmoothedV2(q, i + 1) <= SmoothedV2(q, i) + q[i].smoothDelta
    ensures StartV2(q, i + 1) <= q[i].maxCruise
  {
    Bounds(q, i);
    Bounds(q, i + 1);
    if i + 1 < |q| {
      assert Linked(q[i], q[i + 1]);
    }
  }

  /** A delayed move is one that slows down over its whole smoothed budget.  A peak is set by every other move, unless it
    * speeds up over its whole smoothed budget and the next move is none that waits for a peak. */
  lemma KindMeans(q: seq<Limits>, i: nat)
    requires Chain(q) && i < |q|
    ensures Delayed(q, i) <==> SmoothedV2(q, i) == SmoothedV2(q, i + 1) + q[i].smoothDelta
    ensures Peaks(q, i) <==>
            && !Delayed(q, i)
            && (SmoothedV2(q, i + 1) == SmoothedV2(q, i) + q[i].smoothDelta ==> i + 1 < |q| && Delayed(q, i + 1))
  {
    ForwardLimit(q, i);
  }

  /** v obeys every junction limit and every deceleration limit and stops after the last move. */
  predicate Admissible(q: seq<Limits>, v: seq<real>) {
    && |v| == |q| + 1
    && v[|q|] <= 0.0
    && forall i :: 0 <= i < |q| ==> v[i] <= q[i].maxStart && v[i] <= v[i + 1] + q[i].delta
  }

  function StartProfile(q: seq<Limits>): (v: seq<real>)
    ensures |v| == |q| + 1
  {
    seq(|q| + 1, i requires 0 <= i <= |q| => StartV2(q, i))
  }

  lemma {:induction false} DominatesFrom(q: seq<Limits>, v: seq<real>, i: nat)
    requires Admissible(q, v) && i <= |q|
    ensures v[i] <= StartV2(q, i)
    decreases |q| - i
  {
    if i < |q| {
      DominatesFrom(q, v, i + 1);
    }
  }

  /** The start speeds are the pointwise greatest admissible ones, and respect acceleration too. */
  lemma OptimalJunctions(q: seq<Limits>)
    requires Chain(q)
    ensures Admissible(q, StartProfile(q))
    ensures forall v, i :: Admissible(q, v) && 0 <= i <= |q| ==> v[i] <= StartProfile(q)[i]
    ensures forall i :: 0 <= i < |q| ==> StartProfile(q)[i + 1] <= StartProfile(q)[i] + q[i].delta
  {
    forall v, i | Admissible(q, v) && 0 <= i <= |q| ensures v[i] <= StartProfile(q)[i] {
      DominatesFrom(q, v, i);
    }
    forall i | 0 <= i < |q| ensures StartProfile(q)[i + 1] <= StartProfile(q)[i] + q[i].delta {
      ForwardLimit(q, i);
    }
  }

  /** The same for the smoothed profile. */
  predicate SmoothAdmissible(q: seq<Limits>, v: seq<real>) {
    && |v| == |q| + 1
    && v[|q|] <= 0.0
    && forall i :: 0 <= i < |q| ==> v[i] <= q[i].maxSmoothed && v[i] <= v[i + 1] + q[i].smoothDelta
  }

  function SmoothedProfile(q: seq<Limits>): (v: seq<real>)
    ensures |v| == |q| + 1
  {
    seq(|q| + 1, i requires 0 <= i <= |q| => SmoothedV2(q, i))
  }

  lemma {:induction false} SmoothDominatesFrom(q: seq<Limits>, v: seq<real>, i: nat)
    requires SmoothAdmissible(q, v) && i <= |q|
    ensures v[i] <= SmoothedV2(q, i)
    decreases |q| - i
  {
    if i < |q| {
      SmoothDominatesFrom(q, v, i + 1);
    }
  }

  /** The smoothed speeds are the pointwise greatest ones for the smoothed limits. */
  lemma OptimalSmoothed(q: seq<Limits>)
    requires Chain(q)
    ensures SmoothAdmissible(q, SmoothedProfile(q))
    ensures forall v, i :: SmoothAdmissible(q, v) && 0 <= i <= |q| ==> v[i] <= SmoothedProfile(q)[i]
    ensures forall i :: 0 <= i < |q| ==> SmoothedProfile(q)[i + 1] <= SmoothedProfile(q)[i] + q[i].smoothDelta
  {
    forall v, i | SmoothAdmissible(q, v) && 0 <= i <= |q| ensures v[i] <= SmoothedProfile(q)[i] {
      SmoothDominatesFrom(q, v, i);
    }
    forall i | 0 <= i < |q| ensures SmoothedProfile(q)[i + 1] <= SmoothedProfile(q)[i] + q[i].smoothDelta {
      ForwardLimit(q, i);
    }
  }

  // ----- peaks -----

  /** A speed up to which a move can accelerate from one squared speed, and from which it can come down to another,
    * with a budget for both changes together. */
  predicate Cruisable(from: real, to: real, budget: real, limit: real, x: real) {
    x <= limit && 2.0 * x - from - to <= budget
  }

  /** The peak that a move sets is the greatest speed that it can reach and leave again between its smoothed start and
    * that of the next move, within its smoothed budget: those speeds are exactly the ones up to it. */
  lemma PeakIsGreatest(q: seq<Limits>, c: nat, x: real)
    requires c < |q| && Peaks(q, c)
    ensures Cruisable(SmoothedV2(q, c), SmoothedV2(q, c + 1), q[c].smoothDelta, q[c].maxCruise, x) <==> x <= Peak(q, c)
  {
  }

  /** Until another one is set, on the way back, a peak stays; before the first one it is 0. */
  lemma {:induction false} PeakHolds(q: seq<Limits>, i: nat, c: nat)
    requires i <= c <= |q| && forall k :: i <= k < c ==> !Peaks(q, k)
    ensures Peak(q, i) == Peak(q, c) && (c == |q| ==> Peak(q, i) == 0.0)
    decreases c - i
  {
    if i < c {
      PeakHolds(q, i + 1, c);
    }
  }

  /** A direct move cruises at the greatest speed that it can reach and leave again between its real start speed and that
    * of the next move, within its real budget, and that the peak allows. */
  lemma DirectCruiseIsGreatest(q: seq<Limits>, i: nat, x: real)
    requires i < |q| && !Delayed(q, i)
    ensures Cruisable(StartV2(q, i), StartV2(q, i + 1), q[i].delta, q[i].maxCruise, x) && x <= Peak(q, i)
            <==> x <= Triple(q, i).cruise
  {
  }

  /** No move since the last direct one starts slower than x, and that one's peak is not below it. */
  predicate Waits(q: seq<Limits>, d: nat, i: nat, x: real)
    requires d <= i < |q|
  {
    x <= Peak(q, d) && forall k :: d < k <= i ==> x <= StartV2(q, k)
  }

  /** A delayed move cruises at the greatest speed that the peak of the last direct move before it and all the start
    * speeds since allow. */
  lemma {:induction false} DelayedCruiseIsGreatest(q: seq<Limits>, d: nat, i: nat, x: real)
    requires d < i < |q| && !Delayed(q, d) && forall k :: d < k <= i ==> Delayed(q, k)
    ensures Waits(q, d, i, x) <==> x <= Triple(q, i).cruise
  {
    hide StartV2, Delayed, Peak;
    if d + 1 < i {
      DelayedCruiseIsGreatest(q, d, i - 1, x);
    }
  }

  /** The speeds at the two ends are the greatest that the real profile and the cruise speed allow. */
  lemma EndsAreGreatest(q: seq<Limits>, i: nat, x: real)
    requires i < |q|
    ensures x <= StartV2(q, i) && x <= Triple(q, i).cruise <==> x <= Triple(q, i).start
    ensures x <= StartV2(q, i + 1) && x <= Triple(q, i).cruise <==> x <= Triple(q, i).end
  {
  }

  lemma {:induction false} PeakAboveSmoothed(q: seq<Limits>, i: nat)
    requires Chain(q) && i < |q| && !Delayed(q, i)
    ensures SmoothedV2(q, i) <= Peak(q, i) && 0.0 < Peak(q, i)
    decreases |q| - i
  {
    Bounds(q, i);
    Bounds(q, i + 1);
    if !Peaks(q, i) {
      PeakAboveSmoothed(q, i + 1);
    }
  }

  /** Between a move and a direct (not delayed) successor that the move could outrun in the smoothed
    * profile, the successor is limited by its junction alone: both profiles touch max_start_v2. */
  lemma Anchored(q: seq<Limits>, m: nat)
    requires Chain(q) && 0 < m < |q| && !Delayed(q, m)
    requires SmoothedV2(q, m) < q[m - 1].maxSmoothed + q[m - 1].smoothDelta
    ensures SmoothedV2(q, m) == StartV2(q, m) == q[m].maxStart
  {
    Bounds(q, m);
    assert Linked(q[m - 1], q[m]);
  }

  /** Below its resolving peak, a delayed move keeps a cruise speed no lower than its smoothed speed. */
  lemma {:induction false} DelayedCruiseBounds(q: seq<Limits>, i: nat)
    requires Chain(q) && i < |q| && Delayed(q, i) && !Delayed(q, 0)
    ensures SmoothedV2(q, i) <= DelayedCruise(q, i) <= StartV2(q, i)
    ensures 0.0 < SmoothedV2(q, i)
  {
    Bounds(q, i);
    Bounds(q, i + 1);
    ForwardLimit(q, i - 1);
    if Delayed(q, i - 1) {
      DelayedCruiseBounds(q, i - 1);
    } else {
      Bounds(q, i - 1);
    }
  }

  // ----- feasibility -----

  /** A triple that a move with these limits can execute. */
  predicate Feasible(m: Limits, j: Junction) {
    && 0.0 <= j.start <= j.cruise
    && 0.0 <= j.end <= j.cruise
    && 0.0 < j.cruise <= m.maxCruise
    && j.start <= m.maxStart
    && 2.0 * j.cruise - j.start - j.end <= m.delta
  }

  lemma PlanFeasible(q: seq<Limits>, i: nat)
    requires Chain(q) && i < |q| && !Delayed(q, 0)
    ensures Feasible(q[i], Triple(q, i))
  {
    Bounds(q, i);
    Bounds(q, i + 1);
    ForwardLimit(q, i);
    if Delayed(q, i) {
      DelayedCruiseBounds(q, i);
    } else {
      PeakAboveSmoothed(q, i);
    }
  }

  /** The speed handed over at every junction lies between the two profiles: the smoothed one is always reached, the
    * greatest admissible one never exceeded. */
  lemma PlanBetween(q: seq<Limits>, i: nat)
    requires Chain(q) && i < |q| && !Delayed(q, 0)
    ensures SmoothedV2(q, i) <= Triple(q, i).start <= StartV2(q, i)
  {
    Bounds(q, i);
    if Delayed(q, i) {
      DelayedCruiseBounds(q, i);
    } else {
      ForwardLimit(q, i);
      PeakAboveSmoothed(q, i);
    }
  }

  /** Two moves whose junction may be passed at 80, and is planned at 10: the smoothed profile decides the peak. */
  lemma SmoothedJunctionExample(first: Shape, second: Shape)
    ensures var q := [Limits(first, 0.0, 1000.0, 100.0, 0.0, 10.0), Limits(second, 80.0, 1000.0, 100.0, 10.0, 10.0)];
            FreshChain(q) && StartV2(q, 1) == 80.0 && Triple(q, 1).start == 10.0 == SmoothedV2(q, 1)
  {
    var q := [Limits(first, 0.0, 1000.0, 100.0, 0.0, 10.0), Limits(second, 80.0, 1000.0, 100.0, 10.0, 10.0)];
    assert Linked(q[0], q[1]);
    assert StartV2(q, 2) == SmoothedV2(q, 2) == 0.0;
    assert StartV2(q, 1) == 80.0 && SmoothedV2(q, 1) == 10.0 && SmoothedV2(q, 0) == 0.0;
    assert Delayed(q, 1) && !Delayed(q, 0);
    assert Peak(q, 0) == 10.0;
  }

  // ----- continuity -----

  /** A delayed move passes its start limit on unchanged to whatever follows. */
  lemma ContinuousFromDelayed(q: seq<Limits>, i: nat)
    requires Chain(q) && i + 1 < |q| && !Delayed(q, 0) && Delayed(q, i)
    ensures Triple(q, i).end == Triple(q, i + 1).start
  {
    ForwardLimit(q, i + 1);
    Bounds(q, i);
    Bounds(q, i + 1);
    Bounds(q, i + 2);
    DelayedCruiseBounds(q, i);
    if !Delayed(q, i + 1) {
      PeakAboveSmoothed(q, i + 1);
      Anchored(q, i + 1);
    }
  }

  lemma ContinuousFromDirect(q: seq<Limits>, i: nat)
    requires Chain(q) && i + 1 < |q| && !Delayed(q, i)
    ensures Triple(q, i).end == Triple(q, i + 1).start
  {
    ForwardLimit(q, i);
    ForwardLimit(q, i + 1);
    Bounds(q, i + 1);
    Bounds(q, i + 2);
    if !Delayed(q, i + 1) {
      PeakAboveSmoothed(q, i + 1);
      if Peaks(q, i) {
        Bounds(q, i);
        Anchored(q, i + 1);
      }
    }
  }

  lemma PlanContinuous(q: seq<Limits>, i: nat)
    requires Chain(q) && i + 1 < |q| && !Delayed(q, 0)
    ensures Triple(q, i).end == Triple(q, i + 1).start
  {
    hide Triple;
    if Delayed(q, i) {
      ContinuousFromDelayed(q, i);
    } else {
      ContinuousFromDirect(q, i);
    }
  }

  /** A whole plan: from rest, through equal speeds at every junction, to rest. */
  predicate RestToRest(p: seq<Junction>) {
    && (p != [] ==> p[0].start == 0.0 && p[|p| - 1].end == 0.0)
    && forall i :: 0 <= i < |p| - 1 ==> Joins(p, i)
  }

  predicate Joins(p: seq<Junction>, i: nat)
    requires i + 1 < |p|
  {
    p[i].end == p[i + 1].start
  }

  lemma FirstIsDirect(q: seq<Limits>)
    requires FreshChain(q) && q != []
    ensures !Delayed(q, 0)
  {
    Bounds(q, 0);
    Bounds(q, 1);
  }

  /** A single full flush plans feasible moves that join without a speed jump, from rest to rest. */
  lemma PlanRestToRest(q: seq<Limits>)
    requires FreshChain(q)
    ensures RestToRest(Plan(q))
    ensures forall i :: 0 <= i < |q| ==> Feasible(q[i], Plan(q)[i])
  {
    if q != [] {
      FirstIsDirect(q);
      forall i | 0 <= i < |q| ensures Feasible(q[i], Plan(q)[i]) {
        PlanFeasible(q, i);
      }
      forall i | 0 <= i < |q| - 1 ensures Joins(Plan(q), i) {
        PlanContinuous(q, i);
      }
      Bounds(q, 0);
    }
  }

  // ----- stability: what later moves cannot change -----

  /** A direct move whose junction limit is reached by both profiles: nothing after it is visible before it. */
  predicate Anchor(q: seq<Limits>, m: nat) {
    && m < |q|
    && !Delayed(q, m)
    && SmoothedV2(q, m) == q[m].maxStart
  }

  lemma {:induction false} Grows(q: seq<Limits>, x: seq<Limits>, i: nat)
    requires Chain(q + x) && Chain(q) && i <= |q|
    ensures StartV2(q, i) <= StartV2(q + x, i)
    ensures SmoothedV2(q, i) <= SmoothedV2(q + x, i)
    decreases |q| - i
  {
    if i < |q| {
      Grows(q, x, i + 1);
    } else {
      Bounds(q + x, i);
    }
  }

  lemma {:induction false} ProfilesStable(q: seq<Limits>, x: seq<Limits>, m: nat, i: nat)
    requires Chain(q + x) && Chain(q) && Anchor(q, m) && i <= m
    ensures StartV2(q + x, i) == StartV2(q, i)
    ensures SmoothedV2(q + x, i) == SmoothedV2(q, i)
    decreases m - i
  {
    Bounds(q, m);
    if i < m {
      ProfilesStable(q, x, m, i + 1);
    } else {
      Grows(q, x, m);
      Bounds(q + x, m);
    }
  }

  lemma AnchorStable(q: seq<Limits>, x: seq<Limits>, m: nat)
    requires Chain(q + x) && Chain(q) && Anchor(q, m)
    ensures Anchor(q + x, m)
  {
    ProfilesStable(q, x, m, m);
    Grows(q, x, m + 1);
  }

  lemma KindStable(q: seq<Limits>, x: seq<Limits>, m: nat, i: nat)
    requires Chain(q + x) && Chain(q) && Anchor(q, m) && i < m
    ensures Delayed(q + x, i) == Delayed(q, i) && Peaks(q + x, i) == Peaks(q, i)
  {
    ProfilesStable(q, x, m, i);
    ProfilesStable(q, x, m, i + 1);
    if i + 1 < m {
      ProfilesStable(q, x, m, i + 2);
    } else {
      AnchorStable(q, x, m);
    }
  }

  lemma {:induction false} PeakStable(q: seq<Limits>, x: seq<Limits>, m: nat, c: nat, i: nat)
    requires Chain(q + x) && Chain(q) && Anchor(q, m) && i <= c < m && Peaks(q, c)
    ensures Peak(q + x, i) == Peak(q, i)
    decreases c - i
  {
    assert m < |q|;
    hide StartV2, SmoothedV2, Anchor, Delayed, Peaks, Chain;
    KindStable(q, x, m, i);
    ProfilesStable(q, x, m, i);
    ProfilesStable(q, x, m, i + 1);
    if i < c {
      PeakStable(q, x, m, c, i + 1);
    }
  }

  lemma {:induction false} DelayedCruiseStable(q: seq<Limits>, x: seq<Limits>, m: nat, c: nat, i: nat)
    requires Chain(q + x) && Chain(q) && Anchor(q, m) && i <= c < m && Peaks(q, c)
    ensures DelayedCruise(q + x, i) == DelayedCruise(q, i)
  {
    hide StartV2, SmoothedV2, Delayed, Peaks, Peak, Anchor;
    ProfilesStable(q, x, m, i);
    if 0 < i {
      KindStable(q, x, m, i - 1);
      PeakStable(q, x, m, c, i - 1);
      DelayedCruiseStable(q, x, m, c, i - 1);
    }
  }

  /** A cut is settled when nothing appended later can change the plan before it. */
  ghost predicate Settled(q: seq<Limits>, c: nat) {
    c < |q| && Peaks(q, c) && exists m :: c < m && Anchor(q, m)
  }

  lemma SettledTriple(q: seq<Limits>, x: seq<Limits>, c: nat, i: nat)
    requires Chain(q + x) && Chain(q) && Settled(q, c) && i < c
    ensures Triple(q + x, i) == Triple(q, i)
  {
    hide StartV2, SmoothedV2, Delayed, Peaks, Peak, DelayedCruise, Anchor;
    var m :| c < m && Anchor(q, m);
    KindStable(q, x, m, i);
    ProfilesStable(q, x, m, i);
    ProfilesStable(q, x, m, i + 1);
    PeakStable(q, x, m, c, i);
    DelayedCruiseStable(q, x, m, c, i);
  }

  lemma SettledStable(q: seq<Limits>, x: seq<Limits>, c: nat)
    requires Chain(q + x) && Chain(q) && Settled(q, c)
    ensures Settled(q + x, c)
  {
    var m :| c < m && Anchor(q, m);
    KindStable(q, x, m, c);
    AnchorStable(q, x, m);
  }

  /** The next direct move at or after i, when some move at or after i carries a peak. */
  lemma {:induction false} NextDirect(q: seq<Limits>, i: nat) returns (m: nat)
    requires Chain(q) && i <= |q| && Peak(q, i) != 0.0
    ensures i <= m < |q| && !Delayed(q, m)
    ensures i < m ==> Delayed(q, m - 1)
    decreases |q| - i
  {
    if !Delayed(q, i) {
      m := i;
    } else {
      m := NextDirect(q, i + 1);
    }
  }

  /** Every cut that a lazy pass chooses is settled. */
  lemma CutSettled(q: seq<Limits>, c: nat)
    requires Chain(q) && c < |q| && Peaks(q, c) && Peak(q, c + 1) != 0.0
    ensures Settled(q, c)
  {
    var m := NextDirect(q, c + 1);
    Bounds(q, m - 1);
    Anchored(q, m);
    assert Anchor(q, m);
  }

  // ----- suffixes: what earlier moves cannot change -----

  lemma {:induction false} SuffixProfiles(h: seq<Limits>, k: nat, i: nat)
    requires k <= |h| && k + i <= |h|
    ensures StartV2(h[k..], i) == StartV2(h, k + i)
    ensures SmoothedV2(h[k..], i) == SmoothedV2(h, k + i)
    decreases |h| - i
  {
    if k + i < |h| {
      SuffixProfiles(h, k, i + 1);
    }
  }

  lemma SuffixKind(h: seq<Limits>, k: nat, i: nat)
    requires k + i < |h|
    ensures Delayed(h[k..], i) == Delayed(h, k + i) && Peaks(h[k..], i) == Peaks(h, k + i)
  {
    SuffixProfiles(h, k, i);
    SuffixProfiles(h, k, i + 1);
    if k + i + 1 < |h| {
      SuffixProfiles(h, k, i + 2);
    }
  }

  lemma {:induction false} SuffixPeak(h: seq<Limits>, k: nat, i: nat)
    requires k + i <= |h|
    ensures Peak(h[k..], i) == Peak(h, k + i)
    decreases |h| - i
  {
    if k + i < |h| {
      SuffixKind(h, k, i);
      SuffixProfiles(h, k, i);
      SuffixProfiles(h, k, i + 1);
      SuffixPeak(h, k, i + 1);
    }
  }

  lemma {:induction false} SuffixDelayedCruise(h: seq<Limits>, k: nat, i: nat)
    requires k + i < |h| && !Delayed(h, k) && 0 < i
    ensures DelayedCruise(h[k..], i) == DelayedCruise(h, k + i)
  {
    SuffixProfiles(h, k, i);
    SuffixKind(h, k, i - 1);
    SuffixPeak(h, k, i - 1);
    if 1 < i {
      SuffixDelayedCruise(h, k, i - 1);
    }
  }

  /** Dropping planned moves from the front does not change the plan of the rest, when the first move
    * that stays is a direct one. */
  lemma SuffixTriple(h: seq<Limits>, k: nat, i: nat)
    requires k + i < |h| && !Delayed(h, k)
    ensures Triple(h[k..], i) == Triple(h, k + i)
  {
    SuffixProfiles(h, k, i);
    SuffixProfiles(h, k, i + 1);
    SuffixKind(h, k, i);
    SuffixPeak(h, k, i);
    if 0 < i {
      SuffixDelayedCruise(h, k, i);
    }
  }

  lemma ChainSuffix(h: seq<Limits>, k: nat)
    requires Chain(h) && k <= |h|
    ensures Chain(h[k..])
  {
    forall i | 0 < i < |h[k..]| ensures Linked(h[k..][i - 1], h[k..][i]) {
      assert Linked(h[k + i - 1], h[k + i]);
    }
  }
}
