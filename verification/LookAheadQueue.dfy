/** `LookAheadQueue`: the pending moves and the backward pass over them. */
module LookAheadQueues {
  import opened Options
  import opened RealMath
  import opened MoveShape
  import opened JunctionPlan
  import opened LookAheadRuns
  import opened MotionPipeline
  import opened PrintTimes
  import R = MotionRuns
  import opened MoveProfile
  import opened ToolHeads

  predicate Distinct<T(==)>(s: seq<T>) {
    forall i, j :: 0 <= i < j < |s| ==> s[i] != s[j]
  }

  /** The values that the pass carries from move to move agree with the plan. */
  predicate PassAt(q: seq<Limits>, i: nat, lazy: bool, nextEndV2: real, nextSmoothedV2: real, peakCruiseV2: real,
                   updateFlushCount: bool, flushCount: nat)
  {
    && i <= |q|
    && nextEndV2 == StartV2(q, i) && nextSmoothedV2 == SmoothedV2(q, i) && peakCruiseV2 == Peak(q, i)
    && updateFlushCount == (lazy && Cut(q, i) == -1)
    && flushCount == (if lazy && Cut(q, i) != -1 then Cut(q, i) else |q|)
  }

  /** A move waiting for its peak, with its start and end speeds. */
  datatype Waiting = Waiting(move: Move, start: real, end: real)

  /** mc_v2 after the moves from the end of the list down to k have been resolved. */
  function ResolvedCruise(delayed: seq<Waiting>, peak: real, k: nat): real
    requires k <= |delayed|
    decreases |delayed| - k
  {
    if k == |delayed| then peak else Min(ResolvedCruise(delayed, peak, k + 1), delayed[k].start)
  }

  function Resolved(delayed: seq<Waiting>, peak: real, k: nat): Junction
    requires k < |delayed|
  {
    var c := ResolvedCruise(delayed, peak, k);
    Junction(Min(delayed[k].start, c), c, Min(delayed[k].end, c))
  }

  ghost predicate CanTake(m: Move, j: Junction)
    reads m`accel
  {
    IsSqrt(m.machine.sqrt) && Drivable(m.accel, j)
  }

  /** The move carries the speeds of junction j. */
  ghost predicate Given(m: Move, j: Junction)
    reads m
  {
    CanTake(m, j) && m.junction == j && m.Times() == MoveProfile.SetJunction(m.machine.sqrt, m.moveD, m.accel, j)
  }

  function Movers(delayed: seq<Waiting>): set<Move> {
    set w | w in delayed :: w.move
  }

  /** Resolves the delayed moves, earliest first, from the peak before them. */
  method PropagatePeak(delayed: seq<Waiting>, peakCruiseV2: real)
    requires forall k, l :: 0 <= k < l < |delayed| ==> delayed[k].move != delayed[l].move
    requires forall k :: 0 <= k < |delayed| ==> CanTake(delayed[k].move, Resolved(delayed, peakCruiseV2, k))
    modifies Movers(delayed)`startV, Movers(delayed)`cruiseV, Movers(delayed)`endV, Movers(delayed)`accelT,
             Movers(delayed)`cruiseT, Movers(delayed)`decelT, Movers(delayed)`junction
    ensures forall k :: 0 <= k < |delayed| ==> Given(delayed[k].move, Resolved(delayed, peakCruiseV2, k))
  {
    var mcV2 := peakCruiseV2;
    var k := |delayed|;
    while k > 0
      invariant 0 <= k <= |delayed|
      invariant mcV2 == ResolvedCruise(delayed, peakCruiseV2, k)
      invariant forall l :: k <= l < |delayed| ==> Given(delayed[l].move, Resolved(delayed, peakCruiseV2, l))
    {
      k := k - 1;
      var w := delayed[k];
      mcV2 := Min(mcV2, w.start);
      w.move.SetJunction(Min(w.start, mcV2), mcV2, Min(w.end, mcV2));
    }
  }

  /** The delayed moves from i on, last one first, as the pass has collected them on reaching i. */
  function DelayedFrom(q: seq<Limits>, moves: seq<Move>, i: nat): (ds: seq<Waiting>)
    requires |moves| == |q| && i <= |q|
    ensures i + |ds| <= |q|
    decreases |q| - i
  {
    if i == |q| || !JunctionPlan.Delayed(q, i) then []
    else DelayedFrom(q, moves, i + 1) + [Waiting(moves[i], StartV2(q, i), StartV2(q, i + 1))]
  }

  lemma {:induction false} DelayedFromAt(q: seq<Limits>, moves: seq<Move>, i: nat, k: nat)
    requires |moves| == |q| && i <= |q| && k < |DelayedFrom(q, moves, i)|
    ensures var j := i + |DelayedFrom(q, moves, i)| - 1 - k;
            JunctionPlan.Delayed(q, j) && DelayedFrom(q, moves, i)[k] == Waiting(moves[j], StartV2(q, j), StartV2(q, j + 1))
    decreases |q| - i
  {
    if k < |DelayedFrom(q, moves, i)| - 1 {
      DelayedFromAt(q, moves, i + 1, k);
    }
  }

  /** Resolving the delayed moves after a direct move i gives each its planned cruise speed. */
  lemma {:induction false} ResolvedIsPlanned(q: seq<Limits>, moves: seq<Move>, i: nat, k: nat)
    requires |moves| == |q| && i < |q| && !JunctionPlan.Delayed(q, i) && k <= |DelayedFrom(q, moves, i + 1)|
    ensures var ds := DelayedFrom(q, moves, i + 1); var j := i + |ds| - k;
            ResolvedCruise(ds, Peak(q, i), k) == (if k == |ds| then Peak(q, i) else DelayedCruise(q, j))
    decreases |DelayedFrom(q, moves, i + 1)| - k
  {
    var ds := DelayedFrom(q, moves, i + 1);
    if k < |ds| {
      ResolvedIsPlanned(q, moves, i, k + 1);
      DelayedFromAt(q, moves, i + 1, k);
      if k + 1 < |ds| {
        DelayedFromAt(q, moves, i + 1, k + 1);
      }
    }
  }

  lemma ResolvedIsTriple(q: seq<Limits>, moves: seq<Move>, i: nat, k: nat)
    requires |moves| == |q| && i < |q| && !JunctionPlan.Delayed(q, i) && k < |DelayedFrom(q, moves, i + 1)|
    ensures var ds := DelayedFrom(q, moves, i + 1); var j := i + |ds| - k;
            ds[k].move == moves[j] && Resolved(ds, Peak(q, i), k) == Triple(q, j)
  {
    ResolvedIsPlanned(q, moves, i, k);
    DelayedFromAt(q, moves, i + 1, k);
  }

  lemma MoversOutside(q: seq<Limits>, moves: seq<Move>, i: nat, j: nat)
    requires |moves| == |q| && i <= |q| && Distinct(moves) && j < |moves|
    requires j < i || i + |DelayedFrom(q, moves, i)| <= j
    ensures moves[j] !in Movers(DelayedFrom(q, moves, i))
  {
    var ds := DelayedFrom(q, moves, i);
    if moves[j] in Movers(ds) {
      var w :| w in ds && w.move == moves[j];
      var k :| 0 <= k < |ds| && ds[k] == w;
      DelayedFromAt(q, moves, i, k);
    }
  }

  lemma MoversDistinct(q: seq<Limits>, moves: seq<Move>, i: nat)
    requires |moves| == |q| && i <= |q| && Distinct(moves)
    ensures var ds := DelayedFrom(q, moves, i);
            forall k, l :: 0 <= k < l < |ds| ==> ds[k].move != ds[l].move
  {
    var ds := DelayedFrom(q, moves, i);
    forall k, l | 0 <= k < l < |ds| ensures ds[k].move != ds[l].move {
      DelayedFromAt(q, moves, i, k);
      DelayedFromAt(q, moves, i, l);
    }
  }

  /** A queue of moves that the pass can plan, together with the limits that it reads. */
  ghost predicate Pending(moves: seq<Move>, q: seq<Limits>, sqrt: real -> real)
    reads Members(moves)`accel, Members(moves)`maxStartV2, Members(moves)`maxCruiseV2, Members(moves)`deltaV2,
          Members(moves)`maxSmoothedV2, Members(moves)`smoothDeltaV2
  {
    && |moves| == |q| && Distinct(moves) && IsSqrt(sqrt)
    && Chain(q) && (q != [] ==> !JunctionPlan.Delayed(q, 0))
    && LimitsOf(moves) == q
    && forall j :: 0 <= j < |q| ==> 0.0 < q[j].shape.accel && moves[j].machine.sqrt == sqrt
  }

  /** Every move can take the speeds that the plan has for it. */
  ghost predicate Plannable(moves: seq<Move>, q: seq<Limits>)
    reads Members(moves)`accel
  {
    && |moves| == |q| && Distinct(moves)
    && forall j :: 0 <= j < |q| ==> CanTake(moves[j], Triple(q, j))
  }

  ghost predicate GivenFrom(moves: seq<Move>, q: seq<Limits>, from: nat, to: nat)
    reads moves
    requires |moves| == |q|
  {
    forall j :: from <= j < to && j < |q| ==> Given(moves[j], Triple(q, j))
  }

  /** Once move i has set the peak, the moves delayed after it get their planned speeds. */
  method ResolveDelayed(queue: seq<Move>, ghost q: seq<Limits>, ghost i: nat, delayed: seq<Waiting>, peakCruiseV2: real,
                        ghost to: nat)
    requires Plannable(queue, q) && i < |q| && !JunctionPlan.Delayed(q, i)
    requires delayed == DelayedFrom(q, queue, i + 1) && peakCruiseV2 == Peak(q, i)
    requires GivenFrom(queue, q, i + 1 + |delayed|, to)
    modifies Movers(delayed)`startV, Movers(delayed)`cruiseV, Movers(delayed)`endV, Movers(delayed)`accelT,
             Movers(delayed)`cruiseT, Movers(delayed)`decelT, Movers(delayed)`junction
    ensures Plannable(queue, q) && GivenFrom(queue, q, i + 1, to)
  {
    hide JunctionPlan.Delayed, Peak, Triple, Resolved, DelayedFrom;
    MoversDistinct(q, queue, i + 1);
    forall k | 0 <= k < |delayed| ensures CanTake(delayed[k].move, Resolved(delayed, peakCruiseV2, k)) {
      ResolvedIsTriple(q, queue, i, k);
    }
    PropagatePeak(delayed, peakCruiseV2);
    forall j | i + 1 <= j < to && j < |q| ensures Given(queue[j], Triple(q, j)) {
      if j <= i + |delayed| {
        ResolvedIsTriple(q, queue, i, i + |delayed| - j);
      } else {
        MoversOutside(q, queue, i + 1, j);
      }
    }
  }

  /** A direct move gets its planned speeds. */
  method SetDirect(move: Move, startV2: real, cruiseV2: real, endV2: real,
                   ghost queue: seq<Move>, ghost q: seq<Limits>, ghost i: nat, ghost to: nat)
    requires Plannable(queue, q) && i < |q| && move == queue[i]
    requires Triple(q, i) == Junction(startV2, cruiseV2, endV2) && GivenFrom(queue, q, i + 1, to)
    modifies move`startV, move`cruiseV, move`endV, move`accelT, move`cruiseT, move`decelT, move`junction
    ensures Plannable(queue, q) && GivenFrom(queue, q, i, to)
  {
    assert CanTake(queue[i], Triple(q, i));
    move.SetJunction(startV2, cruiseV2, endV2);
  }

  /** One step of the pass over a direct move, on its values. */
  lemma DirectStep(q: seq<Limits>, moves: seq<Move>, i: nat, lazy: bool, next: (real, real, real), update: bool, count: nat,
                   now: (real, real, real), update': bool, count': nat)
    requires |moves| == |q| && i < |q| && PassAt(q, i + 1, lazy, next.0, next.1, next.2, update, count)
    requires now == (StartV2(q, i), SmoothedV2(q, i), Peak(q, i)) && !JunctionPlan.Delayed(q, i)
    requires (update', count') == if update && Peaks(q, i) && next.2 != 0.0 then (false, i) else (update, count)
    ensures PassAt(q, i, lazy, now.0, now.1, now.2, update', count') && DelayedFrom(q, moves, i) == []
  {
  }

  /** One step of the pass over a move that cannot accelerate. */
  lemma DelayedStep(q: seq<Limits>, moves: seq<Move>, i: nat, lazy: bool, next: (real, real, real), update: bool, count: nat)
    requires |moves| == |q| && i < |q| && PassAt(q, i + 1, lazy, next.0, next.1, next.2, update, count)
    requires JunctionPlan.Delayed(q, i)
    ensures PassAt(q, i, lazy, StartV2(q, i), SmoothedV2(q, i), next.2, update, count)
    ensures DelayedFrom(q, moves, i) == DelayedFrom(q, moves, i + 1) + [Waiting(moves[i], StartV2(q, i), next.0)]
  {
  }

  lemma StepValues(q: seq<Limits>, i: nat, startV2: real, smoothedV2: real, nextEndV2: real, nextSmoothedV2: real)
    requires i < |q| && nextEndV2 == StartV2(q, i + 1) && nextSmoothedV2 == SmoothedV2(q, i + 1)
    requires startV2 == Min(q[i].maxStart, nextEndV2 + q[i].delta)
    requires smoothedV2 == Min(q[i].maxSmoothed, nextSmoothedV2 + q[i].smoothDelta)
    ensures startV2 == StartV2(q, i) && smoothedV2 == SmoothedV2(q, i)
    ensures JunctionPlan.Delayed(q, i) <==> !(smoothedV2 < nextSmoothedV2 + q[i].smoothDelta)
  {
  }

  lemma DirectTriple(q: seq<Limits>, i: nat, startV2: real, nextEndV2: real, peak: real, c: real)
    requires i < |q| && !JunctionPlan.Delayed(q, i)
    requires startV2 == StartV2(q, i) && nextEndV2 == StartV2(q, i + 1) && peak == Peak(q, i)
    requires c == Min(Min((startV2 + (nextEndV2 + q[i].delta)) * 0.5, q[i].maxCruise), peak)
    ensures Triple(q, i) == Junction(Min(startV2, c), c, Min(nextEndV2, c))
  {
  }

  lemma PassStart(q: seq<Limits>, moves: seq<Move>, lazy: bool)
    requires |moves| == |q|
    ensures PassAt(q, |q|, lazy, 0.0, 0.0, 0.0, lazy, |q|) && DelayedFrom(q, moves, |q|) == []
  {
  }

  lemma DelayedEmpty(q: seq<Limits>, moves: seq<Move>, i: nat)
    requires |moves| == |q| && i <= |q|
    ensures DelayedFrom(q, moves, i) != [] <==> i < |q| && JunctionPlan.Delayed(q, i)
  {
  }

  /** The branch of the pass for a move that can accelerate. */
  method VisitDirect(queue: seq<Move>, ghost q: seq<Limits>, i: nat, startV2: real, smoothedV2: real, nextEndV2: real,
                     nextSmoothedV2: real, peak: real, update: bool, count: nat, delayed: seq<Waiting>)
    returns (peakCruiseV2: real, updateFlushCount: bool, flushCount: nat)
    requires Plannable(queue, q) && i < |q| && queue[i].Limits() == q[i] && !JunctionPlan.Delayed(q, i)
    requires startV2 == StartV2(q, i) && smoothedV2 == SmoothedV2(q, i) && peak == Peak(q, i + 1)
    requires nextEndV2 == StartV2(q, i + 1) && nextSmoothedV2 == SmoothedV2(q, i + 1)
    requires delayed == DelayedFrom(q, queue, i + 1)
    requires !update ==> GivenFrom(queue, q, i + 1 + |delayed|, count)
    modifies Movers(delayed)`startV, Movers(delayed)`cruiseV, Movers(delayed)`endV, Movers(delayed)`accelT,
             Movers(delayed)`cruiseT, Movers(delayed)`decelT, Movers(delayed)`junction
    modifies {queue[i]}`startV, {queue[i]}`cruiseV, {queue[i]}`endV, {queue[i]}`accelT, {queue[i]}`cruiseT,
             {queue[i]}`decelT, {queue[i]}`junction
    ensures Plannable(queue, q) && peakCruiseV2 == Peak(q, i)
    ensures (updateFlushCount, flushCount) == if update && Peaks(q, i) && peak != 0.0 then (false, i) else (update, count)
    ensures !updateFlushCount ==> GivenFrom(queue, q, i, flushCount)
  {
    peakCruiseV2, updateFlushCount, flushCount := peak, update, count;
    var move := queue[i];
    DelayedEmpty(q, queue, i + 1);
    if smoothedV2 + move.smoothDeltaV2 > nextSmoothedV2 || delayed != [] {
      if updateFlushCount && peakCruiseV2 != 0.0 {
        flushCount := i;
        updateFlushCount := false;
      }
      peakCruiseV2 := Min(move.maxCruiseV2, (smoothedV2 + (nextSmoothedV2 + move.smoothDeltaV2)) * 0.5);
      if delayed != [] && !updateFlushCount && i < flushCount {
        // The delayed moves now get the lowered peak.
        ResolveDelayed(queue, q, i, delayed, peakCruiseV2, flushCount);
      }
    }
    if !updateFlushCount && i < flushCount {
      var cruiseV2 := Min(Min((startV2 + (nextEndV2 + move.deltaV2)) * 0.5, move.maxCruiseV2), peakCruiseV2);
      DirectTriple(q, i, startV2, nextEndV2, peakCruiseV2, cruiseV2);
      SetDirect(move, Min(startV2, cruiseV2), cruiseV2, Min(nextEndV2, cruiseV2), queue, q, i, flushCount);
    }
  }

  /** The variables of the traversal. */
  datatype Pass = Pass(nextEndV2: real, nextSmoothedV2: real, peakCruiseV2: real,
                       updateFlushCount: bool, flushCount: nat, delayed: seq<Waiting>)

  /** What the traversal has established on reaching move i. */
  ghost predicate PassInv(queue: seq<Move>, q: seq<Limits>, i: nat, lazy: bool, p: Pass)
    reads queue
  {
    && i <= |q| && Plannable(queue, q)
    && PassAt(q, i, lazy, p.nextEndV2, p.nextSmoothedV2, p.peakCruiseV2, p.updateFlushCount, p.flushCount)
    && p.delayed == DelayedFrom(q, queue, i)
    && (!p.updateFlushCount ==> GivenFrom(queue, q, i + |p.delayed|, p.flushCount))
  }

  /** One round of the traversal. */
  method Visit(queue: seq<Move>, ghost q: seq<Limits>, i: nat, ghost lazy: bool, p: Pass, ghost sqrt: real -> real)
    returns (p': Pass)
    requires Pending(queue, q, sqrt) && i < |queue| && PassInv(queue, q, i + 1, lazy, p)
    modifies Members(queue)`startV, Members(queue)`cruiseV, Members(queue)`endV, Members(queue)`accelT,
             Members(queue)`cruiseT, Members(queue)`decelT, Members(queue)`junction
    ensures PassInv(queue, q, i, lazy, p')
  {
    hide StartV2, SmoothedV2, JunctionPlan.Delayed, Peaks, Peak, Cut, DelayedFrom, Plannable, GivenFrom;
    var Pass(nextEndV2, nextSmoothedV2, peakCruiseV2, updateFlushCount, flushCount, delayed) := p;
    var move := queue[i];
    assert move.Limits() == q[i];
    var startV2 := Min(move.maxStartV2, nextEndV2 + move.deltaV2);
    var reachableSmoothedV2 := nextSmoothedV2 + move.smoothDeltaV2;
    var smoothedV2 := Min(move.maxSmoothedV2, reachableSmoothedV2);
    StepValues(q, i, startV2, smoothedV2, nextEndV2, nextSmoothedV2);
    ghost var next := (nextEndV2, nextSmoothedV2, peakCruiseV2);
    if smoothedV2 < reachableSmoothedV2 {
      // It reaches its own limit, so its speeds are known.
      MoversInside(q, queue, i + 1);
      peakCruiseV2, updateFlushCount, flushCount := VisitDirect(queue, q, i, startV2, smoothedV2, nextEndV2, nextSmoothedV2,
                                                                peakCruiseV2, updateFlushCount, flushCount, delayed);
      DirectStep(q, queue, i, lazy, next, p.updateFlushCount, p.flushCount,
                 (startV2, smoothedV2, peakCruiseV2), updateFlushCount, flushCount);
      p' := Pass(startV2, smoothedV2, peakCruiseV2, updateFlushCount, flushCount, []);
    } else {
      // Its speeds depend on a peak further to the front.
      DelayedStep(q, queue, i, lazy, next, updateFlushCount, flushCount);
      p' := Pass(startV2, smoothedV2, peakCruiseV2, updateFlushCount, flushCount,
                 delayed + [Waiting(move, startV2, nextEndV2)]);
    }
  }

  /** The traversal of `flush`, from the last move to the first. */
  method BackwardPass(queue: seq<Move>, lazy: bool, ghost q: seq<Limits>, ghost sqrt: real -> real)
    returns (flushCount: nat, updateFlushCount: bool)
    requires Pending(queue, q, sqrt) && Plannable(queue, q)
    modifies Members(queue)`startV, Members(queue)`cruiseV, Members(queue)`endV, Members(queue)`accelT,
             Members(queue)`cruiseT, Members(queue)`decelT, Members(queue)`junction
    ensures updateFlushCount == (lazy && Cut(q, 0) == -1)
    ensures flushCount == if lazy && Cut(q, 0) != -1 then Cut(q, 0) else |queue|
    ensures !updateFlushCount ==> GivenFrom(queue, q, 0, flushCount)
  {
    PassStart(q, queue, lazy);
    var p := Pass(0.0, 0.0, 0.0, lazy, |queue|, []);
    var i := |queue|;
    while i > 0
      invariant 0 <= i <= |queue|
      invariant PassInv(queue, q, i, lazy, p)
    {
      i := i - 1;
      p := Visit(queue, q, i, lazy, p, sqrt);
    }
    DelayedEmpty(q, queue, 0);
    flushCount, updateFlushCount := p.flushCount, p.updateFlushCount;
  }

  lemma MoversInside(q: seq<Limits>, moves: seq<Move>, i: nat)
    requires |moves| == |q| && i <= |q|
    ensures Movers(DelayedFrom(q, moves, i)) <= Members(moves)
  {
    var ds := DelayedFrom(q, moves, i);
    forall m | m in Movers(ds) ensures m in Members(moves) {
      var w :| w in ds && w.move == m;
      var k :| 0 <= k < |ds| && ds[k] == w;
      DelayedFromAt(q, moves, i, k);
    }
  }

  lemma QueueChain(s: LookAhead, r: Stretches, k: nat)
    requires Refines(s, r, k)
    ensures Chain(s.queue) && (s.queue != [] ==> !JunctionPlan.Delayed(s.queue, 0))
  {
    ChainSuffix(r.open, k);
    if s.queue != [] {
      FirstIsDirect(r.open);
      SuffixKind(r.open, k, 0);
    }
  }

  lemma TripleDrivable(q: seq<Limits>, i: nat)
    requires Chain(q) && i < |q| && !JunctionPlan.Delayed(q, 0) && 0.0 < q[i].shape.accel
    ensures Drivable(q[i].shape.accel, Triple(q, i))
  {
    PlanFeasible(q, i);
  }

  /** The moves carry exactly the speeds and profiles of these planned moves. */
  ghost predicate ReadyRow(moves: seq<Move>, ps: seq<Planned>, sqrt: real -> real)
    reads moves
  {
    IsSqrt(sqrt) && AllTimed(ps) && PlannedOf(moves) == ps && Carried(moves) == RowOf(sqrt, ps)
  }

  lemma GivenIsReady(m: Move, q: seq<Limits>, i: nat)
    requires Chain(q) && i < |q| && !JunctionPlan.Delayed(q, 0) && 0.0 < q[i].shape.accel
    requires m.Limits() == q[i] && Given(m, Triple(q, i))
    ensures var p := Planned(q[i], Triple(q, i));
            Timed(p) && m.AsPlanned() == p && m.Shape() == p.limits.shape && m.Times() == ProfileOf(m.machine.sqrt, p)
  {
    PlanFeasible(q, i);
  }

  lemma RowIsReady(moves: seq<Move>, q: seq<Limits>, n: nat, sqrt: real -> real)
    requires Pending(moves, q, sqrt) && n <= |moves| == |q|
    requires GivenFrom(moves, q, 0, n)
    ensures ReadyRow(moves[..n], PlanOf(q)[..n], sqrt)
  {
    var ms, ps := moves[..n], PlanOf(q)[..n];
    forall j | 0 <= j < n
      ensures Timed(ps[j]) && ms[j].AsPlanned() == ps[j]
      ensures (ms[j].Shape(), ms[j].Times()) == (ps[j].limits.shape, ProfileOf(sqrt, ps[j]))
    {
      GivenIsReady(moves[j], q, j);
    }
  }

  /** Before the pass, every queued move can take what is planned for it. */
  lemma QueuePlannable(moves: seq<Move>, q: seq<Limits>, sqrt: real -> real)
    requires Pending(moves, q, sqrt)
    ensures Plannable(moves, q)
  {
    forall j | 0 <= j < |q| ensures CanTake(moves[j], Triple(q, j)) {
      TripleDrivable(q, j);
    }
  }

  lemma LimitsSuffix(ms: seq<Move>, n: nat)
    requires n <= |ms|
    ensures LimitsOf(ms[n..]) == LimitsOf(ms)[n..]
  {
  }

  /** The limits after appending a move that was `limits` before it met its corner. */
  lemma Appended(ms: seq<Move>, m: Move, limits: Limits, cap: Option<real>)
    requires m.Limits() == if ms == [] then limits else Connect(ms[|ms| - 1].Limits(), limits, cap)
    ensures LimitsOf(ms + [m]) == Append(LimitsOf(ms), limits, cap)
  {
    hide Connect, LimitsOf;
    forall i | 0 <= i < |ms| ensures LimitsOf(ms + [m])[i] == LimitsOf(ms)[i] {
    }
    assert LimitsOf(ms + [m]) == LimitsOf(ms) + [m.Limits()];
  }

  lemma StepAdd(s: LookAhead, m: Limits, cap: Option<real>)
    ensures Step(s, Add(m, cap)) == LookAhead(Append(s.queue, m, cap), s.log)
  {
  }

  /** The state after a flush, from the number of moves handed over. */
  lemma FlushResult(s: LookAhead, lazy: bool, n: nat)
    requires n == if !lazy then |s.queue| else if Cut(s.queue, 0) <= 0 then 0 else Cut(s.queue, 0)
    ensures LookAhead(s.queue[n..], s.log + PlanOf(s.queue)[..n]) == if lazy then LazyFlush(s) else FullFlush(s)
  {
    hide Cut, Triple;
    if n == 0 {
      assert s.queue[n..] == s.queue && s.log + PlanOf(s.queue)[..n] == s.log;
    }
    if n == |s.queue| {
      assert PlanOf(s.queue)[..n] == PlanOf(s.queue);
    }
  }

  lemma FlushRefines(s: LookAhead, r: Stretches, k: nat, lazy: bool) returns (k': nat)
    requires Refines(s, r, k)
    ensures lazy ==> Refines(LazyFlush(s), r, k')
    ensures !lazy ==> Refines(FullFlush(s), Stretches(r.closed + [r.open], []), k')
  {
    if lazy {
      k' := LazyRefines(s, r, k);
    } else {
      FullRefines(s, r, k);
      k' := 0;
    }
  }

  /** What handing moves over does to the toolhead: what the flush does in a run of its actions. */
  ghost predicate Fed(sqrt: real -> real, delay: real, before: Drive, after: Drive, a: R.Action, handed: seq<Planned>) {
    IsSqrt(sqrt) && AllTimed(handed) && after == R.Act(sqrt, delay, before, a, handed)
  }

  function FlushAction(lazy: bool, now: Now): R.Action {
    if lazy then R.LazyFlush(now) else R.Flush(now)
  }

  lemma FedNothing(sqrt: real -> real, delay: real, d: Drive, lazy: bool, now: Now)
    requires IsSqrt(sqrt)
    ensures Fed(sqrt, delay, d, d, FlushAction(lazy, now), [])
  {
  }

  lemma FedRow(sqrt: real -> real, delay: real, d: Drive, lazy: bool, now: Now, handed: seq<Planned>)
    requires IsSqrt(sqrt) && AllTimed(handed) && handed != []
    ensures Fed(sqrt, delay, d, ProcessRow(d, delay, now, RowOf(sqrt, handed)), FlushAction(lazy, now), handed)
  {
  }

  /** A full flush, and then actions that hand nothing over. */
  function FlushThen(sqrt: real -> real, delay: real, d: Drive, now: Now, handed: seq<Planned>,
                     rest: seq<R.Action>): Drive
    requires IsSqrt(sqrt) && AllTimed(handed)
  {
    if rest == [] then R.Act(sqrt, delay, d, R.Flush(now), handed)
    else
      var n := |rest| - 1;
      R.Act(sqrt, delay, FlushThen(sqrt, delay, d, now, handed, rest[..n]), rest[n], [])
  }

  ghost predicate FedThen(sqrt: real -> real, delay: real, before: Drive, after: Drive, now: Now, handed: seq<Planned>,
                          rest: seq<R.Action>)
  {
    IsSqrt(sqrt) && AllTimed(handed) && after == FlushThen(sqrt, delay, before, now, handed, rest)
  }

  lemma FedFlush(sqrt: real -> real, delay: real, before: Drive, after: Drive, now: Now, handed: seq<Planned>)
    requires Fed(sqrt, delay, before, after, FlushAction(false, now), handed)
    ensures FedThen(sqrt, delay, before, after, now, handed, [])
  {
  }

  lemma FedNext(sqrt: real -> real, delay: real, before: Drive, d: Drive, now: Now, handed: seq<Planned>,
                rest: seq<R.Action>, a: R.Action)
    requires FedThen(sqrt, delay, before, d, now, handed, rest)
    ensures FedThen(sqrt, delay, before, R.Act(sqrt, delay, d, a, []), now, handed, rest + [a])
  {
    assert (rest + [a])[..|rest|] == rest;
  }

  lemma FedTwice(sqrt: real -> real, delay: real, before: Drive, d: Drive, now: Now, handed: seq<Planned>,
                 rest: seq<R.Action>, a: R.Action, b: R.Action)
    requires FedThen(sqrt, delay, before, d, now, handed, rest)
    ensures FedThen(sqrt, delay, before, R.Act(sqrt, delay, R.Act(sqrt, delay, d, a, []), b, []), now, handed,
                    rest + [a, b])
  {
    FedNext(sqrt, delay, before, d, now, handed, rest, a);
    FedNext(sqrt, delay, before, R.Act(sqrt, delay, d, a, []), now, handed, rest + [a], b);
    assert rest + [a] + [b] == rest + [a, b];
  }

  /** The states that the flushes and waits of the toolhead go through, from the state it is in. */
  function Settling(mode: Queuing, est: real): seq<R.Action> {
    if mode == Main then [] else [R.ToNeedPrime, R.Settle(est)]
  }

  /** What stays of a list that loses moves at the front. */
  predicate Remains(rest: seq<Move>, all: seq<Move>) {
    |rest| <= |all| && rest == all[|all| - |rest|..]
  }

  lemma RemainsAfter(all: seq<Move>, n: nat)
    requires n <= |all|
    ensures Remains(all[n..], all)
  {
  }

  /** A move that has a length, an acceleration and a junction deviation. */
  ghost predicate Sturdy(m: Move)
    reads m`accel
  {
    0.0 < m.accel && 0.0 < m.moveD && 0.0 <= m.junctionDeviation
  }

  /** Moves that can be planned together.  They may have been built under different velocity limits, which can
    * change while moves are queued; only the square root is shared. */
  ghost predicate Movable(ms: seq<Move>, sqrt: real -> real)
    reads Members(ms)`accel
  {
    IsSqrt(sqrt) && Distinct(ms) && forall m :: m in ms ==> m.machine.sqrt == sqrt && Sturdy(m)
  }

  lemma MovableSuffix(ms: seq<Move>, n: nat, sqrt: real -> real)
    requires n <= |ms| && Movable(ms, sqrt)
    ensures Movable(ms[n..], sqrt)
  {
    forall m | m in ms[n..] ensures m in ms {
    }
  }

  lemma MovableAppend(ms: seq<Move>, m: Move, sqrt: real -> real)
    requires Movable(ms, sqrt) && m !in ms && m.machine.sqrt == sqrt && Sturdy(m)
    ensures Movable(ms + [m], sqrt)
  {
  }

  lemma StepLazy(s: LookAhead)
    ensures Step(s, Lazy) == LazyFlush(s)
  {
  }

  class LookAheadQueue {
    const toolhead: ToolHead
    var queue: seq<Move>
    var junctionFlush: real
    ghost var stretches: Stretches  // the moves between stops, as one-shot planning sees them
    ghost var handed: nat  // how many moves of the open stretch have been handed over

    ghost function State(): LookAhead
      reads `queue, Members(queue)`accel, Members(queue)`maxStartV2, Members(queue)`maxCruiseV2,
            Members(queue)`deltaV2, Members(queue)`maxSmoothedV2, Members(queue)`smoothDeltaV2, toolhead`log
    {
      LookAhead(LimitsOf(queue), toolhead.log)
    }

    ghost predicate Valid()
      reads `queue, `stretches, `handed, Members(queue)`accel, Members(queue)`maxStartV2, Members(queue)`maxCruiseV2,
            Members(queue)`deltaV2, Members(queue)`maxSmoothedV2, Members(queue)`smoothDeltaV2, toolhead`log
    {
      Movable(queue, toolhead.machine.sqrt) && Refines(State(), stretches, handed)
    }

    constructor (t: ToolHead)
      requires IsSqrt(t.machine.sqrt) && t.log == []
      ensures Valid() && toolhead == t && queue == [] && stretches == Stretches([], []) && handed == 0
      ensures junctionFlush == LOOKAHEAD_FLUSH_TIME
    {
      toolhead := t;
      queue := [];
      junctionFlush := LOOKAHEAD_FLUSH_TIME;
      stretches := Stretches([], []);
      handed := 0;
    }

    /** flush */
    method Flush(lazy: bool, now: Now)
      requires Valid()
      modifies this, toolhead`printTime, toolhead`specialQueuingState, toolhead`lastFlushTime,
               toolhead`minRestartTime, toolhead`log, toolhead`gens, toolhead.trapq
      modifies Members(queue)`startV, Members(queue)`cruiseV, Members(queue)`endV, Members(queue)`accelT,
               Members(queue)`cruiseT, Members(queue)`decelT, Members(queue)`junction
      ensures Valid() && junctionFlush == LOOKAHEAD_FLUSH_TIME
      ensures State() == if lazy then LazyFlush(old(State())) else FullFlush(old(State()))
      ensures Remains(queue, old(queue)) && old(toolhead.log) <= toolhead.log
      ensures stretches == if lazy then old(stretches) else Stretches(old(stretches.closed) + [old(stretches.open)], [])
      ensures Fed(toolhead.machine.sqrt, toolhead.kinFlushDelay, old(toolhead.DriveState()), toolhead.DriveState(),
                  FlushAction(lazy, now), toolhead.log[|old(toolhead.log)|..])
    {
      hide *;
      ghost var s := State();
      ValidParts();
      junctionFlush := LOOKAHEAD_FLUSH_TIME;
      FlushMovable(lazy, now, s);
      Record(lazy, s);
    }

    /** The work of `flush` on a queue of movable moves, of which a part remains. */
    method FlushMovable(lazy: bool, now: Now, ghost s: LookAhead)
      requires s == State() && Pending(queue, s.queue, toolhead.machine.sqrt) && Movable(queue, toolhead.machine.sqrt)
      requires IsSqrt(toolhead.machine.sqrt)
      modifies `queue, toolhead`printTime, toolhead`specialQueuingState, toolhead`lastFlushTime,
               toolhead`minRestartTime, toolhead`log, toolhead`gens, toolhead.trapq
      modifies Members(queue)`startV, Members(queue)`cruiseV, Members(queue)`endV,
               Members(queue)`accelT, Members(queue)`cruiseT, Members(queue)`decelT,
               Members(queue)`junction
      ensures State() == if lazy then LazyFlush(s) else FullFlush(s)
      ensures Movable(queue, toolhead.machine.sqrt)
      ensures Remains(queue, old(queue)) && old(toolhead.log) <= toolhead.log
      ensures Fed(toolhead.machine.sqrt, toolhead.kinFlushDelay, old(toolhead.DriveState()), toolhead.DriveState(),
                  FlushAction(lazy, now), toolhead.log[|old(toolhead.log)|..])
    {
      hide Pending, Fed, LazyFlush, FullFlush, Remains, IsSqrt, FlushAction, LimitsOf, Sturdy;
      ghost var before := queue;
      var n := FlushQueue(lazy, now, s);
      MovableSuffix(before, n, toolhead.machine.sqrt);
      RemainsAfter(before, n);
    }

    /** What a flush means for the stretches. */
    ghost method Record(lazy: bool, s: LookAhead)
      requires Movable(queue, toolhead.machine.sqrt) && Refines(s, stretches, handed)
      requires State() == if lazy then LazyFlush(s) else FullFlush(s)
      modifies `stretches, `handed
      ensures Valid()
      ensures stretches == if lazy then old(stretches) else Stretches(old(stretches.closed) + [old(stretches.open)], [])
    {
      hide *;
      var k := FlushRefines(s, stretches, handed, lazy);
      handed := k;
      if !lazy {
        stretches := Stretches(stretches.closed + [stretches.open], []);
      }
      PartsValid();
    }

    lemma ValidParts()
      requires Valid()
      ensures Movable(queue, toolhead.machine.sqrt) && Refines(State(), stretches, handed)
      ensures IsSqrt(toolhead.machine.sqrt) && Pending(queue, State().queue, toolhead.machine.sqrt)
    {
      var q := LimitsOf(queue);
      QueueChain(State(), stretches, handed);
      forall j | 0 <= j < |q|
        ensures 0.0 < q[j].shape.accel && queue[j].machine.sqrt == toolhead.machine.sqrt
      {
        assert queue[j] in queue;
      }
    }

    lemma PartsValid()
      requires Movable(queue, toolhead.machine.sqrt) && Refines(State(), stretches, handed)
      ensures Valid()
    {
    }

    /** The work of `flush`: plan, then hand over what is ready. */
    method FlushQueue(lazy: bool, now: Now, ghost s: LookAhead) returns (flushCount: nat)
      requires s == State() && Pending(queue, s.queue, toolhead.machine.sqrt) && IsSqrt(toolhead.machine.sqrt)
      modifies `queue, toolhead`printTime, toolhead`specialQueuingState, toolhead`lastFlushTime,
               toolhead`minRestartTime, toolhead`log, toolhead`gens, toolhead.trapq
      modifies Members(queue)`startV, Members(queue)`cruiseV, Members(queue)`endV,
               Members(queue)`accelT, Members(queue)`cruiseT, Members(queue)`decelT,
               Members(queue)`junction
      ensures flushCount <= |old(queue)| && queue == old(queue)[flushCount..]
      ensures old(toolhead.log) <= toolhead.log
      ensures State() == if lazy then LazyFlush(s) else FullFlush(s)
      ensures Fed(toolhead.machine.sqrt, toolhead.kinFlushDelay, old(toolhead.DriveState()), toolhead.DriveState(),
                  FlushAction(lazy, now), toolhead.log[|old(toolhead.log)|..])
    {
      hide Pending, ReadyRow, Fed, LazyFlush, FullFlush, Triple, Cut, LimitsOf, Members;
      flushCount := PlanQueue(lazy, s.queue);
      assert LimitsOf(queue) == s.queue;
      FlushResult(s, lazy, flushCount);
      FedNothing(toolhead.machine.sqrt, toolhead.kinFlushDelay, toolhead.DriveState(), lazy, now);
      if flushCount != 0 {
        HandOver(flushCount, lazy, now, PlanOf(s.queue)[..flushCount]);
      }
      assert LimitsOf(old(queue)) == s.queue;
      LimitsSuffix(old(queue), flushCount);
    }

    /** The traversal and its outcome: how many moves at the front are ready. */
    method PlanQueue(lazy: bool, ghost q: seq<Limits>) returns (flushCount: nat)
      requires Pending(queue, q, toolhead.machine.sqrt)
      modifies Members(queue)`startV, Members(queue)`cruiseV, Members(queue)`endV,
               Members(queue)`accelT, Members(queue)`cruiseT, Members(queue)`decelT,
               Members(queue)`junction
      ensures flushCount == if !lazy then |queue| else if Cut(q, 0) <= 0 then 0 else Cut(q, 0)
      ensures flushCount <= |queue| && ReadyRow(queue[..flushCount], PlanOf(q)[..flushCount], toolhead.machine.sqrt)
    {
      hide Pending, Plannable, GivenFrom, ReadyRow;
      QueuePlannable(queue, q, toolhead.machine.sqrt);
      var count, update := BackwardPass(queue, lazy, q, toolhead.machine.sqrt);
      flushCount := if update then 0 else count;
      RowIsReady(queue, q, flushCount, toolhead.machine.sqrt);
    }

    /** _process_moves(queue[:flush_count]); del queue[:flush_count] */
    method HandOver(flushCount: nat, ghost lazy: bool, now: Now, ghost ps: seq<Planned>)
      requires 0 < flushCount <= |queue| && ReadyRow(queue[..flushCount], ps, toolhead.machine.sqrt)
      modifies `queue, toolhead`printTime, toolhead`specialQueuingState, toolhead`lastFlushTime,
               toolhead`minRestartTime, toolhead`log, toolhead`gens, toolhead.trapq
      ensures queue == old(queue)[flushCount..] && toolhead.log == old(toolhead.log) + ps
      ensures Fed(toolhead.machine.sqrt, toolhead.kinFlushDelay, old(toolhead.DriveState()), toolhead.DriveState(),
                  FlushAction(lazy, now), ps)
    {
      hide ProcessRow;
      FedRow(toolhead.machine.sqrt, toolhead.kinFlushDelay, toolhead.DriveState(), lazy, now, ps);
      toolhead.ProcessMoves(queue[..flushCount], now);
      queue := queue[flushCount..];
    }

    /** The corner limits of a new move at the end of the queue. */
    ghost function Corner(move: Move, extruderV2: real): Option<real>
      requires IsSqrt(toolhead.machine.sqrt)
      reads `queue, Members(queue)`accel, move`accel
    {
      if queue == [] then None
      else JunctionCap(toolhead.machine.sqrt, queue[|queue| - 1].Shape(), move.Shape(), extruderV2)
    }

    /** The queue with the new move at its end is still valid, and is the appended queue of the plan. */
    method Enqueue(move: Move, extruderV2: real)
      requires Valid() && move !in queue && move.machine.sqrt == toolhead.machine.sqrt && Sturdy(move)
      requires FreshMove(move.Limits()) && 0.0 <= extruderV2
      modifies `queue, `stretches, move`maxStartV2, move`maxSmoothedV2
      ensures Valid() && queue == old(queue) + [move]
      ensures State() == Step(old(State()), Add(old(move.Limits()), old(Corner(move, extruderV2))))
    {
      hide Refines, Connect, JunctionCap, Append, Step, LimitsOf, Movable, Pending, State, ValidEvent, Sturdy;
      ValidParts();
      ghost var s, before, limits, cap := State(), queue, move.Limits(), Corner(move, extruderV2);
      StateParts();
      CornerValid(move, extruderV2);
      queue := queue + [move];
      if |queue| != 1 {
        Joins(move, extruderV2);
      }
      assert LimitsOf(before) == s.queue;
      Appended(before, move, limits, cap);
      StepAdd(s, limits, cap);
      AddRefines(s, stretches, handed, limits, cap);
      stretches := stretches.(open := Append(stretches.open, limits, cap));
      StateParts();
      assert State() == Step(s, Add(limits, cap));
      MovableAppend(before, move, toolhead.machine.sqrt);
      PartsValid();
    }

    lemma StateParts()
      ensures State() == LookAhead(LimitsOf(queue), toolhead.log)
    {
    }

    lemma CornerValid(move: Move, extruderV2: real)
      requires Valid() && FreshMove(move.Limits()) && Sturdy(move) && 0.0 <= extruderV2
      ensures ValidEvent(Add(move.Limits(), Corner(move, extruderV2)))
    {
      if queue != [] {
        var p := queue[|queue| - 1];
        assert p in queue;
        JunctionCapNonNegative(toolhead.machine.sqrt, p.Shape(), move.Shape(), extruderV2);
      }
    }

    /** The junction between a new move and the one queued before it. */
    method Joins(move: Move, extruderV2: real)
      requires IsSqrt(toolhead.machine.sqrt) && move.machine.sqrt == toolhead.machine.sqrt && |queue| > 1
      requires move == queue[|queue| - 1] && move != queue[|queue| - 2] && FreshMove(move.Limits())
      modifies move`maxStartV2, move`maxSmoothedV2
      ensures move.Limits() == Connect(queue[|queue| - 2].Limits(), old(move.Limits()),
                                       JunctionCap(toolhead.machine.sqrt, queue[|queue| - 2].Shape(), move.Shape(),
                                                   extruderV2))
    {
      move.CalcJunction(queue[|queue| - 2], extruderV2);
    }

    /** _flush_lookahead of the toolhead */
    method FlushLookahead(now: Now)
      requires Valid()
      modifies this, toolhead`printTime, toolhead`specialQueuingState, toolhead`lastFlushTime,
               toolhead`minRestartTime, toolhead`log, toolhead`gens, toolhead.trapq
      modifies Members(queue)`startV, Members(queue)`cruiseV, Members(queue)`endV, Members(queue)`accelT,
               Members(queue)`cruiseT, Members(queue)`decelT, Members(queue)`junction
      ensures Valid() && State() == FullFlush(old(State())) && junctionFlush == LOOKAHEAD_FLUSH_TIME
      ensures old(toolhead.log) <= toolhead.log
      ensures FedThen(toolhead.machine.sqrt, toolhead.kinFlushDelay, old(toolhead.DriveState()), toolhead.DriveState(),
                      now, toolhead.log[|old(toolhead.log)|..], [R.ToNeedPrime])
    {
      hide Valid, State, FullFlush, LazyFlush, Fed, FedThen, FlushThen, Remains;
      ghost var d0, log0 := toolhead.DriveState(), toolhead.log;
      Flush(false, now);
      ghost var d1 := toolhead.DriveState();
      FedFlush(toolhead.machine.sqrt, toolhead.kinFlushDelay, d0, d1, now, toolhead.log[|log0|..]);
      FedNext(toolhead.machine.sqrt, toolhead.kinFlushDelay, d0, d1, now, toolhead.log[|log0|..], [], R.ToNeedPrime);
      assert [] + [R.ToNeedPrime] == [R.ToNeedPrime];
      toolhead.specialQueuingState := NeedPrime;
      junctionFlush := LOOKAHEAD_FLUSH_TIME;
    }

    /** flush_step_generation of the toolhead; `stepGenTime` is what was noted to be flushed */
    method FlushStepGeneration(now: Now, stepGenTime: real)
      requires Valid()
      modifies this, toolhead`printTime, toolhead`specialQueuingState, toolhead`lastFlushTime,
               toolhead`minRestartTime, toolhead`log, toolhead`gens, toolhead.trapq
      modifies Members(queue)`startV, Members(queue)`cruiseV, Members(queue)`endV, Members(queue)`accelT,
               Members(queue)`cruiseT, Members(queue)`decelT, Members(queue)`junction
      ensures Valid() && State() == FullFlush(old(State())) && junctionFlush == LOOKAHEAD_FLUSH_TIME
      ensures old(toolhead.log) <= toolhead.log
      ensures FedThen(toolhead.machine.sqrt, toolhead.kinFlushDelay, old(toolhead.DriveState()), toolhead.DriveState(),
                      now, toolhead.log[|old(toolhead.log)|..],
                      [R.ToNeedPrime, R.Background(stepGenTime, now.clear), R.HoldRestart])
    {
      hide FullFlush, LazyFlush, Fed, FedThen, FlushThen, Remains, AdvanceFlush, Refines;
      ghost var d0, log0 := toolhead.DriveState(), toolhead.log;
      FlushLookahead(now);
      ghost var s, d1 := State(), toolhead.DriveState();
      toolhead.AdvanceFlushTime(stepGenTime, now.clear);
      ghost var d2 := toolhead.DriveState();
      toolhead.HoldRestart();
      assert State() == s && Valid();
      FedTwice(toolhead.machine.sqrt, toolhead.kinFlushDelay, d0, d1, now, toolhead.log[|log0|..], [R.ToNeedPrime],
               R.Background(stepGenTime, now.clear), R.HoldRestart);
      assert [R.ToNeedPrime] + [R.Background(stepGenTime, now.clear), R.HoldRestart]
          == [R.ToNeedPrime, R.Background(stepGenTime, now.clear), R.HoldRestart];
    }

    /** get_last_move_time of the toolhead; `est` is the estimated print time after the flush */
    method GetLastMoveTime(now: Now, est: real) returns (t: real)
      requires Valid()
      modifies this, toolhead`printTime, toolhead`specialQueuingState, toolhead`lastFlushTime,
               toolhead`minRestartTime, toolhead`log, toolhead`gens, toolhead.trapq
      modifies Members(queue)`startV, Members(queue)`cruiseV, Members(queue)`endV, Members(queue)`accelT,
               Members(queue)`cruiseT, Members(queue)`decelT, Members(queue)`junction
      ensures Valid() && State() == FullFlush(old(State())) && t == toolhead.printTime
      ensures junctionFlush == LOOKAHEAD_FLUSH_TIME
      ensures old(toolhead.log) <= toolhead.log
      ensures FedThen(toolhead.machine.sqrt, toolhead.kinFlushDelay, old(toolhead.DriveState()), toolhead.DriveState(),
                      now, toolhead.log[|old(toolhead.log)|..], Settling(old(toolhead.specialQueuingState), est))
    {
      hide FullFlush, LazyFlush, Fed, FedThen, FlushThen, Remains, PrintTimes.CalcPrintTime, Refines;
      ghost var d0, log0 := toolhead.DriveState(), toolhead.log;
      if toolhead.specialQueuingState != Main {
        FlushLookahead(now);
        ghost var d1 := toolhead.DriveState();
        ghost var s := State();
        toolhead.CalcPrintTime(est);
        assert State() == s && Valid();
        FedNext(toolhead.machine.sqrt, toolhead.kinFlushDelay, d0, d1, now, toolhead.log[|log0|..], [R.ToNeedPrime],
                R.Settle(est));
        assert [R.ToNeedPrime] + [R.Settle(est)] == [R.ToNeedPrime, R.Settle(est)];
      } else {
        Flush(false, now);
        FedFlush(toolhead.machine.sqrt, toolhead.kinFlushDelay, d0, toolhead.DriveState(), now, toolhead.log[|log0|..]);
      }
      t := toolhead.printTime;
    }

    /** dwell of the toolhead, up to the check whether to pause */
    method Dwell(delay: real, now: Now, est: real)
      requires Valid()
      modifies this, toolhead`printTime, toolhead`specialQueuingState, toolhead`lastFlushTime,
               toolhead`minRestartTime, toolhead`log, toolhead`gens, toolhead.trapq
      modifies Members(queue)`startV, Members(queue)`cruiseV, Members(queue)`endV, Members(queue)`accelT,
               Members(queue)`cruiseT, Members(queue)`decelT, Members(queue)`junction
      ensures Valid() && State() == FullFlush(old(State())) && junctionFlush == LOOKAHEAD_FLUSH_TIME
      ensures old(toolhead.log) <= toolhead.log
      ensures FedThen(toolhead.machine.sqrt, toolhead.kinFlushDelay, old(toolhead.DriveState()), toolhead.DriveState(),
                      now, toolhead.log[|old(toolhead.log)|..],
                      Settling(old(toolhead.specialQueuingState), est) + [R.Wait(delay, now.clear)])
    {
      hide FullFlush, LazyFlush, Fed, FedThen, FlushThen, Remains, AdvanceMove, Settling, Refines;
      ghost var d0, log0, rest := toolhead.DriveState(), toolhead.log, Settling(toolhead.specialQueuingState, est);
      var t := GetLastMoveTime(now, est);
      FedNext(toolhead.machine.sqrt, toolhead.kinFlushDelay, d0, toolhead.DriveState(), now, toolhead.log[|log0|..],
              rest, R.Wait(delay, now.clear));
      ghost var s := State();
      toolhead.AdvanceMoveTime(t + Max(0.0, delay), now.clear);
      assert State() == s && Valid();
    }

    /** Whether adding the move sets off a lazy flush. */
    predicate Flushes(move: Move)
      reads `queue, `junctionFlush, move`minMoveT
    {
      queue != [] && junctionFlush - move.minMoveT <= 0.0
    }

    lemma FlushesWhen(move: Move)
      ensures Flushes(move) <==> queue != [] && junctionFlush - move.minMoveT <= 0.0
    {
    }

    /** add_move; `extruderV2` is the extruder's limit for the junction before the move. */
    method AddMove(move: Move, extruderV2: real, now: Now)
      requires Valid() && move !in queue && move.machine.sqrt == toolhead.machine.sqrt && Sturdy(move)
      requires FreshMove(move.Limits()) && 0.0 <= extruderV2
      modifies this, toolhead`printTime, toolhead`specialQueuingState, toolhead`lastFlushTime,
               toolhead`minRestartTime, toolhead`log, toolhead`gens, toolhead.trapq
      modifies move`maxStartV2, move`maxSmoothedV2
      modifies Members(queue + [move])`startV, Members(queue + [move])`cruiseV, Members(queue + [move])`endV,
               Members(queue + [move])`accelT, Members(queue + [move])`cruiseT, Members(queue + [move])`decelT,
               Members(queue + [move])`junction
      ensures Valid()
      ensures var s := Step(old(State()), Add(old(move.Limits()), old(Corner(move, extruderV2))));
              State() == if old(Flushes(move)) then Step(s, Lazy) else s
      ensures Remains(queue, old(queue) + [move]) && (!old(Flushes(move)) ==> queue == old(queue) + [move])
      ensures junctionFlush == if old(queue) == [] then old(junctionFlush)
                               else if old(Flushes(move)) then LOOKAHEAD_FLUSH_TIME
                               else old(junctionFlush) - move.minMoveT
      ensures Fed(toolhead.machine.sqrt, toolhead.kinFlushDelay, old(toolhead.DriveState()), toolhead.DriveState(),
                  FlushAction(true, now), toolhead.log[|old(toolhead.log)|..])
    {
      hide *;
      ghost var all := queue + [move];
      FlushesWhen(move);
      ValidParts();
      assert all[0..] == all && toolhead.log[|toolhead.log|..] == [];
      Enqueue(move, extruderV2);
      ghost var s := State();
      RemainsAfter(all, 0);
      FedNothing(toolhead.machine.sqrt, toolhead.kinFlushDelay, toolhead.DriveState(), true, now);
      if |queue| == 1 {
        return;
      }
      junctionFlush := junctionFlush - move.minMoveT;
      if junctionFlush <= 0.0 {
        Flush(true, now);
        StepLazy(s);
      }
    }
  }
}
