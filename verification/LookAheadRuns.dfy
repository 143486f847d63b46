/** Whole runs of the look-ahead queue: moves arrive one at a time, lazy flushes hand over a planned
  * prefix at arbitrary moments, full flushes empty the queue.
  *
  * `LookAheadQueue` (LookAheadQueue.dfy) is proved to take exactly the steps below.  The theorems say that
  * cutting the work up makes no difference: what is handed over is what one full flush of every
  * stretch between two stops would have planned. */
module LookAheadRuns {
  import opened Options
  import opened RealMath
  import opened MoveShape
  import opened JunctionPlan
  import Seqs

  /** A move as handed to the step generation, with the speeds it was given. */
  datatype Planned = Planned(limits: Limits, junction: Junction)

  datatype LookAhead = LookAhead(queue: seq<Limits>, log: seq<Planned>)

  /** A move as built, before `calc_junction` has looked at its predecessor. */
  predicate FreshMove(m: Limits) {
    Sane(m) && m.maxStart == 0.0
  }

  /** `calc_junction`: `cap` is the least geometric and extruder limit, or None where it returns early. */
  function Connect(p: Limits, m: Limits, cap: Option<real>): Limits {
    if !m.shape.kinematic || !p.shape.kinematic || cap == None then m
    else
      var c := cap.value;
      var start := Min(Min(c, m.maxCruise), Min(p.maxCruise, p.maxStart + p.delta));
      m.(maxStart := start, maxSmoothed := Min(start, p.maxSmoothed + p.smoothDelta))
  }

  /** The early return leaves every limit at 0, which is still what the general formula demands. */
  lemma ConnectLinks(p: Limits, m: Limits, cap: Option<real>)
    requires Sane(p) && FreshMove(m) && (cap.Some? ==> 0.0 <= cap.value)
    ensures Sane(Connect(p, m, cap)) && Linked(p, Connect(p, m, cap))
  {
  }

  /** What `calc_junction` makes of a move.  Next to an extrude-only move, and where it turns back, it is left starting
    * from standstill; anywhere else v2 is a start speed for it exactly when the corner, the extruder, either cruise limit
    * and the move before allow it, and a smoothed one when the smoothed limit of the move before allows it as well.
    * Nothing else about the move changes. */
  lemma CornerIsGreatest(sqrt: real -> real, p: Limits, m: Limits, extruderV2: real, s: real, t: real, v2: real)
    requires IsSqrt(sqrt)
    requires p.shape.kinematic && m.shape.kinematic ==>
               && Unit(p.shape.axesR) && Unit(m.shape.axesR)
               && (TURN_BACK <= SumSquared(p.shape.axesR, m.shape.axesR) ==>
                     HalfCorner(p.shape.axesR, m.shape.axesR, s, t))
    ensures var n := Connect(p, m, JunctionCap(sqrt, p.shape, m.shape, extruderV2));
            if !p.shape.kinematic || !m.shape.kinematic || SumSquared(p.shape.axesR, m.shape.axesR) < TURN_BACK then n == m
            else
              && n == m.(maxStart := n.maxStart, maxSmoothed := n.maxSmoothed)
              && (v2 <= n.maxStart <==>
                  && Turnable(p.shape, m.shape, s, t, v2) && v2 <= extruderV2
                  && v2 <= m.maxCruise && v2 <= p.maxCruise && v2 <= p.maxStart + p.delta)
              && (v2 <= n.maxSmoothed <==> v2 <= n.maxStart && v2 <= p.maxSmoothed + p.smoothDelta)
  {
    hide Unit, SumSquared, HalfCorner, JunctionCap, Turnable;
    if p.shape.kinematic && m.shape.kinematic {
      CornerGeometry(sqrt, p.shape, m.shape, extruderV2, s, t, v2);
    }
  }

  function Append(q: seq<Limits>, m: Limits, cap: Option<real>): seq<Limits> {
    if q == [] then [m] else q + [Connect(q[|q| - 1], m, cap)]
  }

  function PlanOf(q: seq<Limits>): (p: seq<Planned>)
    ensures |p| == |q|
  {
    seq(|q|, i requires 0 <= i < |q| => Planned(q[i], Triple(q, i)))
  }

  /** flush(lazy=True): hand over what lies before the cut. */
  function LazyFlush(s: LookAhead): LookAhead {
    var c := Cut(s.queue, 0);
    if c <= 0 then s else LookAhead(s.queue[c..], s.log + PlanOf(s.queue)[..c])
  }

  /** flush(lazy=False): plan to a stop after the last move and hand over everything. */
  function FullFlush(s: LookAhead): LookAhead {
    LookAhead([], s.log + PlanOf(s.queue))
  }

  datatype Event =
    | Add(move: Limits, cap: Option<real>)
    | Lazy
    | Full

  predicate ValidEvent(e: Event) {
    e.Add? ==> FreshMove(e.move) && (e.cap.Some? ==> 0.0 <= e.cap.value)
  }

  predicate ValidEvents(es: seq<Event>) {
    forall i :: 0 <= i < |es| ==> ValidEvent(es[i])
  }

  function Step(s: LookAhead, e: Event): LookAhead {
    match e
    case Add(m, cap) => s.(queue := Append(s.queue, m, cap))
    case Lazy => LazyFlush(s)
    case Full => FullFlush(s)
  }

  function Run(es: seq<Event>): LookAhead {
    if es == [] then LookAhead([], []) else Step(Run(es[..|es| - 1]), es[|es| - 1])
  }

  // ----- the reference: stretches of moves between stops, no lazy flush anywhere -----

  datatype Stretches = Stretches(closed: seq<seq<Limits>>, open: seq<Limits>)

  function StretchesOf(es: seq<Event>): Stretches {
    if es == [] then Stretches([], [])
    else
      var s := StretchesOf(es[..|es| - 1]);
      match es[|es| - 1]
      case Add(m, cap) => s.(open := Append(s.open, m, cap))
      case Lazy => s
      case Full => Stretches(s.closed + [s.open], [])
  }

  /** One full flush per stretch. */
  function OneShot(closed: seq<seq<Limits>>): seq<Planned> {
    if closed == [] then []
    else OneShot(closed[..|closed| - 1]) + PlanOf(closed[|closed| - 1])
  }

  /** The state of the real queue, seen from the reference: k moves of the open stretch have already
    * been handed over, and nothing that can still arrive would change them. */
  ghost predicate Refines(s: LookAhead, r: Stretches, k: nat) {
    && FreshChain(r.open)
    && k <= |r.open|
    && (0 < k ==> Settled(r.open, k))
    && s.queue == r.open[k..]
    && s.log == OneShot(r.closed) + PlanOf(r.open)[..k]
  }

  lemma AppendChain(q: seq<Limits>, m: Limits, cap: Option<real>)
    requires FreshChain(q) && ValidEvent(Add(m, cap))
    ensures FreshChain(Append(q, m, cap))
  {
    if q != [] {
      ConnectLinks(q[|q| - 1], m, cap);
    }
  }

  lemma AddRefines(s: LookAhead, r: Stretches, k: nat, m: Limits, cap: Option<real>)
    requires Refines(s, r, k) && ValidEvent(Add(m, cap))
    ensures Refines(Step(s, Add(m, cap)), r.(open := Append(r.open, m, cap)), k)
  {
    AppendChain(r.open, m, cap);
    if r.open != [] {
      var x := [Connect(r.open[|r.open| - 1], m, cap)];
      assert Append(r.open, m, cap) == r.open + x;
      if 0 < k {
        SettledStable(r.open, x, k);
        forall i | 0 <= i < k ensures Triple(r.open + x, i) == Triple(r.open, i) {
          SettledTriple(r.open, x, k, i);
        }
      }
      assert PlanOf(r.open + x)[..k] == PlanOf(r.open)[..k];
    }
  }

  /** The plan of a suffix is the suffix of the plan. */
  lemma SuffixPlan(h: seq<Limits>, k: nat)
    requires FreshChain(h) && k <= |h| && (0 < k ==> Settled(h, k))
    ensures PlanOf(h[k..]) == PlanOf(h)[k..]
  {
    if h != [] {
      FirstIsDirect(h);
      forall i | 0 <= i < |h| - k ensures PlanOf(h[k..])[i] == PlanOf(h)[k + i] {
        SuffixTriple(h, k, i);
      }
    }
  }

  /** The cut of what is queued is a settled cut of the whole open stretch. */
  lemma CutOfSuffix(h: seq<Limits>, k: nat, c: int)
    requires FreshChain(h) && k <= |h| && c == Cut(h[k..], 0) && 0 < c
    ensures k + c < |h| && Settled(h, k + c)
  {
    hide Peak, Peaks, Settled;
    SuffixKind(h, k, c);
    SuffixPeak(h, k, c + 1);
    CutSettled(h, k + c);
  }

  lemma LazyRefines(s: LookAhead, r: Stretches, k: nat) returns (k': nat)
    requires Refines(s, r, k)
    ensures k <= k' && Refines(Step(s, Lazy), r, k')
  {
    hide FreshChain, Settled, Cut, PlanOf, OneShot;
    var c := Cut(s.queue, 0);
    if c <= 0 {
      k' := k;
    } else {
      k' := k + c;
      CutOfSuffix(r.open, k, c);
      SuffixPlan(r.open, k);
      Seqs.Advance([], r.open, k, c);
      Seqs.Advance(OneShot(r.closed), PlanOf(r.open), k, c);
    }
  }

  lemma FullRefines(s: LookAhead, r: Stretches, k: nat)
    requires Refines(s, r, k)
    ensures Refines(Step(s, Full), Stretches(r.closed + [r.open], []), 0)
    ensures FullFlush(s).log == OneShot(r.closed) + PlanOf(r.open)
  {
    SuffixPlan(r.open, k);
    Seqs.Halves(OneShot(r.closed), PlanOf(r.open), k);
    assert (r.closed + [r.open])[..|r.closed|] == r.closed;
  }

  lemma {:induction false} RunRefines(es: seq<Event>) returns (k: nat)
    requires ValidEvents(es)
    ensures Refines(Run(es), StretchesOf(es), k)
  {
    if es == [] {
      k := 0;
    } else {
      var prev, e := es[..|es| - 1], es[|es| - 1];
      k := RunRefines(prev);
      match e
      case Add(m, cap) => AddRefines(Run(prev), StretchesOf(prev), k, m, cap);
      case Lazy => k := LazyRefines(Run(prev), StretchesOf(prev), k);
      case Full => FullRefines(Run(prev), StretchesOf(prev), k); k := 0;
    }
  }

  /** Incremental planning equals one-shot planning, for every run and every moment of it: what has been
    * handed over so far, completed by one full flush, is exactly the one-shot plan of every stretch. */
  lemma IncrementalIsOneShot(es: seq<Event>)
    requires ValidEvents(es)
    ensures FullFlush(Run(es)).log == OneShot(StretchesOf(es).closed) + PlanOf(StretchesOf(es).open)
    ensures Run(es).log <= FullFlush(Run(es)).log
  {
    var k := RunRefines(es);
    FullRefines(Run(es), StretchesOf(es), k);
  }

  // ----- every move handed over exactly once, in order -----

  function Moves(log: seq<Planned>): seq<Limits> {
    seq(|log|, i requires 0 <= i < |log| => log[i].limits)
  }

  /** Every move ever added, in order. */
  function Added(r: Stretches): seq<Limits> {
    Flat(r.closed) + r.open
  }

  function Flat(closed: seq<seq<Limits>>): seq<Limits> {
    if closed == [] then [] else Flat(closed[..|closed| - 1]) + closed[|closed| - 1]
  }

  lemma MovesConcat(a: seq<Planned>, b: seq<Planned>)
    ensures Moves(a + b) == Moves(a) + Moves(b)
  {
  }

  lemma {:induction false} OneShotMoves(closed: seq<seq<Limits>>)
    ensures Moves(OneShot(closed)) == Flat(closed)
  {
    if closed != [] {
      OneShotMoves(closed[..|closed| - 1]);
    }
  }

  lemma ExactlyOnceInOrder(es: seq<Event>)
    requires ValidEvents(es)
    ensures Moves(Run(es).log) + Run(es).queue == Added(StretchesOf(es))
  {
    var k := RunRefines(es);
    var r := StretchesOf(es);
    OneShotMoves(r.closed);
    MovesConcat(OneShot(r.closed), PlanOf(r.open)[..k]);
    assert Moves(PlanOf(r.open)[..k]) == r.open[..k];
    Seqs.Halves(Flat(r.closed), r.open, k);
  }

  // ----- continuity and feasibility over whole runs -----

  /** From rest, with equal speeds wherever one move ends and the next begins. */
  predicate Seamless(log: seq<Planned>) {
    && (log != [] ==> log[0].junction.start == 0.0)
    && (forall i :: 0 <= i < |log| - 1 ==> JoinsNext(log, i))
    && (forall i :: 0 <= i < |log| ==> Feasible(log[i].limits, log[i].junction))
  }

  predicate JoinsNext(log: seq<Planned>, i: nat)
    requires i + 1 < |log|
  {
    log[i].junction.end == log[i + 1].junction.start
  }

  predicate AtRest(log: seq<Planned>) {
    log != [] ==> log[|log| - 1].junction.end == 0.0
  }

  lemma PlanSeamless(q: seq<Limits>)
    requires FreshChain(q)
    ensures Seamless(PlanOf(q)) && AtRest(PlanOf(q))
  {
    PlanRestToRest(q);
    forall i | 0 <= i < |q| - 1 ensures JoinsNext(PlanOf(q), i) {
      assert Joins(Plan(q), i);
    }
    assert forall i :: 0 <= i < |q| ==> PlanOf(q)[i].junction == Plan(q)[i];
  }

  lemma SeamlessConcat(a: seq<Planned>, b: seq<Planned>)
    requires Seamless(a) && AtRest(a) && Seamless(b)
    ensures Seamless(a + b)
    ensures AtRest(b) ==> AtRest(a + b)
  {
    forall i | 0 <= i < |a + b| - 1 ensures JoinsNext(a + b, i) {
      if i + 1 < |a| {
        assert JoinsNext(a, i);
      } else if |a| <= i {
        assert JoinsNext(b, i - |a|);
      }
    }
  }

  lemma {:induction false} OneShotSeamless(closed: seq<seq<Limits>>)
    requires forall i :: 0 <= i < |closed| ==> FreshChain(closed[i])
    ensures Seamless(OneShot(closed)) && AtRest(OneShot(closed))
  {
    if closed != [] {
      OneShotSeamless(closed[..|closed| - 1]);
      PlanSeamless(closed[|closed| - 1]);
      SeamlessConcat(OneShot(closed[..|closed| - 1]), PlanOf(closed[|closed| - 1]));
    }
  }

  lemma {:induction false} StretchesFresh(es: seq<Event>)
    requires ValidEvents(es)
    ensures FreshChain(StretchesOf(es).open)
    ensures forall i :: 0 <= i < |StretchesOf(es).closed| ==> FreshChain(StretchesOf(es).closed[i])
  {
    if es != [] {
      StretchesFresh(es[..|es| - 1]);
      var e := es[|es| - 1];
      if e.Add? {
        AppendChain(StretchesOf(es[..|es| - 1]).open, e.move, e.cap);
      }
    }
  }

  /** After a full flush the moves handed over form a feasible, jump-free motion from rest to rest. */
  lemma RunStops(es: seq<Event>)
    requires ValidEvents(es)
    ensures Seamless(FullFlush(Run(es)).log) && AtRest(FullFlush(Run(es)).log)
  {
    IncrementalIsOneShot(es);
    StretchesFresh(es);
    var r := StretchesOf(es);
    OneShotSeamless(r.closed);
    PlanSeamless(r.open);
    SeamlessConcat(OneShot(r.closed), PlanOf(r.open));
  }

  /** At every moment of every run they form a feasible, jump-free motion that started from rest. */
  lemma RunSeamless(es: seq<Event>)
    requires ValidEvents(es)
    ensures Seamless(Run(es).log)
  {
    IncrementalIsOneShot(es);
    RunStops(es);
    var log, whole := Run(es).log, FullFlush(Run(es)).log;
    forall i | 0 <= i < |log| - 1 ensures JoinsNext(log, i) {
      assert JoinsNext(whole, i);
    }
    assert forall i :: 0 <= i < |log| ==> log[i] == whole[i];
  }
}
