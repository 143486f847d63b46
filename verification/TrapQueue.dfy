/** The trapezoid motion queue, updated in place, and the shaper's walk along it. */
module TrapQueues {
  import opened TrapTimeline
  import opened RelativeWalk
  import opened InputShaper

  /** struct trapq: the list between its sentinels, the tail sentinel, and the history list. */
  class TrapQueue {
    var moves: seq<Entry>
    var tail: Entry
    var history: seq<Entry>

    function State(): Timeline
      reads this
    {
      Timeline(moves, tail, history)
    }

    constructor ()
      ensures State() == EMPTY && Sound(State())
    {
      moves, tail, history := [], EMPTY_TAIL, [];
    }

    /** trapq_add_move */
    method AddMove(m: Entry)
      modifies this
      ensures State() == TrapTimeline.AddMove(old(State()), m)
    {
      var prev := Last(moves);
      if prev.printTime + prev.moveT < m.printTime {
        var from;
        if prev.printTime == 0.0 && m.printTime > MAX_NULL_MOVE {
          from := m.printTime - MAX_NULL_MOVE;
        } else {
          from := prev.EndTime();
        }
        moves := moves + [Entry(from, m.printTime - from, 0.0, 0.0, m.startPos, ORIGIN)];
      }
      moves := moves + [m];
      tail := tail.(printTime := 0.0);
    }

    /** trapq_append */
    method Append(a: Trapezoid)
      modifies this
      ensures State() == TrapTimeline.Append(old(State()), a)
    {
      hide TrapTimeline.AddMove, Entry.At, Pieces, AddAll;
      ghost var q, ms := State(), [];
      NoneAdded(q);
      var printTime, startPos := a.printTime, a.startPos;
      if a.accelT != 0.0 {
        var m := Entry(printTime, a.accelT, a.startV, 0.5 * a.accel, startPos, a.axesR);
        AddMove(m);
        AddOneMore(q, ms, m);
        ms := ms + [m];
        printTime, startPos := printTime + a.accelT, m.At(a.accelT);
      }
      ghost var t1, p1, ms1 := printTime, startPos, ms;
      if a.cruiseT != 0.0 {
        var m := Entry(printTime, a.cruiseT, a.cruiseV, 0.0, startPos, a.axesR);
        AddMove(m);
        AddOneMore(q, ms, m);
        ms := ms + [m];
        printTime, startPos := printTime + a.cruiseT, m.At(a.cruiseT);
      }
      ghost var t2, p2, ms2 := printTime, startPos, ms;
      if a.decelT != 0.0 {
        var m := Entry(printTime, a.decelT, a.cruiseV, -0.5 * a.accel, startPos, a.axesR);
        AddMove(m);
        AddOneMore(q, ms, m);
        ms := ms + [m];
      }
      PiecesAre(a, t1, p1, ms1, t2, p2, ms2, ms);
    }

    /** trapq_finalize_moves */
    method FinalizeMoves(printTime: real, clearTime: real)
      modifies this
      ensures State() == Finalize(old(State()), printTime, clearTime)
    {
      Expire(printTime);
      Forget(clearTime);
    }

    /** Moves expired entries from the main list to the history list. */
    method Expire(printTime: real)
      modifies this
      ensures var n := Expired(old(moves), printTime);
              && moves == old(moves)[n..] && history == Archive(old(moves)[..n], old(history))
              && tail == if n == |old(moves)| then old(tail).(printTime := NEVER_TIME) else old(tail)
    {
      ghost var n := Expired(moves, printTime);
      ghost var k := 0;
      while true
        invariant 0 <= k <= n && moves == old(moves)[k..] && tail == old(tail)
        invariant Archive(old(moves)[k..n], history) == Archive(old(moves)[..n], old(history))
        invariant Expired(moves, printTime) == n - k
        decreases |moves|
      {
        if moves == [] {
          tail := tail.(printTime := NEVER_TIME);
          break;
        }
        var m := moves[0];
        if m.printTime + m.moveT > printTime {
          break;
        }
        assert old(moves)[k..n][0] == m && old(moves)[k..n][1..] == old(moves)[k + 1..n];
        moves := moves[1..];
        if m.startV != 0.0 || m.halfAccel != 0.0 {
          history := [m] + history;
        }
        k := k + 1;
      }
    }

    /** Frees old entries from the history list. */
    method Forget(clearTime: real)
      modifies `history
      ensures history == Prune(old(history), clearTime)
    {
      while |history| > 1 && history[|history| - 1].EndTime() <= clearTime
        invariant Prune(history, clearTime) == Prune(old(history), clearTime)
      {
        history := history[..|history| - 1];
      }
    }

    /** trapq_check_sentinels */
    method UpdateSentinels()
      modifies this
      ensures State() == CheckSentinels(old(State()))
    {
      if tail.printTime != 0.0 {
        return;
      }
      if moves == [] {
        tail := tail.(printTime := NEVER_TIME);
        return;
      }
      var m := moves[|moves| - 1];
      tail := tail.(printTime := m.printTime + m.moveT, startPos := m.At(m.moveT));
    }
  }

  lemma NoneAdded(q: Timeline)
    ensures AddAll(q, []) == q
  {
  }

  /** The pieces of an append, with the time, the place and the list after the first and the second of them. */
  lemma PiecesAre(a: Trapezoid, t1: real, p1: Coord, ms1: seq<Entry>, t2: real, p2: Coord, ms2: seq<Entry>,
                  ms: seq<Entry>)
    requires t1 == if a.accelT != 0.0 then a.printTime + a.accelT else a.printTime
    requires p1 == if a.accelT != 0.0 then AccelPiece(a).At(a.accelT) else a.startPos
    requires ms1 == if a.accelT != 0.0 then [AccelPiece(a)] else []
    requires t2 == if a.cruiseT != 0.0 then t1 + a.cruiseT else t1
    requires p2 == if a.cruiseT != 0.0 then CruisePiece(a, t1, p1).At(a.cruiseT) else p1
    requires ms2 == if a.cruiseT != 0.0 then ms1 + [CruisePiece(a, t1, p1)] else ms1
    requires ms == if a.decelT != 0.0 then ms2 + [DecelPiece(a, t2, p2)] else ms2
    ensures ms == Pieces(a)
  {
    hide Entry.At;
  }

  lemma AddOneMore(q: Timeline, ms: seq<Entry>, m: Entry)
    ensures AddAll(q, ms + [m]) == TrapTimeline.AddMove(AddAll(q, ms), m)
  {
    assert (ms + [m])[..|ms|] == ms;
  }

  /** get_axis_position_across_moves: two loops that step along the list in relative time.  The caller
    * must stay on the list; `WalkLands` says exactly when that is. */
  method FindAxisPosition(es: seq<Entry>, i: nat, axis: Axis, time: real) returns (pos: real)
    requires Track(es) && i < |es|
    requires es[0].printTime <= es[i].printTime + time <= es[|es| - 1].EndTime()
    ensures exists j, t :: 0 <= j < |es| && 0.0 <= t <= es[j].moveT
              && es[j].printTime + t == es[i].printTime + time && pos == AxisPosition(es[j], axis, t)
    ensures pos == AxisPositionAcross(es, i, axis, time)
  {
    WalkLands(es, i, time);
    var m: nat, t := i, time;
    while t < 0.0
      invariant m < |es| && WalkBack(es, m, t) == WalkBack(es, i, time)
      decreases m
    {
      m := m - 1;
      t := t + es[m].moveT;
    }
    while t > es[m].moveT
      invariant m < |es| && WalkForward(es, m, t) == Walk(es, i, time)
      decreases |es| - m
    {
      t := t - es[m].moveT;
      m := m + 1;
    }
    pos := AxisPosition(es[m], axis, t);
  }

  /** calc_position */
  method CalcPosition(es: seq<Entry>, i: nat, axis: Axis, moveTime: real, sp: ShaperPulses) returns (res: real)
    requires Track(es) && i < |es| && sp.Valid()
    requires forall k :: 0 <= k < |sp.Active()| ==>
      es[0].printTime <= es[i].printTime + (moveTime + sp.Active()[k].t) <= es[|es| - 1].EndTime()
    ensures res == Shaped(es, i, axis, moveTime, sp.Active())
  {
    hide AxisPosition, AxisPositionAcross, Walk, Combined, Positions, Track, ShaperPulses.Active, ShaperPulses.Valid;
    var pulses := sp.Active();
    ghost var xs := Positions(es, i, axis, moveTime, pulses);
    res := 0.0;
    CombinedFrom(pulses, xs, 0);
    for k := 0 to |pulses|
      invariant res + Combined(pulses[k..], xs[k..]) == Combined(pulses, xs)
    {
      CombinedFrom(pulses, xs, k);
      var p := FindAxisPosition(es, i, axis, moveTime + pulses[k].t);
      res := res + pulses[k].a * p;
    }
    CombinedFrom(pulses, xs, |pulses|);
  }
}
