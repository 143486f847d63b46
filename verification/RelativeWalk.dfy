/** How the input shaper finds a position some time away from a move: it walks the timeline in relative
  * times.  The walk is right because the timeline has no holes. */
module RelativeWalk {
  import opened TrapTimeline

  datatype Spot = Nowhere | Spot(index: nat, time: real)

  /** While the time is negative, step to the previous entry. */
  function WalkBack(es: seq<Entry>, i: nat, time: real): Spot
    requires i < |es|
  {
    if 0.0 <= time then Spot(i, time)
    else if i == 0 then Nowhere
    else WalkBack(es, i - 1, time + es[i - 1].moveT)
  }

  /** While the time lies beyond the entry, step to the next one. */
  function WalkForward(es: seq<Entry>, i: nat, time: real): Spot
    requires i < |es|
    decreases |es| - i
  {
    if time <= es[i].moveT then Spot(i, time)
    else if i + 1 == |es| then Nowhere
    else WalkForward(es, i + 1, time - es[i].moveT)
  }

  /** The two loops of get_axis_position_across_moves. */
  function Walk(es: seq<Entry>, i: nat, time: real): (s: Spot)
    requires i < |es|
  {
    match WalkBack(es, i, time)
    case Nowhere => Nowhere
    case Spot(j, t) => if j < |es| then WalkForward(es, j, t) else Nowhere
  }

  /** The entries a walk can use: the queue with its tail sentinel. */
  predicate Track(es: seq<Entry>) {
    es != [] && Gapless(es) && forall i :: 0 <= i < |es| ==> 0.0 < es[i].moveT
  }

  lemma {:induction false} TrackStarts(es: seq<Entry>, i: nat, j: nat)
    requires Track(es) && i <= j < |es|
    ensures i < j ==> es[i].EndTime() <= es[j].printTime
    ensures es[i].printTime <= es[j].printTime && es[i].EndTime() <= es[j].EndTime()
    decreases j - i
  {
    if i < j {
      TrackStarts(es, i, j - 1);
      assert Abuts(es, j);
    }
  }

  lemma {:induction false} BackLands(es: seq<Entry>, i: nat, time: real)
    requires Track(es) && i < |es|
    ensures WalkBack(es, i, time).Spot? <==> es[0].printTime <= es[i].printTime + time
    ensures var s := WalkBack(es, i, time);
            s.Spot? ==> s.index <= i && 0.0 <= s.time && es[s.index].printTime + s.time == es[i].printTime + time
  {
    TrackStarts(es, 0, i);
    if time < 0.0 && 0 < i {
      assert Abuts(es, i);
      BackLands(es, i - 1, time + es[i - 1].moveT);
    }
  }

  lemma {:induction false} ForwardLands(es: seq<Entry>, i: nat, time: real)
    requires Track(es) && i < |es| && 0.0 <= time
    ensures WalkForward(es, i, time).Spot? <==> es[i].printTime + time <= es[|es| - 1].EndTime()
    ensures var s := WalkForward(es, i, time);
            s.Spot? ==> s.index < |es| && 0.0 <= s.time <= es[s.index].moveT
                        && es[s.index].printTime + s.time == es[i].printTime + time
    decreases |es| - i
  {
    TrackStarts(es, i, |es| - 1);
    if es[i].moveT < time && i + 1 < |es| {
      assert Abuts(es, i + 1);
      ForwardLands(es, i + 1, time - es[i].moveT);
    }
  }

  /** The relative-time walk stays on the list exactly when the absolute time lies on it, and then it
    * lands on an entry that holds that absolute time. */
  lemma WalkLands(es: seq<Entry>, i: nat, time: real)
    requires Track(es) && i < |es|
    ensures Walk(es, i, time).Spot? <==> es[0].printTime <= es[i].printTime + time <= es[|es| - 1].EndTime()
    ensures var s := Walk(es, i, time);
            s.Spot? ==> s.index < |es| && 0.0 <= s.time <= es[s.index].moveT
                        && es[s.index].printTime + s.time == es[i].printTime + time
  {
    BackLands(es, i, time);
    match WalkBack(es, i, time)
    case Nowhere =>
    case Spot(j, t) => ForwardLands(es, j, t);
  }

  /** After check_sentinels the queue with its tail sentinel is such a track. */
  lemma QueueIsTrack(q: Timeline)
    requires Sound(q)
    ensures Track(CheckSentinels(q).moves + [CheckSentinels(q).tail])
  {
    CheckSentinelsSound(q);
    GaplessExtend(q.moves, CheckSentinels(q).tail);
  }

  /** Positions join too. */
  predicate Connected(es: seq<Entry>) {
    forall i :: 0 < i < |es| ==> Touches(es, i)
  }

  predicate Touches(es: seq<Entry>, i: int)
    requires 0 < i < |es|
  {
    es[i].startPos == es[i - 1].EndPos()
  }

  /** On a connected track the position depends on the absolute time alone, whichever entry a walk lands on. */
  lemma {:induction false} PositionByTime(es: seq<Entry>, i: nat, t: real, j: nat, u: real)
    requires Track(es) && Connected(es) && i <= j < |es|
    requires 0.0 <= t <= es[i].moveT && 0.0 <= u <= es[j].moveT
    requires es[i].printTime + t == es[j].printTime + u
    ensures es[i].At(t) == es[j].At(u)
  {
    if i < j {
      TrackStarts(es, i + 1, j);
      assert Abuts(es, i + 1);
      assert u == 0.0 && t == es[i].moveT;
      assert Touches(es, i + 1);
      assert es[j].At(0.0) == es[j].startPos;
    }
  }
}
