/** Which stretches of which moves a stepper is solved for: the walk over the motion queue, from the last flush to
  * this one.  Moves that do not concern the stepper are skipped, but for some time after and before those that do. */
module StepGeneration {
  import opened RealMath
  import opened TrapTimeline
  import opened RelativeWalk

  /** A call of the range solver for one move. */
  datatype Call = Call(index: nat, absStart: real, absEnd: real)

  /** What stays fixed during a walk. */
  datatype Job = Job(es: seq<Entry>, active: seq<bool>, lastFlush: real, flush: real, pre: real, post: real)

  /** The queue with its tail sentinel, which reaches beyond anything that is asked for. */
  predicate Proper(j: Job) {
    && Track(j.es) && |j.active| == |j.es|
    && 0.0 <= j.pre && 0.0 <= j.post && j.lastFlush <= j.flush
    && j.lastFlush < Last(j.es).EndTime() && j.flush + j.pre <= Last(j.es).EndTime()
  }

  /** The absolute times that a call covers. */
  function Lo(j: Job, c: Call): real
    requires c.index < |j.es|
  {
    Max(c.absStart, j.es[c.index].printTime)
  }

  function Hi(j: Job, c: Call): real
    requires c.index < |j.es|
  {
    Min(c.absEnd, j.es[c.index].EndTime())
  }

  predicate Holds(j: Job, c: Call, t: real) {
    c.index < |j.es| && Lo(j, c) <= t <= Hi(j, c)
  }

  ghost predicate Covered(j: Job, calls: seq<Call>, t: real) {
    exists c :: c in calls && Holds(j, c, t)
  }

  /** The later call starts where or after the earlier one ends, unless one of them covers nothing. */
  predicate Before(j: Job, a: Call, b: Call) {
    && a.index < |j.es| && b.index < |j.es|
    && (Lo(j, a) <= Hi(j, a) && Lo(j, b) <= Hi(j, b) ==> Hi(j, a) <= Lo(j, b))
  }

  ghost predicate InOrder(j: Job, calls: seq<Call>) {
    forall a, b :: 0 <= a < b < |calls| ==> Before(j, calls[a], calls[b])
  }

  predicate Within(j: Job, c: Call) {
    c.index < |j.es| && j.lastFlush <= c.absStart && c.absEnd <= j.flush
  }

  /** The first move that is not over at the last flush. */
  method FindFirst(j: Job) returns (first: nat)
    requires Proper(j)
    ensures first < |j.es| && j.lastFlush < j.es[first].EndTime()
    ensures forall k :: 0 <= k < first ==> j.es[k].EndTime() <= j.lastFlush
  {
    first := 0;
    while j.lastFlush >= j.es[first].EndTime()
      invariant first < |j.es|
      invariant forall k :: 0 <= k < first ==> j.es[k].EndTime() <= j.lastFlush
      decreases |j.es| - first
    {
      assert first != |j.es| - 1;
      first := first + 1;
    }
  }

  /** Enough for two calls to be in order: an earlier move, or an earlier part of the same one. */
  predicate Precedes(a: Call, b: Call) {
    a.index < b.index || (a.index == b.index && a.absEnd <= b.absStart)
  }

  lemma PrecedesIsBefore(j: Job, a: Call, b: Call)
    requires Proper(j) && Within(j, a) && Within(j, b) && Precedes(a, b)
    ensures Before(j, a, b)
  {
    if a.index < b.index {
      TrackStarts(j.es, a.index, b.index);
    }
  }

  lemma AppendInOrder(j: Job, calls: seq<Call>, c: Call)
    requires Proper(j) && InOrder(j, calls) && Within(j, c)
    requires forall a :: a in calls ==> Within(j, a) && Precedes(a, c)
    ensures InOrder(j, calls + [c])
  {
    hide Proper, Within, Before, Precedes;
    var r := calls + [c];
    forall a, b | 0 <= a < b < |r|
      ensures Before(j, r[a], r[b])
    {
      if b == |calls| {
        assert calls[a] in calls;
        PrecedesIsBefore(j, calls[a], c);
      } else {
        assert Before(j, calls[a], calls[b]);
      }
    }
  }

  lemma CoveredGrows(j: Job, calls: seq<Call>, more: seq<Call>, t: real)
    requires Covered(j, calls, t)
    ensures Covered(j, calls + more, t)
  {
    var c :| c in calls && Holds(j, c, t);
    assert c in calls + more;
  }

  lemma CoveredBy(j: Job, calls: seq<Call>, c: Call, t: real)
    requires c in calls && Holds(j, c, t)
    ensures Covered(j, calls, t)
  {
  }

  /** A time between the starts of two moves falls on one of those from the first one on. */
  lemma {:induction false} MoveAt(j: Job, a: nat, b: nat, t: real) returns (p: nat)
    requires Proper(j) && a < b < |j.es| && j.es[a].printTime <= t < j.es[b].printTime
    ensures a <= p < b && j.es[p].printTime <= t <= j.es[p].EndTime()
    decreases b - a
  {
    assert Abuts(j.es, b);
    if j.es[b - 1].printTime <= t {
      p := b - 1;
    } else {
      p := MoveAt(j, a, b - 1, t);
    }
  }

  // What the walk has done before it looks at move i, with `skip` moves skipped since it last solved one and
  // `force` the time up to which it has to go on solving.

  ghost predicate Past(j: Job, calls: seq<Call>, i: nat, skip: nat, force: real) {
    forall c :: c in calls ==> Within(j, c) && Settled(c, i, skip, force)
  }

  /** An earlier call is for an earlier move than those skipped, or for the first of them up to `force`. */
  predicate Settled(c: Call, i: nat, skip: nat, force: real) {
    c.index < i && (c.index + skip < i || (c.index + skip == i && c.absEnd <= force))
  }

  /** The time t has to be solved for the sake of move k. */
  predicate NeededFor(j: Job, k: nat, t: real) {
    && k < |j.es| == |j.active| && j.active[k]
    && j.es[k].printTime - j.pre <= t < j.es[k].EndTime() + j.post
  }

  /** The times that a walk from move `first` has to care about. */
  predicate InRange(j: Job, first: nat, t: real) {
    first < |j.es| && j.lastFlush <= t < j.flush && j.es[first].printTime <= t
  }

  /** t is covered if it is needed for a move before i, or follows closely the activity before this walk. */
  ghost predicate Done(j: Job, calls: seq<Call>, first: nat, i: nat, origin: real, t: real) {
    && (t < origin + j.post ==> Covered(j, calls, t))
    && forall k: nat :: first <= k < i && NeededFor(j, k, t) ==> Covered(j, calls, t)
  }

  ghost predicate DoneBefore(j: Job, calls: seq<Call>, first: nat, i: nat, origin: real) {
    forall t: real :: InRange(j, first, t) && i < |j.es| && t < j.es[i].printTime ==> Done(j, calls, first, i, origin, t)
  }

  /** The end of the last activity: that of the last active move walked over, or what it was before. */
  ghost predicate Latest(j: Job, first: nat, i: nat, origin: real, lastMove: real) {
    && origin <= lastMove
    && (forall k: nat :: first <= k < i && IsActive(j, k) ==> j.es[k].EndTime() <= lastMove)
    && (lastMove == origin || exists k: nat :: first <= k < i && IsActive(j, k) && j.es[k].EndTime() == lastMove)
  }

  predicate IsActive(j: Job, k: nat) {
    k < |j.es| == |j.active| && j.active[k]
  }

  ghost predicate ActiveSolved(j: Job, calls: seq<Call>, first: nat, i: nat) {
    forall k: nat :: first <= k < i && IsActive(j, k) ==> Call(k, j.lastFlush, j.flush) in calls
  }

  ghost predicate Walking(j: Job, calls: seq<Call>, first: nat, i: nat, skip: nat, origin: real, lastMove: real) {
    && Proper(j) && first < |j.es| && origin <= j.lastFlush < j.es[first].EndTime()
    && first <= i < |j.es| && skip <= i - first
    && InOrder(j, calls) && Past(j, calls, i, skip, lastMove + j.post)
    && (i - skip == first || j.es[i - skip].printTime <= lastMove + j.post)
    && Latest(j, first, i, origin, lastMove)
    && ActiveSolved(j, calls, first, i) && DoneBefore(j, calls, first, i, origin)
  }

  /** The times before move i, among the moves skipped last, that lead up to it and were not solved. */
  predicate InLead(j: Job, i: nat, skip: nat, force: real, t: real) {
    && i < |j.es| && skip <= i
    && Max(Max(j.es[i].printTime - j.pre, j.lastFlush), force) <= t <= j.flush
    && j.es[i - skip].printTime <= t < j.es[i].printTime
  }

  ghost predicate LedUp(j: Job, calls: seq<Call>, i: nat, skip: nat, force: real) {
    forall t: real :: InLead(j, i, skip, force, t) ==> Covered(j, calls, t)
  }

  lemma WithinRange(j: Job, c: Call)
    requires c.index < |j.es| && j.lastFlush <= c.absStart && c.absEnd <= j.flush
    ensures Within(j, c)
  {
  }

  lemma HoldsIn(j: Job, c: Call, t: real)
    requires c.index < |j.es| && c.absStart <= t <= c.absEnd
    requires j.es[c.index].printTime <= t <= j.es[c.index].EndTime()
    ensures Holds(j, c, t)
  {
  }

  // One move of the walk.

  lemma CoveredMore(j: Job, calls: seq<Call>, r: seq<Call>, t: real)
    requires calls <= r && Covered(j, calls, t)
    ensures Covered(j, r, t)
  {
    assert r == calls + r[|calls|..];
    CoveredGrows(j, calls, r[|calls|..], t);
  }

  /** An active move: solved from its start, and from `pre` before it where that was not done yet. */
  lemma DoneActive(j: Job, calls: seq<Call>, r: seq<Call>, first: nat, i: nat, skip: nat,
                   origin: real, lastMove: real, t: real)
    requires Walking(j, calls, first, i, skip, origin, lastMove) && IsActive(j, i)
    requires calls <= r && Call(i, j.lastFlush, j.flush) in r
    requires 0 < skip && 0.0 < j.pre ==> LedUp(j, r, i, skip, lastMove + j.post)
    requires InRange(j, first, t) && t <= j.es[i].EndTime()
    ensures Done(j, r, first, i + 1, origin, t)
    ensures j.es[i].printTime <= t ==> Covered(j, r, t)
  {
    hide InOrder, Past, Covered, Holds, ActiveSolved;
    if j.es[i].printTime <= t {
      HoldsIn(j, Call(i, j.lastFlush, j.flush), t);
      CoveredBy(j, r, Call(i, j.lastFlush, j.flush), t);
    } else {
      assert Done(j, calls, first, i, origin, t);
      if t < origin + j.post {
        CoveredMore(j, calls, r, t);
      }
      forall k: nat | first <= k < i + 1 && NeededFor(j, k, t)
        ensures Covered(j, r, t)
      {
        if k < i {
          CoveredMore(j, calls, r, t);
        } else if t < lastMove + j.post {
          ShortlyAfter(j, calls, first, i, origin, lastMove, t);
          CoveredMore(j, calls, r, t);
        } else {
          assert InLead(j, i, skip, lastMove + j.post, t);
        }
      }
    }
  }

  /** A time before an active move that is needed for it and lies within `post` of the last activity was covered for
    * the sake of that activity. */
  lemma ShortlyAfter(j: Job, calls: seq<Call>, first: nat, i: nat, origin: real, lastMove: real, t: real)
    requires Proper(j) && i < |j.es| && Latest(j, first, i, origin, lastMove)
    requires Done(j, calls, first, i, origin, t)
    requires j.es[i].printTime - j.pre <= t < lastMove + j.post
    ensures Covered(j, calls, t)
  {
    hide Covered;
    if lastMove != origin {
      var k: nat :| first <= k < i && IsActive(j, k) && j.es[k].EndTime() == lastMove;
      TrackStarts(j.es, k, i);
      assert NeededFor(j, k, t);
    }
  }

  /** An inactive move: solved up to `post` after the last activity, and skipped beyond. */
  lemma DoneInactive(j: Job, calls: seq<Call>, r: seq<Call>, first: nat, i: nat, skip: nat,
                     origin: real, lastMove: real, t: real)
    requires Walking(j, calls, first, i, skip, origin, lastMove) && !IsActive(j, i)
    requires calls <= r
    requires j.es[i].printTime < lastMove + j.post ==> Call(i, j.lastFlush, Min(lastMove + j.post, j.flush)) in r
    requires InRange(j, first, t) && t <= j.es[i].EndTime()
    ensures Done(j, r, first, i + 1, origin, t)
  {
    hide InOrder, Past, Covered, Holds, ActiveSolved;
    if t < j.es[i].printTime {
      assert Done(j, calls, first, i, origin, t);
      if t < origin + j.post {
        CoveredMore(j, calls, r, t);
      }
      forall k: nat | first <= k < i + 1 && NeededFor(j, k, t)
        ensures Covered(j, r, t)
      {
        CoveredMore(j, calls, r, t);
      }
    } else if t < lastMove + j.post {
      var c := Call(i, j.lastFlush, Min(lastMove + j.post, j.flush));
      HoldsIn(j, c, t);
      CoveredBy(j, r, c, t);
    } else {
      forall k: nat | first <= k < i + 1
        ensures !NeededFor(j, k, t)
      {
        assert IsActive(j, k) && k < i ==> j.es[k].EndTime() <= lastMove;
      }
    }
  }

  /** What a walk achieves: its calls are in time order and within the two flush times; every active move that is not
    * over is solved for the whole range; and every time is covered that is needed for an active move or follows the
    * last activity before the walk closely enough. */
  ghost predicate Achieved(j: Job, calls: seq<Call>, first: nat, origin: real) {
    && InOrder(j, calls)
    && (forall c :: c in calls ==> Within(j, c))
    && (forall t: real :: InRange(j, first, t) ==> Served(j, calls, first, origin, t))
    && forall k: nat :: first <= k && IsActive(j, k) && j.es[k].printTime < j.flush ==>
         Call(k, j.lastFlush, j.flush) in calls
  }

  ghost predicate Served(j: Job, calls: seq<Call>, first: nat, origin: real, t: real) {
    && (t < origin + j.post ==> Covered(j, calls, t))
    && forall k: nat :: first <= k && NeededFor(j, k, t) ==> Covered(j, calls, t)
  }

  /** The walk may stop at an active move that ends at or after the flush. */
  lemma StopActive(j: Job, calls: seq<Call>, r: seq<Call>, first: nat, i: nat, skip: nat, origin: real, lastMove: real)
    requires Walking(j, calls, first, i, skip, origin, lastMove) && IsActive(j, i) && j.flush <= j.es[i].EndTime()
    requires calls <= r && Call(i, j.lastFlush, j.flush) in r
    requires InOrder(j, r) && forall c :: c in r ==> Within(j, c)
    requires 0 < skip && 0.0 < j.pre ==> LedUp(j, r, i, skip, lastMove + j.post)
    ensures Achieved(j, r, first, origin)
  {
    hide Covered, Within, InOrder;
    forall t: real | InRange(j, first, t)
      ensures Served(j, r, first, origin, t)
    {
      DoneActive(j, calls, r, first, i, skip, origin, lastMove, t);
      forall k: nat | first <= k && NeededFor(j, k, t)
        ensures Covered(j, r, t)
      {
        if i < k && t < j.es[i].printTime {
          TrackStarts(j.es, i, k);
          assert NeededFor(j, i, t);
        }
      }
    }
    forall k: nat | first <= k && IsActive(j, k) && j.es[k].printTime < j.flush
      ensures Call(k, j.lastFlush, j.flush) in r
    {
      if i < k {
        TrackStarts(j.es, i, k);
      } else if k < i {
        assert Call(k, j.lastFlush, j.flush) in calls;
      }
    }
  }

  /** The walk may stop at an inactive move that ends long enough after the flush. */
  lemma StopInactive(j: Job, calls: seq<Call>, r: seq<Call>, first: nat, i: nat, skip: nat, origin: real, lastMove: real)
    requires Walking(j, calls, first, i, skip, origin, lastMove) && !IsActive(j, i)
    requires j.flush + j.pre <= j.es[i].EndTime()
    requires calls <= r && InOrder(j, r) && forall c :: c in r ==> Within(j, c)
    requires j.es[i].printTime < lastMove + j.post ==> Call(i, j.lastFlush, Min(lastMove + j.post, j.flush)) in r
    ensures Achieved(j, r, first, origin)
  {
    hide Covered, Within, InOrder;
    forall t: real | InRange(j, first, t)
      ensures Served(j, r, first, origin, t)
    {
      DoneInactive(j, calls, r, first, i, skip, origin, lastMove, t);
      forall k: nat | first <= k && NeededFor(j, k, t)
        ensures Covered(j, r, t)
      {
        if i < k {
          TrackStarts(j.es, i, k);
        }
      }
    }
    forall k: nat | first <= k && IsActive(j, k) && j.es[k].printTime < j.flush
      ensures Call(k, j.lastFlush, j.flush) in r
    {
      if i < k {
        TrackStarts(j.es, i, k);
      } else {
        assert Call(k, j.lastFlush, j.flush) in calls;
      }
    }
  }

  lemma NextActive(j: Job, calls: seq<Call>, r: seq<Call>, first: nat, i: nat, skip: nat, origin: real, lastMove: real)
    requires Walking(j, calls, first, i, skip, origin, lastMove) && IsActive(j, i) && j.es[i].EndTime() < j.flush
    requires i + 1 < |j.es|
    requires calls <= r && Call(i, j.lastFlush, j.flush) in r
    requires InOrder(j, r) && forall c :: c in r ==> Within(j, c) && c.index <= i
    requires 0 < skip && 0.0 < j.pre ==> LedUp(j, r, i, skip, lastMove + j.post)
    ensures Walking(j, r, first, i + 1, 0, origin, j.es[i].EndTime())
  {
    hide Covered, Within, InOrder;
    assert Abuts(j.es, i + 1);
    forall t: real | InRange(j, first, t) && t < j.es[i + 1].printTime
      ensures Done(j, r, first, i + 1, origin, t)
    {
      DoneActive(j, calls, r, first, i, skip, origin, lastMove, t);
    }
    LatestActive(j, first, i, origin, lastMove);
    SolvedMore(j, calls, r, first, i);
  }

  lemma LatestActive(j: Job, first: nat, i: nat, origin: real, lastMove: real)
    requires Proper(j) && first <= i < |j.es| && IsActive(j, i) && Latest(j, first, i, origin, lastMove)
    requires origin <= j.lastFlush < j.es[first].EndTime()
    ensures Latest(j, first, i + 1, origin, j.es[i].EndTime())
  {
    TrackStarts(j.es, first, i);
    forall k: nat | first <= k < i + 1 && IsActive(j, k)
      ensures j.es[k].EndTime() <= j.es[i].EndTime()
    {
      TrackStarts(j.es, k, i);
    }
  }

  lemma SolvedMore(j: Job, calls: seq<Call>, r: seq<Call>, first: nat, i: nat)
    requires ActiveSolved(j, calls, first, i) && calls <= r
    requires IsActive(j, i) ==> Call(i, j.lastFlush, j.flush) in r
    ensures ActiveSolved(j, r, first, i + 1)
  {
    forall k: nat | first <= k < i + 1 && IsActive(j, k)
      ensures Call(k, j.lastFlush, j.flush) in r
    {
      if k < i {
        assert Call(k, j.lastFlush, j.flush) in calls;
      }
    }
  }

  lemma NextInactive(j: Job, calls: seq<Call>, r: seq<Call>, first: nat, i: nat, skip: nat, origin: real, lastMove: real)
    requires Walking(j, calls, first, i, skip, origin, lastMove) && !IsActive(j, i) && i + 1 < |j.es|
    requires var near := j.es[i].printTime < lastMove + j.post;
             r == if near then calls + [Call(i, j.lastFlush, Min(lastMove + j.post, j.flush))] else calls
    requires InOrder(j, r) && forall c :: c in r ==> Within(j, c)
    ensures var near := j.es[i].printTime < lastMove + j.post;
            Walking(j, r, first, i + 1, if near then 1 else skip + 1, origin, lastMove)
  {
    hide Covered, Within, InOrder;
    assert Abuts(j.es, i + 1);
    forall t: real | InRange(j, first, t) && t < j.es[i + 1].printTime
      ensures Done(j, r, first, i + 1, origin, t)
    {
      DoneInactive(j, calls, r, first, i, skip, origin, lastMove, t);
    }
    SolvedMore(j, calls, r, first, i);
  }

  // The walk.

  lemma Adding(j: Job, calls: seq<Call>, i: nat, skip: nat, force: real, c: Call)
    requires Proper(j) && InOrder(j, calls) && Past(j, calls, i, skip, force)
    requires c.index == i < |j.es| && j.lastFlush <= c.absStart && c.absEnd <= j.flush
    ensures InOrder(j, calls + [c]) && forall a :: a in calls + [c] ==> Within(j, a) && a.index <= i
  {
    WithinRange(j, c);
    AppendInOrder(j, calls, c);
  }

  lemma WalkStarts(j: Job, first: nat, origin: real)
    requires Proper(j) && first < |j.es| && origin <= j.lastFlush < j.es[first].EndTime()
    ensures Walking(j, [], first, first, 0, origin, origin) && Frugal(j, first, origin, [])
  {
    assert forall t: real :: InRange(j, first, t) ==> j.es[first].printTime <= t;
  }

  lemma WalkingParts(j: Job, calls: seq<Call>, first: nat, i: nat, skip: nat, origin: real, lastMove: real)
    requires Walking(j, calls, first, i, skip, origin, lastMove)
    ensures i < |j.es| == |j.active| && skip <= i && first <= i
    ensures Proper(j) && InOrder(j, calls) && Past(j, calls, i, skip, lastMove + j.post) && j.lastFlush <= j.flush
    ensures Latest(j, first, i, origin, lastMove)
    ensures 0.0 <= j.pre && 0.0 <= j.post && origin <= j.lastFlush < j.es[first].EndTime()
  {
  }

  lemma AddingOwn(j: Job, before: seq<Call>, calls: seq<Call>, i: nat, skip: nat, force: real, c: Call)
    requires Proper(j) && before <= calls && InOrder(j, calls)
    requires (calls == before && Past(j, before, i, skip, force)) || (forall a :: a in calls ==> Within(j, a) && a.index < i)
    requires c.index == i < |j.es| && j.lastFlush <= c.absStart && c.absEnd <= j.flush
    ensures InOrder(j, calls + [c]) && (forall a :: a in calls + [c] ==> Within(j, a) && a.index <= i)
    ensures before <= calls + [c] && c in calls + [c]
  {
    WithinRange(j, c);
    AppendInOrder(j, calls, c);
  }

  lemma LedUpMore(j: Job, calls: seq<Call>, c: Call, i: nat, skip: nat, force: real)
    ensures LedUp(j, calls, i, skip, force) ==> LedUp(j, calls + [c], i, skip, force)
  {
    hide Covered, InLead;
    if LedUp(j, calls, i, skip, force) {
      forall t: real | InLead(j, i, skip, force, t)
        ensures Covered(j, calls + [c], t)
      {
        CoveredGrows(j, calls, [c], t);
      }
    }
  }

  lemma AllWithin(j: Job, calls: seq<Call>, i: nat, skip: nat, force: real)
    requires Past(j, calls, i, skip, force)
    ensures forall a :: a in calls ==> Within(j, a)
  {
  }

  /** The tail sentinel stops the walk. */
  lemma NotLast(j: Job, i: nat)
    requires Proper(j) && i < |j.es|
    requires j.es[i].EndTime() < j.flush || j.es[i].EndTime() < j.flush + j.pre
    ensures i + 1 < |j.es|
  {
  }

  lemma LaterEnd(j: Job, first: nat, i: nat, origin: real)
    requires Proper(j) && first <= i < |j.es| && origin <= j.lastFlush < j.es[first].EndTime()
    ensures origin <= j.es[i].EndTime()
  {
    TrackStarts(j.es, first, i);
  }

  // Nothing is solved in vain.

  predicate WantedFor(j: Job, k: nat, t: real) {
    IsActive(j, k) && j.es[k].printTime - j.pre <= t <= j.es[k].EndTime() + j.post
  }

  /** A time that a walk may look at: shortly after the activity before the walk, or needed for an active move. */
  ghost predicate Wanted(j: Job, first: nat, origin: real, t: real) {
    t <= origin + j.post || exists k: nat :: first <= k && WantedFor(j, k, t)
  }

  ghost predicate Frugal(j: Job, first: nat, origin: real, calls: seq<Call>) {
    forall c, t :: c in calls && Holds(j, c, t) ==> Wanted(j, first, origin, t)
  }

  lemma FrugalNext(j: Job, first: nat, origin: real, calls: seq<Call>, c: Call)
    requires Frugal(j, first, origin, calls) && forall t :: Holds(j, c, t) ==> Wanted(j, first, origin, t)
    ensures Frugal(j, first, origin, calls + [c])
  {
    hide Wanted, Holds;
  }

  lemma WantedActive(j: Job, first: nat, i: nat, origin: real, c: Call)
    requires Proper(j) && first <= i && IsActive(j, i) && c.index == i
    ensures forall t :: Holds(j, c, t) ==> Wanted(j, first, origin, t)
  {
    forall t | Holds(j, c, t)
      ensures Wanted(j, first, origin, t)
    {
      assert WantedFor(j, i, t);
    }
  }

  lemma WantedLead(j: Job, first: nat, i: nat, origin: real, c: Call)
    requires Proper(j) && first <= i && IsActive(j, i) && c.index < i && j.es[i].printTime - j.pre <= c.absStart
    ensures forall t :: Holds(j, c, t) ==> Wanted(j, first, origin, t)
  {
    TrackStarts(j.es, c.index, i);
    forall t | Holds(j, c, t)
      ensures Wanted(j, first, origin, t)
    {
      assert WantedFor(j, i, t);
    }
  }

  lemma WantedNear(j: Job, first: nat, i: nat, origin: real, lastMove: real, c: Call)
    requires Proper(j) && first <= i < |j.es| && Latest(j, first, i, origin, lastMove)
    requires c.index == i && c.absEnd <= lastMove + j.post
    ensures forall t :: Holds(j, c, t) ==> Wanted(j, first, origin, t)
  {
    if lastMove != origin {
      var k: nat :| first <= k < i && IsActive(j, k) && j.es[k].EndTime() == lastMove;
      TrackStarts(j.es, k, i);
      forall t | Holds(j, c, t)
        ensures Wanted(j, first, origin, t)
      {
        assert WantedFor(j, k, t);
      }
    }
  }

  /** last_move_time after a walk: as before, or within an active move or the time that leads up to it. */
  ghost predicate Marked(j: Job, first: nat, origin: real, lastMove: real) {
    lastMove == origin || exists k: nat :: first <= k && MarkedBy(j, k, lastMove)
  }

  predicate MarkedBy(j: Job, k: nat, lastMove: real) {
    IsActive(j, k) && lastMove <= j.es[k].EndTime() && (k == 0 || j.es[k].printTime - j.pre <= lastMove)
  }

  lemma LatestIsMarked(j: Job, first: nat, i: nat, origin: real, lastMove: real)
    requires Proper(j) && Latest(j, first, i, origin, lastMove)
    ensures Marked(j, first, origin, lastMove)
  {
    if lastMove != origin {
      var k: nat :| first <= k < i && IsActive(j, k) && j.es[k].EndTime() == lastMove;
      assert MarkedBy(j, k, lastMove);
    }
  }

  lemma FlushIsMarked(j: Job, first: nat, i: nat, origin: real)
    requires Proper(j) && first <= i < |j.es| && IsActive(j, i) && j.flush <= j.es[i].EndTime()
    requires forall k :: 0 <= k < first ==> j.es[k].EndTime() <= j.lastFlush
    requires i == first || j.es[i].printTime <= j.flush + j.pre
    ensures Marked(j, first, origin, j.flush)
  {
    if 0 < first {
      assert Abuts(j.es, first);
    }
    assert MarkedBy(j, i, j.flush);
  }

  lemma NextStart(j: Job, i: nat)
    requires Proper(j) && i + 1 < |j.es| && j.es[i].EndTime() <= j.flush + j.pre
    ensures j.es[i + 1].printTime <= j.flush + j.pre
  {
    assert Abuts(j.es, i + 1);
  }

  /** What LeadUp has to solve. */
  lemma LeadCovered(j: Job, calls: seq<Call>, i: nat, skipCount: nat, force: real, from: nat, absStart: real)
    requires Proper(j) && i < |j.es| && 0 < skipCount <= i && i - skipCount <= from < i
    requires absStart == Max(Max(j.es[i].printTime - j.pre, j.lastFlush), force)
    requires from == i - skipCount || j.es[from].printTime <= absStart
    requires forall k: nat :: from <= k < i ==> Call(k, absStart, j.flush) in calls
    ensures LedUp(j, calls, i, skipCount, force)
  {
    hide Proper, Within, Before, Holds;
    forall t: real | InLead(j, i, skipCount, force, t)
      ensures Covered(j, calls, t)
    {
      var p := MoveAt(j, from, i, t);
      HoldsIn(j, Call(p, absStart, j.flush), t);
      CoveredBy(j, calls, Call(p, absStart, j.flush), t);
    }
  }
}
