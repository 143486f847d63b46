/** The iterative solver: step times for a stepper, from nothing but a function that gives its position at a time. */
module IterSolve {
  import opened RealMath

  const SEEK_TIME_RESET := 0.0001
  const TINY_TIME := 0.000000001
  const TINY_DISTANCE := 0.000000001
  const DIRECTION_SLACK := 0.000000010

  /** What the solver tells the step compressor. */
  datatype Event = Step(forward: bool, time: real) | Commit

  /** Forward steps less backward steps. */
  function Net(es: seq<Event>): int {
    if es == [] then 0
    else
      var last := es[|es| - 1];
      Net(es[..|es| - 1]) + (if last.Commit? then 0 else if last.forward then 1 else -1)
  }

  datatype Guess = Guess(time: real, position: real)

  /** What stays fixed during a search: the position callback, half a step, and the time range. */
  datatype Job = Job(pos: real -> real, half: real, start: real, end: real)

  /** The variables of the loop. */
  datatype Search = Search(sdir: bool, target: real, last: real, low: real, high: real, haveBracket: bool,
                           isDirChange: bool, checkOscillate: bool, oldGuess: Guess, guess: Guess)

  /** A distance seen in the direction of the search. */
  function Along(sdir: bool, dist: real): real {
    if sdir then dist else -dist
  }

  /** The secant guess for a new time; None where the divisor is zero, which the source finds out of bounds. */
  datatype Time = Nowhere | Time(t: real)

  function Secant(s: Search): Time {
    var guessDist := s.guess.position - s.target;
    var ogDist := s.oldGuess.position - s.target;
    if guessDist - ogDist == 0.0 then Nowhere
    else Time((s.oldGuess.time * guessDist - s.guess.time * ogDist) / (guessDist - ogDist))
  }

  predicate InBounds(s: Search, t: Time) {
    t.Time? && s.low < t.t < s.high
  }

  datatype Probe = Stop | Probe(s: Search, time: real)

  /** The first part of the loop: which time to look at next, if any. */
  function NextProbe(j: Job, s: Search): Probe {
    var secant := Secant(s);
    if InBounds(s, secant) then Probe(s, secant.t)
    else if s.haveBracket then Probe(s.(checkOscillate := false), (s.low + s.high) * 0.5)
    else if s.guess.time >= j.end then Stop
    else Probe(s.(high := Min(2.0 * s.high - s.last, j.end)), s.high)
  }

  /** The callback is asked for the position at that time. */
  function Looked(j: Job, s: Search, time: real): Search {
    s.(oldGuess := s.guess, guess := Guess(time, j.pos(time)))
  }

  function RelDist(s: Search): real {
    Along(s.sdir, s.guess.position - s.target)
  }

  predicate Close(s: Search) {
    Abs(s.guess.position - s.target) <= TINY_DISTANCE
  }

  /** The update of the bounds when the position is not close enough. */
  function Bounded(j: Job, s: Search): Search {
    var rel := RelDist(s);
    if rel > 0.0 then
      var oscillates := s.haveBracket && s.oldGuess.time <= s.low;
      s.(oldGuess := if oscillates && s.checkOscillate then s.guess else s.oldGuess,
         checkOscillate := oscillates || s.checkOscillate,
         high := s.guess.time, haveBracket := true)
    else if rel < -(j.half + j.half + DIRECTION_SLACK) then
      s.(sdir := !s.sdir, target := if s.sdir then s.target - j.half - j.half else s.target + j.half + j.half,
         low := s.last, high := s.guess.time, isDirChange := true, haveBracket := true, checkOscillate := false)
    else s.(low := s.guess.time)
  }

  /** The search for the step after one at the current guess. */
  function Advanced(j: Job, s: Search): Search {
    var seek := Max(1.5 * (s.guess.time - s.last), TINY_TIME);
    var delta := if s.isDirChange then Min(seek, SEEK_TIME_RESET) else seek;
    s.(target := if s.sdir then s.target + j.half + j.half else s.target - j.half - j.half,
       last := s.guess.time, low := s.guess.time, high := Min(s.guess.time + delta, j.end),
       isDirChange := false, haveBracket := false, checkOscillate := false)
  }

  // What the loop keeps.

  /** The commanded position the search works from. */
  function Base(j: Job, s: Search): real {
    if s.sdir then s.target - j.half else s.target + j.half
  }

  predicate Past(j: Job, s: Search) {
    Along(s.sdir, j.pos(s.high) - s.target) > 0.0
  }

  predicate Tracks(j: Job, s: Search) {
    s.guess.position == j.pos(s.guess.time) && -(j.half + j.half + DIRECTION_SLACK) <= RelDist(s) <= 0.0
  }

  /** The bounds are ordered; the upper bound of a bracket is past the target; without one, a guess made since
    * the last step is within a step of it. */
  predicate Ok(j: Job, s: Search) {
    && 0.0 < j.half && j.start < j.end
    && j.start <= s.last <= s.low <= s.high <= j.end && s.last <= s.guess.time <= j.end
    && (s.haveBracket ==> Past(j, s))
    && (!s.haveBracket ==> s.guess.time == s.last || Tracks(j, s))
  }

  lemma ProbeInRange(j: Job, s: Search)
    requires Ok(j, s)
    ensures var p := NextProbe(j, s);
            p.Probe? ==>
              && p.s.target == s.target && p.s.sdir == s.sdir && p.s.last == s.last && p.s.haveBracket == s.haveBracket
              && s.low <= p.time <= p.s.high <= j.end && p.s.low == s.low
              && (s.haveBracket ==> p.s.high == s.high)
  {
    hide Secant;
  }

  /** The state after a look: as Ok, but for the new guess, which lies between the bounds. */
  predicate Looking(j: Job, s: Search) {
    && 0.0 < j.half && j.start < j.end
    && j.start <= s.last <= s.low <= s.guess.time <= s.high <= j.end
    && s.guess.position == j.pos(s.guess.time)
    && (s.haveBracket ==> Past(j, s))
  }

  lemma LookedIsLooking(j: Job, s: Search)
    requires Ok(j, s) && NextProbe(j, s).Probe?
    ensures var p := NextProbe(j, s);
            Looking(j, Looked(j, p.s, p.time)) && Base(j, Looked(j, p.s, p.time)) == Base(j, s)
  {
    hide NextProbe;
    ProbeInRange(j, s);
  }

  /** Whether the search goes on after the bounds were updated. */
  predicate GoesOn(s: Search) {
    !s.haveBracket || s.high - s.low > TINY_TIME
  }

  lemma BoundedKeeps(j: Job, s: Search)
    requires Looking(j, s) && !Close(s)
    ensures var b := Bounded(j, s);
            && Base(j, b) == Base(j, s) && b.guess == s.guess && b.last == s.last
            && j.start <= b.last <= b.low <= b.high <= j.end && b.last <= b.guess.time
            && (b.guess.time == b.low || b.guess.time == b.high)
            && (b.haveBracket ==> Past(j, b))
            && (GoesOn(b) ==> Ok(j, b))
  {
  }

  /** A step is justified: at its time the position is on the mark half a step ahead of the commanded position, or
    * within a nanosecond from then it is beyond that mark. */
  ghost predicate Justified(j: Job, base: real, forward: bool, time: real) {
    var target := if forward then base + j.half else base - j.half;
    || Abs(j.pos(time) - target) <= TINY_DISTANCE
    || exists t: real :: time <= t <= time + TINY_TIME && Beyond(j, forward, target, t)
  }

  predicate Beyond(j: Job, forward: bool, target: real, t: real) {
    Along(forward, j.pos(t) - target) > 0.0
  }

  lemma CloseIsJustified(j: Job, s: Search)
    requires Looking(j, s) && Close(s)
    ensures Justified(j, Base(j, s), s.sdir, s.guess.time)
  {
  }

  lemma BracketIsJustified(j: Job, s: Search)
    requires Looking(j, s) && !Close(s) && !GoesOn(Bounded(j, s))
    ensures var b := Bounded(j, s);
            Justified(j, Base(j, s), b.sdir, s.guess.time)
  {
    var b := Bounded(j, s);
    BoundedKeeps(j, s);
    assert Beyond(j, b.sdir, b.target, b.high);
    assert b.target == if b.sdir then Base(j, s) + j.half else Base(j, s) - j.half;
  }

  lemma AdvancedIsOk(j: Job, s: Search)
    requires 0.0 < j.half && j.start < j.end && j.start <= s.last <= s.guess.time <= j.end
    ensures var a := Advanced(j, s);
            Ok(j, a) && Base(j, a) == Base(j, s) + Along(s.sdir, j.half + j.half)
  {
  }

  // The callback is never asked for the position at the start of the range, or outside of it.

  predicate Ahead(j: Job, s: Search) {
    j.start < s.high && (s.haveBracket ==> s.low < s.high)
  }

  lemma ProbeIsAhead(j: Job, s: Search)
    requires Ok(j, s) && Ahead(j, s) && NextProbe(j, s).Probe?
    ensures var p := NextProbe(j, s); j.start < p.time <= j.end && Ahead(j, Looked(j, p.s, p.time))
  {
    hide Secant;
  }

  lemma BoundedIsAhead(j: Job, s: Search, looked: Search)
    requires Ok(j, s) && Ahead(j, s) && NextProbe(j, s).Probe?
    requires looked == Looked(j, NextProbe(j, s).s, NextProbe(j, s).time) && GoesOn(Bounded(j, looked))
    ensures Ahead(j, Bounded(j, looked))
  {
    hide Secant;
    ProbeIsAhead(j, s);
  }

  lemma AdvancedIsAhead(j: Job, s: Search)
    requires j.start < j.end && j.start <= s.guess.time
    ensures Ahead(j, Advanced(j, s))
  {
  }

  // The record.

  ghost predicate InTime(j: Job, es: seq<Event>) {
    && (forall i :: 0 <= i < |es| && es[i].Step? ==> j.start <= es[i].time <= j.end)
    && forall i, k :: 0 <= i < k < |es| && es[i].Step? && es[k].Step? ==> es[i].time <= es[k].time
  }

  /** The commanded position n steps from a first one. */
  function Position(from: real, stepDist: real, n: int): real {
    from + stepDist * n as real
  }

  /** The i-th event, if it is a step, is justified from where the events before it led. */
  ghost predicate JustifiedAt(j: Job, from: real, es: seq<Event>, i: nat)
    requires i < |es|
  {
    es[i].Step? ==> Justified(j, Position(from, j.half + j.half, Net(es[..i])), es[i].forward, es[i].time)
  }

  ghost predicate AllJustified(j: Job, from: real, es: seq<Event>) {
    forall i: nat :: i < |es| ==> JustifiedAt(j, from, es, i)
  }

  /** The number of steps in the record. */
  function Steps(es: seq<Event>): nat {
    if es == [] then 0 else Steps(es[..|es| - 1]) + (if es[|es| - 1].Step? then 1 else 0)
  }

  ghost predicate AllBefore(es: seq<Event>, time: real) {
    forall i :: 0 <= i < |es| && es[i].Step? ==> es[i].time <= time
  }

  ghost predicate StepAt(es: seq<Event>, time: real) {
    exists i :: 0 <= i < |es| && es[i].Step? && es[i].time == time
  }

  /** What the record and the search have in common between two turns of the loop. */
  ghost predicate Recorded(j: Job, from: real, s: Search, es: seq<Event>) {
    && Base(j, s) == Position(from, j.half + j.half, Net(es))
    && InTime(j, es) && AllJustified(j, from, es) && AllBefore(es, s.last)
    && (s.last == j.start || StepAt(es, s.last))
  }

  lemma NetNext(es: seq<Event>, e: Event)
    ensures Net(es + [e]) == Net(es) + (if e.Commit? then 0 else if e.forward then 1 else -1)
    ensures Steps(es + [e]) == Steps(es) + (if e.Step? then 1 else 0)
  {
    assert (es + [e])[..|es + [e]| - 1] == es;
  }

  lemma PositionNext(from: real, stepDist: real, n: int)
    ensures Position(from, stepDist, n + 1) == Position(from, stepDist, n) + stepDist
    ensures Position(from, stepDist, n - 1) == Position(from, stepDist, n) - stepDist
  {
    assert (n + 1) as real == n as real + 1.0 && (n - 1) as real == n as real - 1.0;
  }

  lemma JustifiedBefore(j: Job, from: real, es: seq<Event>, e: Event, i: nat)
    requires AllJustified(j, from, es) && i < |es|
    ensures JustifiedAt(j, from, es + [e], i)
  {
    hide Justified, Position, Net;
    assert (es + [e])[..i] == es[..i];
    assert JustifiedAt(j, from, es, i);
  }

  lemma CommitRecorded(j: Job, from: real, s: Search, es: seq<Event>)
    requires Recorded(j, from, s, es)
    ensures Recorded(j, from, s, es + [Commit])
  {
    hide Justified, Base, Net, Position;
    NetNext(es, Commit);
    var r := es + [Commit];
    if s.last != j.start {
      var i :| 0 <= i < |es| && es[i].Step? && es[i].time == s.last;
      assert r[i] == es[i];
    }
    forall i: nat | i < |r|
      ensures JustifiedAt(j, from, r, i)
    {
      if i < |es| {
        JustifiedBefore(j, from, es, Commit, i);
      }
    }
  }

  lemma StepRecorded(j: Job, from: real, s: Search, es: seq<Event>)
    requires Recorded(j, from, s, es) && j.start <= s.last <= s.guess.time <= j.end
    requires Justified(j, Base(j, s), s.sdir, s.guess.time)
    requires Base(j, Advanced(j, s)) == Base(j, s) + Along(s.sdir, j.half + j.half)
    ensures Recorded(j, from, Advanced(j, s), es + [Step(s.sdir, s.guess.time)])
  {
    hide Justified, Base, Net, Position;
    var e := Step(s.sdir, s.guess.time);
    var r := es + [e];
    NetNext(es, e);
    PositionNext(from, j.half + j.half, Net(es));
    assert r[|es|] == e;
    forall i: nat | i < |r|
      ensures JustifiedAt(j, from, r, i)
    {
      if i < |es| {
        JustifiedBefore(j, from, es, e, i);
      } else {
        assert r[..i] == es;
      }
    }
  }

  /** Moving the bounds, or the goal to the other direction, changes neither the base nor the last step. */
  lemma SameRecord(j: Job, from: real, s: Search, t: Search, es: seq<Event>)
    requires Recorded(j, from, s, es) && Base(j, t) == Base(j, s) && t.last == s.last
    ensures Recorded(j, from, t, es)
  {
    hide Justified, Base, Net, Position;
  }

  // What each look leads to.

  /** A look at the position at a time, when so many events were recorded. */
  datatype Look = Look(time: real, events: nat)

  /** The direction of the last step, if there was one. */
  function LastDir(dir: bool, es: seq<Event>): bool {
    if es == [] then dir
    else if es[|es| - 1].Step? then es[|es| - 1].forward
    else LastDir(dir, es[..|es| - 1])
  }

  /** How far beyond the commanded position the stepper is at a time, in the direction of the last step. */
  function Gone(j: Job, from: real, dir: bool, es: seq<Event>, time: real): real {
    Along(LastDir(dir, es), j.pos(time) - Position(from, j.half + j.half, Net(es)))
  }

  /** The last of these looks, with these events recorded by then, or one before it but after the last step, found the
    * stepper half a step, and the slack, on the way back. */
  predicate TurnSeen(j: Job, from: real, dir: bool, es: seq<Event>, looks: seq<Look>)
    decreases |looks|, 0
  {
    looks != []
    && (Gone(j, from, dir, es, looks[|looks| - 1].time) < -(j.half + DIRECTION_SLACK)
        || TurnSince(j, from, dir, es, looks[..|looks| - 1]))
  }

  /** A look since the last step did. */
  predicate TurnSince(j: Job, from: real, dir: bool, es: seq<Event>, looks: seq<Look>)
    decreases |looks|, 1
  {
    looks != []
    && var n := looks[|looks| - 1].events;
       n <= |es| && Steps(es[..n]) == Steps(es) && TurnSeen(j, from, dir, es[..n], looks)
  }

  /** What the last look, with the events `es` recorded by then, may lead to: a step at its time, or else a commit, which
    * keeps the compressor from taking the last step back, exactly when the stepper is at the commanded position or
    * beyond it and no turn was seen since the last step. */
  predicate LeadsTo(j: Job, from: real, dir: bool, es: seq<Event>, looks: seq<Look>, happened: seq<Event>)
    requires looks != []
  {
    var time := looks[|looks| - 1].time;
    || happened == [Step(true, time)] || happened == [Step(false, time)]
    || happened == if 0.0 <= Gone(j, from, dir, es, time) && !TurnSeen(j, from, dir, es, looks) then [Commit] else []
  }

  /** The record is what the looks led to, one after the other. */
  predicate AllLed(j: Job, from: real, dir: bool, es: seq<Event>, looks: seq<Look>)
    decreases |looks|
  {
    if looks == [] then es == []
    else
      var n := looks[|looks| - 1].events;
      && n <= |es| && AllLed(j, from, dir, es[..n], looks[..|looks| - 1])
      && LeadsTo(j, from, dir, es[..n], looks, es[n..])
  }

  /** The search goes in the direction of the last step until a turn is seen. */
  predicate Headed(j: Job, from: real, dir: bool, s: Search, es: seq<Event>, looks: seq<Look>) {
    && (s.isDirChange <==> TurnSince(j, from, dir, es, looks))
    && (!s.isDirChange ==> s.sdir == LastDir(dir, es))
  }

  lemma RelIsGone(j: Job, from: real, dir: bool, s: Search, es: seq<Event>)
    requires Looking(j, s) && s.sdir == LastDir(dir, es) && Base(j, s) == Position(from, j.half + j.half, Net(es))
    ensures RelDist(s) == Gone(j, from, dir, es, s.guess.time) - j.half
  {
    hide Net, Position, LastDir;
  }

  lemma LedNext(j: Job, from: real, dir: bool, es: seq<Event>, looks: seq<Look>, time: real, happened: seq<Event>)
    requires AllLed(j, from, dir, es, looks)
    requires LeadsTo(j, from, dir, es, looks + [Look(time, |es|)], happened)
    ensures AllLed(j, from, dir, es + happened, looks + [Look(time, |es|)])
    ensures TurnSince(j, from, dir, es + happened, looks + [Look(time, |es|)])
            <==> Steps(es + happened) == Steps(es) && TurnSeen(j, from, dir, es, looks + [Look(time, |es|)])
  {
    hide LeadsTo, TurnSeen, Steps;
    var next := looks + [Look(time, |es|)];
    assert next[..|next| - 1] == looks;
    assert (es + happened)[..|es|] == es && (es + happened)[|es|..] == happened;
  }

  lemma SeenNext(j: Job, from: real, dir: bool, es: seq<Event>, looks: seq<Look>, time: real)
    ensures TurnSeen(j, from, dir, es, looks + [Look(time, |es|)])
            <==> Gone(j, from, dir, es, time) < -(j.half + DIRECTION_SLACK) || TurnSince(j, from, dir, es, looks)
  {
    hide Gone;
    var next := looks + [Look(time, |es|)];
    assert next[..|next| - 1] == looks;
  }

  /** A look that is not near enough leads to a commit, or to nothing. */
  lemma MissLeads(j: Job, from: real, dir: bool, s: Search, es: seq<Event>, looks: seq<Look>)
    requires Looking(j, s) && Recorded(j, from, s, es) && Headed(j, from, dir, s, es, looks)
    requires AllLed(j, from, dir, es, looks)
    ensures var found := Bounded(j, s); var next := looks + [Look(s.guess.time, |es|)];
            var after := if !found.isDirChange && RelDist(s) >= -j.half then es + [Commit] else es;
            AllLed(j, from, dir, after, next) && Headed(j, from, dir, found, after, next)
  {
    hide Recorded, Net, Position, Gone, TurnSeen, TurnSince, AllLed, Steps;
    RecordedBase(j, from, s, es);
    var found, next := Bounded(j, s), looks + [Look(s.guess.time, |es|)];
    var happened := if !found.isDirChange && RelDist(s) >= -j.half then [Commit] else [];
    SeenNext(j, from, dir, es, looks, s.guess.time);
    if !s.isDirChange {
      RelIsGone(j, from, dir, s, es);
    }
    LedNext(j, from, dir, es, looks, s.guess.time, happened);
    CommitCounts(dir, es);
    assert es + [] == es;
  }

  lemma CommitCounts(dir: bool, es: seq<Event>)
    ensures Steps(es + [Commit]) == Steps(es) && LastDir(dir, es + [Commit]) == LastDir(dir, es)
  {
    assert (es + [Commit])[..|es|] == es;
  }

  lemma StepCounts(dir: bool, es: seq<Event>, forward: bool, time: real)
    ensures Steps(es + [Step(forward, time)]) == Steps(es) + 1 && LastDir(dir, es + [Step(forward, time)]) == forward
  {
    assert (es + [Step(forward, time)])[..|es|] == es;
  }

  lemma RecordedBase(j: Job, from: real, s: Search, es: seq<Event>)
    requires Recorded(j, from, s, es)
    ensures Base(j, s) == Position(from, j.half + j.half, Net(es))
  {
  }

  /** A look that is near enough leads to a step at its time. */
  lemma HitLeads(j: Job, from: real, dir: bool, s: Search, es: seq<Event>, looks: seq<Look>)
    requires AllLed(j, from, dir, es, looks)
    ensures var next := looks + [Look(s.guess.time, |es|)]; var happened := [Step(s.sdir, s.guess.time)];
            AllLed(j, from, dir, es + happened, next) && Headed(j, from, dir, Advanced(j, s), es + happened, next)
  {
    hide Net, Position, Gone, TurnSeen, TurnSince, AllLed, Steps;
    LedNext(j, from, dir, es, looks, s.guess.time, [Step(s.sdir, s.guess.time)]);
    StepCounts(dir, es, s.sdir, s.guess.time);
  }

  datatype Result = Finished(commandedPos: real) | Failed(code: int) | OutOfFuel

  /** Where the search starts. */
  function Initial(j: Job, commandedPos: real, sdir: bool): Search {
    var g := Guess(j.start, commandedPos);
    Search(sdir, if sdir then commandedPos + j.half else commandedPos - j.half, j.start, j.start,
           Min(j.start + SEEK_TIME_RESET, j.end), false, false, false, g, g)
  }

  lemma InitialIsOk(j: Job, commandedPos: real, sdir: bool)
    requires 0.0 < j.half
    ensures var s := Initial(j, commandedPos, sdir);
            && Base(j, s) == commandedPos && Recorded(j, commandedPos, s, [])
            && (j.start < j.end ==> Ok(j, s))
            && (j.start < j.end ==> Ahead(j, s))
            && (j.end <= j.start ==> NextProbe(j, s) == Stop)
  {
    hide Secant;
  }

  /** At the end of the range, the position is within half a step of the commanded one, but for the slack with
    * which a change of direction is noticed, unless the last step fell on the very end. */
  predicate Tracked(j: Job, commandedPos: real) {
    Abs(j.pos(j.end) - commandedPos) <= j.half + DIRECTION_SLACK
  }

  lemma StopIsTracked(j: Job, from: real, s: Search, es: seq<Event>)
    requires Ok(j, s) && Recorded(j, from, s, es) && NextProbe(j, s) == Stop
    ensures StepAt(es, j.end) || Tracked(j, Base(j, s))
  {
    hide Secant, Justified, Net, Position;
  }

  /** itersolve_gen_steps_range, for a move given by its print time and duration.  `append` gives the result of the
    * n-th call of stepcompress_append; the search gives up after `fuel` looks, which the source never does.
    * A division by zero is a guess out of bounds.  `looks` lists the times that the position callback was asked for. */
  method GenStepsRange(pos: real -> real, printTime: real, moveT: real, stepDist: real, commandedPos: real,
                       stepDir: bool, append: nat -> int, absStart: real, absEnd: real, fuel: nat)
      returns (result: Result, es: seq<Event>, looks: seq<Look>)
    requires 0.0 < stepDist
    ensures var j := Range(pos, printTime, moveT, stepDist, absStart, absEnd);
            && InTime(j, es) && AllJustified(j, commandedPos, es)
            && (forall i :: 0 <= i < |looks| ==> j.start < looks[i].time <= j.end)
            && (j.end <= j.start ==> es == [])
            && (result.Finished? ==> result.commandedPos == Position(commandedPos, stepDist, Net(es)))
            && (result.Finished? && j.start < j.end ==> StepAt(es, j.end) || Tracked(j, result.commandedPos))
            && (result.Failed? ==> result.code == append(Steps(es)) != 0)
            && (!result.Failed? ==> AllLed(j, commandedPos, stepDir, es, looks))
            && (result.Failed? ==> looks != [] && AllLed(j, commandedPos, stepDir, es, looks[..|looks| - 1]))
  {
    hide Ok, Looking, NextProbe, Bounded, Advanced, Recorded, Justified, Net, Steps, Tracked, StepAt, Base, Position,
      Ahead, AllLed, Headed, RelDist, Close;
    var j := Range(pos, printTime, moveT, stepDist, absStart, absEnd);
    var s := Initial(j, commandedPos, stepDir);
    es, looks := [], [];
    InitialIsOk(j, commandedPos, stepDir);
    NothingLed(j, commandedPos, stepDir);
    assert Steps([]) == 0 by { StepsNone(); }
    for turns := 0 to fuel
      invariant Recorded(j, commandedPos, s, es)
      invariant j.start < j.end ==> Ok(j, s) && Ahead(j, s)
      invariant forall i :: 0 <= i < |looks| ==> j.start < looks[i].time <= j.end
      invariant AllLed(j, commandedPos, stepDir, es, looks) && Headed(j, commandedPos, stepDir, s, es, looks)
      invariant j.end <= j.start ==> NextProbe(j, s) == Stop && es == [] && Base(j, s) == commandedPos
    {
      var probe := NextProbe(j, s);
      if probe == Stop {
        // Nothing is left to find before the end of the range.
        ResultIs(j, stepDist, commandedPos, s, es);
        return Finished(Base(j, s)), es, looks;
      }
      var looked := Looked(j, probe.s, probe.time);
      LookedIsLooking(j, s);
      LookedLast(j, s);
      ProbeIsAhead(j, s);
      SameRecord(j, commandedPos, s, looked, es);
      LookedHeads(j, commandedPos, stepDir, s, es, looks);
      ghost var since, before := s, looks;
      looks := looks + [Look(probe.time, |es|)];
      s := looked;
      var found := s;
      if !Close(s) {
        // Too far off the mark: this time becomes one of the bounds.
        found := Bounded(j, s);
        BoundedKeeps(j, s);
        SameRecord(j, commandedPos, s, found, es);
        if GoesOn(found) {
          MissLeads(j, commandedPos, stepDir, s, es, before);
          if !found.isDirChange && RelDist(s) >= -j.half {
            // From here on no turn can take the step back.
            CommitRecorded(j, commandedPos, found, es);
            es := es + [Commit];
          }
          BoundedIsAhead(j, since, s);
          s := found;
          continue;
        }
        BracketIsJustified(j, s);
      } else {
        CloseIsJustified(j, s);
      }
      // Near enough: the step goes to the compressor.
      var ret := append(Steps(es));
      if ret != 0 {
        RecordedIs(j, commandedPos, s, es);
        return Failed(ret), es, looks;
      }
      FoundIsOrdered(j, s, found);
      AdvancedIsOk(j, found);
      AdvancedIsAhead(j, found);
      StepRecorded(j, commandedPos, found, es);
      HitLeads(j, commandedPos, stepDir, found, es, before);
      es := es + [Step(found.sdir, found.guess.time)];
      s := Advanced(j, found);
    }
    RecordedIs(j, commandedPos, s, es);
    result := OutOfFuel;
  }

  /** The time range in which the solver works: the part of the move within the requested times, counted from the
    * start of the move. */
  function Range(pos: real -> real, printTime: real, moveT: real, stepDist: real, absStart: real, absEnd: real): Job {
    Job(pos, 0.5 * stepDist, Max(absStart - printTime, 0.0), Min(absEnd - printTime, moveT))
  }

  lemma NothingLed(j: Job, from: real, dir: bool)
    ensures AllLed(j, from, dir, [], []) && Headed(j, from, dir, Initial(j, from, dir), [], [])
  {
  }

  lemma LookedHeads(j: Job, from: real, dir: bool, s: Search, es: seq<Event>, looks: seq<Look>)
    requires Headed(j, from, dir, s, es, looks) && NextProbe(j, s).Probe?
    ensures var p := NextProbe(j, s); var l := Looked(j, p.s, p.time);
            Headed(j, from, dir, l, es, looks) && l.guess.time == p.time
  {
    hide Secant, TurnSince;
  }

  lemma StepsNone()
    ensures Steps([]) == 0
  {
  }

  lemma LookedLast(j: Job, s: Search)
    requires Ok(j, s) && NextProbe(j, s).Probe?
    ensures Looked(j, NextProbe(j, s).s, NextProbe(j, s).time).last == s.last
  {
    hide Secant;
  }

  lemma RecordedIs(j: Job, from: real, s: Search, es: seq<Event>)
    requires Recorded(j, from, s, es)
    ensures InTime(j, es) && AllJustified(j, from, es)
  {
  }

  lemma FoundIsOrdered(j: Job, s: Search, found: Search)
    requires Looking(j, s) && found.guess == s.guess && found.last == s.last
    ensures 0.0 < j.half && j.start < j.end && j.start <= found.last <= found.guess.time <= j.end
  {
  }

  lemma ResultIs(j: Job, stepDist: real, from: real, s: Search, es: seq<Event>)
    requires j.half == 0.5 * stepDist && Recorded(j, from, s, es) && NextProbe(j, s) == Stop
    requires j.start < j.end ==> Ok(j, s)
    ensures InTime(j, es) && AllJustified(j, from, es)
    ensures Base(j, s) == Position(from, stepDist, Net(es))
    ensures j.start < j.end ==> StepAt(es, j.end) || Tracked(j, Base(j, s))
  {
    hide Ok, NextProbe, Net, StepAt, Tracked, Justified, Base, Position;
    assert j.half + j.half == stepDist;
    if j.start < j.end {
      StopIsTracked(j, from, s, es);
    }
  }
}
