/** Which times the step solver looks at, and how soon it is there: the secant, the bisection, and the bounds of the
  * search. */
module StepSearch {
  import opened RealMath
  import opened IterSolve

  // At constant speed.

  /** The position goes along a straight line in time. */
  function OnLine(origin: real, rate: real, t: real): real {
    origin + rate * t
  }

  lemma LineDifference(origin: real, rate: real, s: real, t: real)
    ensures OnLine(origin, rate, s) - OnLine(origin, rate, t) == rate * (s - t)
  {
  }

  lemma NotZero(a: real, b: real)
    requires a != 0.0 && b != 0.0
    ensures a * b != 0.0
  {
  }

  /** From two guesses on a line, the secant finds the time at which the line is at the target. */
  lemma SecantIsExact(s: Search, origin: real, rate: real, t: real)
    requires rate != 0.0 && s.guess.time != s.oldGuess.time && OnLine(origin, rate, t) == s.target
    requires s.guess.position == OnLine(origin, rate, s.guess.time)
    requires s.oldGuess.position == OnLine(origin, rate, s.oldGuess.time)
    ensures Secant(s) == Time(t)
  {
    hide OnLine;
    LineDifference(origin, rate, s.guess.time, t);
    LineDifference(origin, rate, s.oldGuess.time, t);
    var g, o := s.guess.time, s.oldGuess.time;
    SecantOf(g, o, rate * (g - t), rate * (o - t), rate, t);
  }

  lemma SecantOf(g: real, o: real, guessDist: real, ogDist: real, rate: real, t: real)
    requires rate != 0.0 && g != o && guessDist == rate * (g - t) && ogDist == rate * (o - t)
    ensures guessDist - ogDist != 0.0 && (o * guessDist - g * ogDist) / (guessDist - ogDist) == t
  {
    var d := guessDist - ogDist;
    assert d == rate * (g - o);
    NotZero(rate, g - o);
    assert o * guessDist - g * ogDist == t * d;
  }

  /** A step was found on its mark, one step interval after the last, in a motion at constant speed. */
  ghost predicate Steady(j: Job, s: Search, origin: real, rate: real, interval: real) {
    && 0.0 < j.half && 0.0 < interval && rate * interval == Along(s.sdir, j.half + j.half)
    && (forall t: real :: s.last <= t <= j.end ==> j.pos(t) == OnLine(origin, rate, t))
    && s.guess == Guess(s.last + interval, s.target) && s.last <= s.oldGuess.time < s.guess.time <= j.end
    && s.guess.position == j.pos(s.guess.time) && s.oldGuess.position == j.pos(s.oldGuess.time)
    && !s.isDirChange && !s.haveBracket
  }

  /** What the loop does from there: a new search, one look, and the search as it stands then. */
  function Again(j: Job, s: Search): Search
    requires NextProbe(j, Advanced(j, s)).Probe?
  {
    var p := NextProbe(j, Advanced(j, s));
    Looked(j, p.s, p.time)
  }

  lemma RateIsNotZero(rate: real, interval: real, step: real)
    requires rate * interval == step && step != 0.0
    ensures rate != 0.0
  {
  }

  /** At constant speed every step costs a single look: the next time looked at is one interval later, the position there
    * is on the next mark, and so it goes on, until the end of the range. */
  lemma SteadyStep(j: Job, s: Search, origin: real, rate: real, interval: real)
    requires Steady(j, s, origin, rate, interval) && s.guess.time + interval < j.end
    ensures NextProbe(j, Advanced(j, s)) == Probe(Advanced(j, s), s.guess.time + interval)
    ensures var next := Again(j, s);
            && Steady(j, next, origin, rate, interval) && Close(next)
            && next.guess.time == s.guess.time + interval && next.sdir == s.sdir
  {
    hide OnLine, Secant;
    RateIsNotZero(rate, interval, Along(s.sdir, j.half + j.half));
    var a := Advanced(j, s);
    LineDifference(origin, rate, s.guess.time + interval, s.guess.time);
    assert j.pos(s.guess.time) == OnLine(origin, rate, s.guess.time);
    assert j.pos(s.guess.time + interval) == OnLine(origin, rate, s.guess.time + interval);
    assert j.pos(s.oldGuess.time) == OnLine(origin, rate, s.oldGuess.time);
    SecantIsExact(a, origin, rate, s.guess.time + interval);
  }

  // The next time looked at.

  /** Every look is at a new time: strictly between the bounds once there is a bracket, and beyond the lower one before. */
  lemma ProbeIsNew(j: Job, s: Search)
    requires Ok(j, s) && s.low < s.high && NextProbe(j, s).Probe?
    ensures var t := NextProbe(j, s).time; s.low < t && (s.haveBracket ==> t < s.high)
  {
    hide Secant;
  }

  /** While nothing beyond the mark was found, the look is at the secant if that is within the bounds; otherwise it is at
    * the upper one, which then moves on to twice as far from the last step, and not beyond the end, until that is where
    * the last look was. */
  lemma SearchDoubles(j: Job, s: Search, x: real)
    requires !s.haveBracket
    ensures var p := NextProbe(j, s);
            if Secant(s).Time? && s.low < Secant(s).t < s.high then p == Probe(s, Secant(s).t)
            else if j.end <= s.guess.time then p == Stop
            else
              && p == Probe(s.(high := p.s.high), s.high)
              && (p.s.high <= x <==> j.end <= x || s.high - s.last <= x - s.high)
  {
    hide Secant;
  }

  function Middle(low: real, high: real): Time {
    Time((low + high) * 0.5)
  }

  /** After a look beyond the mark the next one is at the secant of the last two, if that is between the lower bound and
    * this look, and otherwise in the middle between them; it is in the middle in any case when the looks have closed in
    * from above twice, so that every other one halves the bracket. */
  lemma OvershootNext(j: Job, s: Search)
    requires RelDist(s) > 0.0
    ensures var p := NextProbe(j, Bounded(j, s)); var twice := s.haveBracket && s.oldGuess.time <= s.low && s.checkOscillate;
            && p.Probe?
            && Time(p.time) == (if !twice && Secant(s).Time? && s.low < Secant(s).t < s.guess.time then Secant(s)
                                else Middle(s.low, s.guess.time))
            && (Bounded(j, s).checkOscillate <==> s.checkOscillate || (s.haveBracket && s.oldGuess.time <= s.low))
  {
    var b := Bounded(j, s);
    if s.haveBracket && s.oldGuess.time <= s.low && s.checkOscillate {
      assert Secant(b) == Nowhere;
    } else {
      assert Secant(b) == Secant(s);
    }
  }

  /** A look that finds the stepper more than a step back turns the search around: the next one is between the last step
    * and this look. */
  lemma TurnNext(j: Job, s: Search)
    requires RelDist(s) < -(j.half + j.half + 0.000000010) && 0.0 < j.half && s.last < s.guess.time
    ensures var b := Bounded(j, s); var p := NextProbe(j, b);
            && b.sdir == !s.sdir && b.isDirChange && p.Probe? && s.last < p.time < s.guess.time && !b.checkOscillate
            && b.target == s.target - Along(s.sdir, j.half + j.half)
            && b.low == s.last && b.high == s.guess.time
  {
    hide Secant;
  }

  /** After a step the search reaches ahead by half as much again as the last step took, by a nanosecond at least, by no
    * more than a tenth of a millisecond after a turn, and not beyond the end; it is not marked by what came before. */
  lemma SearchStartsAnew(j: Job, s: Search, x: real)
    ensures var a := Advanced(j, s); var time := s.guess.time;
            && (a.high <= x <==>
                || j.end <= x
                || (s.isDirChange && time + 0.0001 <= x)
                || (time + 1.5 * (time - s.last) <= x && time + 0.000000001 <= x))
            && a.low == a.last == time && a.guess == s.guess && a.oldGuess == s.oldGuess
            && !a.haveBracket && !a.isDirChange && !a.checkOscillate
  {
  }

  /** The range of times in which a move is searched: those of the move that lie in the requested ones. */
  lemma RangeMeans(pos: real -> real, printTime: real, moveT: real, stepDist: real, absStart: real, absEnd: real, t: real)
    ensures var j := Range(pos, printTime, moveT, stepDist, absStart, absEnd);
            && (j.start <= t <= j.end <==> 0.0 <= t <= moveT && absStart <= printTime + t <= absEnd)
            && j.half + j.half == stepDist && j.pos == pos
  {
  }

  /** So does the first search, which has no last step and reaches ahead by a tenth of a millisecond. */
  lemma SearchStarts(j: Job, commandedPos: real, sdir: bool, x: real)
    ensures var s := Initial(j, commandedPos, sdir);
            && (s.high <= x <==> j.end <= x || j.start + 0.0001 <= x)
            && s.low == s.last == j.start && s.guess == s.oldGuess == Guess(j.start, commandedPos)
            && !s.haveBracket && !s.isDirChange && !s.checkOscillate
  {
  }
}
