/** A stepper's kinematics as an object: its walks over the motion queue solve moves for step times. */
module Steppers {
  import opened TrapTimeline
  import opened StepGeneration
  import opened StepSessions
  import IterSolve

  /** How a walk ends: all of it done, with an error of the step compressor, or with a search given up. */
  datatype Outcome = Completed | Error(code: int) | OutOfFuel

  function OutcomeOf(r: IterSolve.Result): Outcome {
    match r
    case Finished(_) => Completed
    case Failed(code) => Error(code)
    case OutOfFuel => OutOfFuel
  }

  /** The step compressor, as the walk meets it: the result of stepcompress_append after so many steps, and how many
    * looks a search may take. */
  datatype Compressor = Compressor(append: nat -> int, fuel: nat)

  /** The direction of the last step that was handed on; backward before the first one. */
  function Facing(ss: seq<TimedStep>): bool {
    ss != [] && ss[|ss| - 1].forward
  }

  lemma {:induction false} FacingNext(ss: seq<TimedStep>, es: seq<IterSolve.Event>, printTime: real)
    ensures Facing(ss + Stamped(es, printTime)) == IterSolve.LastDir(Facing(ss), es)
  {
    if es == [] {
      assert ss + [] == ss;
    } else {
      var n := |es| - 1;
      FacingNext(ss, es[..n], printTime);
      if !es[n].Step? {
        assert Stamped(es, printTime) == Stamped(es[..n], printTime);
      }
    }
  }

  /** What the calls of a walk have found and handed to the step compressor. */
  ghost predicate Handed(k: Kinematics, j: Job, from: real, before: seq<TimedStep>, calls: seq<Call>,
                         found: seq<seq<IterSolve.Event>>, steps: seq<TimedStep>)
  {
    Ran(k, j, from, calls, found) && steps == before + StampedAll(j, calls, found)
  }

  lemma HandedNext(k: Kinematics, j: Job, from: real, before: seq<TimedStep>, calls: seq<Call>,
                   found: seq<seq<IterSolve.Event>>, steps: seq<TimedStep>, commanded: real, c: Call,
                   f: seq<IterSolve.Event>)
    requires Handed(k, j, from, before, calls, found, steps) && Reached(k, j, from, calls, found, commanded)
    requires RanCall(k, j, c, commanded, f)
    ensures Handed(k, j, from, before, calls + [c], found + [f], steps + Stamped(f, StartTime(j, c)))
  {
    hide RanCall, After, StampedAll, Stamped;
    RanNext(k, j, from, calls, found, c, f);
    StampedNext(j, calls, found, c, f);
  }

  /** struct stepper_kinematics, with the direction and the steps that its step compressor holds. */
  class StepperKinematics {
    const kin: Kinematics
    const genStepsPreActive: real
    const genStepsPostActive: real
    var lastFlushTime: real
    var lastMoveTime: real
    var commandedPos: real
    var stepDir: bool
    var steps: seq<TimedStep>
    ghost const origin: real  // the first commanded position
    ghost var walks: seq<Walked>

    /** Every walk so far began where the one before it ended, and the commanded position is where all steps led. */
    ghost predicate Valid()
      reads this
    {
      && 0.0 <= genStepsPreActive && 0.0 <= genStepsPostActive && 0.0 < kin.stepDist && lastMoveTime <= lastFlushTime
      && Recorded() && Faces() && commandedPos == After(kin, origin, steps)
    }

    /** The next search goes in the direction of the last step. */
    predicate Faces()
      reads `stepDir, `steps
    {
      stepDir == Facing(steps)
    }

    ghost predicate Recorded()
      reads this
    {
      && Session(kin, origin, walks) && steps == AllSteps(walks)
      && (walks != [] ==> walks[|walks| - 1].j.flush == lastFlushTime && walks[|walks| - 1].after == lastMoveTime)
    }

    constructor (k: Kinematics, commanded: real, preActive: real, postActive: real)
      requires 0.0 <= preActive && 0.0 <= postActive && 0.0 < k.stepDist
      ensures Valid() && kin == k && lastFlushTime == 0.0 && lastMoveTime == 0.0 && steps == []
      ensures commandedPos == origin == commanded
      ensures genStepsPreActive == preActive && genStepsPostActive == postActive
    {
      kin, genStepsPreActive, genStepsPostActive := k, preActive, postActive;
      lastFlushTime, lastMoveTime, commandedPos, stepDir := 0.0, 0.0, commanded, false;
      steps, walks, origin := [], [], commanded;
    }

    /** itersolve_gen_steps_range for one move, in the course of a walk. */
    method Solve(j: Job, c: Call, sc: Compressor, ghost from: real, ghost before: seq<TimedStep>,
                 ghost calls: seq<Call>, ghost found: seq<seq<IterSolve.Event>>)
      returns (outcome: Outcome, ghost f: seq<IterSolve.Event>)
      requires c.index < |j.es| && 0.0 < kin.stepDist && |calls| == |found|
      requires Handed(kin, j, from, before, calls, found, steps) && Reached(kin, j, from, calls, found, commandedPos)
      requires Faces()
      modifies `commandedPos, `stepDir, `steps
      ensures Faces() && Handed(kin, j, from, before, calls + [c], found + [f], steps)
      ensures outcome.Completed? ==> Reached(kin, j, from, calls + [c], found + [f], commandedPos)
      ensures !outcome.Completed? ==> commandedPos == old(commandedPos)
      ensures outcome.Error? ==> outcome.code == sc.append(|steps|) != 0
    {
      hide Handed, Reached, Facing, StampedAll, After, IterSolve.AllJustified, IterSolve.InTime, IterSolve.Position,
        IterSolve.LastDir, IterSolve.Net, IterSolve.StepAt, IterSolve.Tracked, IterSolve.Range, IterSolve.AllLed;
      var m, n := j.es[c.index], |steps|;
      var result, es, _ := IterSolve.GenStepsRange(kin.position(j.es, c.index), m.printTime, m.moveT, kin.stepDist,
                                                   commandedPos, stepDir, (i: nat) => sc.append(n + i),
                                                   c.absStart, c.absEnd, sc.fuel);
      f := es;
      outcome := OutcomeOf(result);
      HandedNext(kin, j, from, before, calls, found, steps, commandedPos, c, f);
      StampedCount(es, m.printTime);
      FacingNext(steps, es, m.printTime);
      steps := steps + Stamped(es, m.printTime);
      stepDir := IterSolve.LastDir(stepDir, es);
      if result.Finished? {
        ReachedNext(kin, j, from, calls, found, commandedPos, c, f, result.commandedPos);
        commandedPos := result.commandedPos;
      }
    }

    /** Solving the moves that lead up to an active one: from `pre` before its start, but nothing a second time. */
    method LeadUp(j: Job, i: nat, skipCount: nat, force: real, sc: Compressor, ghost from: real,
                  ghost before: seq<TimedStep>, ghost calls: seq<Call>, ghost found: seq<seq<IterSolve.Event>>,
                  ghost first: nat, ghost origin: real)
      returns (outcome: Outcome, ghost cs: seq<Call>, ghost fs: seq<seq<IterSolve.Event>>)
      requires Proper(j) && i < |j.es| && 0 < skipCount <= i && 0.0 < kin.stepDist
      requires first <= i && IsActive(j, i) && Frugal(j, first, origin, calls)
      requires InOrder(j, calls) && Past(j, calls, i, skipCount, force) && |calls| == |found|
      requires Handed(kin, j, from, before, calls, found, steps) && Reached(kin, j, from, calls, found, commandedPos)
      requires Faces()
      modifies `commandedPos, `stepDir, `steps
      ensures Faces() && calls <= cs && InOrder(j, cs) && forall c :: c in cs ==> Within(j, c) && c.index < i
      ensures Frugal(j, first, origin, cs)
      ensures |cs| == |fs| && Handed(kin, j, from, before, cs, fs, steps)
      ensures outcome.Completed? ==> LedUp(j, cs, i, skipCount, force) && Reached(kin, j, from, cs, fs, commandedPos)
      ensures !outcome.Completed? ==> Stopped(outcome, sc)
    {
      hide Proper, Within, Before, Holds, Handed, Reached, LedUp, Frugal, Wanted, Facing;
      var absStart := j.es[i].printTime - j.pre;
      if absStart < j.lastFlush {
        absStart := j.lastFlush;
      }
      if absStart < force {
        absStart := force;
      }
      var pm, skip := i - 1, skipCount - 1;
      while skip != 0 && j.es[pm].printTime > absStart
        invariant 0 <= skip < skipCount && pm == i - skipCount + skip
        decreases skip
      {
        pm, skip := pm - 1, skip - 1;
      }
      ghost var low := pm;
      outcome, cs, fs := Completed, calls, found;
      while pm != i
        invariant low <= pm <= i && outcome == Completed && Faces()
        invariant calls <= cs && InOrder(j, cs) && |cs| == |fs| && Frugal(j, first, origin, cs)
        invariant forall c :: c in cs ==> Within(j, c) && (c.index < pm || Settled(c, i, skipCount, force))
        invariant forall k: nat :: low <= k < pm ==> Call(k, absStart, j.flush) in cs
        invariant Handed(kin, j, from, before, cs, fs, steps) && Reached(kin, j, from, cs, fs, commandedPos)
        decreases i - pm
      {
        var c := Call(pm, absStart, j.flush);
        assert Within(j, c) by { WithinRange(j, c); }
        forall a | a in cs
          ensures Within(j, a) && Precedes(a, c)
        {
        }
        AppendInOrder(j, cs, c);
        WantedLead(j, first, i, origin, c);
        FrugalNext(j, first, origin, cs, c);
        ghost var f;
        outcome, f := Solve(j, c, sc, from, before, cs, fs);
        cs, fs := cs + [c], fs + [f];
        if outcome != Completed {
          return;
        }
        pm := pm + 1;
      }
      LeadCovered(j, cs, i, skipCount, force, low, absStart);
    }

    /** The walk stopped early: the step compressor reported an error for the step after those handed over, or a search
      * was given up. */
    predicate Stopped(outcome: Outcome, sc: Compressor)
      reads `steps
    {
      outcome.OutOfFuel? || (outcome.Error? && outcome.code == sc.append(|steps|) != 0)
    }

    /** itersolve_generate_steps, for a queue with its tail sentinel. */
    method Walk(j: Job, sc: Compressor)
      returns (outcome: Outcome, ghost calls: seq<Call>, ghost found: seq<seq<IterSolve.Event>>, ghost first: nat)
      requires Proper(j) && lastMoveTime <= j.lastFlush && 0.0 < kin.stepDist && Faces()
      modifies `lastMoveTime, `commandedPos, `stepDir, `steps
      ensures Faces() && InOrder(j, calls) && forall c :: c in calls ==> Within(j, c)
      ensures Frugal(j, first, old(lastMoveTime), calls) && Marked(j, first, old(lastMoveTime), lastMoveTime)
      ensures |calls| == |found| && Handed(kin, j, old(commandedPos), old(steps), calls, found, steps)
      ensures first < |j.es| && j.lastFlush < j.es[first].EndTime()
      ensures forall k :: 0 <= k < first ==> j.es[k].EndTime() <= j.lastFlush
      ensures old(lastMoveTime) <= lastMoveTime <= j.flush
      ensures outcome.Completed? ==>
                && Achieved(j, calls, first, old(lastMoveTime))
                && Reached(kin, j, old(commandedPos), calls, found, commandedPos)
      ensures !outcome.Completed? ==> Stopped(outcome, sc)
    {
      hide Proper, InOrder, Within, Past, Covered, Achieved, LedUp, DoneBefore, Latest, ActiveSolved, Handed, Reached,
        Frugal, Wanted, Marked, Facing;
      ghost var from, before, origin := commandedPos, steps, lastMoveTime;
      var i := FindFirst(j);
      first := i;
      calls, found, outcome := [], [], Completed;
      NothingHanded(kin, j, from, before);
      var skipCount: nat := 0;
      WalkStarts(j, first, origin);
      WalkingParts(j, calls, first, i, 0, origin, origin);
      while true
        invariant Walking(j, calls, first, i, skipCount, origin, lastMoveTime)
        invariant origin <= lastMoveTime <= j.flush && |calls| == |found| && outcome == Completed && Faces()
        invariant Frugal(j, first, origin, calls) && (i == first || j.es[i].printTime <= j.flush + j.pre)
        invariant Handed(kin, j, from, before, calls, found, steps)
        invariant Reached(kin, j, from, calls, found, commandedPos)
        decreases |j.es| - i
      {
        ghost var past, f := calls, [];
        var forceStepsTime := lastMoveTime + j.post;
        WalkingParts(j, calls, first, i, skipCount, origin, lastMoveTime);
        LatestIsMarked(j, first, i, origin, lastMoveTime);
        if j.active[i] {
          if skipCount != 0 && j.pre != 0.0 {
            outcome, calls, found := LeadUp(j, i, skipCount, forceStepsTime, sc, from, before, calls, found,
                                             first, origin);
            if outcome != Completed {
              return;
            }
          }
          var c := Call(i, j.lastFlush, j.flush);
          AddingOwn(j, past, calls, i, skipCount, forceStepsTime, c);
          LedUpMore(j, calls, c, i, skipCount, forceStepsTime);
          WantedActive(j, first, i, origin, c);
          FrugalNext(j, first, origin, calls, c);
          outcome, f := Solve(j, c, sc, from, before, calls, found);
          calls, found := calls + [c], found + [f];
          if outcome != Completed {
            return;
          }
          if j.es[i].EndTime() >= j.flush {
            StopActive(j, past, calls, first, i, skipCount, origin, lastMoveTime);
            FlushIsMarked(j, first, i, origin);
            lastMoveTime := j.flush;
            return;
          }
          NotLast(j, i);
          NextStart(j, i);
          NextActive(j, past, calls, first, i, skipCount, origin, lastMoveTime);
          LaterEnd(j, first, i, origin);
          skipCount := 0;
          lastMoveTime := j.es[i].EndTime();
        } else {
          if j.es[i].printTime < forceStepsTime {
            var absEnd := if forceStepsTime > j.flush then j.flush else forceStepsTime;
            var c := Call(i, j.lastFlush, absEnd);
            Adding(j, calls, i, skipCount, forceStepsTime, c);
            WantedNear(j, first, i, origin, lastMoveTime, c);
            FrugalNext(j, first, origin, calls, c);
            outcome, f := Solve(j, c, sc, from, before, calls, found);
            calls, found := calls + [c], found + [f];
            if outcome != Completed {
              return;
            }
          } else {
            AllWithin(j, calls, i, skipCount, forceStepsTime);
          }
          if j.flush + j.pre <= j.es[i].EndTime() {
            StopInactive(j, past, calls, first, i, skipCount, origin, lastMoveTime);
            return;
          }
          NotLast(j, i);
          NextStart(j, i);
          NextInactive(j, past, calls, first, i, skipCount, origin, lastMoveTime);
          skipCount := if j.es[i].printTime < forceStepsTime then 1 else skipCount + 1;
        }
        i := i + 1;
      }
    }

    /** itersolve_generate_steps on the queue with its tail sentinel; `active` tells which moves concern the stepper.
      * An early end leaves the commanded position where the call that ended early began. */
    method Generate(es: seq<Entry>, active: seq<bool>, flushTime: real, sc: Compressor)
      returns (outcome: Outcome)
      requires Valid() && lastFlushTime <= flushTime
      requires Proper(Job(es, active, lastFlushTime, flushTime, genStepsPreActive, genStepsPostActive))
      modifies `lastFlushTime, `lastMoveTime, `commandedPos, `stepDir, `steps, `walks
      ensures Recorded() && Faces() && lastFlushTime == flushTime && old(lastMoveTime) <= lastMoveTime && old(steps) <= steps
      ensures |walks| == |old(walks)| + 1 && walks[..|old(walks)|] == old(walks)
      ensures var w := walks[|old(walks)|];
              && w.j == Job(es, active, old(lastFlushTime), flushTime, genStepsPreActive, genStepsPostActive)
              && w.before == old(lastMoveTime) && w.after == lastMoveTime
              && (outcome.Completed? ==>
                    && Valid() && Achieved(w.j, w.calls, w.first, w.before)
                    && Reached(kin, w.j, old(commandedPos), w.calls, w.found, commandedPos))
              && w.first <= |es| && forall k :: 0 <= k < w.first ==> es[k].EndTime() <= old(lastFlushTime)
      ensures !outcome.Completed? ==> Stopped(outcome, sc)
    {
      hide Proper, Achieved, Session, After, AllSteps, StampedAll, InOrder, Within, Ran, Reached, Frugal, Marked, Facing;
      ghost var before, base, done, origin := walks, commandedPos, steps, lastMoveTime;
      var j := Job(es, active, lastFlushTime, flushTime, genStepsPreActive, genStepsPostActive);
      ghost var calls, found, first;
      outcome, calls, found, first := Walk(j, sc);
      lastFlushTime := flushTime;
      ghost var w := Walked(j, calls, found, first, origin, lastMoveTime);
      walks := walks + [w];
      WalkOf(kin, base, done, w, steps);
      SessionNext(kin, this.origin, before, w);
      if outcome.Completed? {
        ReachedAfter(kin, this.origin, before, w, base, commandedPos);
      }
    }
  }

  lemma WalkOf(k: Kinematics, from: real, before: seq<TimedStep>, w: Walked, steps: seq<TimedStep>)
    requires Proper(w.j) && InOrder(w.j, w.calls) && forall c :: c in w.calls ==> Within(w.j, c)
    requires Handed(k, w.j, from, before, w.calls, w.found, steps) && Sparing(w)
    ensures WalkedFrom(k, from, w) && |w.calls| == |w.found|
    ensures steps == before + StampedAll(w.j, w.calls, w.found)
  {
  }

  lemma StepsNext(ws: seq<Walked>, w: Walked)
    requires Paired(ws) && |w.calls| == |w.found|
    ensures Paired(ws + [w])
    ensures AllSteps(ws + [w]) == AllSteps(ws) + StampedAll(w.j, w.calls, w.found)
  {
    hide StampedAll;
    assert (ws + [w])[..|ws + [w]| - 1] == ws;
  }

  lemma SessionNext(k: Kinematics, from: real, ws: seq<Walked>, w: Walked)
    requires Session(k, from, ws) && WalkedFrom(k, After(k, from, AllSteps(ws)), w) && |w.calls| == |w.found|
    requires ws != [] ==> ws[|ws| - 1].j.flush <= w.j.lastFlush && ws[|ws| - 1].after == w.before
    ensures Session(k, from, ws + [w]) && AllSteps(ws + [w]) == AllSteps(ws) + StampedAll(w.j, w.calls, w.found)
  {
    hide WalkedFrom, After, AllSteps, StampedAll, Follows;
    StepsNext(ws, w);
    assert (ws + [w])[..|ws|] == ws;
    SessionUpTo(k, from, ws, ws + [w]);
  }

  lemma SessionUpTo(k: Kinematics, from: real, ws: seq<Walked>, r: seq<Walked>)
    requires Session(k, from, ws) && Paired(r) && |r| == |ws| + 1 && r[..|ws|] == ws
    requires WalkedFrom(k, After(k, from, AllSteps(ws)), r[|ws|])
    requires ws != [] ==> r[|ws| - 1].j.flush <= r[|ws|].j.lastFlush && r[|ws| - 1].after == r[|ws|].before
    ensures Session(k, from, r)
  {
    hide WalkedFrom, After, AllSteps, Follows;
    forall a: nat | a < |r|
      ensures Follows(k, from, r, a)
    {
      FollowsAt(k, from, ws, r, a);
    }
  }

  lemma FollowsAt(k: Kinematics, from: real, ws: seq<Walked>, r: seq<Walked>, a: nat)
    requires Session(k, from, ws) && Paired(r) && |r| == |ws| + 1 && r[..|ws|] == ws && a < |r|
    requires WalkedFrom(k, After(k, from, AllSteps(ws)), r[|ws|])
    requires ws != [] ==> r[|ws| - 1].j.flush <= r[|ws|].j.lastFlush && r[|ws| - 1].after == r[|ws|].before
    ensures Follows(k, from, r, a)
  {
    hide WalkedFrom, After, AllSteps;
    if a < |ws| {
      assert Follows(k, from, ws, a);
      assert r[..a] == r[..|ws|][..a] == ws[..a];
      assert r[a] == r[..|ws|][a];
      if 0 < a {
        assert r[a - 1] == r[..|ws|][a - 1];
      }
    }
  }

  lemma ReachedAfter(k: Kinematics, from: real, ws: seq<Walked>, w: Walked, base: real, commanded: real)
    requires Session(k, from, ws) && |w.calls| == |w.found|
    requires base == After(k, from, AllSteps(ws)) && Reached(k, w.j, base, w.calls, w.found, commanded)
    ensures commanded == After(k, from, AllSteps(ws) + StampedAll(w.j, w.calls, w.found))
  {
    hide After, AllSteps, StampedAll, Follows;
    AfterAppend(k, from, AllSteps(ws), StampedAll(w.j, w.calls, w.found));
  }

  lemma NothingHanded(k: Kinematics, j: Job, from: real, before: seq<TimedStep>)
    ensures Handed(k, j, from, before, [], [], before) && Reached(k, j, from, [], [], from)
  {
    assert StampedAll(j, [], []) == [] && before + [] == before;
  }

  lemma {:induction false} StampedCount(es: seq<IterSolve.Event>, printTime: real)
    ensures |Stamped(es, printTime)| == IterSolve.Steps(es)
  {
    if es != [] {
      StampedCount(es[..|es| - 1], printTime);
    }
  }
}
