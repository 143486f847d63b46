/** The steps that walks over the motion queue hand to the step compressor: in which order, and why each of them. */
module StepSessions {
  import opened TrapTimeline
  import opened StepGeneration
  import IterSolve

  // The steps of a walk.

  /** The position callback of a stepper, for a time within a move of the queue, and its step distance. */
  datatype Kinematics = Kinematics(position: (seq<Entry>, nat) -> real -> real, stepDist: real)

  /** A step as the step compressor gets it, at an absolute time. */
  datatype TimedStep = TimedStep(forward: bool, time: real)

  function StartTime(j: Job, c: Call): real {
    if c.index < |j.es| then j.es[c.index].printTime else 0.0
  }

  function RangeOf(k: Kinematics, j: Job, c: Call): IterSolve.Job
    requires c.index < |j.es|
  {
    var m := j.es[c.index];
    IterSolve.Range(k.position(j.es, c.index), m.printTime, m.moveT, k.stepDist, c.absStart, c.absEnd)
  }

  function Stamped(es: seq<IterSolve.Event>, printTime: real): seq<TimedStep> {
    if es == [] then []
    else
      var e := es[|es| - 1];
      Stamped(es[..|es| - 1], printTime) + (if e.Step? then [TimedStep(e.forward, printTime + e.time)] else [])
  }

  function StampedAll(j: Job, calls: seq<Call>, found: seq<seq<IterSolve.Event>>): seq<TimedStep>
    requires |calls| == |found|
  {
    if calls == [] then []
    else
      var n := |calls| - 1;
      StampedAll(j, calls[..n], found[..n]) + Stamped(found[n], StartTime(j, calls[n]))
  }

  /** Forward steps less backward steps. */
  function NetOf(ss: seq<TimedStep>): int {
    if ss == [] then 0 else NetOf(ss[..|ss| - 1]) + (if ss[|ss| - 1].forward then 1 else -1)
  }

  /** Where the steps lead from a first commanded position. */
  function After(k: Kinematics, from: real, ss: seq<TimedStep>): real {
    IterSolve.Position(from, k.stepDist, NetOf(ss))
  }

  /** A call found these events, from the commanded position `base` on. */
  ghost predicate RanCall(k: Kinematics, j: Job, c: Call, base: real, found: seq<IterSolve.Event>) {
    && c.index < |j.es|
    && IterSolve.InTime(RangeOf(k, j, c), found) && IterSolve.AllJustified(RangeOf(k, j, c), base, found)
  }

  ghost predicate RanAt(k: Kinematics, j: Job, from: real, calls: seq<Call>, found: seq<seq<IterSolve.Event>>, n: nat)
    requires n < |calls| == |found|
  {
    RanCall(k, j, calls[n], After(k, from, StampedAll(j, calls[..n], found[..n])), found[n])
  }

  /** Every call started where the ones before it led. */
  ghost predicate Ran(k: Kinematics, j: Job, from: real, calls: seq<Call>, found: seq<seq<IterSolve.Event>>) {
    |calls| == |found| && forall n: nat :: n < |calls| ==> RanAt(k, j, from, calls, found, n)
  }

  /** The commanded position is where the steps led, and after every call that covers anything, the position at its end
    * is tracked or the last step fell on it. */
  ghost predicate Reached(k: Kinematics, j: Job, from: real, calls: seq<Call>, found: seq<seq<IterSolve.Event>>,
                          commanded: real)
    requires |calls| == |found|
  {
    && commanded == After(k, from, StampedAll(j, calls, found))
    && forall n: nat :: n < |calls| ==> EndsTracked(k, j, from, calls, found, n)
  }

  ghost predicate EndsTracked(k: Kinematics, j: Job, from: real, calls: seq<Call>, found: seq<seq<IterSolve.Event>>,
                              n: nat)
    requires n < |calls| == |found|
  {
    && calls[n].index < |j.es|
    && var r := RangeOf(k, j, calls[n]);
       r.start < r.end ==>
         IterSolve.StepAt(found[n], r.end)
         || IterSolve.Tracked(r, After(k, from, StampedAll(j, calls[..n + 1], found[..n + 1])))
  }

  lemma NetAppend(a: seq<TimedStep>, b: seq<TimedStep>)
    ensures NetOf(a + b) == NetOf(a) + NetOf(b)
    decreases |b|
  {
    if b == [] {
      assert a + b == a;
    } else {
      var n := |b| - 1;
      NetAppend(a, b[..n]);
      assert (a + b)[..|a + b| - 1] == a + b[..n];
    }
  }

  lemma {:induction false} StampedNet(es: seq<IterSolve.Event>, printTime: real)
    ensures NetOf(Stamped(es, printTime)) == IterSolve.Net(es)
  {
    if es != [] {
      var n := |es| - 1;
      StampedNet(es[..n], printTime);
      var e := es[n];
      if e.Step? {
        var s := TimedStep(e.forward, printTime + e.time);
        var before := Stamped(es[..n], printTime);
        assert (before + [s])[..|before + [s]| - 1] == before;
      } else {
        assert Stamped(es[..n], printTime) + [] == Stamped(es[..n], printTime);
      }
    }
  }

  lemma PositionAdds(from: real, stepDist: real, a: int, b: int)
    ensures IterSolve.Position(IterSolve.Position(from, stepDist, a), stepDist, b)
         == IterSolve.Position(from, stepDist, a + b)
  {
    assert (a + b) as real == a as real + b as real;
  }

  lemma AfterAppend(k: Kinematics, from: real, a: seq<TimedStep>, b: seq<TimedStep>)
    ensures After(k, After(k, from, a), b) == After(k, from, a + b)
  {
    hide IterSolve.Position, NetOf;
    NetAppend(a, b);
    PositionAdds(from, k.stepDist, NetOf(a), NetOf(b));
  }

  /** One more call. */
  lemma StampedNext(j: Job, calls: seq<Call>, found: seq<seq<IterSolve.Event>>, c: Call, f: seq<IterSolve.Event>)
    requires |calls| == |found|
    ensures StampedAll(j, calls + [c], found + [f]) == StampedAll(j, calls, found) + Stamped(f, StartTime(j, c))
  {
    assert (calls + [c])[..|calls|] == calls && (found + [f])[..|found|] == found;
  }

  lemma RanNext(k: Kinematics, j: Job, from: real, calls: seq<Call>, found: seq<seq<IterSolve.Event>>,
                c: Call, f: seq<IterSolve.Event>)
    requires Ran(k, j, from, calls, found)
    requires RanCall(k, j, c, After(k, from, StampedAll(j, calls, found)), f)
    ensures Ran(k, j, from, calls + [c], found + [f])
  {
    hide RanCall, StampedAll, After;
    var cs, fs := calls + [c], found + [f];
    forall n: nat | n < |cs|
      ensures RanAt(k, j, from, cs, fs, n)
    {
      if n < |calls| {
        assert cs[..n] == calls[..n] && fs[..n] == found[..n];
        assert RanAt(k, j, from, calls, found, n);
      } else {
        assert cs[..n] == calls && fs[..n] == found;
      }
    }
  }

  lemma ReachedNext(k: Kinematics, j: Job, from: real, calls: seq<Call>, found: seq<seq<IterSolve.Event>>,
                    before: real, c: Call, f: seq<IterSolve.Event>, after: real)
    requires |calls| == |found| && Reached(k, j, from, calls, found, before) && c.index < |j.es|
    requires after == IterSolve.Position(before, k.stepDist, IterSolve.Net(f))
    requires var r := RangeOf(k, j, c); r.start < r.end ==> IterSolve.StepAt(f, r.end) || IterSolve.Tracked(r, after)
    ensures Reached(k, j, from, calls + [c], found + [f], after)
  {
    hide StampedAll, After, Stamped, IterSolve.Position, IterSolve.Net, IterSolve.StepAt, IterSolve.Tracked, RangeOf;
    var cs, fs := calls + [c], found + [f];
    StampedNext(j, calls, found, c, f);
    StampedNet(f, StartTime(j, c));
    AfterIs(k, before, Stamped(f, StartTime(j, c)));
    AfterAppend(k, from, StampedAll(j, calls, found), Stamped(f, StartTime(j, c)));
    forall n: nat | n < |cs|
      ensures EndsTracked(k, j, from, cs, fs, n)
    {
      if n < |calls| {
        assert cs[..n + 1] == calls[..n + 1] && fs[..n + 1] == found[..n + 1];
        assert EndsTracked(k, j, from, calls, found, n);
      } else {
        assert cs[..n + 1] == cs && fs[..n + 1] == fs;
      }
    }
  }

  lemma AfterIs(k: Kinematics, from: real, ss: seq<TimedStep>)
    ensures After(k, from, ss) == IterSolve.Position(from, k.stepDist, NetOf(ss))
  {
  }

  // Whole sessions.

  /** One walk: its job, its calls and what each of them found; where it began, and last_move_time before and after. */
  datatype Walked = Walked(j: Job, calls: seq<Call>, found: seq<seq<IterSolve.Event>>, first: nat, before: real,
                           after: real)

  ghost predicate WalkedFrom(k: Kinematics, from: real, w: Walked) {
    && Proper(w.j) && InOrder(w.j, w.calls) && (forall c :: c in w.calls ==> Within(w.j, c))
    && Ran(k, w.j, from, w.calls, w.found) && Sparing(w)
  }

  /** The walk begins at the first move that is not over, and solves nothing that is not needed. */
  ghost predicate Sparing(w: Walked) {
    && w.first < |w.j.es| && w.j.lastFlush < w.j.es[w.first].EndTime()
    && Frugal(w.j, w.first, w.before, w.calls) && Marked(w.j, w.first, w.before, w.after)
    && w.before <= w.j.lastFlush
  }

  predicate Paired(ws: seq<Walked>) {
    forall a :: 0 <= a < |ws| ==> |ws[a].calls| == |ws[a].found|
  }

  function AllSteps(ws: seq<Walked>): seq<TimedStep>
    requires Paired(ws)
  {
    if ws == [] then []
    else
      var w := ws[|ws| - 1];
      AllSteps(ws[..|ws| - 1]) + StampedAll(w.j, w.calls, w.found)
  }

  /** Each walk starts from the commanded position and the times that the one before it left. */
  ghost predicate Session(k: Kinematics, from: real, ws: seq<Walked>) {
    && Paired(ws)
    && forall a: nat :: a < |ws| ==> Follows(k, from, ws, a)
  }

  ghost predicate Follows(k: Kinematics, from: real, ws: seq<Walked>, a: nat)
    requires Paired(ws) && a < |ws|
  {
    && WalkedFrom(k, After(k, from, AllSteps(ws[..a])), ws[a])
    && (0 < a ==> ws[a - 1].j.flush <= ws[a].j.lastFlush && ws[a - 1].after == ws[a].before)
  }

  ghost predicate Ascending(ss: seq<TimedStep>) {
    forall i, k :: 0 <= i < k < |ss| ==> ss[i].time <= ss[k].time
  }

  ghost predicate Between(ss: seq<TimedStep>, lo: real, hi: real) {
    forall s :: s in ss ==> lo <= s.time <= hi
  }

  lemma AscendingAppend(a: seq<TimedStep>, b: seq<TimedStep>)
    requires Ascending(a) && Ascending(b) && forall x, y :: x in a && y in b ==> x.time <= y.time
    ensures Ascending(a + b)
  {
    var r := a + b;
    forall i, k | 0 <= i < k < |r|
      ensures r[i].time <= r[k].time
    {
      if i < |a| <= k {
        assert r[i] in a && r[k] in b;
      }
    }
  }

  lemma {:induction false} CallTimes(k: Kinematics, j: Job, c: Call, es: seq<IterSolve.Event>)
    requires c.index < |j.es| && IterSolve.InTime(RangeOf(k, j, c), es)
    ensures var ss := Stamped(es, StartTime(j, c)); Ascending(ss) && Between(ss, Lo(j, c), Hi(j, c))
  {
    if es != [] {
      var n := |es| - 1;
      CallTimes(k, j, c, es[..n]);
      StampedFrom(es[..n], StartTime(j, c));
      if es[n].Step? {
        assert forall x :: x in Stamped(es[..n], StartTime(j, c)) ==> x.time <= StartTime(j, c) + es[n].time;
        AscendingAppend(Stamped(es[..n], StartTime(j, c)), [TimedStep(es[n].forward, StartTime(j, c) + es[n].time)]);
      } else {
        assert Stamped(es, StartTime(j, c)) == Stamped(es[..n], StartTime(j, c));
      }
    }
  }

  /** A stamped step comes from one of the events. */
  lemma {:induction false} StampedFrom(es: seq<IterSolve.Event>, printTime: real)
    ensures forall x :: x in Stamped(es, printTime) ==>
              exists i :: 0 <= i < |es| && es[i].Step? && x.time == printTime + es[i].time
  {
    if es != [] {
      var n := |es| - 1;
      StampedFrom(es[..n], printTime);
      forall x | x in Stamped(es, printTime)
        ensures exists i :: 0 <= i < |es| && es[i].Step? && x.time == printTime + es[i].time
      {
        if x in Stamped(es[..n], printTime) {
          var i :| 0 <= i < n && es[..n][i].Step? && x.time == printTime + es[..n][i].time;
          assert es[i].Step?;
        } else {
          assert es[n].Step?;
        }
      }
    }
  }

  /** Over a walk, through every move that is solved, no step comes before an earlier one, nor outside the flush
    * times. */
  lemma {:induction false} WalkTimes(k: Kinematics, from: real, w: Walked, m: nat)
    requires WalkedFrom(k, from, w) && m <= |w.calls|
    ensures var ss := StampedAll(w.j, w.calls[..m], w.found[..m]);
            && Ascending(ss) && Between(ss, w.j.lastFlush, w.j.flush)
            && forall s :: s in ss ==> Covered(w.j, w.calls[..m], s.time)
  {
    hide Ascending, Between, Proper, Within, RangeOf, After, Stamped, StampedAll, Sparing;
    if m == 0 {
      NothingStamped(w.j, w.calls[..m], w.found[..m]);
    } else {
      var n := m - 1;
      WalkTimes(k, from, w, n);
      assert RanAt(k, w.j, from, w.calls, w.found, n);
      CallTimes(k, w.j, w.calls[n], w.found[n]);
      assert w.calls[..m] == w.calls[..n] + [w.calls[n]] && w.found[..m] == w.found[..n] + [w.found[n]];
      StampedNext(w.j, w.calls[..n], w.found[..n], w.calls[n], w.found[n]);
      NextCallTimes(w, n, StampedAll(w.j, w.calls[..n], w.found[..n]), Stamped(w.found[n], StartTime(w.j, w.calls[n])));
    }
  }

  lemma NothingStamped(j: Job, calls: seq<Call>, found: seq<seq<IterSolve.Event>>)
    requires calls == [] && found == []
    ensures StampedAll(j, calls, found) == [] && Ascending([]) && Between([], j.lastFlush, j.flush)
  {
  }

  lemma NextCallTimes(w: Walked, n: nat, a: seq<TimedStep>, b: seq<TimedStep>)
    requires InOrder(w.j, w.calls) && (forall c :: c in w.calls ==> Within(w.j, c)) && n < |w.calls|
    requires Ascending(a) && Between(a, w.j.lastFlush, w.j.flush)
    requires forall s :: s in a ==> Covered(w.j, w.calls[..n], s.time)
    requires w.calls[n].index < |w.j.es| && Ascending(b) && Between(b, Lo(w.j, w.calls[n]), Hi(w.j, w.calls[n]))
    ensures Ascending(a + b) && Between(a + b, w.j.lastFlush, w.j.flush)
    ensures forall s :: s in a + b ==> Covered(w.j, w.calls[..n] + [w.calls[n]], s.time)
  {
    hide Ascending;
    var c := w.calls[n];
    assert c in w.calls && Within(w.j, c);
    forall x, y | x in a && y in b
      ensures x.time <= y.time
    {
      var e :| e in w.calls[..n] && Holds(w.j, e, x.time);
      var i :| 0 <= i < n && w.calls[..n][i] == e;
      assert Before(w.j, w.calls[i], w.calls[n]);
    }
    AscendingAppend(a, b);
    forall s | s in a + b
      ensures Covered(w.j, w.calls[..n] + [c], s.time)
    {
      if s in a {
        CoveredGrows(w.j, w.calls[..n], [c], s.time);
      } else {
        CoveredBy(w.j, w.calls[..n] + [c], c, s.time);
      }
    }
  }

  /** At the time of the step, the position is on the mark half a step ahead of `base`, or beyond it within a
    * nanosecond, as the n-th call of the walk saw it. */
  ghost predicate Sighted(k: Kinematics, w: Walked, n: nat, base: real, s: TimedStep) {
    && n < |w.calls| && Holds(w.j, w.calls[n], s.time)
    && IterSolve.Justified(RangeOf(k, w.j, w.calls[n]), base, s.forward, s.time - StartTime(w.j, w.calls[n]))
  }

  ghost predicate Seen(k: Kinematics, ws: seq<Walked>, base: real, s: TimedStep) {
    exists a: nat, n: nat :: a < |ws| && Sighted(k, ws[a], n, base, s)
  }

  /** Every step is justified from where the steps before it led. */
  ghost predicate AllSeen(k: Kinematics, ws: seq<Walked>, from: real, ss: seq<TimedStep>) {
    forall i :: 0 <= i < |ss| ==> Seen(k, ws, After(k, from, ss[..i]), ss[i])
  }

  lemma SeenAppend(k: Kinematics, ws: seq<Walked>, from: real, a: seq<TimedStep>, b: seq<TimedStep>)
    requires AllSeen(k, ws, from, a) && AllSeen(k, ws, After(k, from, a), b)
    ensures AllSeen(k, ws, from, a + b)
  {
    hide Seen, After;
    var r := a + b;
    forall i | 0 <= i < |r|
      ensures Seen(k, ws, After(k, from, r[..i]), r[i])
    {
      if i < |a| {
        assert r[..i] == a[..i];
      } else {
        assert r[..i] == a + b[..i - |a|];
        AfterAppend(k, from, a, b[..i - |a|]);
      }
    }
  }

  lemma {:induction false} CallSeen(k: Kinematics, ws: seq<Walked>, a: nat, n: nat, base: real,
                                    es: seq<IterSolve.Event>)
    requires a < |ws| && n < |ws[a].calls| && RanCall(k, ws[a].j, ws[a].calls[n], base, es)
    ensures AllSeen(k, ws, base, Stamped(es, StartTime(ws[a].j, ws[a].calls[n])))
  {
    hide IterSolve.Justified, Holds, After, IterSolve.Position, RangeOf, StartTime;
    var w, c := ws[a], ws[a].calls[n];
    var start := StartTime(w.j, c);
    if es != [] {
      var m := |es| - 1;
      RanCallPrefix(k, w.j, c, base, es);
      CallSeen(k, ws, a, n, base, es[..m]);
      var ss := Stamped(es[..m], start);
      if es[m].Step? {
        var s := TimedStep(es[m].forward, start + es[m].time);
        LastSighted(k, w, n, base, es);
        assert Seen(k, ws, After(k, base, ss), s);
        OneSeen(k, ws, After(k, base, ss), s);
        SeenAppend(k, ws, base, ss, [s]);
      } else {
        assert Stamped(es, start) == ss;
      }
    }
  }

  lemma OneSeen(k: Kinematics, ws: seq<Walked>, base: real, s: TimedStep)
    requires Seen(k, ws, base, s)
    ensures AllSeen(k, ws, base, [s])
  {
    hide Seen;
    assert [s][..0] == [];
    assert After(k, base, []) == base;
  }

  lemma RanCallPrefix(k: Kinematics, j: Job, c: Call, base: real, es: seq<IterSolve.Event>)
    requires RanCall(k, j, c, base, es) && es != []
    ensures RanCall(k, j, c, base, es[..|es| - 1])
  {
    hide IterSolve.Justified, IterSolve.Position, RangeOf;
    var r, p := RangeOf(k, j, c), es[..|es| - 1];
    forall i: nat | i < |p|
      ensures IterSolve.JustifiedAt(r, base, p, i)
    {
      assert p[..i] == es[..i];
      assert IterSolve.JustifiedAt(r, base, es, i);
    }
  }

  lemma LastSighted(k: Kinematics, w: Walked, n: nat, base: real, es: seq<IterSolve.Event>)
    requires n < |w.calls| && RanCall(k, w.j, w.calls[n], base, es) && es != [] && es[|es| - 1].Step?
    ensures var start := StartTime(w.j, w.calls[n]); var e := es[|es| - 1];
            Sighted(k, w, n, After(k, base, Stamped(es[..|es| - 1], start)), TimedStep(e.forward, start + e.time))
  {
    hide IterSolve.Justified, IterSolve.Position;
    var m := |es| - 1;
    var r := RangeOf(k, w.j, w.calls[n]);
    assert IterSolve.JustifiedAt(r, base, es, m);
    StampedNet(es[..m], StartTime(w.j, w.calls[n]));
  }

  lemma {:induction false} WalkSeen(k: Kinematics, ws: seq<Walked>, a: nat, from: real, m: nat)
    requires a < |ws| && WalkedFrom(k, from, ws[a]) && m <= |ws[a].calls|
    ensures AllSeen(k, ws, from, StampedAll(ws[a].j, ws[a].calls[..m], ws[a].found[..m]))
  {
    hide *;
    var w := ws[a];
    RanParts(k, from, w);
    if m == 0 {
      NothingSeen(k, ws, from, w);
    } else {
      var n := m - 1;
      WalkSeen(k, ws, a, from, n);
      RanPart(k, from, w, n);
      CallSeen(k, ws, a, n, After(k, from, StampedAll(w.j, w.calls[..n], w.found[..n])), w.found[n]);
      assert w.calls[..m] == w.calls[..n] + [w.calls[n]] && w.found[..m] == w.found[..n] + [w.found[n]];
      StampedNext(w.j, w.calls[..n], w.found[..n], w.calls[n], w.found[n]);
      SeenAppend(k, ws, from, StampedAll(w.j, w.calls[..n], w.found[..n]),
                 Stamped(w.found[n], StartTime(w.j, w.calls[n])));
    }
  }

  lemma RanParts(k: Kinematics, from: real, w: Walked)
    requires WalkedFrom(k, from, w)
    ensures |w.calls| == |w.found|
  {
  }

  lemma RanPart(k: Kinematics, from: real, w: Walked, n: nat)
    requires WalkedFrom(k, from, w) && n < |w.calls|
    ensures |w.calls| == |w.found|
    ensures RanCall(k, w.j, w.calls[n], After(k, from, StampedAll(w.j, w.calls[..n], w.found[..n])), w.found[n])
  {
    hide RanCall, After, StampedAll, Proper, InOrder, Within, Sparing;
    assert RanAt(k, w.j, from, w.calls, w.found, n);
  }

  lemma NothingSeen(k: Kinematics, ws: seq<Walked>, from: real, w: Walked)
    requires |w.calls| == |w.found|
    ensures AllSeen(k, ws, from, StampedAll(w.j, w.calls[..0], w.found[..0]))
  {
  }

  /** A whole session of walks, through every move that is solved: no step comes before an earlier one, all lie within
    * the flush times, and each is justified by the position at its time, from where all the steps before it led. */
  lemma {:induction false} SessionSteps(k: Kinematics, from: real, ws: seq<Walked>, m: nat)
    requires Session(k, from, ws) && m <= |ws|
    ensures var ss := AllSteps(ws[..m]);
            && Ascending(ss) && AllSeen(k, ws, from, ss)
            && (0 < m ==>
                  Between(ss, ws[0].j.lastFlush, ws[m - 1].j.flush) && ws[0].j.lastFlush <= ws[m - 1].j.lastFlush)
  {
    hide Ascending, AllSeen, WalkedFrom, After, StampedAll, Between;
    if m == 0 {
      NoSteps(k, ws, from);
    } else {
      var n := m - 1;
      SessionSteps(k, from, ws, n);
      assert Follows(k, from, ws, n);
      var w := ws[n];
      WholeWalk(k, ws, n, After(k, from, AllSteps(ws[..n])));
      assert ws[..m][..n] == ws[..n] && ws[..m][n] == w;
      assert w in ws;
      SeenAppend(k, ws, from, AllSteps(ws[..n]), StampedAll(w.j, w.calls, w.found));
      if 0 < n {
        FlushesGrow(k, from, ws, n);
        LaterWalk(AllSteps(ws[..n]), StampedAll(w.j, w.calls, w.found), ws[0].j.lastFlush, ws[n - 1].j.flush,
                  w.j.lastFlush, w.j.flush);
      } else {
        assert AllSteps(ws[..n]) == [];
        assert AllSteps(ws[..m]) == StampedAll(w.j, w.calls, w.found);
      }
    }
  }

  lemma NoSteps(k: Kinematics, ws: seq<Walked>, from: real)
    ensures AllSteps(ws[..0]) == [] && Ascending([]) && AllSeen(k, ws, from, [])
  {
  }

  lemma WholeWalk(k: Kinematics, ws: seq<Walked>, a: nat, from: real)
    requires a < |ws| && WalkedFrom(k, from, ws[a])
    ensures var w := ws[a];
            && |w.calls| == |w.found| && w.j.lastFlush <= w.j.flush
            && var ss := StampedAll(w.j, w.calls, w.found);
               Ascending(ss) && Between(ss, w.j.lastFlush, w.j.flush) && AllSeen(k, ws, from, ss)
  {
    hide Ascending, Between, AllSeen, StampedAll, Ran, After, InOrder, Within, Sparing;
    var w := ws[a];
    RanParts(k, from, w);
    WalkTimes(k, from, w, |w.calls|);
    WalkSeen(k, ws, a, from, |w.calls|);
    assert w.calls[..|w.calls|] == w.calls && w.found[..|w.found|] == w.found;
  }

  lemma LaterWalk(a: seq<TimedStep>, b: seq<TimedStep>, lo: real, mid: real, from: real, hi: real)
    requires Ascending(a) && Between(a, lo, mid) && Ascending(b) && Between(b, from, hi) && lo <= mid <= from <= hi
    ensures Ascending(a + b) && Between(a + b, lo, hi)
  {
    AscendingAppend(a, b);
  }

  lemma FlushesGrow(k: Kinematics, from: real, ws: seq<Walked>, n: nat)
    requires Session(k, from, ws) && 0 < n < |ws|
    ensures ws[n - 1].j.lastFlush <= ws[n - 1].j.flush <= ws[n].j.lastFlush <= ws[n].j.flush
  {
    assert Follows(k, from, ws, n) && Follows(k, from, ws, n - 1);
  }
}
