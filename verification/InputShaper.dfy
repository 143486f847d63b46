/** Input shaping: a position is a weighted sum of positions at shifted times. */
module InputShaper {
  import opened TrapTimeline
  import opened RelativeWalk

  datatype Axis = X | Y | Z

  datatype Pulse = Pulse(t: real, a: real)

  function Component(p: Coord, axis: Axis): real {
    match axis
    case X => p.x
    case Y => p.y
    case Z => p.z
  }

  lemma ComponentsMake(p: Coord)
    ensures Coord(Component(p, X), Component(p, Y), Component(p, Z)) == p
  {
  }

  /** get_axis_position */
  function AxisPosition(m: Entry, axis: Axis, t: real): real {
    Component(m.startPos, axis) + Component(m.axesR, axis) * m.Distance(t)
  }

  /** get_axis_position_across_moves; off the list the original reads past its end. */
  function AxisPositionAcross(es: seq<Entry>, i: nat, axis: Axis, time: real): real
    requires i < |es|
  {
    match Walk(es, i, time)
    case Nowhere => 0.0
    case Spot(j, t) => if j < |es| then AxisPosition(es[j], axis, t) else 0.0
  }

  /** The unshaped positions at the times of the pulses. */
  function Positions(es: seq<Entry>, i: nat, axis: Axis, moveTime: real, pulses: seq<Pulse>): (xs: seq<real>)
    requires i < |es|
    ensures |xs| == |pulses|
    ensures forall k :: 0 <= k < |pulses| ==> xs[k] == AxisPositionAcross(es, i, axis, moveTime + pulses[k].t)
  {
    seq(|pulses|, k requires 0 <= k < |pulses| => AxisPositionAcross(es, i, axis, moveTime + pulses[k].t))
  }

  /** calc_position: the convolution of the pulses with the unshaped motion. */
  function Shaped(es: seq<Entry>, i: nat, axis: Axis, moveTime: real, pulses: seq<Pulse>): real
    requires i < |es|
  {
    Combined(pulses, Positions(es, i, axis, moveTime, pulses))
  }

  /** The weighted sum of the samples. */
  function Combined(pulses: seq<Pulse>, xs: seq<real>): real
    requires |xs| == |pulses|
  {
    if pulses == [] then 0.0 else pulses[0].a * xs[0] + Combined(pulses[1..], xs[1..])
  }

  /** The sum from pulse k on, one pulse at a time. */
  lemma CombinedFrom(pulses: seq<Pulse>, xs: seq<real>, k: nat)
    requires |xs| == |pulses| && k <= |pulses|
    ensures k < |pulses| ==>
              Combined(pulses[k..], xs[k..]) == pulses[k].a * xs[k] + Combined(pulses[k + 1..], xs[k + 1..])
    ensures k == |pulses| ==> Combined(pulses[k..], xs[k..]) == 0.0
    ensures pulses[0..] == pulses && xs[0..] == xs
  {
    if k < |pulses| {
      assert pulses[k..][1..] == pulses[k + 1..] && xs[k..][1..] == xs[k + 1..];
    }
  }

  function Weight(pulses: seq<Pulse>): real {
    if pulses == [] then 0.0 else pulses[0].a + Weight(pulses[1..])
  }

  function Moment1(pulses: seq<Pulse>): real {
    if pulses == [] then 0.0 else pulses[0].a * pulses[0].t + Moment1(pulses[1..])
  }

  /** What init_shaper establishes. */
  predicate Balanced(pulses: seq<Pulse>) {
    Weight(pulses) == 1.0 && Moment1(pulses) == 0.0
  }

  // ----- constant-speed motion -----

  /** Entry j overlaps the span of absolute times. */
  predicate Overlaps(m: Entry, lo: real, hi: real) {
    m.printTime <= hi && lo <= m.EndTime()
  }

  /** Every entry in the span moves along the axis at the same constant speed. */
  predicate ConstantSpeed(es: seq<Entry>, axis: Axis, v: real, lo: real, hi: real) {
    forall j :: 0 <= j < |es| && Overlaps(es[j], lo, hi) ==>
      es[j].halfAccel == 0.0 && Component(es[j].axesR, axis) * es[j].startV == v
  }

  lemma SteadyEntry(m: Entry, axis: Axis, v: real, t: real)
    requires m.halfAccel == 0.0 && Component(m.axesR, axis) * m.startV == v
    ensures AxisPosition(m, axis, t) == Component(m.At(t), axis) == Component(m.startPos, axis) + v * t
  {
    assert m.Distance(t) == m.startV * t;
    assert Component(m.axesR, axis) * (m.startV * t) == (Component(m.axesR, axis) * m.startV) * t;
  }

  /** Through a span of constant speed the entries start on one line. */
  lemma {:induction false} SteadyStarts(es: seq<Entry>, axis: Axis, v: real, lo: real, hi: real, i: nat, j: nat)
    requires Track(es) && Connected(es) && ConstantSpeed(es, axis, v, lo, hi) && i <= j < |es|
    requires lo <= es[i].EndTime() && es[j].printTime <= hi && lo <= hi
    ensures Component(es[j].startPos, axis) - Component(es[i].startPos, axis)
            == v * (es[j].printTime - es[i].printTime)
    decreases j - i
  {
    if i < j {
      TrackStarts(es, i, j);
      SteadyEntry(es[i], axis, v, es[i].moveT);
      assert Abuts(es, i + 1) && Touches(es, i + 1);
      SteadyStarts(es, axis, v, lo, hi, i + 1, j);
      Distribute(v, es[j].printTime - es[i + 1].printTime, es[i].moveT);
    }
  }

  lemma Distribute(v: real, x: real, y: real)
    ensures v * x + v * y == v * (x + y)
  {
  }

  /** Positions inside the span differ by speed times elapsed absolute time, in either direction. */
  lemma SteadyDifference(es: seq<Entry>, axis: Axis, v: real, lo: real, hi: real,
                         i: nat, t: real, j: nat, u: real, dt: real)
    requires Track(es) && Connected(es) && ConstantSpeed(es, axis, v, lo, hi) && i < |es| && j < |es|
    requires 0.0 <= t <= es[i].moveT && lo <= es[i].printTime + t <= hi
    requires 0.0 <= u <= es[j].moveT && lo <= es[j].printTime + u <= hi
    requires dt == (es[j].printTime + u) - (es[i].printTime + t)
    ensures AxisPosition(es[j], axis, u) == AxisPosition(es[i], axis, t) + v * dt
  {
    hide Track, Connected, ConstantSpeed, AxisPosition, Component;
    var d := es[j].printTime - es[i].printTime;
    SteadyAt(es, axis, v, lo, hi, i, t);
    SteadyAt(es, axis, v, lo, hi, j, u);
    SteadyGap(es, axis, v, lo, hi, i, j, d);
    Gap(v, d, u, t, dt);
  }

  /** Inside the span an entry's position lies on the line that starts at its start. */
  lemma SteadyAt(es: seq<Entry>, axis: Axis, v: real, lo: real, hi: real, i: nat, t: real)
    requires ConstantSpeed(es, axis, v, lo, hi) && i < |es|
    requires 0.0 <= t <= es[i].moveT && lo <= es[i].printTime + t <= hi
    ensures AxisPosition(es[i], axis, t) == Component(es[i].startPos, axis) + v * t
    ensures Overlaps(es[i], lo, hi)
  {
    hide AxisPosition, Component;
    SteadyEntry(es[i], axis, v, t);
  }

  lemma Gap(v: real, d: real, u: real, t: real, dt: real)
    requires dt == d + u - t
    ensures v * d + v * u - v * t == v * dt
  {
    Distribute(v, d, u);
    Distribute(v, dt, t);
  }

  lemma SteadyGap(es: seq<Entry>, axis: Axis, v: real, lo: real, hi: real, i: nat, j: nat, d: real)
    requires Track(es) && Connected(es) && ConstantSpeed(es, axis, v, lo, hi) && i < |es| && j < |es| && lo <= hi
    requires Overlaps(es[i], lo, hi) && Overlaps(es[j], lo, hi) && d == es[j].printTime - es[i].printTime
    ensures Component(es[j].startPos, axis) - Component(es[i].startPos, axis) == v * d
  {
    hide Track, Connected, ConstantSpeed, Component;
    if i <= j {
      SteadyStarts(es, axis, v, lo, hi, i, j);
      SameProduct(v, es[j].printTime - es[i].printTime, d);
    } else {
      SteadyStarts(es, axis, v, lo, hi, j, i);
      SameProduct(v, es[i].printTime - es[j].printTime, 0.0 - d);
    }
  }

  lemma SameProduct(v: real, x: real, y: real)
    requires x == y
    ensures v * x == v * y && v * (0.0 - x) == 0.0 - v * x
  {
  }

  /** One sample of the walk, dt away from the current time. */
  lemma SampleAt(es: seq<Entry>, i: nat, axis: Axis, v: real, t: real, dt: real, lo: real, hi: real)
    requires Track(es) && Connected(es) && ConstantSpeed(es, axis, v, lo, hi) && i < |es|
    requires 0.0 <= t <= es[i].moveT && lo <= es[i].printTime + t <= hi
    requires es[0].printTime <= lo <= es[i].printTime + t + dt <= hi <= es[|es| - 1].EndTime()
    ensures AxisPositionAcross(es, i, axis, t + dt) == AxisPosition(es[i], axis, t) + v * dt
  {
    WalkLands(es, i, t + dt);
    var s := Walk(es, i, t + dt);
    SteadyDifference(es, axis, v, lo, hi, i, t, s.index, s.time, dt);
  }

  /** Every pulse samples inside the span, and the span lies on the list. */
  predicate Samples(es: seq<Entry>, time: real, pulses: seq<Pulse>, lo: real, hi: real) {
    && es != [] && es[0].printTime <= lo && hi <= es[|es| - 1].EndTime()
    && forall k :: 0 <= k < |pulses| ==> lo <= time + pulses[k].t <= hi
  }

  /** Samples on the line through x0 at offset 0. */
  lemma {:induction false} CombinedLine(pulses: seq<Pulse>, xs: seq<real>, x0: real, v: real)
    requires |xs| == |pulses|
    requires forall k :: 0 <= k < |pulses| ==> xs[k] == x0 + v * pulses[k].t
    ensures Combined(pulses, xs) == Weight(pulses) * x0 + v * Moment1(pulses)
  {
    if pulses != [] {
      var p := pulses[0];
      CombinedLine(pulses[1..], xs[1..], x0, v);
      OneSample(p.a, p.t, x0, v);
      Distribute(x0, p.a, Weight(pulses[1..]));
      Distribute(v, p.a * p.t, Moment1(pulses[1..]));
    }
  }

  lemma OneSample(a: real, t: real, x0: real, v: real)
    ensures a * (x0 + v * t) == x0 * a + v * (a * t)
  {
  }

  /** Samples as an arbitrary function of the pulse's shift. */
  lemma {:induction false} BalancedSamples(es: seq<Entry>, i: nat, axis: Axis, t: real, pulses: seq<Pulse>,
                                           x0: real, v: real)
    requires i < |es| && Balanced(pulses)
    requires forall k :: 0 <= k < |pulses| ==> AxisPositionAcross(es, i, axis, t + pulses[k].t) == x0 + v * pulses[k].t
    ensures Shaped(es, i, axis, t, pulses) == x0
  {
    var xs := Positions(es, i, axis, t, pulses);
    CombinedLine(pulses, xs, x0, v);
  }

  lemma SamplesOnLine(es: seq<Entry>, i: nat, axis: Axis, v: real, t: real,
                      pulses: seq<Pulse>, lo: real, hi: real, x0: real)
    requires Track(es) && Connected(es) && ConstantSpeed(es, axis, v, lo, hi) && i < |es|
    requires 0.0 <= t <= es[i].moveT && lo <= es[i].printTime + t <= hi
    requires Samples(es, es[i].printTime + t, pulses, lo, hi) && x0 == AxisPosition(es[i], axis, t)
    ensures forall k :: 0 <= k < |pulses| ==> AxisPositionAcross(es, i, axis, t + pulses[k].t) == x0 + v * pulses[k].t
  {
    forall k | 0 <= k < |pulses|
      ensures AxisPositionAcross(es, i, axis, t + pulses[k].t) == x0 + v * pulses[k].t
    {
      SampleAt(es, i, axis, v, t, pulses[k].t, lo, hi);
    }
  }

  /** The purpose of normalising and shifting the pulses: constant-speed motion is left unchanged. */
  lemma ShapingKeepsConstantSpeed(es: seq<Entry>, i: nat, axis: Axis, v: real, t: real,
                                  pulses: seq<Pulse>, lo: real, hi: real)
    requires Track(es) && Connected(es) && ConstantSpeed(es, axis, v, lo, hi) && i < |es|
    requires 0.0 <= t <= es[i].moveT && lo <= es[i].printTime + t <= hi
    requires Samples(es, es[i].printTime + t, pulses, lo, hi) && Balanced(pulses)
    ensures Shaped(es, i, axis, t, pulses) == AxisPosition(es[i], axis, t)
  {
    SamplesOnLine(es, i, axis, v, t, pulses, lo, hi, AxisPosition(es[i], axis, t));
    BalancedSamples(es, i, axis, t, pulses, AxisPosition(es[i], axis, t), v);
  }

  // ----- setting the pulses up -----

  const MAX_PULSES := 5

  function Total(a: seq<real>): real {
    if a == [] then 0.0 else Total(a[..|a| - 1]) + a[|a| - 1]
  }

  /** struct shaper_pulses */
  class ShaperPulses {
    var numPulses: int
    const pulses: array<Pulse>

    constructor ()
      ensures Valid() && numPulses == 0 && fresh(pulses)
    {
      numPulses := 0;
      pulses := new Pulse[MAX_PULSES](_ => Pulse(0.0, 0.0));
    }

    predicate Valid()
      reads this
    {
      pulses.Length == MAX_PULSES && 0 <= numPulses <= MAX_PULSES
    }

    function Active(): seq<Pulse>
      reads this, pulses
      requires Valid()
    {
      pulses[..numPulses]
    }

    /** shift_pulses */
    method Shift()
      requires Valid()
      modifies pulses
      ensures Active() == ShiftedBy(old(Active()), Moment1(old(Active())))
    {
      ghost var was := Active();
      var ts := 0.0;
      for i := 0 to numPulses
        invariant ts + Moment1(was[i..]) == Moment1(was)
        invariant Active() == was
      {
        ts := ts + pulses[i].a * pulses[i].t;
      }
      for i := 0 to numPulses
        invariant forall k :: 0 <= k < i ==> pulses[k] == Pulse(was[k].t - ts, was[k].a)
        invariant forall k :: i <= k < numPulses ==> pulses[k] == was[k]
      {
        pulses[i] := pulses[i].(t := pulses[i].t - ts);
      }
    }

    /** The sum of the first n weights. */
    method SumOf(n: nat, a: array<real>) returns (sumA: real)
      requires n <= a.Length
      ensures sumA == Total(a[..n])
    {
      sumA := 0.0;
      for i := 0 to n
        invariant sumA == Total(a[..i])
      {
        assert a[..i + 1][..i] == a[..i];
        sumA := sumA + a[i];
      }
    }

    /** The reversed pulses, with the weights times `invA`. */
    method Fill(n: nat, a: array<real>, t: array<real>, invA: real, ghost total: real)
      requires Valid() && a != t && n <= MAX_PULSES && n <= a.Length && n <= t.Length
      requires n > 0 ==> total != 0.0 && invA == 1.0 / total
      modifies pulses
      ensures pulses[..n] == Scaled(a[..n], t[..n], total)
    {
      ghost var as0, ts0 := a[..n], t[..n];
      for i := 0 to n
        invariant a[..n] == as0 && t[..n] == ts0
        invariant forall k :: 0 <= k < i ==> pulses[n - k - 1] == Pulse(-ts0[k], as0[k] / total)
      {
        TimesInverse(a[i], total);
        pulses[n - i - 1] := Pulse(-t[i], a[i] * invA);
      }
      forall k | 0 <= k < n ensures pulses[k] == Scaled(as0, ts0, total)[k] {
        assert pulses[n - (n - k - 1) - 1] == Pulse(-ts0[n - k - 1], as0[n - k - 1] / total);
      }
    }

    /** init_shaper */
    method Init(n: int, a: array<real>, t: array<real>) returns (status: int)
      requires Valid() && a != t
      requires 0 <= n <= MAX_PULSES ==> n <= a.Length && n <= t.Length
      requires 0 < n <= MAX_PULSES ==> Total(a[..n]) != 0.0
      modifies this`numPulses, pulses
      ensures Valid()
      ensures status == if 0 <= n <= MAX_PULSES then 0 else -1
      ensures numPulses == if status == 0 then n else 0
      ensures status == 0 ==> Active() == ShiftedBy(Reversed(a[..n], t[..n]), Moment1(Reversed(a[..n], t[..n])))
    {
      if n < 0 || n > MAX_PULSES {
        numPulses := 0;
        return -1;
      }
      hide Total, Scaled, ShiftedBy, Moment1;
      var sumA := SumOf(n, a);
      // With no pulses the quotient is never used.
      var invA := if n == 0 then 0.0 else 1.0 / sumA;
      Fill(n, a, t, invA, Total(a[..n]));
      numPulses := n;
      Shift();
      return 0;
    }
  }

  /** The pulses in reverse order, with negated times and weights divided by `total`. */
  function Scaled(a: seq<real>, t: seq<real>, total: real): (p: seq<Pulse>)
    requires |a| == |t| && (a != [] ==> total != 0.0)
    ensures |p| == |a|
  {
    var n := |a|;
    seq(n, k requires 0 <= k < n => Pulse(-t[n - k - 1], a[n - k - 1] / total))
  }

  function Reversed(a: seq<real>, t: seq<real>): (p: seq<Pulse>)
    requires |a| == |t|
    requires a != [] ==> Total(a) != 0.0
    ensures |p| == |a|
  {
    Scaled(a, t, Total(a))
  }

  function ShiftedBy(p: seq<Pulse>, ts: real): (q: seq<Pulse>)
    ensures |q| == |p|
  {
    seq(|p|, k requires 0 <= k < |p| => Pulse(p[k].t - ts, p[k].a))
  }

  lemma {:induction false} ScaledWeight(a: seq<real>, t: seq<real>, total: real)
    requires |a| == |t| && total != 0.0
    ensures Weight(Scaled(a, t, total)) == Total(a) / total
  {
    if a != [] {
      var n := |a| - 1;
      assert Scaled(a, t, total)[1..] == Scaled(a[..n], t[..n], total);
      ScaledWeight(a[..n], t[..n], total);
    }
  }

  lemma {:induction false} ShiftedSums(p: seq<Pulse>, ts: real)
    ensures Weight(ShiftedBy(p, ts)) == Weight(p)
    ensures Moment1(ShiftedBy(p, ts)) == Moment1(p) - ts * Weight(p)
  {
    if p != [] {
      assert ShiftedBy(p, ts)[1..] == ShiftedBy(p[1..], ts);
      ShiftedSums(p[1..], ts);
    }
  }

  lemma TimesInverse(x: real, total: real)
    requires total != 0.0
    ensures x * (1.0 / total) == x / total
  {
  }

  lemma Quotient(x: real)
    requires x != 0.0
    ensures x / x == 1.0
  {
  }

  /** Whatever pulses are configured, the shaper that init_shaper installs is balanced. */
  lemma InitIsBalanced(a: seq<real>, t: seq<real>)
    requires |a| == |t| && a != [] && Total(a) != 0.0
    ensures Balanced(ShiftedBy(Reversed(a, t), Moment1(Reversed(a, t))))
  {
    ScaledWeight(a, t, Total(a));
    Quotient(Total(a));
    ShiftedSums(Reversed(a, t), Moment1(Reversed(a, t)));
  }

  // ----- what shaping does -----

  /** The configured pulses as echoes of a motion f: each contributes where f was so much earlier, all moved on by `mean`. */
  function Echoes(f: real -> real, time: real, mean: real, a: seq<real>, t: seq<real>): real
    requires |a| == |t|
  {
    if a == [] then 0.0
    else
      var n := |a| - 1;
      Echoes(f, time, mean, a[..n], t[..n]) + a[n] * f(time - t[n] + mean)
  }

  /** The weighted sum of the configured times. */
  function TotalTime(a: seq<real>, t: seq<real>): real
    requires |a| == |t|
  {
    if a == [] then 0.0 else TotalTime(a[..|a| - 1], t[..|a| - 1]) + a[|a| - 1] * t[|a| - 1]
  }

  function Sampled(f: real -> real, time: real, p: seq<Pulse>): (xs: seq<real>)
    ensures |xs| == |p|
  {
    seq(|p|, k requires 0 <= k < |p| => f(time + p[k].t))
  }

  lemma {:induction false} ScaledMoment(a: seq<real>, t: seq<real>, total: real)
    requires |a| == |t| && total != 0.0
    ensures Moment1(Scaled(a, t, total)) * total == -TotalTime(a, t)
  {
    if a != [] {
      var n := |a| - 1;
      var p := Scaled(a, t, total);
      assert p[1..] == Scaled(a[..n], t[..n], total);
      ScaledMoment(a[..n], t[..n], total);
      Unscaled(a[n], -t[n], total, p[0].a * p[0].t, Moment1(p[1..]));
    }
  }

  lemma Unscaled(a: real, x: real, total: real, term: real, rest: real)
    requires total != 0.0 && term == a / total * x
    ensures (term + rest) * total == a * x + rest * total
  {
    var q := a / total;
    assert q * total == a;
    assert q * x * total == (q * total) * x;
  }

  lemma {:induction false} ScaledEchoes(f: real -> real, time: real, ts: real, a: seq<real>, t: seq<real>, total: real)
    requires |a| == |t| && total != 0.0
    ensures var p := ShiftedBy(Scaled(a, t, total), ts);
            Combined(p, Sampled(f, time, p)) * total == Echoes(f, time, -ts, a, t)
  {
    hide Echoes, Combined, Scaled, ShiftedBy, Sampled;
    var p := ShiftedBy(Scaled(a, t, total), ts);
    if a == [] {
      NothingEchoed(f, time, -ts, p, total);
    } else {
      var n := |a| - 1;
      ScaledFirst(a, t, total, ts);
      ScaledEchoes(f, time, ts, a[..n], t[..n], total);
      CombinedFirst(f, time, p);
      EchoesSum(f, time, ts, a, t, total, p[0], Combined(p[1..], Sampled(f, time, p[1..])));
    }
  }

  lemma ScaledFirst(a: seq<real>, t: seq<real>, total: real, ts: real)
    requires |a| == |t| && a != [] && total != 0.0
    ensures var n := |a| - 1; var p := ShiftedBy(Scaled(a, t, total), ts);
            && p[0] == Pulse(-t[n] - ts, a[n] / total) && p[1..] == ShiftedBy(Scaled(a[..n], t[..n], total), ts)
  {
  }

  lemma CombinedFirst(f: real -> real, time: real, p: seq<Pulse>)
    requires p != []
    ensures Combined(p, Sampled(f, time, p)) == p[0].a * f(time + p[0].t) + Combined(p[1..], Sampled(f, time, p[1..]))
  {
    hide Combined;
    CombinedSum(p, Sampled(f, time, p));
    assert Sampled(f, time, p)[1..] == Sampled(f, time, p[1..]);
  }

  lemma CombinedSum(p: seq<Pulse>, xs: seq<real>)
    requires |xs| == |p| && p != []
    ensures Combined(p, xs) == p[0].a * xs[0] + Combined(p[1..], xs[1..])
  {
  }

  lemma NothingEchoed(f: real -> real, time: real, mean: real, p: seq<Pulse>, total: real)
    requires p == []
    ensures Combined(p, Sampled(f, time, p)) * total == Echoes(f, time, mean, [], []) == 0.0
  {
  }

  lemma EchoesSum(f: real -> real, time: real, ts: real, a: seq<real>, t: seq<real>, total: real, p: Pulse, rest: real)
    requires |a| == |t| && a != [] && total != 0.0
    requires p == Pulse(-t[|a| - 1] - ts, a[|a| - 1] / total)
    requires rest * total == Echoes(f, time, -ts, a[..|a| - 1], t[..|a| - 1])
    ensures (p.a * f(time + p.t) + rest) * total == Echoes(f, time, -ts, a, t)
  {
    var n := |a| - 1;
    assert time + p.t == time - t[n] - ts;
    Unscaled(a[n], f(time + p.t), total, p.a * f(time + p.t), rest);
  }

  /** f gives the position along the axis at every time of the list. */
  ghost predicate Gives(es: seq<Entry>, axis: Axis, f: real -> real) {
    forall j: nat, u: real :: j < |es| && 0.0 <= u <= es[j].moveT ==> GivesAt(es[j], axis, f, u)
  }

  predicate GivesAt(m: Entry, axis: Axis, f: real -> real, u: real) {
    f(m.printTime + u) == Component(m.At(u), axis)
  }

  lemma LookedUp(es: seq<Entry>, i: nat, axis: Axis, f: real -> real, time: real)
    requires Track(es) && Gives(es, axis, f) && i < |es|
    requires es[0].printTime <= es[i].printTime + time <= es[|es| - 1].EndTime()
    ensures AxisPositionAcross(es, i, axis, time) == f(es[i].printTime + time)
  {
    WalkLands(es, i, time);
    var s := Walk(es, i, time);
    assert GivesAt(es[s.index], axis, f, s.time);
    SamePosition(es[s.index], axis, s.time);
  }

  lemma SamePosition(m: Entry, axis: Axis, t: real)
    ensures AxisPosition(m, axis, t) == Component(m.At(t), axis)
  {
  }

  lemma ScaledBack(x: real, y: real, total: real)
    requires x * total == y * total && total != 0.0
    ensures x == y
  {
    assert (x - y) * total == 0.0;
  }

  /** The shaped motion is the mean of the configured echoes of the motion itself: each is the motion so much earlier as
    * its time says, with its weight, and all of them together are moved on by their mean delay, so that shaping does not
    * delay the motion. */
  lemma ShapedIsEchoes(es: seq<Entry>, i: nat, axis: Axis, f: real -> real, time: real, a: seq<real>, t: seq<real>,
                       mean: real)
    requires Track(es) && Gives(es, axis, f) && i < |es|
    requires |a| == |t| && a != [] && Total(a) != 0.0 && mean * Total(a) == TotalTime(a, t)
    requires var p := ShiftedBy(Reversed(a, t), Moment1(Reversed(a, t)));
             forall k :: 0 <= k < |p| ==>
               es[0].printTime <= es[i].printTime + (time + p[k].t) <= es[|es| - 1].EndTime()
    ensures var p := ShiftedBy(Reversed(a, t), Moment1(Reversed(a, t)));
            Shaped(es, i, axis, time, p) * Total(a) == Echoes(f, es[i].printTime + time, mean, a, t)
  {
    hide Combined, Echoes, Gives, Track, AxisPositionAcross, Total, Moment1, TotalTime;
    var ts := Moment1(Reversed(a, t));
    var p := ShiftedBy(Reversed(a, t), ts);
    ScaledMoment(a, t, Total(a));
    ScaledBack(-ts, mean, Total(a));
    ScaledEchoes(f, es[i].printTime + time, ts, a, t, Total(a));
    var xs := Positions(es, i, axis, time, p);
    forall k | 0 <= k < |p|
      ensures xs[k] == Sampled(f, es[i].printTime + time, p)[k]
    {
      LookedUp(es, i, axis, f, time + p[k].t);
      assert es[i].printTime + (time + p[k].t) == es[i].printTime + time + p[k].t;
    }
    assert xs == Sampled(f, es[i].printTime + time, p);
  }
}
