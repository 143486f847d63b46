/** The geometry of a move: where it goes, how far, and how fast the corner before it may be taken. */
module MoveShape {
  import opened Options
  import opened RealMath
  import opened TrapTimeline

  /** Toolhead coordinates: x, y, z and the extruder. */
  datatype Vec = Vec(x: real, y: real, z: real, e: real) {
    function XYZ(): Coord {
      Coord(x, y, z)
    }
  }

  /** What stays fixed about a move once it is queued. */
  datatype Shape = Shape(kinematic: bool, startPos: Vec, endPos: Vec, axesR: Vec, moveD: real, accel: real, deviation: real)

  /** A move reaches its end position when its distance is travelled along its axes; an extrude-only
    * move leaves x, y and z alone. */
  predicate Straight(s: Shape) {
    && 0.0 < s.moveD && 0.0 < s.accel
    && s.endPos.XYZ() == (if s.kinematic then Along(s.startPos.XYZ(), s.axesR.XYZ(), s.moveD) else s.startPos.XYZ())
  }

  /** Cosine of the angle between the reversed previous direction and the new one. */
  function JunctionCosTheta(p: Vec, m: Vec): real {
    -(m.x * p.x + m.y * p.y + m.z * p.z)
  }

  /** The corner limits of `calc_junction`, or None where it returns early and the corner is a full stop. */
  function JunctionCap(sqrt: real -> real, p: Shape, m: Shape, extruderV2: real): (cap: Option<real>)
    requires IsSqrt(sqrt)
  {
    if !m.kinematic || !p.kinematic then None
    else
      var cosTheta := JunctionCosTheta(p.axesR, m.axesR);
      if cosTheta > 0.999999 then None
      else
        var c := Max(cosTheta, -0.999999);
        HalfAngle(sqrt, c);
        var sinThetaD2 := sqrt(0.5 * (1.0 - c));
        var rJd := sinThetaD2 / (1.0 - sinThetaD2);
        var tanThetaD2 := sinThetaD2 / sqrt(0.5 * (1.0 + c));
        Some(CornerLimit(rJd, tanThetaD2, p, m, extruderV2))
  }

  function DeviationLimit(rJd: real, m: Shape): real {
    rJd * m.deviation * m.accel
  }

  function MiddleLimit(tanThetaD2: real, m: Shape): real {
    0.5 * m.moveD * tanThetaD2 * m.accel
  }

  /** Junction deviation of both moves, "no further than mid-move" for both moves, and the extruder. */
  function CornerLimit(rJd: real, tanThetaD2: real, p: Shape, m: Shape, extruderV2: real): real {
    Min(Min(Min(DeviationLimit(rJd, m), DeviationLimit(rJd, p)),
            Min(MiddleLimit(tanThetaD2, m), MiddleLimit(tanThetaD2, p))),
        extruderV2)
  }

  /** Away from the two degenerate angles both half-angle roots lie strictly between 0 and 1. */
  lemma HalfAngle(sqrt: real -> real, c: real)
    requires IsSqrt(sqrt) && -1.0 < c < 1.0
    ensures 0.0 < sqrt(0.5 * (1.0 - c)) < 1.0 && 0.0 < sqrt(0.5 * (1.0 + c)) < 1.0
  {
    BelowOne(sqrt, 0.5 * (1.0 - c));
    BelowOne(sqrt, 0.5 * (1.0 + c));
  }

  lemma BelowOne(sqrt: real -> real, x: real)
    requires IsSqrt(sqrt) && 0.0 < x < 1.0
    ensures 0.0 < sqrt(x) < 1.0
  {
    if 1.0 <= sqrt(x) {
      SquareAtLeast(sqrt(x), sqrt(x) * sqrt(x));
    }
  }

  lemma SquareAtLeast(r: real, square: real)
    requires 1.0 <= r && square == r * r
    ensures 1.0 <= square
  {
    assert 0.0 <= (r - 1.0) * (r + 1.0);
  }

  lemma ProductNonNegative(a: real, b: real)
    requires 0.0 <= a && 0.0 <= b
    ensures 0.0 <= a * b
  {
  }

  lemma QuotientNonNegative(a: real, b: real)
    requires 0.0 <= a && 0.0 < b
    ensures 0.0 <= a / b
  {
  }

  /** Every corner limit is a speed that can be driven. */
  lemma JunctionCapNonNegative(sqrt: real -> real, p: Shape, m: Shape, extruderV2: real)
    requires IsSqrt(sqrt) && 0.0 <= extruderV2
    requires 0.0 < p.moveD && 0.0 < p.accel && 0.0 <= p.deviation
    requires 0.0 < m.moveD && 0.0 < m.accel && 0.0 <= m.deviation
    ensures var cap := JunctionCap(sqrt, p, m, extruderV2); cap.Some? ==> 0.0 <= cap.value <= extruderV2
  {
    var c := Max(JunctionCosTheta(p.axesR, m.axesR), -0.999999);
    if c <= 0.999999 {
      HalfAngle(sqrt, c);
      var s := sqrt(0.5 * (1.0 - c));
      QuotientNonNegative(s, 1.0 - s);
      QuotientNonNegative(s, sqrt(0.5 * (1.0 + c)));
      LimitNonNegative(s / (1.0 - s), m.deviation, m.accel);
      LimitNonNegative(s / (1.0 - s), p.deviation, p.accel);
      LimitNonNegative(0.5 * m.moveD, s / sqrt(0.5 * (1.0 + c)), m.accel);
      LimitNonNegative(0.5 * p.moveD, s / sqrt(0.5 * (1.0 + c)), p.accel);
    }
  }

  lemma LimitNonNegative(a: real, b: real, c: real)
    requires 0.0 <= a && 0.0 <= b && 0.0 <= c
    ensures 0.0 <= a * b * c
  {
    ProductNonNegative(a, b);
    ProductNonNegative(a * b, c);
  }

  // The corner, from the directions alone.

  /** The square of the length of the sum of two directions, over x, y and z: 4 for straight on, 0 for back again. */
  function SumSquared(p: Vec, m: Vec): real {
    Squared(p.x + m.x) + Squared(p.y + m.y) + Squared(p.z + m.z)
  }

  function Squared(x: real): real {
    x * x
  }

  predicate Unit(r: Vec) {
    Squared(r.x) + Squared(r.y) + Squared(r.z) == 1.0
  }

  /** The sum of two directions at which a corner stops counting as a turn back, and the one from which it counts as
    * straight on. */
  const TURN_BACK := 0.000002
  const STRAIGHT_ON := 3.999998

  /** v2 is possible in a corner between these moves: the circle that deviates as far as allowed is followed within
    * either acceleration, and touches neither move beyond its middle; s and t are the sine and the tangent of half the
    * angle of the corner. */
  predicate Turnable(p: Shape, m: Shape, s: real, t: real, v2: real) {
    && v2 * (1.0 - s) <= s * m.deviation * m.accel && v2 * (1.0 - s) <= s * p.deviation * p.accel
    && v2 <= 0.5 * m.moveD * t * m.accel && v2 <= 0.5 * p.moveD * t * p.accel
  }

  /** s is half the length of the sum of the directions, t the tangent to that sine. */
  predicate HalfCorner(p: Vec, m: Vec, s: real, t: real) {
    && 0.0 <= s && 4.0 * Squared(s) == Min(SumSquared(p, m), STRAIGHT_ON)
    && 0.0 <= t && Squared(t) * (1.0 - Squared(s)) == Squared(s)
  }

  lemma SumOfUnits(p: Vec, m: Vec)
    requires Unit(p) && Unit(m)
    ensures SumSquared(p, m) == 2.0 - 2.0 * JunctionCosTheta(p, m)
  {
    hide Squared;
    var x, y, z := m.x * p.x, m.y * p.y, m.z * p.z;
    SquareOfSum(p.x, m.x, x);
    SquareOfSum(p.y, m.y, y);
    SquareOfSum(p.z, m.z, z);
    assert JunctionCosTheta(p, m) == -(x + y + z);
  }

  lemma SquareOfSum(a: real, b: real, product: real)
    requires product == b * a
    ensures Squared(a + b) == Squared(a) + Squared(b) + 2.0 * product
  {
  }

  lemma SquareGrows(a: real, b: real)
    requires 0.0 <= a < b
    ensures Squared(a) < Squared(b)
  {
    var d := b - a;
    SquareOfSum(a, d, d * a);
    assert 0.0 < d * d && 0.0 <= d * a;
  }

  /** There is one such sine and one such tangent. */
  lemma HalfCornerIsUnique(p: Vec, m: Vec, s: real, t: real, s': real, t': real)
    requires HalfCorner(p, m, s, t) && HalfCorner(p, m, s', t') && Squared(s) < 1.0
    ensures s == s' && t == t'
  {
    hide Squared, SumSquared;
    if s < s' {
      SquareGrows(s, s');
    } else if s' < s {
      SquareGrows(s', s);
    }
    SameFactor(Squared(t), Squared(t'), 1.0 - Squared(s));
    if t < t' {
      SquareGrows(t, t');
    } else if t' < t {
      SquareGrows(t', t);
    }
  }

  lemma SameFactor(x: real, y: real, f: real)
    requires x * f == y * f && 0.0 < f
    ensures x == y
  {
    assert (x - y) * f == 0.0;
  }

  /** Multiplying out a quotient. */
  lemma Divided(v: real, s: real, u: real, k: real)
    requires 0.0 < u
    ensures v * u <= s * k <==> v <= s / u * k
  {
    var q := s / u;
    assert q * u == s;
    assert s * k == (q * k) * u;
    if v <= q * k {
      Scales(v, q * k, u);
    } else {
      StrictlyScales(q * k, v, u);
    }
  }

  lemma Scales(a: real, b: real, u: real)
    requires a <= b && 0.0 < u
    ensures a * u <= b * u
  {
    assert 0.0 <= (b - a) * u;
  }

  lemma StrictlyScales(a: real, b: real, u: real)
    requires a < b && 0.0 < u
    ensures a * u < b * u
  {
    assert 0.0 < (b - a) * u;
  }

  /** What the two roots are. */
  lemma RootsAreHalfCorner(sqrt: real -> real, p: Vec, m: Vec)
    requires IsSqrt(sqrt) && Unit(p) && Unit(m) && TURN_BACK <= SumSquared(p, m)
    ensures var c := Max(JunctionCosTheta(p, m), -0.999999);
            && -1.0 < c < 1.0 && 0.0 <= 0.5 * (1.0 - c) && 0.0 < 0.5 * (1.0 + c)
            && var s := sqrt(0.5 * (1.0 - c));
               0.0 < s < 1.0 && 0.0 < sqrt(0.5 * (1.0 + c)) && HalfCorner(p, m, s, s / sqrt(0.5 * (1.0 + c)))
  {
    hide Unit, SumSquared, JunctionCosTheta, Squared;
    SumOfUnits(p, m);
    var c := Max(JunctionCosTheta(p, m), -0.999999);
    HalfAngle(sqrt, c);
    var s, r := sqrt(0.5 * (1.0 - c)), sqrt(0.5 * (1.0 + c));
    RootSquares(sqrt, 0.5 * (1.0 - c));
    RootSquares(sqrt, 0.5 * (1.0 + c));
    assert Squared(r) == 1.0 - Squared(s);
    QuotientSquared(s, r);
  }

  lemma RootSquares(sqrt: real -> real, x: real)
    requires IsSqrt(sqrt) && 0.0 <= x
    ensures Squared(sqrt(x)) == x
  {
  }

  lemma QuotientSquared(s: real, r: real)
    requires 0.0 <= s && 0.0 < r
    ensures 0.0 <= s / r && Squared(s / r) * Squared(r) == Squared(s)
  {
    var t := s / r;
    assert t * r == s;
    assert (t * t) * (r * r) == (t * r) * (t * r);
    QuotientNonNegative(s, r);
  }

  /** The corner limit of two kinematic moves, from their directions.  A turn back is a full stop; anywhere else the
    * limit is the greatest v2 that the corner and the extruder allow, where what is straight on up to a millionth counts
    * as not quite straight. */
  lemma CornerGeometry(sqrt: real -> real, p: Shape, m: Shape, extruderV2: real, s: real, t: real, v2: real)
    requires IsSqrt(sqrt) && p.kinematic && m.kinematic && Unit(p.axesR) && Unit(m.axesR)
    requires TURN_BACK <= SumSquared(p.axesR, m.axesR) ==> HalfCorner(p.axesR, m.axesR, s, t)
    ensures var cap := JunctionCap(sqrt, p, m, extruderV2);
            && (cap.None? <==> SumSquared(p.axesR, m.axesR) < TURN_BACK)
            && (cap.Some? ==> (v2 <= cap.value <==> Turnable(p, m, s, t, v2) && v2 <= extruderV2))
  {
    hide Unit, SumSquared, JunctionCosTheta, Squared, HalfCorner, JunctionCap, CornerLimit, Turnable;
    FullStopIs(sqrt, p, m, extruderV2);
    SumOfUnits(p.axesR, m.axesR);
    CapIs(sqrt, p, m, extruderV2);
    if TURN_BACK <= SumSquared(p.axesR, m.axesR) {
      RootsAreHalfCorner(sqrt, p.axesR, m.axesR);
      var c := Max(JunctionCosTheta(p.axesR, m.axesR), -0.999999);
      var r := sqrt(0.5 * (1.0 - c));
      BelowOneSquared(r);
      HalfCornerIsUnique(p.axesR, m.axesR, r, r / sqrt(0.5 * (1.0 + c)), s, t);
      LimitIs(p, m, extruderV2, s, t, v2);
    }
  }

  lemma FullStopIs(sqrt: real -> real, p: Shape, m: Shape, extruderV2: real)
    requires IsSqrt(sqrt) && p.kinematic && m.kinematic && Unit(p.axesR) && Unit(m.axesR)
    ensures JunctionCap(sqrt, p, m, extruderV2).None? <==> SumSquared(p.axesR, m.axesR) < TURN_BACK
  {
    hide Unit, SumSquared, JunctionCosTheta, JunctionCap, CornerLimit;
    SumOfUnits(p.axesR, m.axesR);
    CapIs(sqrt, p, m, extruderV2);
  }

  lemma CapIs(sqrt: real -> real, p: Shape, m: Shape, extruderV2: real)
    requires IsSqrt(sqrt) && p.kinematic && m.kinematic
    ensures var cosTheta := JunctionCosTheta(p.axesR, m.axesR); var cap := JunctionCap(sqrt, p, m, extruderV2);
            if cosTheta > 0.999999 then cap == None
            else
              var c := Max(cosTheta, -0.999999);
              && 0.0 < sqrt(0.5 * (1.0 + c)) && sqrt(0.5 * (1.0 - c)) < 1.0
              && var s := sqrt(0.5 * (1.0 - c));
                 cap == Some(CornerLimit(s / (1.0 - s), s / sqrt(0.5 * (1.0 + c)), p, m, extruderV2))
  {
    hide JunctionCosTheta, CornerLimit;
    var c := Max(JunctionCosTheta(p.axesR, m.axesR), -0.999999);
    if c <= 0.999999 {
      HalfAngle(sqrt, c);
    }
  }

  lemma LimitIs(p: Shape, m: Shape, extruderV2: real, s: real, t: real, v2: real)
    requires 0.0 <= s < 1.0
    ensures v2 <= CornerLimit(s / (1.0 - s), t, p, m, extruderV2) <==> Turnable(p, m, s, t, v2) && v2 <= extruderV2
  {
    hide DeviationLimit, MiddleLimit, Turnable;
    var rJd := s / (1.0 - s);
    TurnableIs(p, m, s, t, v2, rJd);
  }

  lemma TurnableIs(p: Shape, m: Shape, s: real, t: real, v2: real, rJd: real)
    requires 0.0 <= s < 1.0 && rJd == s / (1.0 - s)
    ensures Turnable(p, m, s, t, v2) <==>
            && v2 <= DeviationLimit(rJd, m) && v2 <= DeviationLimit(rJd, p)
            && v2 <= MiddleLimit(t, m) && v2 <= MiddleLimit(t, p)
  {
    Deviates(v2, s, m, rJd);
    Deviates(v2, s, p, rJd);
  }

  lemma BelowOneSquared(s: real)
    requires 0.0 <= s < 1.0
    ensures Squared(s) < 1.0
  {
    SquareGrows(s, 1.0);
  }

  lemma Deviates(v2: real, s: real, m: Shape, rJd: real)
    requires 0.0 <= s < 1.0 && rJd == s / (1.0 - s)
    ensures v2 * (1.0 - s) <= s * m.deviation * m.accel <==> v2 <= DeviationLimit(rJd, m)
  {
    Divided(v2, s, 1.0 - s, m.deviation * m.accel);
    Grouped(s, m.deviation, m.accel);
    Grouped(s / (1.0 - s), m.deviation, m.accel);
  }

  lemma Grouped(a: real, b: real, c: real)
    ensures a * b * c == a * (b * c)
  {
  }

  /** Going on in the same direction is not a full stop, going back is one. */
  lemma StraightAndBack(sqrt: real -> real, p: Shape, m: Shape, extruderV2: real)
    requires IsSqrt(sqrt) && p.kinematic && m.kinematic && Unit(m.axesR)
    ensures p.axesR.XYZ() == m.axesR.XYZ() ==> JunctionCap(sqrt, p, m, extruderV2).Some?
    ensures p.axesR.XYZ() == Reversed(m.axesR.XYZ()) ==> JunctionCap(sqrt, p, m, extruderV2) == None
  {
    hide JunctionCap, SumSquared, Unit;
    var r := m.axesR;
    if p.axesR.XYZ() == r.XYZ() || p.axesR.XYZ() == Reversed(r.XYZ()) {
      SumsAlong(p.axesR, r);
      FullStopIs(sqrt, p, m, extruderV2);
    }
  }

  function Reversed(d: Coord): Coord {
    Coord(-d.x, -d.y, -d.z)
  }

  lemma SumsAlong(p: Vec, m: Vec)
    requires Unit(m) && (p.XYZ() == m.XYZ() || p.XYZ() == Reversed(m.XYZ()))
    ensures Unit(p)
    ensures p.XYZ() == m.XYZ() ==> SumSquared(p, m) == 4.0
    ensures p.XYZ() == Reversed(m.XYZ()) ==> SumSquared(p, m) == 0.0
  {
    hide Squared;
    SumAlong(p.x, m.x);
    SumAlong(p.y, m.y);
    SumAlong(p.z, m.z);
  }

  lemma SumAlong(a: real, b: real)
    ensures a == b ==> Squared(a + b) == 4.0 * Squared(b)
    ensures a == -b ==> Squared(a + b) == 0.0 && Squared(a) == Squared(b)
  {
  }
}
