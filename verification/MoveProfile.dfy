/** `Move.set_junction`: from squared junction speeds to a trapezoidal speed profile in time. */
module MoveProfile {
  import opened RealMath
  import opened JunctionPlan

  datatype Profile = Profile(startV: real, cruiseV: real, endV: real, accelT: real, cruiseT: real, decelT: real)

  lemma RootPositive(sqrt: real -> real, x: real)
    requires IsSqrt(sqrt) && 0.0 < x
    ensures 0.0 < sqrt(x)
  {
    assert sqrt(x) * sqrt(x) == x;
  }

  lemma {:induction false} RootMonotone(sqrt: real -> real, x: real, y: real)
    requires IsSqrt(sqrt) && 0.0 <= x <= y
    ensures sqrt(x) <= sqrt(y)
  {
    assert sqrt(x) * sqrt(x) <= sqrt(y) * sqrt(y);
    if sqrt(y) < sqrt(x) {
      SquareLess(sqrt(y), sqrt(x));
    }
  }

  lemma SquareLess(b: real, a: real)
    requires 0.0 <= b < a
    ensures b * b < a * a
  {
    MulPositive(a - b, a + b);
    assert (a - b) * (a + b) == a * a - b * b;
  }

  lemma MulPositive(x: real, y: real)
    requires 0.0 < x && 0.0 < y
    ensures 0.0 < x * y
  {
  }

  /** Distance of a ramp between two squared speeds. */
  function RampDistance(low: real, high: real, accel: real): real
    requires accel != 0.0
  {
    var halfInvAccel := 0.5 / accel;
    (high - low) * halfInvAccel
  }

  /** How long a ramp of length d takes between two speeds. */
  function RampTime(d: real, v: real, w: real): real
    requires v + w != 0.0
  {
    d / ((v + w) * 0.5)
  }

  /** Time at constant speed. */
  function CruiseTime(d: real, v: real): real
    requires v != 0.0
  {
    d / v
  }

  /** The profile for given speeds (the roots of the squared junction speeds). */
  function ProfileFor(moveD: real, accel: real, j: Junction, startV: real, cruiseV: real, endV: real): Profile
    requires accel != 0.0 && 0.0 <= startV && 0.0 < cruiseV && 0.0 <= endV
  {
    var accelD := RampDistance(j.start, j.cruise, accel);
    var decelD := RampDistance(j.end, j.cruise, accel);
    var cruiseD := moveD - accelD - decelD;
    Profile(startV, cruiseV, endV,
            RampTime(accelD, startV, cruiseV), CruiseTime(cruiseD, cruiseV), RampTime(decelD, endV, cruiseV))
  }

  /** Speeds for which the computed times are defined. */
  predicate Drivable(accel: real, j: Junction) {
    0.0 < accel && 0.0 <= j.start && 0.0 < j.cruise && 0.0 <= j.end
  }

  function SetJunction(sqrt: real -> real, moveD: real, accel: real, j: Junction): Profile
    requires IsSqrt(sqrt) && Drivable(accel, j)
  {
    RootPositive(sqrt, j.cruise);
    ProfileFor(moveD, accel, j, sqrt(j.start), sqrt(j.cruise), sqrt(j.end))
  }

  /** A junction that the move's distance and acceleration leave room for. */
  predicate Executable(moveD: real, accel: real, j: Junction) {
    && Drivable(accel, j) && j.start <= j.cruise && j.end <= j.cruise
    && 2.0 * j.cruise - j.start - j.end <= 2.0 * moveD * accel
  }

  /** One ramp: the time set_junction computes for it changes the speed from v to w at exactly `accel`
    * and, at the average of both speeds, covers exactly the distance (w2 - v2) / (2 accel). */
  lemma Ramp(v: real, w: real, accel: real)
    requires 0.0 <= v <= w && 0.0 < w && 0.0 < accel
    ensures var d := RampDistance(v * v, w * w, accel);
            var t := RampTime(d, v, w);
            0.0 <= t && t * accel == w - v && Average(v, w, t) == d
  {
    var d := RampDistance(v * v, w * w, accel);
    var u := (w - v) / accel;
    assert u * accel == w - v;
    assert (w - v) * (w + v) == w * w - v * v;
    assert d == u * ((v + w) * 0.5) by {
      assert (w * w - v * v) * (0.5 / accel) == (w - v) * (1.0 / accel) * ((w + v) * 0.5);
      assert u == (w - v) * (1.0 / accel);
    }
    Cancel(u, (v + w) * 0.5);
    assert RampTime(d, v, w) == u;
    assert Average(v, w, u) == d;
  }

  lemma Cancel(x: real, y: real)
    requires y != 0.0
    ensures (x * y) / y == x
  {
  }

  /** Distance covered in time t while the speed changes evenly from v to w. */
  function Average(v: real, w: real, t: real): real {
    ((v + w) * 0.5) * t
  }

  /** delta_v2 leaves room for both ramps. */
  lemma CruiseRoom(moveD: real, accel: real, j: Junction)
    requires Executable(moveD, accel, j)
    ensures RampDistance(j.start, j.cruise, accel) + RampDistance(j.end, j.cruise, accel) <= moveD
  {
    var h := 0.5 / accel;
    assert accel * h == 0.5;
    assert (2.0 * moveD * accel) * h == 2.0 * moveD * (accel * h);
    ScaleLe(2.0 * j.cruise - j.start - j.end, 2.0 * moveD * accel, h);
    assert (j.cruise - j.start) * h + (j.cruise - j.end) * h == (2.0 * j.cruise - j.start - j.end) * h;
  }

  lemma ScaleLe(a: real, b: real, h: real)
    requires a <= b && 0.0 < h
    ensures a * h <= b * h
  {
  }

  lemma CruiseCovers(x: real, y: real)
    requires 0.0 <= x && 0.0 < y
    ensures 0.0 <= CruiseTime(x, y) && y * CruiseTime(x, y) == x
  {
  }

  /** What a profile must do for its move: never a negative time, each ramp at exactly the move's
    * acceleration between the planned speeds, and the three parts cover exactly the move's distance. */
  predicate Covers(p: Profile, moveD: real, accel: real) {
    && 0.0 <= p.startV <= p.cruiseV && 0.0 <= p.endV <= p.cruiseV && 0.0 < p.cruiseV
    && 0.0 <= p.accelT && 0.0 <= p.cruiseT && 0.0 <= p.decelT
    && p.accelT * accel == p.cruiseV - p.startV
    && p.decelT * accel == p.cruiseV - p.endV
    && Average(p.startV, p.cruiseV, p.accelT) + p.cruiseV * p.cruiseT + Average(p.endV, p.cruiseV, p.decelT) == moveD
  }

  lemma RampParts(moveD: real, accel: real, j: Junction, startV: real, cruiseV: real, endV: real)
    requires 0.0 < accel && 0.0 <= startV <= cruiseV && 0.0 <= endV <= cruiseV && 0.0 < cruiseV
    requires j == Junction(startV * startV, cruiseV * cruiseV, endV * endV)
    ensures var p := ProfileFor(moveD, accel, j, startV, cruiseV, endV);
            && 0.0 <= p.accelT && p.accelT * accel == cruiseV - startV
            && Average(startV, cruiseV, p.accelT) == RampDistance(j.start, j.cruise, accel)
            && 0.0 <= p.decelT && p.decelT * accel == cruiseV - endV
            && Average(endV, cruiseV, p.decelT) == RampDistance(j.end, j.cruise, accel)
  {
    Ramp(startV, cruiseV, accel);
    Ramp(endV, cruiseV, accel);
  }

  lemma PartsCover(moveD: real, accel: real, j: Junction, startV: real, cruiseV: real, endV: real)
    requires 0.0 <= startV <= cruiseV && 0.0 <= endV <= cruiseV && 0.0 < cruiseV
    requires j == Junction(startV * startV, cruiseV * cruiseV, endV * endV) && Executable(moveD, accel, j)
    ensures Covers(ProfileFor(moveD, accel, j, startV, cruiseV, endV), moveD, accel)
  {
    RampParts(moveD, accel, j, startV, cruiseV, endV);
    CruiseRoom(moveD, accel, j);
    CruiseCovers(moveD - RampDistance(j.start, j.cruise, accel) - RampDistance(j.end, j.cruise, accel), cruiseV);
  }

  /** Every executable junction gets such a profile. */
  lemma ProfileCovers(sqrt: real -> real, moveD: real, accel: real, j: Junction)
    requires IsSqrt(sqrt) && Executable(moveD, accel, j)
    ensures Covers(SetJunction(sqrt, moveD, accel, j), moveD, accel)
  {
    RootPositive(sqrt, j.cruise);
    RootMonotone(sqrt, j.start, j.cruise);
    RootMonotone(sqrt, j.end, j.cruise);
    PartsCover(moveD, accel, j, sqrt(j.start), sqrt(j.cruise), sqrt(j.end));
  }
}
