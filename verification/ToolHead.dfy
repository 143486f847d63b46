/** Moves as objects whose limits and speeds are set in place, and the toolhead that feeds them to the motion
  * queue.  The look-ahead queue and its backward pass are in LookAheadQueue.dfy. */
module ToolHeads {
  import opened RealMath
  import opened MoveShape
  import opened JunctionPlan
  import opened MoveProfile
  import opened LookAheadRuns
  import opened MotionPipeline
  import opened PrintTimes
  import opened TrapQueues
  import T = TrapTimeline

  /** The toolhead settings that a move reads, and the square root of the platform. */
  datatype Machine = Machine(sqrt: real -> real, maxVelocity: real, maxAccel: real, maxAccelToDecel: real,
                             junctionDeviation: real)
  {
    ghost predicate Valid() {
      && IsSqrt(sqrt)
      && 0.0 < maxVelocity && 0.0 < maxAccelToDecel <= maxAccel && 0.0 <= junctionDeviation
    }
  }

  const LOOKAHEAD_FLUSH_TIME := 0.250
  const EXTRUDE_ONLY_ACCEL := 99999999.9
  const MIN_KINEMATIC_DISTANCE := 0.000000001

  function Dot(d: Vec): real {
    d.x * d.x + d.y * d.y + d.z * d.z
  }

  lemma DotNonNegative(d: Vec)
    ensures 0.0 <= Dot(d)
  {
    Square(d.x);
    Square(d.y);
    Square(d.z);
  }

  lemma Square(x: real)
    ensures 0.0 <= x * x
  {
  }

  /** Travelling the whole distance along the unit axes covers every component. */
  lemma Unscale(d: real, dist: real)
    requires dist != 0.0
    ensures (d * (1.0 / dist)) * dist == d
  {
  }

  function Difference(a: Vec, b: Vec): Vec {
    Vec(b.x - a.x, b.y - a.y, b.z - a.z, b.e - a.e)
  }

  function ScaledBy(d: Vec, f: real): Vec {
    Vec(d.x * f, d.y * f, d.z * f, d.e * f)
  }

  lemma AxesReach(start: Vec, end: Vec, dist: real)
    requires dist != 0.0
    ensures T.Along(start.XYZ(), ScaledBy(Difference(start, end), 1.0 / dist).XYZ(), dist) == end.XYZ()
  {
    Unscale(end.x - start.x, dist);
    Unscale(end.y - start.y, dist);
    Unscale(end.z - start.z, dist);
  }

  /** The axes are the direction of the move, without its length. */
  lemma UnitAxes(d: Vec, dist: real, inv: real)
    requires 0.0 < dist && Squared(dist) == Dot(d) && inv == 1.0 / dist
    ensures Unit(ScaledBy(d, inv))
  {
    hide Squared, Dot;
    DotIs(d);
    OneIs(dist, inv);
    SumScaled(Squared(d.x), Squared(d.y), Squared(d.z), Squared(inv), Squared(dist));
    var r := ScaledBy(d, inv);
    SquaredScaled(d.x, inv, r.x);
    SquaredScaled(d.y, inv, r.y);
    SquaredScaled(d.z, inv, r.z);
  }

  lemma OneIs(dist: real, inv: real)
    requires 0.0 < dist && inv == 1.0 / dist
    ensures Squared(dist) * Squared(inv) == 1.0
  {
    SquaredScaled(dist, inv, 1.0);
    assert dist * inv == 1.0;
  }

  lemma DotIs(d: Vec)
    ensures Dot(d) == Squared(d.x) + Squared(d.y) + Squared(d.z)
  {
  }

  lemma SumScaled(x: real, y: real, z: real, f: real, sum: real)
    requires sum == x + y + z
    ensures sum * f == x * f + y * f + z * f
  {
  }

  lemma SquaredScaled(x: real, f: real, scaled: real)
    requires scaled == x * f
    ensures Squared(scaled) == Squared(x) * Squared(f)
  {
    assert x * f * (x * f) == x * x * (f * f);
  }

  /** By how much the squared speed can change over this distance. */
  function Budget(dist: real, accel: real): real {
    2.0 * dist * accel
  }

  lemma Budgets(dist: real, accel: real, accelToDecel: real)
    requires 0.0 < dist && 0.0 < accelToDecel
    ensures 0.0 < Budget(dist, accelToDecel)
    ensures accelToDecel <= accel ==> Budget(dist, accelToDecel) <= Budget(dist, accel)
    ensures Budget(dist, accel) == 2.0 * dist * accel
  {
    PositiveProduct(2.0 * dist, accelToDecel, 2.0 * dist * accelToDecel);
    if accelToDecel <= accel {
      ScaledLe(2.0 * dist, accelToDecel, accel);
    }
  }

  /** Time t is what distance d takes at the squared speed v2. */
  predicate AtSpeed(t: real, v2: real, d: real) {
    0.0 <= t && t * t * v2 == d * d
  }

  class Move {
    const machine: Machine
    const kinematic: bool
    const startPos: Vec
    const endPos: Vec
    const axesD: Vec
    const axesR: Vec
    const moveD: real
    const junctionDeviation: real
    var accel: real
    var minMoveT: real
    var maxStartV2: real
    var maxCruiseV2: real
    var deltaV2: real
    var maxSmoothedV2: real
    var smoothDeltaV2: real
    var startV: real
    var cruiseV: real
    var endV: real
    var accelT: real
    var cruiseT: real
    var decelT: real
    ghost var junction: Junction  // the squared speeds last given to SetJunction

    function Shape(): MoveShape.Shape
      reads `accel
    {
      MoveShape.Shape(kinematic, startPos, endPos, axesR, moveD, accel, junctionDeviation)
    }

    function Limits(): JunctionPlan.Limits
      reads `accel, `maxStartV2, `maxCruiseV2, `deltaV2, `maxSmoothedV2, `smoothDeltaV2
    {
      JunctionPlan.Limits(Shape(), maxStartV2, maxCruiseV2, deltaV2, maxSmoothedV2, smoothDeltaV2)
    }

    function Times(): Profile
      reads `startV, `cruiseV, `endV, `accelT, `cruiseT, `decelT
    {
      Profile(startV, cruiseV, endV, accelT, cruiseT, decelT)
    }

    /** The move as handed on after its junction speeds were set. */
    ghost function AsPlanned(): Planned
      reads `accel, `maxStartV2, `maxCruiseV2, `deltaV2, `maxSmoothedV2, `smoothDeltaV2, `junction
    {
      Planned(Limits(), junction)
    }

    /** Move.__init__ */
    constructor (toolhead: Machine, start: Vec, end: Vec, speed: real)
      requires toolhead.Valid() && 0.0 < speed
      ensures machine == toolhead && startPos == start && endPos.e == end.e
      ensures junctionDeviation == toolhead.junctionDeviation
      ensures kinematic <==> MIN_KINEMATIC_DISTANCE <= toolhead.sqrt(Dot(Difference(start, end)))
      ensures accel == if kinematic then toolhead.maxAccel else EXTRUDE_ONLY_ACCEL
      ensures endPos == if kinematic then end else Vec(start.x, start.y, start.z, end.e)
      ensures axesD == (if kinematic then Difference(start, end) else Vec(0.0, 0.0, 0.0, end.e - start.e))
      ensures moveD == if kinematic then toolhead.sqrt(Dot(axesD)) else Abs(axesD.e)
      ensures moveD != 0.0 ==> axesR == ScaledBy(axesD, 1.0 / moveD)
      ensures 0.0 <= moveD && (kinematic ==> 0.0 < moveD && Unit(axesR))
      ensures 0.0 < moveD ==> Built(Limits()) && 0.0 < smoothDeltaV2 && (kinematic ==> smoothDeltaV2 <= deltaV2)
      ensures maxStartV2 == 0.0 && maxSmoothedV2 == 0.0 && 0.0 < maxCruiseV2 && 0.0 < accel
      ensures maxCruiseV2 == Squared(if kinematic then Min(speed, toolhead.maxVelocity) else speed)
      ensures smoothDeltaV2 == Budget(moveD, toolhead.maxAccelToDecel)
      ensures AtSpeed(minMoveT, maxCruiseV2, moveD)
    {
      hide AtSpeed, Squared, Budget, Unit;
      var velocity := Min(speed, toolhead.maxVelocity);
      var d := Difference(start, end);
      DotNonNegative(d);
      var dist := toolhead.sqrt(Dot(d));
      RootSquares(toolhead.sqrt, Dot(d));
      var inv := 0.0;
      machine, startPos, junctionDeviation := toolhead, start, toolhead.junctionDeviation;
      var isKinematic := !(dist < MIN_KINEMATIC_DISTANCE);
      var a := toolhead.maxAccel;
      if !isKinematic {
        endPos := Vec(start.x, start.y, start.z, end.e);
        d := Vec(0.0, 0.0, 0.0, d.e);
        dist := Abs(d.e);
        if dist != 0.0 {
          inv := 1.0 / dist;
        }
        a := EXTRUDE_ONLY_ACCEL;
        velocity := speed;
      } else {
        endPos := end;
        inv := 1.0 / dist;
        AxesReach(start, end, dist);
        UnitAxes(d, dist, inv);
      }
      kinematic, axesD, moveD, accel := isKinematic, d, dist, a;
      axesR := ScaledBy(d, inv);
      minMoveT := dist / velocity;
      maxStartV2 := 0.0;
      maxCruiseV2 := Squared(velocity);
      deltaV2 := Budget(dist, a);
      maxSmoothedV2 := 0.0;
      smoothDeltaV2 := Budget(dist, toolhead.maxAccelToDecel);
      startV, cruiseV, endV, accelT, cruiseT, decelT := 0.0, 0.0, 0.0, 0.0, 0.0, 0.0;
      junction := Junction(0.0, 0.0, 0.0);
      new;
      MinTime(dist, velocity, minMoveT, maxCruiseV2);
      SquaredPositive(velocity);
      if 0.0 < dist {
        Budgets(dist, a, toolhead.maxAccelToDecel);
      }
    }

    /** limit_speed */
    method LimitSpeed(speed: real, newAccel: real)
      requires 0.0 < speed && 0.0 < newAccel && 0.0 < moveD
      requires Built(Limits()) && 0.0 < smoothDeltaV2 && 0.0 < maxCruiseV2
      modifies `accel, `minMoveT, `maxCruiseV2, `deltaV2, `smoothDeltaV2
      ensures accel == Min(old(accel), newAccel) && maxCruiseV2 == Min(old(maxCruiseV2), Squared(speed))
      ensures Built(Limits()) && 0.0 < smoothDeltaV2 <= deltaV2 && smoothDeltaV2 <= old(smoothDeltaV2)
      ensures 0.0 < maxCruiseV2
      ensures old(AtSpeed(minMoveT, maxCruiseV2, moveD)) ==> AtSpeed(minMoveT, maxCruiseV2, moveD)
    {
      hide AtSpeed, Squared;
      var speed2 := Squared(speed);
      SquaredPositive(speed);
      if speed2 < maxCruiseV2 {
        maxCruiseV2 := speed2;
        minMoveT := moveD / speed;
        MinTime(moveD, speed, minMoveT, maxCruiseV2);
      }
      accel := Min(accel, newAccel);
      deltaV2 := 2.0 * moveD * accel;
      PositiveProduct(2.0 * moveD, accel, deltaV2);
      smoothDeltaV2 := Min(smoothDeltaV2, deltaV2);
    }

    /** calc_junction; `extruderV2` is the extruder's own junction limit. */
    method CalcJunction(prev: Move, extruderV2: real)
      requires prev != this && IsSqrt(machine.sqrt)
      requires maxStartV2 == 0.0 && maxSmoothedV2 == 0.0
      modifies `maxStartV2, `maxSmoothedV2
      ensures Limits() == Connect(prev.Limits(), old(Limits()), JunctionCap(machine.sqrt, prev.Shape(), Shape(), extruderV2))
    {
      if !kinematic || !prev.kinematic {
        return;
      }
      var junctionCosTheta := JunctionCosTheta(prev.axesR, axesR);
      if junctionCosTheta > 0.999999 {
        return;
      }
      junctionCosTheta := Max(junctionCosTheta, -0.999999);
      HalfAngle(machine.sqrt, junctionCosTheta);
      var sinThetaD2 := machine.sqrt(0.5 * (1.0 - junctionCosTheta));
      var rJd := sinThetaD2 / (1.0 - sinThetaD2);
      var tanThetaD2 := sinThetaD2 / machine.sqrt(0.5 * (1.0 + junctionCosTheta));
      var corner := CornerLimit(rJd, tanThetaD2, prev.Shape(), Shape(), extruderV2);
      maxStartV2 := Min(Min(corner, maxCruiseV2), Min(prev.maxCruiseV2, prev.maxStartV2 + prev.deltaV2));
      maxSmoothedV2 := Min(maxStartV2, prev.maxSmoothedV2 + prev.smoothDeltaV2);
    }

    /** set_junction */
    method SetJunction(startV2: real, cruiseV2: real, endV2: real)
      requires IsSqrt(machine.sqrt) && Drivable(accel, Junction(startV2, cruiseV2, endV2))
      modifies `startV, `cruiseV, `endV, `accelT, `cruiseT, `decelT, `junction
      ensures junction == Junction(startV2, cruiseV2, endV2)
      ensures Times() == MoveProfile.SetJunction(machine.sqrt, moveD, accel, junction)
    {
      junction := Junction(startV2, cruiseV2, endV2);
      RootPositive(machine.sqrt, cruiseV2);
      var accelD := RampDistance(startV2, cruiseV2, accel);
      var decelD := RampDistance(endV2, cruiseV2, accel);
      var cruiseD := moveD - accelD - decelD;
      startV := machine.sqrt(startV2);
      cruiseV := machine.sqrt(cruiseV2);
      endV := machine.sqrt(endV2);
      accelT := RampTime(accelD, startV, cruiseV);
      cruiseT := CruiseTime(cruiseD, cruiseV);
      decelT := RampTime(decelD, endV, cruiseV);
    }
  }

  // ----- handing moves over -----

  /** The moves as they are handed over. */
  ghost function PlannedOf(ms: seq<Move>): (ps: seq<Planned>)
    reads ms
    ensures |ps| == |ms|
  {
    seq(|ms|, i requires 0 <= i < |ms| reads ms => ms[i].AsPlanned())
  }

  function Members(ms: seq<Move>): set<Move> {
    set m | m in ms
  }

  function LimitsOf(ms: seq<Move>): (ls: seq<Limits>)
    reads Members(ms)`accel, Members(ms)`maxStartV2, Members(ms)`maxCruiseV2, Members(ms)`deltaV2,
          Members(ms)`maxSmoothedV2, Members(ms)`smoothDeltaV2
    ensures |ls| == |ms|
    ensures forall i :: 0 <= i < |ms| ==> ls[i] == ms[i].Limits()
  {
    if ms == [] then [] else [ms[0].Limits()] + LimitsOf(ms[1..])
  }

  ghost function Carried(ms: seq<Move>): (cs: seq<(MoveShape.Shape, Profile)>)
    reads ms
    ensures |cs| == |ms|
  {
    seq(|ms|, i requires 0 <= i < |ms| reads ms => (ms[i].Shape(), ms[i].Times()))
  }

  /** The part of the toolhead that receives planned moves. */
  class ToolHead {
    const machine: Machine
    const trapq: TrapQueue
    const kinFlushDelay: real
    var printTime: real
    var specialQueuingState: Queuing
    var lastFlushTime: real
    var minRestartTime: real
    ghost var log: seq<Planned>  // every move handed over so far, in order
    ghost var gens: seq<Generation>  // what the step generators were called for so far

    ghost function DriveState(): Drive
      reads `printTime, `specialQueuingState, `lastFlushTime, `minRestartTime, `gens, trapq
    {
      Drive(trapq.State(), printTime, specialQueuingState, lastFlushTime, minRestartTime, gens)
    }

    constructor (m: Machine, delay: real)
      requires m.Valid() && 0.0 < delay
      ensures machine == m && kinFlushDelay == delay && fresh(trapq) && log == [] && DriveState() == IDLE
    {
      machine, kinFlushDelay := m, delay;
      trapq := new TrapQueue();
      printTime, specialQueuingState, lastFlushTime, minRestartTime := 0.0, NeedPrime, 0.0, 0.0;
      log, gens := [], [];
    }

    /** _calc_print_time, from the estimated print time */
    method CalcPrintTime(est: real)
      modifies `printTime
      ensures DriveState() == old(PrintTimes.CalcPrintTime(DriveState(), kinFlushDelay, est))
    {
      var kinTime := Max(est + MIN_KIN_TIME, minRestartTime);
      kinTime := kinTime + kinFlushDelay;
      var minPrintTime := Max(est + BUFFER_TIME_START, kinTime);
      if minPrintTime > printTime {
        printTime := minPrintTime;
      }
    }

    /** _advance_flush_time, without the generation of the steps themselves */
    method AdvanceFlushTime(flushTime: real, clear: real)
      modifies `lastFlushTime, `minRestartTime, `gens, trapq
      ensures DriveState() == old(AdvanceFlush(DriveState(), kinFlushDelay, flushTime, clear))
    {
      var f := Max(flushTime, lastFlushTime);
      var sgFlushWant := Min(f + STEPCOMPRESS_FLUSH_TIME, printTime - kinFlushDelay);
      var sgFlushTime := Max(sgFlushWant, f);
      trapq.UpdateSentinels();
      gens := gens + [Generation(trapq.moves + [trapq.tail], Generated(gens), sgFlushTime)];
      minRestartTime := Max(minRestartTime, sgFlushTime);
      trapq.FinalizeMoves(sgFlushTime - kinFlushDelay, clear);
      lastFlushTime := f;
    }

    /** The end of flush_step_generation. */
    method HoldRestart()
      modifies `minRestartTime
      ensures DriveState() == old(RestartHeld(DriveState()))
    {
      minRestartTime := Max(minRestartTime, printTime);
    }

    /** _advance_move_time */
    method AdvanceMoveTime(nextPrintTime: real, clear: real)
      modifies `printTime, `lastFlushTime, `minRestartTime, `gens, trapq
      ensures DriveState() == old(AdvanceMove(DriveState(), kinFlushDelay, nextPrintTime, clear))
    {
      hide AdvanceFlush;
      var ptDelay := kinFlushDelay + STEPCOMPRESS_FLUSH_TIME;
      var flushTime := Max(lastFlushTime, printTime - ptDelay);
      printTime := Max(printTime, nextPrintTime);
      var wantFlushTime := Max(flushTime, printTime - ptDelay);
      ghost var goal := AdvanceTo(DriveState(), kinFlushDelay, flushTime, wantFlushTime, clear);
      while true
        invariant AdvanceTo(DriveState(), kinFlushDelay, flushTime, wantFlushTime, clear) == goal
        decreases 2.0 * (wantFlushTime - flushTime)
      {
        flushTime := Min(flushTime + MOVE_BATCH_TIME, wantFlushTime);
        AdvanceFlushTime(flushTime, clear);
        if flushTime >= wantFlushTime {
          break;
        }
      }
    }

    /** _update_drip_move_time, for a move that is not cut short, without the waiting */
    method UpdateDripMoveTime(nextPrintTime: real, clear: real)
      modifies `printTime, `lastFlushTime, `minRestartTime, `gens, trapq
      ensures DriveState() == old(DripTo(DriveState(), kinFlushDelay, nextPrintTime, clear))
    {
      hide AdvanceMove;
      while printTime < nextPrintTime
        invariant DripTo(DriveState(), kinFlushDelay, nextPrintTime, clear)
                  == old(DripTo(DriveState(), kinFlushDelay, nextPrintTime, clear))
        decreases if printTime < nextPrintTime then 1.0 + 20.0 * (nextPrintTime - printTime) else 0.0
      {
        var npt := Min(printTime + DRIP_SEGMENT_TIME, nextPrintTime);
        AdvanceMoveTime(npt, clear);
      }
    }

    /** The loop of _process_moves. */
    method QueueMoves(moves: seq<Move>) returns (nextMoveTime: real)
      modifies `log, trapq
      ensures log == old(log) + PlannedOf(moves)
      ensures Feed(trapq.State(), nextMoveTime)
              == FeedProfiles(Feed(old(trapq.State()), printTime), Carried(moves))
    {
      ghost var cs := Carried(moves);
      ghost var f0 := Feed(trapq.State(), printTime);
      nextMoveTime := printTime;
      log := log + PlannedOf(moves);
      ghost var log' := log;
      for i := 0 to |moves|
        invariant Carried(moves) == cs && log == log'
        invariant Feed(trapq.State(), nextMoveTime) == FeedProfiles(f0, cs[..i])
      {
        var move := moves[i];
        assert cs[i] == (move.Shape(), move.Times()) && cs[..i + 1][..i] == cs[..i];
        if move.kinematic {
          trapq.Append(T.Trapezoid(nextMoveTime, move.accelT, move.cruiseT, move.decelT, move.startPos.XYZ(),
                                   move.axesR.XYZ(), move.startV, move.cruiseV, move.accel));
        }
        nextMoveTime := nextMoveTime + move.accelT + move.cruiseT + move.decelT;
      }
      assert cs[..|moves|] == cs;
    }

    /** _process_moves; `now` holds the estimated print time, and how much history is to be kept. */
    method ProcessMoves(moves: seq<Move>, now: Now)
      modifies `printTime, `specialQueuingState, `lastFlushTime, `minRestartTime, `log, `gens, trapq
      ensures log == old(log) + PlannedOf(moves)
      ensures DriveState() == ProcessRow(old(DriveState()), kinFlushDelay, now, Carried(moves))
    {
      hide AdvanceMove, DripTo, FeedProfiles, PrintTimes.CalcPrintTime;
      if specialQueuingState != Main {
        if specialQueuingState != Drip {
          specialQueuingState := Main;
        }
        CalcPrintTime(now.est);
      }
      var nextMoveTime := QueueMoves(moves);
      if specialQueuingState != Main {
        UpdateDripMoveTime(nextMoveTime, now.clear);
      }
      AdvanceMoveTime(nextMoveTime, now.clear);
    }
  }

  /** A move of length d at speed v takes t; v2 is its squared speed. */
  lemma MinTime(d: real, v: real, t: real, v2: real)
    requires 0.0 <= d && 0.0 < v && t == d / v && v2 == Squared(v)
    ensures AtSpeed(t, v2, d)
  {
    assert t * v == d;
    if t < 0.0 {
      PositiveProduct(-t, v, -(t * v));
    }
    assert t * t * (v * v) == (t * v) * (t * v);
  }

  lemma SquaredPositive(x: real)
    requires 0.0 < x
    ensures 0.0 < Squared(x)
  {
    PositiveProduct(x, x, Squared(x));
  }

  lemma PositiveProduct(x: real, y: real, p: real)
    requires 0.0 < x && 0.0 < y && p == x * y
    ensures 0.0 < p
  {
  }

  lemma ScaledLe(s: real, x: real, y: real)
    requires 0.0 < s && x <= y
    ensures s * x <= s * y
  {
  }
}
