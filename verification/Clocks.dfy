/** Converting between a micro-controller's clock and the host's time. */
module Clocks {
  import opened Wire

  /** The estimate kept for one micro-controller: `freq` ticks a second, convClock at convTime. */
  datatype Estimate = Estimate(lastClock: Word64, convClock: Word64, convTime: real, freq: real)

  /** clock_from_clock32: the low 32 bits of a clock extended by the last full clock seen. */
  function FromClock32(ce: Estimate, clock32: Word32): Word64 {
    U64(ce.lastClock + S32(U32(clock32 - ce.lastClock)))
  }

  /** clock_to_time. */
  function ToTime(ce: Estimate, clock: Word64): real
    requires ce.freq != 0.0
  {
    ce.convTime + S64(U64(clock - ce.convClock)) as real / ce.freq
  }

  /** The cast of a double to an integer: it cuts toward zero. */
  function Cut(x: real): int {
    if 0.0 <= x then x.Floor else -((-x).Floor)
  }

  /** The ticks of a time span, not rounded. */
  function Scaled(lag: real, freq: real): real {
    lag * freq
  }

  /** clock_from_time before its result is wrapped to 64 bits. */
  function TicksAt(ce: Estimate, time: real): int {
    Cut(Scaled(time - ce.convTime, ce.freq) + 0.5) + ce.convClock
  }

  /** clock_from_time. */
  function FromTime(ce: Estimate, time: real): Word64 {
    U64(TicksAt(ce, time))
  }

  /** The extension is the one clock that agrees in its low 32 bits and lies within half a turn of the last. */
  lemma Clock32Extends(ce: Estimate, clock32: Word32, clock: int)
    requires 0 <= clock < TWO64
    requires U32(clock) == clock32 && -0x8000_0000 <= clock - ce.lastClock < 0x8000_0000
    ensures FromClock32(ce, clock32) == clock
  {
    var d := clock - ce.lastClock;
    SameResidue(clock32 - ce.lastClock, d, clock / TWO32);
    SignedOfWrapped(d);
  }

  lemma SameResidue(x: int, y: int, k: int)
    requires y == x + k * TWO32
    ensures U32(x) == U32(y)
  {
  }

  lemma CutBounds(x: real)
    ensures 0.0 <= x ==> Cut(x) as real <= x < (Cut(x) + 1) as real
    ensures x < 0.0 ==> x <= Cut(x) as real < x + 1.0
  {
  }

  lemma CutMonotone(x: real, y: real)
    requires x <= y
    ensures Cut(x) <= Cut(y)
  {
    if 0.0 <= x {
      assert x.Floor <= y.Floor;
    } else if y < 0.0 {
      assert (-y).Floor <= (-x).Floor;
    }
  }

  lemma ScaleMonotone(a: real, b: real, f: real)
    requires a <= b && 0.0 <= f
    ensures Scaled(a, f) <= Scaled(b, f)
  {
  }

  /** Later times never have smaller clocks. */
  lemma TicksMonotone(ce: Estimate, s: real, t: real)
    requires 0.0 < ce.freq && s <= t
    ensures TicksAt(ce, s) <= TicksAt(ce, t)
  {
    hide Scaled, Cut;
    ScaleMonotone(s - ce.convTime, t - ce.convTime, ce.freq);
    CutMonotone(Scaled(s - ce.convTime, ce.freq) + 0.5, Scaled(t - ce.convTime, ce.freq) + 0.5);
  }

  /** The clock of a time is the exact one rounded; before the conversion point it may be a tick late. */
  lemma TicksNear(ce: Estimate, t: real)
    ensures var exact := Scaled(t - ce.convTime, ce.freq) + ce.convClock as real;
            && exact - 0.5 < TicksAt(ce, t) as real < exact + 1.5
            && (ce.convClock as real <= exact + 0.5 ==> TicksAt(ce, t) as real <= exact + 0.5)
  {
    hide Cut;
    var x := Scaled(t - ce.convTime, ce.freq);
    CutBounds(x + 0.5);
    NearCut(x, Cut(x + 0.5), ce.convClock, TicksAt(ce, t));
  }

  lemma NearCut(x: real, cut: int, conv: int, ticks: int)
    requires ticks == cut + conv
    requires 0.0 <= x + 0.5 ==> cut as real <= x + 0.5 < (cut + 1) as real
    requires x + 0.5 < 0.0 ==> x + 0.5 <= cut as real < x + 1.5
    ensures var exact := x + conv as real;
            && exact - 0.5 < ticks as real < exact + 1.5
            && (conv as real <= exact + 0.5 ==> ticks as real <= exact + 0.5)
  {
  }

  lemma CutHalf(d: int)
    ensures Cut(d as real + 0.5) == if 0 <= d then d else d + 1
  {
    if 0 <= d {
      assert (d as real + 0.5).Floor == d;
    } else {
      assert (-(d as real + 0.5)).Floor == -d - 1;
    }
  }

  lemma Undo(d: real, f: real)
    requires f != 0.0
    ensures Scaled(d / f, f) == d
  {
  }

  /** A clock converted to a time and back is unchanged exactly when it does not precede the conversion point;
    * otherwise it comes back one tick later. */
  lemma ClockRoundTrip(ce: Estimate, clock: Word64)
    requires 0.0 < ce.freq
    requires -0x8000_0000_0000_0000 <= clock - ce.convClock < 0x8000_0000_0000_0000
    ensures TicksAt(ce, ToTime(ce, clock)) == if ce.convClock <= clock then clock else clock + 1
    ensures FromTime(ce, ToTime(ce, clock)) == clock <==> ce.convClock <= clock
  {
    hide Scaled, Cut, S64, U64, TicksAt;
    var d := clock - ce.convClock;
    SignedOfWrapped(d);
    var t := ToTime(ce, clock);
    Undo(d as real, ce.freq);
    TicksOf(ce, t, d as real / ce.freq, d as real);
    CutHalf(d);
    WrapSmall(clock);
    WrapSmall(clock + 1);
  }

  lemma TicksOf(ce: Estimate, t: real, lag: real, x: real)
    requires t == ce.convTime + lag && Scaled(lag, ce.freq) == x
    ensures TicksAt(ce, t) == Cut(x + 0.5) + ce.convClock
  {
    hide Scaled, Cut;
    assert t - ce.convTime == lag;
  }

  lemma WrapSmall(x: int)
    ensures 0 <= x < TWO64 ==> U64(x) == x
    ensures x == TWO64 ==> U64(x) == 0
  {
  }
}
