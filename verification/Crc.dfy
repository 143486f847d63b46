/** The CRC of a message block: the C loop, the Python loop, and what the code detects. */
module Crc {
  import opened Wire

  // Bytes as bits.  The integers of the wire become bit vectors digit by digit, and back.

  function Bit(b: nat): bv16 {
    if b % 2 == 1 then 1 else 0
  }

  function Bits(b: Byte): bv16 {
    var b1 := b / 2;
    var b2 := b1 / 2;
    var b3 := b2 / 2;
    var b4 := b3 / 2;
    var b5 := b4 / 2;
    var b6 := b5 / 2;
    var b7 := b6 / 2;
    Pack(Bit(b), Bit(b1), Bit(b2), Bit(b3), Bit(b4), Bit(b5), Bit(b6), Bit(b7))
  }

  function Pack(b0: bv16, b1: bv16, b2: bv16, b3: bv16, b4: bv16, b5: bv16, b6: bv16, b7: bv16): bv16 {
    b0 | (b1 << 1) | (b2 << 2) | (b3 << 3) | (b4 << 4) | (b5 << 5) | (b6 << 6) | (b7 << 7)
  }

  function Digit(v: bv16, mask: bv16, weight: nat): nat {
    if v & mask != 0 then weight else 0
  }

  function Value(v: bv16): Byte {
    Digit(v, 1, 1) + Digit(v, 2, 2) + Digit(v, 4, 4) + Digit(v, 8, 8)
    + Digit(v, 16, 16) + Digit(v, 32, 32) + Digit(v, 64, 64) + Digit(v, 128, 128)
  }

  /** The mixing of a byte with itself shifted, cut to eight bits. */
  function Mix(d: bv16): bv16 {
    (d ^ (d << 4)) & 0xff
  }

  function Spread(e: bv16, high: bv16): bv16 {
    ((e << 8) | high) ^ (e >> 4) ^ (e << 3)
  }

  function Feed(crc: bv16, data: bv16): bv16 {
    (data ^ crc) & 0xff
  }

  function Upper(crc: bv16): bv16 {
    crc >> 8
  }

  function Lower(crc: bv16): bv16 {
    crc & 0xff
  }

  /** One turn of the C loop; the masks are the truncations of its `uint8_t` variable. */
  function CStep(crc: bv16, data: bv16): bv16 {
    Spread(Mix(Feed(crc, data)), Upper(crc))
  }

  /** The Python mixing: it never leaves eight bits, so nothing is cut. */
  function PyMix(d: bv16): bv16 {
    d ^ ((d & 0x0f) << 4)
  }

  /** One turn of the Python loop.  Its integers are unbounded; PyStepExact shows that none outgrows sixteen bits. */
  function PyStep(crc: bv16, data: bv16): bv16 {
    Spread(PyMix(data ^ (crc & 0xff)), Upper(crc))
  }

  /** The state both loops hold after a buffer, starting from a given one. */
  function Fold(crc: bv16, buf: seq<Byte>): (r: bv16)
    decreases |buf|
  {
    if buf == [] then crc else Fold(CStep(crc, Bits(buf[0])), buf[1..])
  }

  function Glue(high: bv16, low: bv16): bv16 {
    (high << 8) | low
  }

  function High(crc: bv16): Byte {
    Value(Upper(crc))
  }

  function Low(crc: bv16): Byte {
    Value(Lower(crc))
  }

  /** The two bytes of the code of a buffer, high byte first. */
  function Code(buf: seq<Byte>): (Byte, Byte) {
    var crc := Fold(0xffff, buf);
    (High(crc), Low(crc))
  }

  lemma MixAgrees(d: bv16)
    requires d < 0x100
    ensures PyMix(d) == Mix(d) && Mix(d) < 0x100
  {
  }

  lemma InputAgrees(crc: bv16, data: bv16)
    requires data < 0x100
    ensures data ^ (crc & 0xff) == Feed(crc, data) && Feed(crc, data) < 0x100
  {
  }

  lemma StepsAgree(crc: bv16, data: bv16)
    requires data < 0x100
    ensures PyStep(crc, data) == CStep(crc, data)
  {
    hide PyMix, Mix, Spread;
    InputAgrees(crc, data);
    MixAgrees(Feed(crc, data));
  }

  predicate Exact(d: bv16, e: bv16) {
    ((d & 0x0f) << 4) >> 4 == d & 0x0f && (e << 8) >> 8 == e && (e << 3) >> 3 == e
  }

  lemma SmallIsExact(d: bv16, e: bv16)
    requires d < 0x100 && e < 0x100
    ensures Exact(d, e)
  {
  }

  /** No left shift of the Python loop loses a bit in sixteen-bit arithmetic. */
  lemma PyStepExact(crc: bv16, data: bv16)
    requires data < 0x100
    ensures Exact(data ^ (crc & 0xff), PyMix(data ^ (crc & 0xff)))
  {
    hide PyMix, Mix, Exact;
    InputAgrees(crc, data);
    MixAgrees(Feed(crc, data));
    SmallIsExact(Feed(crc, data), Mix(Feed(crc, data)));
  }

  lemma {:induction false} FoldAppend(crc: bv16, a: seq<Byte>, b: seq<Byte>)
    ensures Fold(crc, a + b) == Fold(Fold(crc, a), b)
    decreases |a|
  {
    hide CStep, Bits;
    if a == [] {
      assert a + b == b;
    } else {
      assert (a + b)[0] == a[0] && (a + b)[1..] == a[1..] + b;
      FoldAppend(CStep(crc, Bits(a[0])), a[1..], b);
    }
  }

  lemma FoldOne(crc: bv16, b: Byte)
    ensures Fold(crc, [b]) == CStep(crc, Bits(b))
  {
    hide CStep, Bits;
    assert [b][1..] == [];
    assert Fold(CStep(crc, Bits(b)), []) == CStep(crc, Bits(b));
  }

  lemma FoldNext(buf: seq<Byte>, i: nat)
    requires i < |buf|
    ensures Fold(0xffff, buf[..i + 1]) == CStep(Fold(0xffff, buf[..i]), Bits(buf[i]))
  {
    hide CStep, Bits;
    FoldAppend(0xffff, buf[..i], [buf[i]]);
    FoldOne(Fold(0xffff, buf[..i]), buf[i]);
    assert buf[..i + 1] == buf[..i] + [buf[i]];
  }

  /** msgblock_crc16_ccitt. */
  method Ccitt16(buf: seq<Byte>, len: Byte) returns (crc: bv16)
    requires len <= |buf|
    ensures crc == Fold(0xffff, buf[..len])
  {
    hide CStep, Bits;
    crc := 0xffff;
    var left: nat, p: nat := len, 0;
    while left != 0
      invariant p + left == len
      invariant crc == Fold(0xffff, buf[..p])
    {
      FoldNext(buf, p);
      crc := CStep(crc, Bits(buf[p]));
      left, p := left - 1, p + 1;
    }
  }

  /** The Python crc16_ccitt, which returns the two bytes. */
  method PyCcitt16(buf: seq<Byte>) returns (code: (Byte, Byte))
    ensures code == Code(buf)
  {
    hide CStep, PyStep, Bits, Value;
    var crc: bv16 := 0xffff;
    for i := 0 to |buf|
      invariant crc == Fold(0xffff, buf[..i])
    {
      FoldNext(buf, i);
      BitsSmall(buf[i]);
      StepsAgree(crc, Bits(buf[i]));
      crc := PyStep(crc, Bits(buf[i]));
    }
    assert buf[..|buf|] == buf;
    code := (Value(Upper(crc)), Value(Lower(crc)));
  }

  lemma PackKeeps(b0: bv16, b1: bv16, b2: bv16, b3: bv16, b4: bv16, b5: bv16, b6: bv16, b7: bv16)
    requires b0 < 2 && b1 < 2 && b2 < 2 && b3 < 2 && b4 < 2 && b5 < 2 && b6 < 2 && b7 < 2
    ensures var v := Pack(b0, b1, b2, b3, b4, b5, b6, b7);
            && v < 0x100
            && b0 == v & 1 && b1 == (v >> 1) & 1 && b2 == (v >> 2) & 1 && b3 == (v >> 3) & 1
            && b4 == (v >> 4) & 1 && b5 == (v >> 5) & 1 && b6 == (v >> 6) & 1 && b7 == (v >> 7) & 1
  {
  }

  lemma BitsSmall(b: Byte)
    ensures Bits(b) < 0x100
  {
    hide Pack;
    var b1 := b / 2;
    var b2 := b1 / 2;
    var b3 := b2 / 2;
    var b4 := b3 / 2;
    var b5 := b4 / 2;
    var b6 := b5 / 2;
    PackKeeps(Bit(b), Bit(b1), Bit(b2), Bit(b3), Bit(b4), Bit(b5), Bit(b6), Bit(b6 / 2));
  }

  lemma BitDecides(b: nat, c: nat)
    requires Bit(b) == Bit(c) && b / 2 == c / 2
    ensures b == c
  {
  }

  lemma BitsInjective(b: Byte, c: Byte)
    requires Bits(b) == Bits(c)
    ensures b == c
  {
    hide Pack, Bit;
    var b1, c1 := b / 2, c / 2;
    var b2, c2 := b1 / 2, c1 / 2;
    var b3, c3 := b2 / 2, c2 / 2;
    var b4, c4 := b3 / 2, c3 / 2;
    var b5, c5 := b4 / 2, c4 / 2;
    var b6, c6 := b5 / 2, c5 / 2;
    var b7, c7 := b6 / 2, c6 / 2;
    BitSmall(b, b1, b2, b3, b4, b5, b6, b7);
    BitSmall(c, c1, c2, c3, c4, c5, c6, c7);
    PackKeeps(Bit(b), Bit(b1), Bit(b2), Bit(b3), Bit(b4), Bit(b5), Bit(b6), Bit(b7));
    PackKeeps(Bit(c), Bit(c1), Bit(c2), Bit(c3), Bit(c4), Bit(c5), Bit(c6), Bit(c7));
    assert b7 / 2 == 0 == c7 / 2;
    BitDecides(b7, c7);
    BitDecides(b6, c6);
    BitDecides(b5, c5);
    BitDecides(b4, c4);
    BitDecides(b3, c3);
    BitDecides(b2, c2);
    BitDecides(b1, c1);
    BitDecides(b, c);
  }

  lemma BitSmall(b0: nat, b1: nat, b2: nat, b3: nat, b4: nat, b5: nat, b6: nat, b7: nat)
    ensures Bit(b0) < 2 && Bit(b1) < 2 && Bit(b2) < 2 && Bit(b3) < 2
    ensures Bit(b4) < 2 && Bit(b5) < 2 && Bit(b6) < 2 && Bit(b7) < 2
  {
  }

  /** The value of eight digits, which tells them apart. */
  lemma ValueInjective(v: bv16, w: bv16)
    requires v < 0x100 && w < 0x100 && Value(v) == Value(w)
    ensures v == w
  {
    SameDigits(v, w);
  }

  lemma SameDigits(v: bv16, w: bv16)
    requires v < 0x100 && w < 0x100
    requires (v & 1 != 0) == (w & 1 != 0) && (v & 2 != 0) == (w & 2 != 0)
    requires (v & 4 != 0) == (w & 4 != 0) && (v & 8 != 0) == (w & 8 != 0)
    requires (v & 16 != 0) == (w & 16 != 0) && (v & 32 != 0) == (w & 32 != 0)
    requires (v & 64 != 0) == (w & 64 != 0) && (v & 128 != 0) == (w & 128 != 0)
    ensures v == w
  {
  }

  // Undoing a step: the high byte of the new state gives back the mixed byte, the rest gives the old state.

  function Mixed(crc: bv16): bv16 {
    ((crc >> 8) ^ (crc >> 13)) & 0xff
  }

  function OldHigh(crc: bv16, e: bv16): bv16 {
    (crc ^ (e >> 4) ^ (e << 3)) & 0xff
  }

  lemma Unmix(d: bv16)
    requires d < 0x100
    ensures Mix(Mix(d)) == d && Mix(d) < 0x100
  {
  }

  lemma Unspread(e: bv16, high: bv16)
    requires e < 0x100 && high < 0x100
    ensures Mixed(Spread(e, high)) == e
  {
  }

  lemma UnspreadHigh(e: bv16, high: bv16)
    requires e < 0x100 && high < 0x100
    ensures OldHigh(Spread(e, high), e) == high
  {
  }

  lemma FeedSmall(crc: bv16, data: bv16)
    ensures Feed(crc, data) < 0x100
  {
  }

  lemma UpperSmall(crc: bv16)
    ensures Upper(crc) < 0x100
  {
  }

  lemma FeedData(crc: bv16, data: bv16)
    requires data < 0x100
    ensures (Feed(crc, data) ^ data) & 0xff == crc & 0xff
  {
  }

  lemma Masks(crc: bv16, data: bv16)
    requires data < 0x100
    ensures Feed(crc, data) < 0x100 && Upper(crc) < 0x100
    ensures (Feed(crc, data) ^ data) & 0xff == Lower(crc)
  {
    hide Feed, Upper;
    FeedSmall(crc, data);
    UpperSmall(crc);
    FeedData(crc, data);
  }

  /** A step's result holds the old high byte and the mixed input. */
  lemma StepUndone(crc: bv16, data: bv16)
    requires data < 0x100
    ensures Mix(Mixed(CStep(crc, data))) == Feed(crc, data)
    ensures OldHigh(CStep(crc, data), Mixed(CStep(crc, data))) == Upper(crc)
  {
    hide Mix, Spread, Mixed, OldHigh, Feed, Upper;
    Masks(crc, data);
    Unmix(Feed(crc, data));
    Unspread(Mix(Feed(crc, data)), Upper(crc));
    UnspreadHigh(Mix(Feed(crc, data)), Upper(crc));
  }

  lemma HalvesDecide(c: bv16, c': bv16)
    requires c >> 8 == c' >> 8 && c & 0xff == c' & 0xff
    ensures c == c'
  {
  }

  /** For one data byte, different states lead to different states. */
  lemma StepInjective(c: bv16, c': bv16, data: bv16)
    requires data < 0x100 && c != c'
    ensures CStep(c, data) != CStep(c', data)
  {
    hide CStep, Mix, Mixed, OldHigh, Feed;
    if CStep(c, data) == CStep(c', data) {
      StepUndone(c, data);
      StepUndone(c', data);
      Masks(c, data);
      Masks(c', data);
      HalvesDecide(c, c');
    }
  }

  lemma SameInput(c: bv16, c': bv16, x: bv16, x': bv16)
    requires x < 0x100 && x' < 0x100 && c & 0xff == c' & 0xff
    requires Feed(c, x) == Feed(c', x')
    ensures x == x'
  {
  }

  lemma MixedOfHigh(r: bv16, r': bv16)
    requires r >> 8 == r' >> 8
    ensures Mixed(r) == Mixed(r')
  {
  }

  lemma EqualSteps(c: bv16, c': bv16, y: bv16, y': bv16)
    requires y < 0x100 && y' < 0x100
    requires CStep(c, y) == CStep(c', y')
    ensures c >> 8 == c' >> 8 && Feed(c, y) == Feed(c', y')
  {
    hide CStep, Mix, Mixed, OldHigh, Feed;
    StepUndone(c, y);
    StepUndone(c', y');
  }

  /** From one state, two data bytes lead to a state that tells which they were. */
  lemma PairInjective(c: bv16, x: bv16, y: bv16, x': bv16, y': bv16)
    requires x < 0x100 && y < 0x100 && x' < 0x100 && y' < 0x100
    requires CStep(CStep(c, x), y) == CStep(CStep(c, x'), y')
    ensures x == x' && y == y'
  {
    hide CStep, Mix, Mixed, OldHigh, Feed;
    var m, m' := CStep(c, x), CStep(c, x');
    EqualSteps(m, m', y, y');
    MixedOfHigh(m, m');
    StepUndone(c, x);
    StepUndone(c, x');
    SameInput(c, c, x, x');
    SameInput(m, m', y, y');
  }

  lemma {:induction false} FoldInjective(c: bv16, c': bv16, buf: seq<Byte>)
    requires c != c'
    ensures Fold(c, buf) != Fold(c', buf)
    decreases |buf|
  {
    hide CStep, Bits;
    if buf != [] {
      BitsSmall(buf[0]);
      StepInjective(c, c', Bits(buf[0]));
      FoldInjective(CStep(c, Bits(buf[0])), CStep(c', Bits(buf[0])), buf[1..]);
    }
  }

  lemma BytesDecide(c: bv16, c': bv16)
    requires High(c) == High(c') && Low(c) == Low(c')
    ensures c == c'
  {
    hide Value, Upper, Lower, Glue;
    WordHalves(Upper(c), Lower(c), c);
    WordHalves(Upper(c'), Lower(c'), c');
    ValueInjective(Upper(c), Upper(c'));
    ValueInjective(Lower(c), Lower(c'));
  }

  lemma Unglue(high: bv16, low: bv16)
    requires high < 0x100 && low < 0x100
    ensures Upper(Glue(high, low)) == high && Lower(Glue(high, low)) == low
  {
  }

  lemma Reglue(crc: bv16)
    ensures Glue(Upper(crc), Lower(crc)) == crc
    ensures Upper(crc) < 0x100 && Lower(crc) < 0x100
  {
  }

  /** A word is its two halves. */
  lemma WordHalves(high: bv16, low: bv16, crc: bv16)
    ensures Upper(crc) < 0x100 && Lower(crc) < 0x100
    ensures high < 0x100 && low < 0x100 ==> (crc == Glue(high, low) <==> Upper(crc) == high && Lower(crc) == low)
  {
    hide Upper, Lower, Glue;
    Reglue(crc);
    if high < 0x100 && low < 0x100 {
      Unglue(high, low);
    }
  }

  /** Two buffers of one length that differ only within two neighbouring bytes have different codes. */
  lemma ShortBurstDetected(a: seq<Byte>, b: seq<Byte>, k: nat)
    requires |a| == |b| && k + 2 <= |a|
    requires a[..k] == b[..k] && a[k + 2..] == b[k + 2..]
    requires a[k] != b[k] || a[k + 1] != b[k + 1]
    ensures Code(a) != Code(b)
  {
    hide CStep, High, Low, Bits;
    var c := Fold(0xffff, a[..k]);
    SplitFold(a, k);
    SplitFold(b, k);
    var x, y, x', y' := Bits(a[k]), Bits(a[k + 1]), Bits(b[k]), Bits(b[k + 1]);
    BitsSmall(a[k]);
    BitsSmall(a[k + 1]);
    BitsSmall(b[k]);
    BitsSmall(b[k + 1]);
    var m, m' := CStep(CStep(c, x), y), CStep(CStep(c, x'), y');
    if m == m' {
      PairInjective(c, x, y, x', y');
      BitsInjective(a[k], b[k]);
      BitsInjective(a[k + 1], b[k + 1]);
      assert false;
    }
    FoldInjective(m, m', a[k + 2..]);
    var r, r' := Fold(0xffff, a), Fold(0xffff, b);
    if High(r) == High(r') && Low(r) == Low(r') {
      BytesDecide(r, r');
    }
  }

  lemma SplitFold(a: seq<Byte>, k: nat)
    requires k + 2 <= |a|
    ensures Fold(0xffff, a)
         == Fold(CStep(CStep(Fold(0xffff, a[..k]), Bits(a[k])), Bits(a[k + 1])), a[k + 2..])
  {
    hide CStep, Bits;
    FoldNext(a, k);
    FoldNext(a, k + 1);
    assert a == a[..k + 2] + a[k + 2..];
    FoldAppend(0xffff, a[..k + 2], a[k + 2..]);
  }

  // The C reader compares words, the Python reader compares bytes.

  function Word(high: Byte, low: Byte): bv16 {
    Glue(Bits(high), Bits(low))
  }

  lemma PackDigits(b0: bv16, b1: bv16, b2: bv16, b3: bv16, b4: bv16, b5: bv16, b6: bv16, b7: bv16)
    requires b0 < 2 && b1 < 2 && b2 < 2 && b3 < 2 && b4 < 2 && b5 < 2 && b6 < 2 && b7 < 2
    ensures var v := Pack(b0, b1, b2, b3, b4, b5, b6, b7);
            && Digit(v, 1, 1) == Digit(b0, 1, 1) && Digit(v, 2, 2) == Digit(b1, 1, 2)
            && Digit(v, 4, 4) == Digit(b2, 1, 4) && Digit(v, 8, 8) == Digit(b3, 1, 8)
            && Digit(v, 16, 16) == Digit(b4, 1, 16) && Digit(v, 32, 32) == Digit(b5, 1, 32)
            && Digit(v, 64, 64) == Digit(b6, 1, 64) && Digit(v, 128, 128) == Digit(b7, 1, 128)
  {
  }

  lemma BitIsDigit(b: nat, weight: nat)
    ensures Bit(b) < 2 && Digit(Bit(b), 1, weight) == weight * (b % 2)
  {
    if b % 2 == 1 {
      assert Bit(b) == 1;
    } else {
      assert Bit(b) == 0;
    }
  }

  /** The digits of a packed byte add up to the sum of its weighted bits. */
  lemma PackValue(b0: nat, b1: nat, b2: nat, b3: nat, b4: nat, b5: nat, b6: nat, b7: nat)
    ensures Value(Pack(Bit(b0), Bit(b1), Bit(b2), Bit(b3), Bit(b4), Bit(b5), Bit(b6), Bit(b7)))
         == b0 % 2 + 2 * (b1 % 2) + 4 * (b2 % 2) + 8 * (b3 % 2)
            + 16 * (b4 % 2) + 32 * (b5 % 2) + 64 * (b6 % 2) + 128 * (b7 % 2)
  {
    hide Pack, Bit, Digit;
    BitIsDigit(b0, 1);
    BitIsDigit(b1, 2);
    BitIsDigit(b2, 4);
    BitIsDigit(b3, 8);
    BitIsDigit(b4, 16);
    BitIsDigit(b5, 32);
    BitIsDigit(b6, 64);
    BitIsDigit(b7, 128);
    PackDigits(Bit(b0), Bit(b1), Bit(b2), Bit(b3), Bit(b4), Bit(b5), Bit(b6), Bit(b7));
  }

  lemma ValueOfBits(b: Byte)
    ensures Value(Bits(b)) == b
  {
    hide Pack, Bit, Value;
    var b1 := b / 2;
    var b2 := b1 / 2;
    var b3 := b2 / 2;
    var b4 := b3 / 2;
    var b5 := b4 / 2;
    var b6 := b5 / 2;
    var b7 := b6 / 2;
    PackValue(b, b1, b2, b3, b4, b5, b6, b7);
    assert b7 % 2 == b7 && b6 == 2 * b7 + b6 % 2 && b5 == 2 * b6 + b5 % 2 && b4 == 2 * b5 + b4 % 2;
    assert b3 == 2 * b4 + b3 % 2 && b2 == 2 * b3 + b2 % 2 && b1 == 2 * b2 + b1 % 2 && b == 2 * b1 + b % 2;
  }

  /** Comparing words is comparing both bytes. */
  lemma WordMatches(high: Byte, low: Byte, crc: bv16)
    ensures Word(high, low) == crc <==> high == High(crc) && low == Low(crc)
  {
    hide Value, Bits, Upper, Lower, Glue;
    BitsSmall(high);
    BitsSmall(low);
    WordHalves(Bits(high), Bits(low), crc);
    ByteMatches(high, Upper(crc));
    ByteMatches(low, Lower(crc));
  }

  lemma ByteMatches(b: Byte, v: bv16)
    ensures v < 0x100 ==> (Bits(b) == v <==> b == Value(v))
  {
    hide Value, Bits;
    BitsSmall(b);
    ValueOfBits(b);
    if v < 0x100 && b == Value(v) {
      ValueInjective(Bits(b), v);
    }
  }

  // The last byte of a buffer and the high byte of its code are neighbours on the wire.

  lemma MixDifference(d: bv16)
    requires d < 0x100
    ensures Mix(Flip(d, 0x91)) == Flip(Mix(d), 0x81) && Flip(Mix(d), 0x81) < 0x100 && Flip(d, 0x91) < 0x100
  {
  }

  lemma SpreadDifference(e: bv16, high: bv16)
    requires e < 0x100 && high < 0x100
    ensures Lower(Spread(Flip(e, 0x81), high)) == Lower(Spread(e, high))
    ensures Upper(Spread(Flip(e, 0x81), high)) == Flip(Upper(Spread(e, high)), 0x85)
  {
  }

  lemma SpreadKernel(e: bv16, e': bv16, high: bv16)
    requires e < 0x100 && e' < 0x100 && high < 0x100
    requires Lower(Spread(e', high)) == Lower(Spread(e, high))
    ensures e' == e || e' == Flip(e, 0x81)
  {
  }

  function Flip(x: bv16, mask: bv16): bv16 {
    x ^ mask
  }

  lemma FeedFlips(crc: bv16, x: bv16)
    requires x < 0x100
    ensures Feed(crc, Flip(x, 0x91)) == Flip(Feed(crc, x), 0x91)
  {
  }

  lemma FeedInjective(crc: bv16, x: bv16, x': bv16)
    requires x < 0x100 && x' < 0x100
    requires Feed(crc, x') == Feed(crc, x)
    ensures x' == x
  {
  }

  lemma FlipSmall(x: bv16)
    requires x < 0x100
    ensures Flip(x, 0x91) < 0x100
  {
  }

  /** Two last bytes give codes with the same low byte only when they are equal or differ by 0x91; then the high
    * bytes differ by 0x85. */
  lemma LastByte(crc: bv16, x: bv16, x': bv16)
    requires x < 0x100 && x' < 0x100
    ensures Lower(CStep(crc, x')) == Lower(CStep(crc, x)) <==> x' == x || x' == Flip(x, 0x91)
    ensures x' == Flip(x, 0x91) ==> Upper(CStep(crc, x')) == Flip(Upper(CStep(crc, x)), 0x85)
  {
    hide Mix, Spread, Upper, Lower, Flip, Feed;
    var d, d' := Feed(crc, x), Feed(crc, x');
    Masks(crc, x);
    Masks(crc, x');
    FeedFlips(crc, x);
    FlipSmall(x);
    FeedLast(d, d', Upper(crc));
    if d' == d {
      FeedInjective(crc, x, x');
    } else if d' == Flip(d, 0x91) {
      FeedInjective(crc, Flip(x, 0x91), x');
    }
  }

  /** The same for the byte after it is fed to the state. */
  lemma FeedLast(d: bv16, d': bv16, high: bv16)
    requires d < 0x100 && d' < 0x100 && high < 0x100
    ensures Lower(Spread(Mix(d'), high)) == Lower(Spread(Mix(d), high)) <==> d' == d || d' == Flip(d, 0x91)
    ensures Upper(Spread(Mix(Flip(d, 0x91)), high)) == Flip(Upper(Spread(Mix(d), high)), 0x85)
  {
    hide Mix, Spread, Upper, Lower, Flip, Feed;
    Unmix(d);
    Unmix(d');
    MixDifference(d);
    SpreadDifference(Mix(d), high);
    MixBack(d, d');
    if Lower(Spread(Mix(d'), high)) == Lower(Spread(Mix(d), high)) {
      SpreadKernel(Mix(d), Mix(d'), high);
    }
  }

  lemma MixBack(d: bv16, d': bv16)
    requires d < 0x100 && d' < 0x100
    ensures Mix(d') == Mix(d) ==> d' == d
    ensures Mix(d') == Flip(Mix(d), 0x81) ==> d' == Flip(d, 0x91)
  {
    hide Mix, Flip;
    Unmix(d);
    Unmix(d');
    MixDifference(d);
    Unmix(Flip(d, 0x91));
  }

  lemma CodeOfLast(buf: seq<Byte>)
    requires buf != []
    ensures var crc := CStep(Fold(0xffff, buf[..|buf| - 1]), Bits(buf[|buf| - 1]));
            Code(buf) == (High(crc), Low(crc))
  {
    hide CStep, Bits, High, Low;
    assert buf[..|buf|] == buf;
    FoldNext(buf, |buf| - 1);
  }

  /** When only the last byte of a buffer and the high byte of its code are changed, the change goes unnoticed
    * exactly when it flips the bits 0x91 of the one and 0x85 of the other. */
  lemma BoundaryBurst(buf: seq<Byte>, other: seq<Byte>, high: Byte)
    requires |buf| == |other| > 0 && buf[..|buf| - 1] == other[..|buf| - 1]
    requires buf != other || high != Code(buf).0
    ensures var last := |buf| - 1;
            Code(other) == (high, Code(buf).1)
            <==> Bits(other[last]) == Flip(Bits(buf[last]), 0x91) && Bits(high) == Flip(Bits(Code(buf).0), 0x85)
  {
    hide CStep, Bits, Value, Upper, Lower, Flip;
    var last := |buf| - 1;
    var c := Fold(0xffff, buf[..last]);
    var x, x' := Bits(buf[last]), Bits(other[last]);
    var r, r' := CStep(c, x), CStep(c, x');
    CodeOfLast(buf);
    CodeOfLast(other);
    BitsSmall(buf[last]);
    BitsSmall(other[last]);
    LastByte(c, x, x');
    WordHalves(0, 0, r);
    WordHalves(0, 0, r');
    ByteMatches(Code(buf).0, Upper(r));
    ByteMatches(high, Upper(r'));
    ByteMatches(Low(r), Lower(r));
    ByteMatches(Low(r), Lower(r'));
    if x == x' {
      BitsInjective(buf[last], other[last]);
      assert buf == buf[..last] + [buf[last]] && other == other[..last] + [other[last]];
      XorMoves(x, 0x91);
    }
  }

  /** A byte with the bits of a mask flipped. */
  function Flipped(b: Byte, mask: bv16): Byte {
    Value(Flip(Bits(b), mask))
  }

  lemma FlippedBits(b: Byte, mask: bv16)
    requires 0 < mask < 0x100
    ensures Bits(Flipped(b, mask)) == Flip(Bits(b), mask) && Flipped(b, mask) != b
  {
    hide Bits, Value, Flip;
    BitsSmall(b);
    FlipStays(Bits(b), mask);
    XorMoves(Bits(b), mask);
    ByteMatches(Flipped(b, mask), Flip(Bits(b), mask));
  }

  lemma FlipStays(x: bv16, mask: bv16)
    requires x < 0x100 && mask < 0x100
    ensures Flip(x, mask) < 0x100
  {
  }

  lemma XorMoves(x: bv16, y: bv16)
    requires y != 0
    ensures Flip(x, y) != x
  {
  }
}
