/** Variable length integers: the C and the Python coder, on unbounded integers with each cast written out. */
module Vlq {
  import opened Wire

  // What a code means.

  /** The value a first byte starts with: seven bits, the two top ones marking a negative number. */
  function Start(c: Byte): int {
    if c / 0x20 % 4 == 3 then c % 0x80 - 0x80 else c % 0x80
  }

  function Value(code: seq<Byte>): int
    requires code != []
  {
    var n := |code| - 1;
    if n == 0 then Start(code[0]) else Value(code[..n]) * 0x80 + code[n] % 0x80
  }

  /** Every byte but the last one announces another. */
  predicate IsCode(code: seq<Byte>) {
    && code != []
    && code[|code| - 1] < 0x80
    && forall i :: 0 <= i < |code| - 1 ==> 0x80 <= code[i]
  }

  // The limits of an n-byte code.

  function Low(n: nat): int
    requires 0 < n
  {
    if n == 1 then -0x20 else Low(n - 1) * 0x80
  }

  function High(n: nat): int
    requires 0 < n
  {
    if n == 1 then 0x60 else High(n - 1) * 0x80
  }

  lemma {:induction false} ValueWithin(code: seq<Byte>)
    requires code != []
    ensures Low(|code|) <= Value(code) < High(|code|)
  {
    if |code| > 1 {
      ValueWithin(code[..|code| - 1]);
    }
  }

  // Writing.

  /** The m groups of seven bits above a last byte, each announcing another. */
  function Lead(v: int, m: nat): (r: seq<Byte>)
    ensures |r| == m
    decreases m
  {
    if m == 0 then [] else Lead(v / 0x80, m - 1) + [0x80 + v % 0x80]
  }

  function Groups(v: int, n: nat): (r: seq<Byte>)
    requires 0 < n
    ensures |r| == n
  {
    Lead(v / 0x80, n - 1) + [v % 0x80]
  }

  function Length(v: int): (n: nat)
    ensures 1 <= n <= 5
  {
    if -0x20 <= v < 0x60 then 1
    else if -0x1000 <= v < 0x3000 then 2
    else if -0x8_0000 <= v < 0x18_0000 then 3
    else if -0x400_0000 <= v < 0xc00_0000 then 4
    else 5
  }

  /** What PT_uint32.encode appends for an integer of any size. */
  function PyCode(v: int): seq<Byte> {
    Groups(v, Length(v))
  }

  /** What encode_int writes for a 32-bit word. */
  function CCode(v: Word32): seq<Byte> {
    Groups(v, Length(S32(v)))
  }

  lemma {:induction false} LeadAnnounces(v: int, m: nat)
    ensures forall i :: 0 <= i < m ==> 0x80 <= Lead(v, m)[i]
    decreases m
  {
    if m > 0 {
      LeadAnnounces(v / 0x80, m - 1);
    }
  }

  lemma GroupsAreCode(v: int, n: nat)
    requires 0 < n
    ensures IsCode(Groups(v, n))
  {
    LeadAnnounces(v / 0x80, n - 1);
  }

  lemma Recombine(v: int)
    ensures v / 0x80 * 0x80 + v % 0x80 == v
    ensures (0x80 + v % 0x80) % 0x80 == v % 0x80
  {
  }

  lemma Within(v: int, low: int, high: int)
    requires low * 0x80 <= v < high * 0x80
    ensures low <= v / 0x80 < high
  {
  }

  lemma SmallStart(v: int)
    ensures -0x20 <= v < 0x60 ==> Start(0x80 + v % 0x80) == v && Start(v % 0x80) == v
  {
    if 0 <= v < 0x60 {
      assert v % 0x80 == v;
    } else if -0x20 <= v < 0 {
      assert v % 0x80 == v + 0x80;
    }
  }

  lemma {:induction false} LeadValue(v: int, m: nat)
    requires 0 < m && Low(m) <= v < High(m)
    ensures Value(Lead(v, m)) == v
    decreases m
  {
    hide Start;
    var r := Lead(v, m);
    assert r[..m - 1] == Lead(v / 0x80, m - 1);
    if m == 1 {
      SmallStart(v);
    } else {
      Within(v, Low(m - 1), High(m - 1));
      LeadValue(v / 0x80, m - 1);
      Recombine(v);
    }
  }

  lemma GroupsValue(v: int, n: nat)
    requires 0 < n && Low(n) <= v < High(n)
    ensures Value(Groups(v, n)) == v
  {
    hide Start;
    var r := Groups(v, n);
    assert r[..n - 1] == Lead(v / 0x80, n - 1);
    if n == 1 {
      SmallStart(v);
    } else {
      Within(v, Low(n - 1), High(n - 1));
      LeadValue(v / 0x80, n - 1);
      Recombine(v);
    }
  }

  lemma Limits()
    ensures Low(1) == -0x20 && Low(2) == -0x1000 && Low(3) == -0x8_0000 && Low(4) == -0x400_0000
    ensures High(1) == 0x60 && High(2) == 0x3000 && High(3) == 0x18_0000 && High(4) == 0xc00_0000
    ensures Low(5) == -0x2_0000_0000 && High(5) == 0x6_0000_0000
  {
    assert Low(2) == Low(1) * 0x80 && High(2) == High(1) * 0x80;
    assert Low(3) == Low(2) * 0x80 && High(3) == High(2) * 0x80;
    assert Low(4) == Low(3) * 0x80 && High(4) == High(3) * 0x80;
    assert Low(5) == Low(4) * 0x80 && High(5) == High(4) * 0x80;
  }

  lemma LengthFits(v: int)
    ensures Low(5) <= v < High(5) ==> Low(Length(v)) <= v < High(Length(v))
    ensures forall n {:trigger Low(n)} :: 0 < n < Length(v) ==> !(Low(n) <= v < High(n))
  {
    Limits();
    forall n {:trigger Low(n)} | 0 < n < Length(v)
      ensures !(Low(n) <= v < High(n))
    {
      assert n == 1 || n == 2 || n == 3 || n == 4;
    }
  }

  /** The Python code of an integer means that integer exactly when it lies in the range of five bytes,
    * which holds both 32-bit ranges. */
  lemma PyRoundTrip(v: int)
    ensures IsCode(PyCode(v))
    ensures Value(PyCode(v)) == v <==> -0x2_0000_0000 <= v < 0x6_0000_0000
  {
    Limits();
    LengthFits(v);
    GroupsAreCode(v, Length(v));
    ValueWithin(PyCode(v));
    if Low(5) <= v < High(5) {
      GroupsValue(v, Length(v));
    }
  }

  // Five bytes hold more than 32 bits, so modulo 2^32 every integer comes back.

  function Span(m: nat): int {
    if m == 0 then 1 else Span(m - 1) * 0x80
  }

  /** How many spans an m-byte lead drops. */
  function Dropped(v: int, m: nat): int
    requires 0 < m
    decreases m
  {
    if m == 1 then v / 0x80 + (if v / 0x20 % 4 == 3 then 1 else 0) else Dropped(v / 0x80, m - 1)
  }

  lemma Regroup(v: int, q: int, w: int, s: int, t: int)
    requires t == s * 0x80 && v == q * 0x80 + v % 0x80
    ensures (q - w * s) * 0x80 + v % 0x80 == v - w * t
  {
    assert w * s * 0x80 == w * t;
  }

  lemma {:induction false} LeadModulo(v: int, m: nat)
    requires 0 < m
    ensures Value(Lead(v, m)) == v - Dropped(v, m) * Span(m)
    decreases m
  {
    hide Start;
    var r := Lead(v, m);
    assert r[..m - 1] == Lead(v / 0x80, m - 1);
    if m == 1 {
      assert Span(1) == Span(0) * 0x80;
      assert r == [0x80 + v % 0x80];
      StartModulo(v, v / 0x80, v % 0x80);
    } else {
      LeadModulo(v / 0x80, m - 1);
      Recombine(v);
      Regroup(v, v / 0x80, Dropped(v, m), Span(m - 1), Span(m));
    }
  }

  lemma StartModulo(v: int, q: int, r: int)
    requires v == q * 0x80 + r && 0 <= r < 0x80
    ensures Start(0x80 + r) == v - (q + (if v / 0x20 % 4 == 3 then 1 else 0)) * 0x80
  {
    hide Start;
    var e := r / 0x20;
    Quarter(v, 4 * q + e, r - e * 0x20);
    Quarter(0x80 + r, 4 + e, r - e * 0x20);
    LowPair(v / 0x20, q, e);
    LowPair((0x80 + r) / 0x20, 1, e);
    StartOf(0x80 + r, 1, r);
  }

  lemma Quarter(v: int, d: int, r: int)
    requires v == d * 0x20 + r && 0 <= r < 0x20
    ensures v / 0x20 == d
  {
  }

  lemma LowPair(x: int, q: int, e: int)
    requires x == 4 * q + e && 0 <= e < 4
    ensures x % 4 == e
  {
  }

  lemma StartOf(c: Byte, q: int, r: int)
    requires c == q * 0x80 + r && 0 <= r < 0x80
    ensures Start(c) == if c / 0x20 % 4 == 3 then r - 0x80 else r
  {
  }

  lemma PyModulo(v: int)
    ensures U32(Value(PyCode(v))) == U32(v)
  {
    var n := Length(v);
    Limits();
    LengthFits(v);
    if n < 5 {
      GroupsValue(v, n);
    } else {
      FiveGroups(v);
    }
  }

  lemma FiveGroups(v: int)
    ensures U32(Value(Groups(v, 5))) == U32(v)
  {
    hide Start, Value, Dropped, Lead, Span;
    var r, q := Groups(v, 5), v / 0x80;
    assert r[..4] == Lead(q, 4);
    ValueSnoc(r, 4);
    LeadModulo(q, 4);
    FourSpans();
    Recombine(v);
    FiveValue(v, q, v % 0x80, Dropped(q, 4), Value(r));
    WholeWords(v, Dropped(q, 4) * 8, Value(r));
  }

  lemma ValueSnoc(code: seq<Byte>, n: nat)
    requires |code| == n + 1 && 0 < n
    ensures Value(code) == Value(code[..n]) * 0x80 + code[n] % 0x80
  {
  }

  lemma FourSpans()
    ensures Span(4) == 0x1000_0000
  {
    assert Span(0) == 1 && Span(1) == 0x80 && Span(2) == 0x4000 && Span(3) == 0x20_0000;
  }

  lemma FiveValue(v: int, q: int, low: int, d: int, value: int)
    requires v == q * 0x80 + low && value == (q - d * 0x1000_0000) * 0x80 + low
    ensures value == v - d * 8 * TWO32
  {
  }

  lemma WholeWords(v: int, d: int, value: int)
    requires value == v - d * TWO32
    ensures U32(value) == U32(v)
  {
  }

  /** The C code of a word means that word. */
  lemma CRoundTrip(v: Word32)
    ensures IsCode(CCode(v))
    ensures U32(Value(CCode(v))) == v
    ensures |CCode(v)| <= 5
  {
    hide Value, Groups;
    var n := Length(S32(v));
    GroupsAreCode(v, n);
    if n == 5 {
      FiveGroups(v);
    } else {
      Limits();
      LengthFits(S32(v));
      GroupsValue(S32(v), n);
      if S32(v) < 0 {
        CGroups(S32(v), n);
      }
    }
  }

  /** The low bytes of a negative number and of its two's complement agree. */
  lemma CGroups(v: int, n: nat)
    requires 0 < n <= 4
    ensures Groups(v + TWO32, n) == Groups(v, n)
  {
    assert (v + TWO32) / 0x80 == v / 0x80 + 0x200_0000;
    var a := v / 0x80;
    assert (a + 0x200_0000) / 0x80 == a / 0x80 + 0x4_0000;
    var b := a / 0x80;
    assert (b + 0x4_0000) / 0x80 == b / 0x80 + 0x800;
    var c := b / 0x80;
    assert Lead(c + 0x800, 0) == Lead(c, 0);
    assert Lead(b + 0x4_0000, 1) == Lead(b, 1);
    assert Lead(a + 0x200_0000, 2) == Lead(a, 2);
    assert (v + TWO32) % 0x80 == v % 0x80;
    LeadShift(a, n - 1);
  }

  lemma LeadShift(a: int, m: nat)
    requires m <= 3
    ensures Lead(a + 0x200_0000, m) == Lead(a, m)
  {
    var b := a / 0x80;
    assert (a + 0x200_0000) / 0x80 == b + 0x4_0000;
    var c := b / 0x80;
    assert (b + 0x4_0000) / 0x80 == c + 0x800;
    if m > 1 {
      assert Lead(c + 0x800, m - 2) == Lead(c, m - 2);
      assert Lead(b + 0x4_0000, m - 1) == Lead(b, m - 1);
    }
  }

  /** No code means the word in fewer bytes than encode_int writes. */
  lemma CShortest(v: Word32, code: seq<Byte>)
    requires code != [] && U32(Value(code)) == v
    ensures |CCode(v)| <= |code|
  {
    Limits();
    LengthFits(S32(v));
    ValueWithin(code);
    if |code| < 5 {
      SmallValue(code, v);
    }
  }

  lemma SmallValue(code: seq<Byte>, v: Word32)
    requires code != [] && |code| < 5 && U32(Value(code)) == v
    ensures S32(v) == Value(code)
  {
    Limits();
    ValueWithin(code);
    assert |code| == 1 || |code| == 2 || |code| == 3 || |code| == 4;
    SignedOfWrapped(Value(code));
  }

  /** Nor does any code mean an integer in fewer bytes than the Python encoder writes. */
  lemma PyShortest(v: int, code: seq<Byte>)
    requires code != [] && Value(code) == v
    ensures |PyCode(v)| <= |code|
  {
    LengthFits(v);
    ValueWithin(code);
  }

  /** On both 32-bit ranges the two encoders write the same bytes except near the ends, where the C one
    * sees a negative number and the Python one does not, or where their fifth bytes differ. */
  lemma EncodersAgree(v: int)
    requires -0x8000_0000 <= v < TWO32
    ensures CCode(U32(v)) == PyCode(v) <==> -0x400_0000 <= v < TWO32 - 0x400_0000
  {
    hide Groups;
    if v < 0 {
      SignedOfWrapped(v);
      if -0x400_0000 <= v {
        CGroups(v, Length(v));
      } else {
        TopBytes(U32(v));
        TopBytes(v);
      }
    }
  }

  lemma TopBytes(v: int)
    ensures Groups(v, 5)[0] == 0x80 + v / 0x1000_0000 % 0x80
  {
    var a := v / 0x80;
    var b := a / 0x80;
    var c := b / 0x80;
    var d := c / 0x80;
    assert d == v / 0x1000_0000;
    assert Lead(d, 1) == [0x80 + d % 0x80] by { assert Lead(d / 0x80, 0) == []; }
    assert Lead(c, 2)[0] == Lead(d, 1)[0];
    assert Lead(b, 3)[0] == Lead(c, 2)[0];
    assert Lead(a, 4)[0] == Lead(b, 3)[0];
  }
}
