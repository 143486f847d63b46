/** Reading and writing variable length integers in buffers: one integer, and the payload of a message. */
module VlqMessages {
  import opened Options
  import opened Vlq
  import opened Wire

  // Where a code ends.

  /** The first byte from pos on that announces no other, or the end of the buffer. */
  function Stop(s: seq<Byte>, pos: nat): (i: nat)
    requires pos <= |s|
    ensures pos <= i <= |s|
    ensures forall k :: pos <= k < i ==> 0x80 <= s[k]
    ensures i < |s| ==> s[i] < 0x80
    decreases |s| - pos
  {
    if pos == |s| || s[pos] < 0x80 then pos else Stop(s, pos + 1)
  }

  /** What PT_uint32.parse returns; None stands for its IndexError. */
  function PyParsed(s: seq<Byte>, pos: nat, signed: bool): Option<(int, nat)>
    requires pos <= |s|
  {
    var end := Stop(s, pos);
    if end == |s| then None
    else
      var v := Value(s[pos..end + 1]);
      Some((if signed then v else U32(v), end + 1))
  }

  lemma StopUnique(s: seq<Byte>, pos: nat, i: nat)
    requires pos <= i < |s| && s[i] < 0x80
    requires forall k :: pos <= k < i ==> 0x80 <= s[k]
    ensures Stop(s, pos) == i
  {
    var j := Stop(s, pos);
    assert !(j < i) && !(i < j);
  }

  /** A code embedded in a buffer is read whole, whatever surrounds it. */
  lemma CodeIsRead(s: seq<Byte>, pos: nat, code: seq<Byte>)
    requires IsCode(code) && pos + |code| <= |s| && s[pos..pos + |code|] == code
    ensures Stop(s, pos) == pos + |code| - 1
    ensures PyParsed(s, pos, true) == Some((Value(code), pos + |code|))
    ensures PyParsed(s, pos, false) == Some((U32(Value(code)), pos + |code|))
  {
    forall k | pos <= k < pos + |code|
      ensures s[k] == code[k - pos]
    {
      assert s[pos..pos + |code|][k - pos] == code[k - pos];
    }
    StopUnique(s, pos, pos + |code| - 1);
  }

  /** The next step of both readers' loops. */
  lemma ValueStep(s: seq<Byte>, pos: nat, i: nat)
    requires pos < i < |s|
    ensures Value(s[pos..i + 1]) == Value(s[pos..i]) * 0x80 + s[i] % 0x80
  {
    assert s[pos..i + 1][..i - pos] == s[pos..i];
  }

  lemma WordStep(v: int, d: int)
    requires 0 <= d < 0x80
    ensures U32(U32(v) * 0x80) + d == U32(v * 0x80 + d)
  {
    var q := v / TWO32;
    assert v == q * TWO32 + U32(v);
    var m := U32(v) * 0x80;
    var p := m / TWO32;
    assert m == p * TWO32 + U32(m);
    assert U32(m) % 0x80 == 0;
    assert v * 0x80 + d == (q * 0x80 + p) * TWO32 + (U32(m) + d);
    Remainder(v * 0x80 + d, q * 0x80 + p, U32(m) + d);
  }

  lemma Remainder(x: int, q: int, r: int)
    requires x == q * TWO32 + r && 0 <= r < TWO32
    ensures U32(x) == r
  {
  }

  /** parse_int.  It reads on until a byte ends the code, so the buffer must hold such a byte. */
  method ParseInt(s: seq<Byte>, p: nat) returns (v: Word32, q: nat)
    requires p < |s| && Stop(s, p) < |s|
    ensures q == Stop(s, p) + 1
    ensures v == U32(Value(s[p..q]))
  {
    var c := s[p];
    q := p + 1;
    v := c % 0x80;
    if c / 0x20 % 4 == 3 {
      v := U32(v - 0x80);
    }
    assert s[p..q] == [c];
    assert forall k :: p <= k < q ==> s[k] == c;
    while 0x80 <= c
      invariant p < q <= Stop(s, p) + 1
      invariant c == s[q - 1]
      invariant v == U32(Value(s[p..q]))
      decreases |s| - q
    {
      c := s[q];
      ValueStep(s, p, q);
      WordStep(Value(s[p..q]), c % 0x80);
      v := U32(v * 0x80) + c % 0x80;
      q := q + 1;
    }
  }

  /** PT_uint32.parse and its signed subclasses. */
  method PyParse(s: seq<Byte>, start: nat, signed: bool) returns (r: Option<(int, nat)>)
    requires start <= |s|
    ensures r == PyParsed(s, start, signed)
  {
    var pos := start;
    if pos == |s| {
      return None;
    }
    var c := s[pos];
    pos := pos + 1;
    var v: int := c % 0x80;
    if c / 0x20 % 4 == 3 {
      v := v - 0x80;
    }
    assert s[start..pos] == [c];
    assert forall k :: start <= k < pos ==> s[k] == c;
    while 0x80 <= c
      invariant start < pos <= |s| && pos <= Stop(s, start) + 1
      invariant c == s[pos - 1]
      invariant v == Value(s[start..pos])
      decreases |s| - pos
    {
      if pos == |s| {
        return None;
      }
      c := s[pos];
      ValueStep(s, start, pos);
      v := v * 0x80 + c % 0x80;
      pos := pos + 1;
    }
    r := Some((if signed then v else U32(v), pos));
  }

  // Both readers on what both writers wrote.

  /** Either reader, anywhere in any buffer, recovers what either encoder wrote: the word exactly from the C
    * encoder; every integer modulo 2^32 from the Python one. */
  lemma RoundTrips(s: seq<Byte>, pos: nat, v: int, code: seq<Byte>)
    requires code == PyCode(v) || code == CCode(U32(v))
    requires pos + |code| <= |s| && s[pos..pos + |code|] == code
    ensures PyParsed(s, pos, false) == Some((U32(v), pos + |code|))
    ensures Stop(s, pos) + 1 == pos + |code| && U32(Value(s[pos..pos + |code|])) == U32(v)
  {
    hide PyCode, CCode, Value, PyParsed;
    PyRoundTrip(v);
    PyModulo(v);
    CRoundTrip(U32(v));
    CodeIsRead(s, pos, code);
  }

  /** The Python signed reader recovers exactly the integers of its five-byte range, the unsigned one exactly
    * the 32-bit words. */
  lemma PyExact(s: seq<Byte>, pos: nat, v: int)
    requires pos + |PyCode(v)| <= |s| && s[pos..pos + |PyCode(v)|] == PyCode(v)
    ensures PyParsed(s, pos, true) == Some((v, pos + |PyCode(v)|)) <==> -0x2_0000_0000 <= v < 0x6_0000_0000
    ensures PyParsed(s, pos, false) == Some((v, pos + |PyCode(v)|)) <==> 0 <= v < TWO32
  {
    hide PyCode, Value, PyParsed;
    PyRoundTrip(v);
    PyModulo(v);
    CodeIsRead(s, pos, PyCode(v));
  }

  // Writers.

  lemma GroupShifts(v: int)
    ensures v / 0x4000 == v / 0x80 / 0x80
    ensures v / 0x20_0000 == v / 0x80 / 0x80 / 0x80
    ensures v / 0x1000_0000 == v / 0x80 / 0x80 / 0x80 / 0x80
  {
  }

  function Tail1(v: int): seq<Byte> { [v % 0x80] }
  function Tail2(v: int): seq<Byte> { [0x80 + v / 0x80 % 0x80] + Tail1(v) }
  function Tail3(v: int): seq<Byte> { [0x80 + v / 0x4000 % 0x80] + Tail2(v) }
  function Tail4(v: int): seq<Byte> { [0x80 + v / 0x20_0000 % 0x80] + Tail3(v) }
  function Tail5(v: int): seq<Byte> { [0x80 + v / 0x1000_0000 % 0x80] + Tail4(v) }

  lemma Tails(v: int)
    ensures Groups(v, 1) == Tail1(v) && Groups(v, 2) == Tail2(v) && Groups(v, 3) == Tail3(v)
    ensures Groups(v, 4) == Tail4(v) && Groups(v, 5) == Tail5(v)
  {
    GroupShifts(v);
    var a := v / 0x80;
    var b := a / 0x80;
    var c := b / 0x80;
    var d := c / 0x80;
    assert Lead(d, 1) == [0x80 + d % 0x80] by { assert Lead(d / 0x80, 0) == []; }
    assert Lead(c, 1) == [0x80 + c % 0x80] by { assert Lead(c / 0x80, 0) == []; }
    assert Lead(b, 1) == [0x80 + b % 0x80] by { assert Lead(b / 0x80, 0) == []; }
    assert Lead(a, 1) == [0x80 + a % 0x80] by { assert Lead(a / 0x80, 0) == []; }
    assert Lead(c, 2) == Lead(d, 1) + [0x80 + c % 0x80];
    assert Lead(b, 2) == Lead(c, 1) + [0x80 + b % 0x80];
    assert Lead(a, 2) == Lead(b, 1) + [0x80 + a % 0x80];
    assert Lead(b, 3) == Lead(c, 2) + [0x80 + b % 0x80];
    assert Lead(a, 3) == Lead(b, 2) + [0x80 + a % 0x80];
    assert Lead(a, 4) == Lead(b, 3) + [0x80 + a % 0x80];
  }

  lemma TailParts(v: int)
    ensures Tail1(v) == [v % 0x80] && Tail2(v) == [0x80 + v / 0x80 % 0x80] + Tail1(v)
    ensures Tail3(v) == [0x80 + v / 0x4000 % 0x80] + Tail2(v)
    ensures Tail4(v) == [0x80 + v / 0x20_0000 % 0x80] + Tail3(v)
    ensures Tail5(v) == [0x80 + v / 0x1000_0000 % 0x80] + Tail4(v)
  {
  }

  /** Moving the next byte from what is still to be written to what is written. */
  lemma Written(code: seq<Byte>, done: seq<Byte>, b: Byte, rest: seq<Byte>)
    requires code == done + ([b] + rest)
    ensures code == done + [b] + rest
  {
  }

  method Put(msg: array<Byte>, ghost start: nat, p: nat, b: Byte) returns (q: nat)
    requires start <= p < msg.Length
    modifies msg
    ensures q == p + 1
    ensures msg[start..q] == old(msg[start..p]) + [b]
    ensures forall i :: 0 <= i < msg.Length && i != p ==> msg[i] == old(msg[i])
  {
    msg[p] := b;
    q := p + 1;
  }

  /** encode_int: the jumps f4 .. f1 of the source enter this chain of writes at different points. */
  method EncodeInt(msg: array<Byte>, start: nat, v: Word32) returns (p: nat)
    requires start + 5 <= msg.Length
    modifies msg
    ensures p == start + |CCode(v)|
    ensures msg[start..p] == CCode(v)
    ensures forall i :: 0 <= i < msg.Length && !(start <= i < p) ==> msg[i] == old(msg[i])
  {
    hide Groups, Tail1, Tail2, Tail3, Tail4, Tail5;
    Tails(v);
    TailParts(v);
    var sv := S32(v);
    p := start;
    assert msg[start..p] == [];
    ghost var code := CCode(v);
    if !(sv < 0x60 && sv >= -0x20) {
      if !(sv < 0x3000 && sv >= -0x1000) {
        if !(sv < 0x18_0000 && sv >= -0x8_0000) {
          if !(sv < 0xc00_0000 && sv >= -0x400_0000) {
            Written(code, msg[start..p], v / 0x1000_0000 + 0x80, Tail4(v));
            p := Put(msg, start, p, v / 0x1000_0000 + 0x80);
          }
          assert code == msg[start..p] + Tail4(v);
          Written(code, msg[start..p], v / 0x20_0000 % 0x80 + 0x80, Tail3(v));
          p := Put(msg, start, p, v / 0x20_0000 % 0x80 + 0x80);
        }
        assert code == msg[start..p] + Tail3(v);
        Written(code, msg[start..p], v / 0x4000 % 0x80 + 0x80, Tail2(v));
        p := Put(msg, start, p, v / 0x4000 % 0x80 + 0x80);
      }
      assert code == msg[start..p] + Tail2(v);
      Written(code, msg[start..p], v / 0x80 % 0x80 + 0x80, Tail1(v));
      p := Put(msg, start, p, v / 0x80 % 0x80 + 0x80);
    }
    assert code == msg[start..p] + Tail1(v);
    p := Put(msg, start, p, v % 0x80);
  }

  /** PT_uint32.encode: append to the output list. */
  method PyEncode(list: seq<Byte>, v: int) returns (out: seq<Byte>)
    ensures out == list + PyCode(v)
  {
    hide Groups, Tail1, Tail2, Tail3, Tail4, Tail5;
    Tails(v);
    TailParts(v);
    ghost var code := list + PyCode(v);
    out := list;
    if v >= 0xc00_0000 || v < -0x400_0000 {
      Written(code, out, v / 0x1000_0000 % 0x80 + 0x80, Tail4(v));
      out := out + [v / 0x1000_0000 % 0x80 + 0x80];
    }
    if v >= 0x18_0000 || v < -0x8_0000 {
      assert code == out + Tail4(v);
      Written(code, out, v / 0x20_0000 % 0x80 + 0x80, Tail3(v));
      out := out + [v / 0x20_0000 % 0x80 + 0x80];
    }
    if v >= 0x3000 || v < -0x1000 {
      assert code == out + Tail3(v);
      Written(code, out, v / 0x4000 % 0x80 + 0x80, Tail2(v));
      out := out + [v / 0x4000 % 0x80 + 0x80];
    }
    if v >= 0x60 || v < -0x20 {
      assert code == out + Tail2(v);
      Written(code, out, v / 0x80 % 0x80 + 0x80, Tail1(v));
      out := out + [v / 0x80 % 0x80 + 0x80];
    }
    assert code == out + Tail1(v);
    out := out + [v % 0x80];
  }

  // The payload of a message.

  function EncodeAll(data: seq<Word32>): (r: seq<Byte>)
    ensures |data| <= |r|
  {
    if data == [] then [] else CCode(data[0]) + EncodeAll(data[1..])
  }

  /** No word takes more than five bytes. */
  lemma {:induction false} EncodeLength(data: seq<Word32>)
    ensures |EncodeAll(data)| <= 5 * |data|
  {
    hide CCode;
    if data != [] {
      CRoundTrip(data[0]);
      EncodeLength(data[1..]);
    }
  }

  lemma {:induction false} EncodeAppend(a: seq<Word32>, b: seq<Word32>)
    ensures EncodeAll(a + b) == EncodeAll(a) + EncodeAll(b)
  {
    if a == [] {
      assert a + b == b;
    } else {
      assert (a + b)[0] == a[0] && (a + b)[1..] == a[1..] + b;
      EncodeAppend(a[1..], b);
    }
  }

  lemma EncodeNone()
    ensures EncodeAll([]) == []
  {
  }

  lemma EncodeNext(data: seq<Word32>, i: nat)
    requires i < |data|
    ensures EncodeAll(data[..i + 1]) == EncodeAll(data[..i]) + CCode(data[i])
  {
    assert data[..i + 1] == data[..i] + [data[i]];
    EncodeAppend(data[..i], [data[i]]);
    assert EncodeAll([data[i]]) == CCode(data[i]) + EncodeAll([data[i]][1..]);
  }

  /** message_alloc_and_encode: a fresh 64-byte message holding the payload, or one of length zero when the
    * payload would not fit a block.  No write goes past the 64 bytes. */
  method AllocAndEncode(data: seq<Word32>) returns (msg: array<Byte>, len: nat)
    ensures fresh(msg) && msg.Length == MESSAGE_MAX && len <= MESSAGE_PAYLOAD_MAX
    ensures |EncodeAll(data)| <= MESSAGE_PAYLOAD_MAX ==> msg[..len] == EncodeAll(data)
    ensures |EncodeAll(data)| > MESSAGE_PAYLOAD_MAX ==> len == 0
  {
    hide CCode, EncodeAll;
    msg := new Byte[MESSAGE_MAX](_ => 0);
    var p := 0;
    assert EncodeAll(data[..0]) == [] by { EncodeNone(); }
    for i := 0 to |data|
      invariant p <= MESSAGE_PAYLOAD_MAX
      invariant msg[..p] == EncodeAll(data[..i])
    {
      EncodeNext(data, i);
      CRoundTrip(data[i]);
      ghost var before := msg[..p];
      var q := EncodeInt(msg, p, data[i]);
      assert msg[..p] == before;
      assert msg[..q] == msg[..p] + msg[p..q];
      p := q;
      if p > MESSAGE_PAYLOAD_MAX {
        assert data == data[..i + 1] + data[i + 1..];
        EncodeAppend(data[..i + 1], data[i + 1..]);
        return msg, 0;
      }
    }
    assert data[..|data|] == data;
    len := p;
  }

  /** What msgblock_decode makes of the payload between p and end: exactly n integers that end at end. */
  function Decoded(msg: seq<Byte>, p: nat, end: nat, n: nat): Option<seq<Word32>>
    requires p <= |msg| && end < |msg|
    decreases n
  {
    if n == 0 then (if p == end then Some([]) else None)
    else if p >= end || Stop(msg, p) == |msg| then None
    else
      var q := Stop(msg, p) + 1;
      match Decoded(msg, q, end, n - 1)
      case None => None
      case Some(rest) => Some([U32(Value(msg[p..q]))] + rest)
  }

  /** What a decoding comes to when the integers done so far are put before what the rest comes to. */
  function Prefixed(done: seq<Word32>, rest: Option<seq<Word32>>): Option<seq<Word32>> {
    match rest
    case None => None
    case Some(ws) => Some(done + ws)
  }

  lemma DecodeStep(msg: seq<Byte>, p: nat, end: nat, n: nat, done: seq<Word32>)
    requires p < end < |msg| && Stop(msg, p) < |msg| && 0 < n
    ensures var q := Stop(msg, p) + 1;
            Prefixed(done, Decoded(msg, p, end, n))
            == Prefixed(done + [U32(Value(msg[p..q]))], Decoded(msg, q, end, n - 1))
  {
    hide Value;
    var q := Stop(msg, p) + 1;
    var w := U32(Value(msg[p..q]));
    var rest := Decoded(msg, q, end, n - 1);
    if rest.Some? {
      assert done + ([w] + rest.value) == done + [w] + rest.value;
    }
  }

  lemma PrefixedNothing(rest: Option<seq<Word32>>)
    ensures Prefixed([], rest) == rest
  {
    if rest.Some? {
      assert [] + rest.value == rest.value;
    }
  }

  lemma StopInside(msg: seq<Byte>, p: nat, i: nat)
    requires p <= i < |msg| && msg[i] < 0x80
    ensures Stop(msg, p) <= i
  {
  }

  /** msgblock_decode.  The block ends in SYNC, which ends any code, so no read leaves the block. */
  method Decode(data: array<Word32>, msg: seq<Byte>) returns (ok: bool)
    requires MESSAGE_MIN <= |msg| && msg[|msg| - 1] == MESSAGE_SYNC
    modifies data
    ensures var d := Decoded(msg, MESSAGE_HEADER_SIZE, |msg| - MESSAGE_TRAILER_SIZE, data.Length);
            ok == d.Some? && (ok ==> data[..] == d.value)
  {
    hide Value, Stop;
    var p: nat := MESSAGE_HEADER_SIZE;
    var end: nat := |msg| - MESSAGE_TRAILER_SIZE;
    ghost var d := Decoded(msg, p, end, data.Length);
    var left: nat, k: nat := data.Length, 0;
    PrefixedNothing(d);
    assert data[..0] == [];
    while left != 0
      invariant k + left == data.Length
      invariant p <= |msg|
      invariant d == Prefixed(data[..k], Decoded(msg, p, end, left))
    {
      if p >= end {
        return false;
      }
      StopInside(msg, p, |msg| - 1);
      DecodeStep(msg, p, end, left, data[..k]);
      ghost var done := data[..k];
      var v, q := ParseInt(msg, p);
      data[k] := v;
      assert data[..k + 1] == done + [v];
      p, k, left := q, k + 1, left - 1;
    }
    assert data[..k] == data[..];
    ok := p == end;
  }

  lemma PayloadSplit(msg: seq<Byte>, p: nat, end: nat, code: seq<Byte>, rest: seq<Byte>)
    requires p <= end <= |msg| && msg[p..end] == code + rest
    ensures p + |code| <= end
    ensures msg[p..p + |code|] == code && msg[p + |code|..end] == rest
  {
    assert |msg[p..end]| == |code| + |rest|;
    assert msg[p..p + |code|] == msg[p..end][..|code|];
    assert msg[p + |code|..end] == msg[p..end][|code|..];
  }

  /** The payload of a list is read back as that list, and never as a list of another length. */
  lemma {:induction false} ListRoundTrip(msg: seq<Byte>, p: nat, end: nat, data: seq<Word32>, n: nat)
    requires p <= end < |msg| && msg[p..end] == EncodeAll(data)
    ensures Decoded(msg, p, end, n) == if n == |data| then Some(data) else None
    decreases |data|
  {
    hide Value, CCode, Stop, PyParsed;
    if data == [] {
    } else {
      var code := CCode(data[0]);
      CRoundTrip(data[0]);
      PayloadSplit(msg, p, end, code, EncodeAll(data[1..]));
      CodeIsRead(msg, p, code);
      if n > 0 {
        ListRoundTrip(msg, p + |code|, end, data[1..], n - 1);
        assert [data[0]] + data[1..] == data;
      }
    }
  }
}
