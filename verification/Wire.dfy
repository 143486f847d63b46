/** Bytes, words and constants of the micro-controller protocol. */
module Wire {

  type Byte = b: int | 0 <= b < 0x100

  const TWO32 := 0x1_0000_0000
  const TWO64 := 0x1_0000_0000_0000_0000

  type Word32 = w: int | 0 <= w < TWO32
  type Word64 = w: int | 0 <= w < TWO64

  const MESSAGE_MIN := 5
  const MESSAGE_MAX := 64
  const MESSAGE_HEADER_SIZE := 2
  const MESSAGE_TRAILER_SIZE := 3
  const MESSAGE_PAYLOAD_MAX := 59
  const MESSAGE_DEST := 0x10
  const MESSAGE_SYNC: Byte := 0x7e

  /** `(uint32_t)x`. */
  function U32(x: int): Word32 {
    x % TWO32
  }

  /** `(uint64_t)x`. */
  function U64(x: int): Word64 {
    x % TWO64
  }

  /** `(int32_t)w`. */
  function S32(w: Word32): (x: int)
    ensures -0x8000_0000 <= x < 0x8000_0000
  {
    if w < 0x8000_0000 then w else w - TWO32
  }

  /** `(int64_t)w`. */
  function S64(w: Word64): (x: int)
    ensures -0x8000_0000_0000_0000 <= x < 0x8000_0000_0000_0000
  {
    if w < 0x8000_0000_0000_0000 then w else w - TWO64
  }

  /** Reading a wrapped word back as signed returns any value that fits. */
  lemma SignedOfWrapped(x: int)
    ensures -0x8000_0000 <= x < 0x8000_0000 ==> S32(U32(x)) == x
    ensures -0x8000_0000_0000_0000 <= x < 0x8000_0000_0000_0000 ==> S64(U64(x)) == x
  {
  }

  function Concat<T>(parts: seq<seq<T>>): (r: seq<T>) {
    if parts == [] then [] else parts[0] + Concat(parts[1..])
  }

  lemma {:induction false} ConcatAppend<T>(a: seq<seq<T>>, b: seq<seq<T>>)
    ensures Concat(a + b) == Concat(a) + Concat(b)
  {
    if a == [] {
      assert a + b == b;
    } else {
      assert (a + b)[0] == a[0] && (a + b)[1..] == a[1..] + b;
      ConcatAppend(a[1..], b);
    }
  }

  lemma ConcatSnoc<T>(a: seq<seq<T>>, last: seq<T>)
    ensures Concat(a + [last]) == Concat(a) + last
  {
    ConcatAppend(a, [last]);
    assert Concat([last]) == last + Concat([last][1..]);
  }
}
