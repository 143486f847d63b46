/** Message blocks on a byte stream: recognising them, resynchronising after noise, and writing them. */
module Framing {
  import opened Wire
  import Crc

  // Recognising a block at the start of a buffer.

  /** NeedMore for result 0, Message for a positive result, Skip for a negative one with the new need_sync. */
  datatype Checked = NeedMore | Message(len: nat) | Skip(len: nat, needSync: bool)

  /** The first SYNC of a buffer, or its end: what memchr finds. */
  function SyncAt(buf: seq<Byte>): (i: nat)
    ensures i <= |buf|
    ensures i < |buf| ==> buf[i] == MESSAGE_SYNC
    ensures forall k :: 0 <= k < i ==> buf[k] != MESSAGE_SYNC
  {
    if buf == [] || buf[0] == MESSAGE_SYNC then 0 else 1 + SyncAt(buf[1..])
  }

  function Discard(buf: seq<Byte>): Checked {
    var i := SyncAt(buf);
    if i < |buf| then Skip(i + 1, false) else Skip(|buf|, true)
  }

  predicate HeaderOk(buf: seq<Byte>)
    requires 2 <= |buf|
  {
    MESSAGE_MIN <= buf[0] <= MESSAGE_MAX && buf[1] - buf[1] % 0x10 == MESSAGE_DEST
  }

  predicate TrailerOk(block: seq<Byte>)
    requires MESSAGE_MIN <= |block|
  {
    var n := |block|;
    block[n - 1] == MESSAGE_SYNC && Crc.Code(block[..n - 3]) == (block[n - 3], block[n - 2])
  }

  /** msgblock_check. */
  function Check(needSync: bool, buf: seq<Byte>): Checked {
    if |buf| < MESSAGE_MIN then NeedMore
    else if needSync || !HeaderOk(buf) then Discard(buf)
    else if |buf| < buf[0] then NeedMore
    else if TrailerOk(buf[..buf[0]]) then Message(buf[0])
    else Discard(buf)
  }

  /** The bounds of each outcome; a skip ends at the first SYNC, so it never crosses one. */
  lemma CheckBounds(needSync: bool, buf: seq<Byte>)
    ensures match Check(needSync, buf)
            case NeedMore => |buf| < MESSAGE_MAX
            case Message(n) => !needSync && 0 < MESSAGE_MIN <= n <= MESSAGE_MAX && n <= |buf| && buf[n - 1] == MESSAGE_SYNC
            case Skip(n, lost) =>
              && 0 < n <= |buf| && (forall k :: 0 <= k < n - 1 ==> buf[k] != MESSAGE_SYNC)
              && lost == (buf[n - 1] != MESSAGE_SYNC) && (lost ==> n == |buf|)
  {
    hide Crc.Code;
  }

  lemma {:induction false} SyncAtExtends(x: seq<Byte>, y: seq<Byte>)
    ensures SyncAt(x + y) == if SyncAt(x) < |x| then SyncAt(x) else |x| + SyncAt(y)
  {
    if x == [] {
      assert x + y == y;
    } else {
      assert (x + y)[0] == x[0] && (x + y)[1..] == x[1..] + y;
      SyncAtExtends(x[1..], y);
    }
  }

  /** A decision stands however the stream goes on; only a skip that ran out of bytes looks further. */
  lemma CheckStable(needSync: bool, x: seq<Byte>, y: seq<Byte>)
    ensures match Check(needSync, x)
            case NeedMore => true
            case Message(n) => Check(needSync, x + y) == Message(n)
            case Skip(n, lost) => Check(needSync, x + y) == if lost then Discard(x + y) else Skip(n, false)
  {
    hide Crc.Code, SyncAt;
    SyncAtExtends(x, y);
    if |x| >= MESSAGE_MIN {
      assert (x + y)[0] == x[0] && (x + y)[1] == x[1];
      if HeaderOk(x) && x[0] <= |x| {
        assert (x + y)[..x[0]] == x[..x[0]];
      }
    }
  }

  /** MessageParser.check_packet. */
  function CheckPacket(s: seq<Byte>): int {
    if |s| < MESSAGE_MIN then 0
    else if s[0] < MESSAGE_MIN || s[0] > MESSAGE_MAX then -1
    else if s[1] - s[1] % 0x10 != MESSAGE_DEST then -1
    else if |s| < s[0] then 0
    else if s[s[0] - 1] != MESSAGE_SYNC then -1
    else if Crc.Code(s[..s[0] - 3]) != (s[s[0] - 3], s[s[0] - 2]) then -1
    else s[0]
  }

  /** The Python reader decides as the C one does when it is not looking for a SYNC. */
  lemma ReadersAgree(s: seq<Byte>)
    ensures CheckPacket(s) == match Check(false, s)
                              case NeedMore => 0
                              case Message(n) => n
                              case Skip(_, _) => -1
  {
    hide Crc.Code;
    if |s| >= MESSAGE_MIN && HeaderOk(s) && s[0] <= |s| {
      assert s[..s[0]][..s[0] - 3] == s[..s[0] - 3];
    }
  }

  // Draining a buffer: the loop of input_event.

  datatype Input = Input(needSync: bool, buf: seq<Byte>)

  datatype Drained = Drained(rest: Input, messages: seq<seq<Byte>>, invalid: nat)

  /** What a reader comes to when it first delivers messages and skips bytes, and then goes on as d. */
  function Then(messages: seq<seq<Byte>>, invalid: nat, d: Drained): Drained {
    Drained(d.rest, messages + d.messages, invalid + d.invalid)
  }

  function Drain(input: Input): Drained
    decreases |input.buf|
  {
    CheckBounds(input.needSync, input.buf);
    match Check(input.needSync, input.buf)
    case NeedMore => Drained(input, [], 0)
    case Message(n) => Then([input.buf[..n]], 0, Drain(Input(false, input.buf[n..])))
    case Skip(n, lost) => Then([], n, Drain(Input(lost, input.buf[n..])))
  }

  /** A read of some bytes followed by the loop. */
  function Read(d: Drained, bytes: seq<Byte>): Drained {
    Then(d.messages, d.invalid, Drain(Input(d.rest.needSync, d.rest.buf + bytes)))
  }

  function ReadAll(d: Drained, chunks: seq<seq<Byte>>): Drained
    decreases |chunks|
  {
    if chunks == [] then d else ReadAll(Read(d, chunks[0]), chunks[1..])
  }

  /** The reader after the skip it already knows it has to make. */
  function Norm(d: Drained): Drained {
    if !d.rest.needSync then d
    else
      var i := SyncAt(d.rest.buf);
      if i < |d.rest.buf| then Drained(Input(false, d.rest.buf[i + 1..]), d.messages, d.invalid + i + 1)
      else Drained(Input(true, []), d.messages, d.invalid + |d.rest.buf|)
  }

  lemma NormThen(ms: seq<seq<Byte>>, k: nat, d: Drained)
    ensures Norm(Then(ms, k, d)) == Then(ms, k, Norm(d))
  {
    hide SyncAt;
  }

  lemma ThenThen(a: seq<seq<Byte>>, j: nat, b: seq<seq<Byte>>, k: nat, d: Drained)
    ensures Then(a, j, Then(b, k, d)) == Then(a + b, j + k, d)
  {
    assert a + (b + d.messages) == a + b + d.messages;
  }

  lemma ThenNothing(a: seq<seq<Byte>>, k: nat, d: Drained)
    ensures Then([], k, Drained(d.rest, d.messages, 0)) == Drained(d.rest, d.messages, k)
    ensures Then(a, k, Drained(d.rest, [], 0)) == Drained(d.rest, a, k)
    ensures Then([], 0, d) == d
  {
  }

  lemma ReadThen(ms: seq<seq<Byte>>, k: nat, d: Drained, y: seq<Byte>)
    ensures Read(Then(ms, k, d), y) == Then(ms, k, Read(d, y))
  {
    hide Drain;
    var t := Drain(Input(d.rest.needSync, d.rest.buf + y));
    assert ms + (d.messages + t.messages) == ms + d.messages + t.messages;
  }

  /** Reading into a reader that waits is draining the longer buffer. */
  lemma ReadWaiting(input: Input, y: seq<Byte>)
    ensures Read(Drained(input, [], 0), y) == Drain(Input(input.needSync, input.buf + y))
  {
    hide Drain;
    var t := Drain(Input(input.needSync, input.buf + y));
    assert [] + t.messages == t.messages;
  }

  /** One turn of the loop. */
  lemma DrainStep(input: Input)
    ensures match Check(input.needSync, input.buf)
            case NeedMore => Drain(input) == Drained(input, [], 0)
            case Message(n) =>
              n <= |input.buf| && Drain(input) == Then([input.buf[..n]], 0, Drain(Input(false, input.buf[n..])))
            case Skip(n, lost) =>
              n <= |input.buf| && Drain(input) == Then([], n, Drain(Input(lost, input.buf[n..])))
  {
    hide Check, Then;
    CheckBounds(input.needSync, input.buf);
  }

  /** Making the skip first changes nothing. */
  lemma DrainNorm(input: Input)
    requires input.needSync
    ensures var n := Norm(Drained(input, [], 0));
            Norm(Drain(input)) == Norm(Then([], n.invalid, Drain(n.rest)))
  {
    hide SyncAt;
    var i := SyncAt(input.buf);
    if |input.buf| < MESSAGE_MIN {
      if i < |input.buf| {
        assert |input.buf[i + 1..]| < MESSAGE_MIN;
      }
    }
  }

  /** Reading two pieces at once comes, up to the pending skip, to reading one after the other. */
  lemma {:induction false} ReadSplit(input: Input, y: seq<Byte>)
    ensures Norm(Drain(Input(input.needSync, input.buf + y))) == Norm(Read(Drain(input), y))
    decreases |input.buf|
  {
    hide *;
    var x := input.buf;
    var both := Input(input.needSync, x + y);
    CheckBounds(input.needSync, x);
    CheckStable(input.needSync, x, y);
    DrainStep(input);
    DrainStep(both);
    match Check(input.needSync, x)
    case NeedMore =>
      ReadWaiting(input, y);
    case Message(n) =>
      assert (x + y)[n..] == x[n..] + y && (x + y)[..n] == x[..n];
      ReadSplit(Input(false, x[n..]), y);
      Prefix([x[..n]], 0, Input(false, x[n..]), y);
    case Skip(n, lost) =>
      if lost {
        SkipAll(input, y);
      } else {
        assert (x + y)[n..] == x[n..] + y;
        ReadSplit(Input(false, x[n..]), y);
        Prefix([], n, Input(false, x[n..]), y);
      }
  }

  /** Both sides of the induction step put the same prefix before what the induction hypothesis equates. */
  lemma Prefix(ms: seq<seq<Byte>>, k: nat, input: Input, y: seq<Byte>)
    requires Norm(Drain(Input(input.needSync, input.buf + y))) == Norm(Read(Drain(input), y))
    ensures Norm(Then(ms, k, Drain(Input(input.needSync, input.buf + y))))
         == Norm(Read(Then(ms, k, Drain(input)), y))
  {
    hide *;
    NormThen(ms, k, Drain(Input(input.needSync, input.buf + y)));
    ReadThen(ms, k, Drain(input), y);
    NormThen(ms, k, Read(Drain(input), y));
  }

  /** The case of a skip that ran out of bytes: the longer buffer is skipped further. */
  lemma SkipAll(input: Input, y: seq<Byte>)
    requires Check(input.needSync, input.buf) == Skip(|input.buf|, true)
    ensures Norm(Drain(Input(input.needSync, input.buf + y))) == Norm(Read(Drain(input), y))
  {
    hide Norm, Drain, Read, Then, SyncAt, Crc.Code;
    var x := input.buf;
    DrainStep(input);
    assert x[|x|..] == [];
    DrainStep(Input(true, []));
    CheckStable(input.needSync, x, y);
    DrainStep(Input(input.needSync, x + y));
    LostSplit(x, y);
    ReadThen([], |x|, Drained(Input(true, []), [], 0), y);
    ReadWaiting(Input(true, []), y);
    assert [] + y == y;
  }

  /** Discarding everything and then reading y skips to the first SYNC of y. */
  lemma LostSplit(x: seq<Byte>, y: seq<Byte>)
    requires SyncAt(x) == |x|
    ensures Discard(x + y).Skip? && Discard(x + y).len <= |x + y|
    ensures var n := Discard(x + y).len;
            Norm(Then([], n, Drain(Input(Discard(x + y).needSync, (x + y)[n..]))))
            == Norm(Then([], |x|, Drain(Input(true, y))))
  {
    hide *;
    LostNorm(x, y);
    DrainNorm(Input(true, y));
    SkipTwice(|x|, Norm(Drained(Input(true, y), [], 0)), Input(true, y));
  }

  lemma LostNorm(x: seq<Byte>, y: seq<Byte>)
    requires SyncAt(x) == |x|
    ensures var n, d := Norm(Drained(Input(true, y), [], 0)), Discard(x + y);
            && d.Skip? && d.len <= |x + y|
            && d.len == |x| + n.invalid
            && n.rest == Input(d.needSync, (x + y)[d.len..])
  {
    hide SyncAt;
    SyncAtExtends(x, y);
    var i := SyncAt(y);
    if i < |y| {
      assert (x + y)[|x| + i + 1..] == y[i + 1..];
    } else {
      assert (x + y)[|x + y|..] == [];
    }
  }

  lemma SkipTwice(k: nat, n: Drained, input: Input)
    requires Norm(Drain(input)) == Norm(Then([], n.invalid, Drain(n.rest)))
    ensures Norm(Then([], k + n.invalid, Drain(n.rest))) == Norm(Then([], k, Drain(input)))
  {
    hide *;
    NormThen([], k, Drain(input));
    NormThen([], k, Then([], n.invalid, Drain(n.rest)));
    ThenThen([], k, [], n.invalid, Drain(n.rest));
    var none: seq<seq<Byte>> := [];
    assert none + none == none;
  }

  // Main results about reading.

  /** The states between reads: the loop has nothing left to decide. */
  predicate Waiting(input: Input) {
    Check(input.needSync, input.buf) == NeedMore
  }

  /** Every pass ends waiting, with at most 63 bytes held back, and every byte read was delivered in a message,
    * skipped, or is held back. */
  lemma {:induction false} DrainEnds(input: Input)
    ensures var d := Drain(input);
            && Waiting(d.rest) && |d.rest.buf| < MESSAGE_MAX
            && |input.buf| == |Concat(d.messages)| + d.invalid + |d.rest.buf|
    decreases |input.buf|
  {
    hide Check, Then;
    CheckBounds(input.needSync, input.buf);
    DrainStep(input);
    match Check(input.needSync, input.buf)
    case NeedMore =>
    case Message(n) =>
      DrainEnds(Input(false, input.buf[n..]));
      CountMessage(input.buf[..n], Drain(Input(false, input.buf[n..])));
    case Skip(n, lost) =>
      DrainEnds(Input(lost, input.buf[n..]));
      CountSkip(n, Drain(Input(lost, input.buf[n..])));
  }

  lemma CountMessage(block: seq<Byte>, d: Drained)
    ensures var t := Then([block], 0, d);
            t.rest == d.rest && t.invalid == d.invalid && |Concat(t.messages)| == |block| + |Concat(d.messages)|
  {
    var t := Then([block], 0, d);
    assert t.messages[0] == block && t.messages[1..] == d.messages;
  }

  lemma CountSkip(n: nat, d: Drained)
    ensures var t := Then([], n, d);
            t.rest == d.rest && t.invalid == n + d.invalid && t.messages == d.messages
  {
  }

  /** However a stream is cut into reads, the reader delivers the same messages and skips the same bytes as in
    * one read of the whole, up to the skip it still has to finish. */
  lemma {:induction false} ChunksDoNotMatter(d: Drained, chunks: seq<seq<Byte>>)
    requires Waiting(d.rest)
    ensures Norm(ReadAll(d, chunks)) == Norm(Read(d, Concat(chunks)))
    decreases |chunks|
  {
    hide *;
    if chunks == [] {
      ReadNothing(d, chunks);
    } else {
      var first := chunks[0];
      ReadAllStep(d, chunks);
      ReadEnds(d, first);
      ChunksDoNotMatter(Read(d, first), chunks[1..]);
      ReadTwice(d, first, Concat(chunks[1..]));
    }
  }

  lemma ReadAllStep(d: Drained, chunks: seq<seq<Byte>>)
    requires chunks != []
    ensures ReadAll(d, chunks) == ReadAll(Read(d, chunks[0]), chunks[1..])
    ensures Concat(chunks) == chunks[0] + Concat(chunks[1..])
  {
    hide Read;
  }

  lemma ReadNothing(d: Drained, none: seq<seq<Byte>>)
    requires Waiting(d.rest) && none == []
    ensures ReadAll(d, none) == d == Read(d, Concat(none))
  {
    hide Check;
    assert d.rest.buf + [] == d.rest.buf;
    DrainStep(d.rest);
    assert d.messages + [] == d.messages;
  }

  lemma ReadEnds(d: Drained, bytes: seq<Byte>)
    ensures Waiting(Read(d, bytes).rest)
  {
    hide Check, Drain;
    DrainEnds(Input(d.rest.needSync, d.rest.buf + bytes));
  }

  lemma ReadTwice(d: Drained, a: seq<Byte>, b: seq<Byte>)
    ensures Norm(Read(d, a + b)) == Norm(Read(Read(d, a), b))
  {
    hide Drain, Norm, Then;
    var buf := d.rest.buf;
    var input := Input(d.rest.needSync, buf + a);
    assert buf + (a + b) == buf + a + b;
    ReadSplit(input, b);
    NormThen(d.messages, d.invalid, Drain(Input(d.rest.needSync, buf + a + b)));
    ReadThen(d.messages, d.invalid, Drain(input), b);
    NormThen(d.messages, d.invalid, Read(Drain(input), b));
  }

  /** Two reads cut differently agree, and a reader may always be replaced by its normal form. */
  lemma SameStream(d: Drained, chunks: seq<seq<Byte>>, others: seq<seq<Byte>>)
    requires Waiting(d.rest) && Concat(chunks) == Concat(others)
    ensures Norm(ReadAll(d, chunks)) == Norm(ReadAll(d, others))
    ensures ReadAll(d, chunks).messages == ReadAll(d, others).messages
  {
    hide *;
    ChunksDoNotMatter(d, chunks);
    ChunksDoNotMatter(d, others);
    NormKeepsMessages(ReadAll(d, chunks));
    NormKeepsMessages(ReadAll(d, others));
  }

  lemma NormKeepsMessages(d: Drained)
    ensures Norm(d).messages == d.messages
  {
    hide SyncAt;
  }

  /** The normal form of a reader behaves as the reader does on everything still to come. */
  lemma NormReads(d: Drained, bytes: seq<Byte>)
    ensures Norm(Read(Norm(d), bytes)) == Norm(Read(d, bytes))
  {
    if d.rest.needSync {
      if SyncAt(d.rest.buf) < |d.rest.buf| {
        FoundReads(d, bytes);
      } else {
        LostReads(d, bytes);
      }
    }
  }

  lemma FoundReads(d: Drained, bytes: seq<Byte>)
    requires d.rest.needSync && SyncAt(d.rest.buf) < |d.rest.buf|
    ensures Norm(Read(Norm(d), bytes)) == Norm(Read(d, bytes))
  {
    hide Drain, SyncAt, Then;
    var x, i := d.rest.buf, SyncAt(d.rest.buf);
    SyncAtExtends(x, bytes);
    DrainNorm(Input(true, x + bytes));
    assert (x + bytes)[i + 1..] == x[i + 1..] + bytes;
    SkipFirst(d.messages, d.invalid, i + 1, Input(false, x[i + 1..] + bytes), Input(true, x + bytes));
  }

  lemma LostReads(d: Drained, bytes: seq<Byte>)
    requires d.rest.needSync && SyncAt(d.rest.buf) == |d.rest.buf|
    ensures Norm(Read(Norm(d), bytes)) == Norm(Read(d, bytes))
  {
    hide *;
    var x := d.rest.buf;
    var m, n := Norm(Drained(Input(true, x + bytes), [], 0)), Norm(Drained(Input(true, bytes), [], 0));
    LostPending(x, bytes);
    LostUnfolds(d, bytes);
    DrainNorm(Input(true, x + bytes));
    DrainNorm(Input(true, bytes));
    SkipFirst(d.messages, d.invalid, m.invalid, m.rest, Input(true, x + bytes));
    SkipFirst(d.messages, d.invalid + |x|, n.invalid, n.rest, Input(true, bytes));
  }

  lemma LostUnfolds(d: Drained, bytes: seq<Byte>)
    requires d.rest.needSync && SyncAt(d.rest.buf) == |d.rest.buf|
    ensures Read(d, bytes) == Then(d.messages, d.invalid, Drain(Input(true, d.rest.buf + bytes)))
    ensures Read(Norm(d), bytes) == Then(d.messages, d.invalid + |d.rest.buf|, Drain(Input(true, bytes)))
  {
    hide Drain, Then, SyncAt;
    assert [] + bytes == bytes;
  }

  lemma PendingOf(buf: seq<Byte>)
    ensures var n, i := Norm(Drained(Input(true, buf), [], 0)), SyncAt(buf);
            && n.rest == (if i < |buf| then Input(false, buf[i + 1..]) else Input(true, []))
            && n.invalid == if i < |buf| then i + 1 else |buf|
  {
    hide SyncAt;
  }

  lemma LostPending(x: seq<Byte>, y: seq<Byte>)
    requires SyncAt(x) == |x|
    ensures var m, n := Norm(Drained(Input(true, x + y), [], 0)), Norm(Drained(Input(true, y), [], 0));
            m.rest == n.rest && m.invalid == |x| + n.invalid
  {
    hide SyncAt, Norm;
    SyncAtExtends(x, y);
    PendingOf(x + y);
    PendingOf(y);
    var i := SyncAt(y);
    if i < |y| {
      assert (x + y)[|x| + i + 1..] == y[i + 1..];
    }
  }

  lemma SkipFirst(ms: seq<seq<Byte>>, k: nat, j: nat, rest: Input, input: Input)
    requires Norm(Drain(input)) == Norm(Then([], j, Drain(rest)))
    ensures Norm(Then(ms, k, Drain(input))) == Norm(Then(ms, k + j, Drain(rest)))
  {
    hide *;
    NormThen(ms, k, Drain(input));
    NormThen(ms, k, Then([], j, Drain(rest)));
    ThenThen(ms, k, [], j, Drain(rest));
    assert ms + [] == ms;
  }

  // Resynchronisation.

  /** The reader spends exactly the first g bytes on these messages and skips, and starts afresh after them. */
  ghost predicate ResumesWith(input: Input, g: nat, ms: seq<seq<Byte>>, k: nat)
    requires g <= |input.buf|
  {
    |Concat(ms)| + k == g && Drain(input) == Then(ms, k, Drain(Input(false, input.buf[g..])))
  }

  ghost predicate Resumes(input: Input, g: nat)
    requires g <= |input.buf|
  {
    exists ms, k :: ResumesWith(input, g, ms, k)
  }

  /** A block found inside the first g bytes reaches beyond them. */
  ghost predicate Straddles(buf: seq<Byte>, g: nat) {
    exists i, n :: 0 <= i < g < i + n && i <= |buf| && Check(false, buf[i..]) == Message(n)
  }

  /** Noise ending in SYNC: either parsing resumes right after it, or a block with a valid code starts inside
    * it, or the reader is still waiting, with fewer than 64 bytes, for the end of a block the noise announced. */
  lemma {:induction false} Resync(input: Input, g: nat)
    requires 0 < g <= |input.buf| && input.buf[g - 1] == MESSAGE_SYNC
    ensures || Resumes(input, g)
            || Straddles(input.buf, g)
            || |input.buf| - g < |Drain(input).rest.buf| < MESSAGE_MAX
    decreases |input.buf|
  {
    hide Check, Drain, Then;
    var buf := input.buf;
    CheckBounds(input.needSync, buf);
    DrainStep(input);
    DrainEnds(input);
    match Check(input.needSync, buf)
    case NeedMore =>
    case Message(n) =>
      if n <= g {
        assert Concat([buf[..n]]) == buf[..n] by { ConcatSnoc([], buf[..n]); }
        ResyncNext(input, [buf[..n]], 0, n, g);
      } else {
        assert buf[0..] == buf;
        assert Check(false, buf[0..]) == Message(n);
      }
    case Skip(n, lost) =>
      assert n <= g;
      ResyncNext(input, [], n, n, g);
  }

  /** After a step of n bytes, the rest of the noise is the same situation again. */
  lemma {:induction false} ResyncNext(input: Input, ms: seq<seq<Byte>>, k: nat, n: nat, g: nat)
    requires 0 < n <= g <= |input.buf| && input.buf[g - 1] == MESSAGE_SYNC
    requires ResumesWith(input, n, ms, k)
    ensures || Resumes(input, g)
            || Straddles(input.buf, g)
            || |input.buf| - g < |Drain(input).rest.buf| < MESSAGE_MAX
    decreases |input.buf|, 0
  {
    hide Check, Drain;
    var rest := Input(false, input.buf[n..]);
    if n == g {
      assert ResumesWith(input, g, ms, k);
    } else {
      Resync(rest, g - n);
      assert rest.buf[g - n..] == input.buf[g..];
      if Resumes(rest, g - n) {
        var ms', k' :| ResumesWith(rest, g - n, ms', k');
        ThenThen(ms, k, ms', k', Drain(Input(false, input.buf[g..])));
        ConcatAppend(ms, ms');
        assert ResumesWith(input, g, ms + ms', k + k');
      } else if Straddles(rest.buf, g - n) {
        var i, m :| 0 <= i < g - n < i + m && i <= |rest.buf| && Check(false, rest.buf[i..]) == Message(m);
        assert rest.buf[i..] == input.buf[n + i..];
        assert 0 <= n + i < g < n + i + m && Check(false, input.buf[n + i..]) == Message(m);
      }
    }
  }

  // Writing.

  /** A block of the sender: length, sequence nibble, payload, code and SYNC. */
  function Block(seqno: nat, payload: seq<Byte>): (block: seq<Byte>)
    requires |payload| <= MESSAGE_PAYLOAD_MAX
    ensures |block| == |payload| + MESSAGE_MIN
  {
    var head := [|payload| + MESSAGE_MIN, MESSAGE_DEST + seqno % 0x10] + payload;
    var code := Crc.Code(head);
    head + [code.0, code.1, MESSAGE_SYNC]
  }

  /** A complete block and nothing else. */
  predicate IsBlock(block: seq<Byte>) {
    Check(false, block) == Message(|block|)
  }

  /** Every block written is recognised, by the C reader and by the Python one, with exactly its length and
    * whatever follows it; its payload and nibble are where the reader looks for them. */
  lemma BlockAccepted(seqno: nat, payload: seq<Byte>, rest: seq<Byte>)
    requires |payload| <= MESSAGE_PAYLOAD_MAX
    ensures var block := Block(seqno, payload);
            && IsBlock(block)
            && Check(false, block + rest) == Message(|block|)
            && CheckPacket(block + rest) == |block|
            && block[1] % 0x10 == seqno % 0x10
            && block[MESSAGE_HEADER_SIZE..|block| - MESSAGE_TRAILER_SIZE] == payload
  {
    hide Crc.Code, CheckPacket;
    var block := Block(seqno, payload);
    var n := |block|;
    assert block[..n - 3] == [n, MESSAGE_DEST + seqno % 0x10] + payload;
    assert block[..n] == block;
    CheckStable(false, block, rest);
    ReadersAgree(block + rest);
  }

  /** A run of blocks is delivered block by block, with nothing skipped. */
  lemma {:induction false} BlocksDelivered(blocks: seq<seq<Byte>>, rest: seq<Byte>)
    requires forall b :: b in blocks ==> IsBlock(b)
    ensures Drain(Input(false, Concat(blocks) + rest)) == Then(blocks, 0, Drain(Input(false, rest)))
    decreases |blocks|
  {
    hide Check, Drain, Then;
    var input := Input(false, Concat(blocks) + rest);
    if blocks == [] {
      assert Concat(blocks) + rest == rest;
      ThenNothing([], 0, Drain(Input(false, rest)));
    } else {
      var b, tail := blocks[0], Concat(blocks[1..]) + rest;
      assert IsBlock(b);
      assert input.buf == b + tail;
      CheckStable(false, b, tail);
      DrainStep(input);
      assert input.buf[|b|..] == tail && input.buf[..|b|] == b;
      BlocksDelivered(blocks[1..], rest);
      ThenThen([b], 0, blocks[1..], 0, Drain(Input(false, rest)));
      assert [b] + blocks[1..] == blocks;
    }
  }

  /** A retransmission, a SYNC and then blocks, is read completely by a reader that lost its place as by one
    * that did not: only the SYNC is skipped. */
  lemma BurstDelivered(needSync: bool, blocks: seq<seq<Byte>>)
    requires forall b :: b in blocks ==> IsBlock(b)
    requires blocks != []
    ensures Drain(Input(needSync, [MESSAGE_SYNC] + Concat(blocks))) == Drained(Input(false, []), blocks, 1)
  {
    hide Crc.Code, Drain, Then;
    var buf := [MESSAGE_SYNC] + Concat(blocks);
    assert IsBlock(blocks[0]);
    CheckBounds(false, blocks[0]);
    assert |Concat(blocks)| >= |blocks[0]|;
    assert Check(needSync, buf) == Skip(1, false) by { SyncFirst(needSync, buf); }
    DrainStep(Input(needSync, buf));
    assert buf[1..] == Concat(blocks) + [];
    BlocksDelivered(blocks, []);
    DrainStep(Input(false, []));
    ThenNothing(blocks, 0, Drained(Input(false, []), [], 0));
    ThenNothing(blocks, 1, Drained(Input(false, []), blocks, 0));
  }

  lemma SyncFirst(needSync: bool, buf: seq<Byte>)
    requires MESSAGE_MIN <= |buf| && buf[0] == MESSAGE_SYNC
    ensures Check(needSync, buf) == Skip(1, false)
  {
    hide Crc.Code;
  }

  /** A block changed within two neighbouring bytes is not taken for a block of its length unless the change is one
    * that flips the bits 0x91 of the last payload byte and 0x85 of the code byte after it. */
  lemma ShortBurst(block: seq<Byte>, other: seq<Byte>, k: nat)
    requires IsBlock(block) && |other| == |block|
    requires k + 2 <= |block|
    requires other[..k] == block[..k] && other[k + 2..] == block[k + 2..]
    requires other[k] != block[k] || other[k + 1] != block[k + 1]
    ensures IsBlock(other) <==>
            && MESSAGE_MIN < |block| && k == |block| - 4
            && Crc.Bits(other[k]) == Crc.Flip(Crc.Bits(block[k]), 0x91)
            && Crc.Bits(other[k + 1]) == Crc.Flip(Crc.Bits(block[k + 1]), 0x85)
  {
    hide Crc.Code, Crc.Bits, Crc.Flip;
    var n := |block|;
    CheckBounds(false, block);
    CheckBounds(false, other);
    assert block[..n] == block && other[..n] == other;
    var a, b := block[..n - 3], other[..n - 3];
    if k == 0 {
      FirstBytes(block, other);
    } else if k + 2 <= n - 3 {
      assert other[0] == other[..k][0] == block[..k][0] == block[0];
      HeadSlices(block, other, k);
      Crc.ShortBurstDetected(a, b, k);
    } else if k == n - 4 {
      BoundaryCase(block, other);
    } else {
      assert other[0] == other[..k][0] == block[..k][0] == block[0];
      assert b == other[..k][..n - 3] == block[..k][..n - 3] == a;
    }
  }

  /** A change of the first two bytes: another length is not that of the block, another sequence byte is not covered
    * by the code. */
  lemma FirstBytes(block: seq<Byte>, other: seq<Byte>)
    requires IsBlock(block) && MESSAGE_MIN <= |block| == |other| && other[2..] == block[2..]
    requires other[0] != block[0] || other[1] != block[1]
    ensures !IsBlock(other)
  {
    hide Crc.Code;
    var n := |block|;
    assert block[..n] == block && other[..n] == other;
    if other[0] == block[0] {
      var a, b := block[..n - 3], other[..n - 3];
      assert other[n - 3] == other[2..][n - 5] == block[n - 3] && other[n - 2] == other[2..][n - 4] == block[n - 2];
      assert a[2..] == block[2..][..n - 5] == other[2..][..n - 5] == b[2..];
      assert a[..0] == b[..0] && a != b by {
        assert a[1] == block[1] && b[1] == other[1];
      }
      Crc.ShortBurstDetected(a, b, 0);
    }
  }

  /** The bytes after the sequence byte hold, for this length and sequence byte, the rest of a block. */
  predicate Completes(tail: seq<Byte>, m: Byte, seqByte: Byte) {
    && MESSAGE_MIN <= m <= MESSAGE_MAX && seqByte - seqByte % 0x10 == MESSAGE_DEST
    && m <= |tail| + 2 && tail[m - 3] == MESSAGE_SYNC
    && Crc.Code([m, seqByte] + tail[..m - 5]) == (tail[m - 5], tail[m - 4])
  }

  /** What a changed length byte, with or without the sequence byte, leads to: exactly when both readers accept the
    * bytes as a message, whatever follows them, in terms of the bytes that were not changed.  A shorter length that
    * is accepted within the block is accepted whatever follows; a greater one waits for more than the block. */
  lemma ChangedLength(block: seq<Byte>, other: seq<Byte>, rest: seq<Byte>)
    requires IsBlock(block) && |other| == |block| && MESSAGE_MIN <= |block| && other[2..] == block[2..]
    requires other[0] != block[0]
    ensures var m, seqByte := other[0], other[1];
            && (Check(false, other + rest).Message? <==> Completes(block[2..] + rest, m, seqByte))
            && (CheckPacket(other + rest) > 0 <==> Completes(block[2..] + rest, m, seqByte))
            && (Check(false, other + rest).Message? ==> Check(false, other + rest) == Message(m))
            && (m < |block| ==> (Completes(block[2..] + rest, m, seqByte) <==> Completes(block[2..], m, seqByte)))
            && (|block| < m <= MESSAGE_MAX && seqByte - seqByte % 0x10 == MESSAGE_DEST ==>
                Check(false, other) == NeedMore)
  {
    hide Crc.Code;
    ReadersAgree(other + rest);
    CheckBounds(false, other + rest);
    CheckBounds(false, block);
    var m, seqByte, buf, tail := other[0], other[1], other + rest, block[2..] + rest;
    assert buf[2..] == tail;
    if MESSAGE_MIN <= m <= MESSAGE_MAX && m <= |buf| {
      assert buf[..m][m - 1] == tail[m - 3] && buf[..m][m - 3] == tail[m - 5] && buf[..m][m - 2] == tail[m - 4];
      assert buf[..m][..m - 3] == [m, seqByte] + tail[..m - 5];
    }
    if m < |block| {
      CompletesWithin(block[2..], rest, m, seqByte);
    }
  }

  /** Whether a shorter message is completed within a block does not depend on what follows. */
  lemma CompletesWithin(tail: seq<Byte>, rest: seq<Byte>, m: Byte, seqByte: Byte)
    requires m <= |tail| + 2
    ensures Completes(tail + rest, m, seqByte) <==> Completes(tail, m, seqByte)
  {
    hide Crc.Code;
    if MESSAGE_MIN <= m {
      assert (tail + rest)[..m - 5] == tail[..m - 5];
    }
  }

  /** A block within a block: every payload that leaves room for a code and a SYNC can be packed, with them, as the
    * payload of a longer block of which one changed byte, the length, makes the shorter one. */
  lemma NestedBlock(seqno: nat, payload: seq<Byte>, rest: seq<Byte>)
    requires |payload| + MESSAGE_TRAILER_SIZE <= MESSAGE_PAYLOAD_MAX
    ensures var inner := Block(seqno, payload); var block := Block(seqno, inner[2..]);
            var other := block[0 := |inner|];
            && IsBlock(block) && |inner| < |block| && other != block && other[1..] == block[1..]
            && Check(false, other + rest) == Message(|inner|) && CheckPacket(other + rest) == |inner|
            && other[..|inner|] == inner
  {
    hide Crc.Code, Check, CheckPacket;
    var inner := Block(seqno, payload);
    var block := Block(seqno, inner[2..]);
    var other := block[0 := |inner|];
    BlockAccepted(seqno, inner[2..], []);
    NestedBytes(seqno, payload);
    BlockAccepted(seqno, payload, block[|inner|..] + rest);
    assert other + rest == inner + (block[|inner|..] + rest);
  }

  lemma NestedBytes(seqno: nat, payload: seq<Byte>)
    requires |payload| + MESSAGE_TRAILER_SIZE <= MESSAGE_PAYLOAD_MAX
    ensures var inner := Block(seqno, payload); var block := Block(seqno, inner[2..]);
            && |inner| == |payload| + MESSAGE_MIN && |block| == |inner| + MESSAGE_TRAILER_SIZE
            && block[0] == |block| && block[0 := |inner|] == inner + block[|inner|..]
  {
    hide Crc.Code;
    var inner := Block(seqno, payload);
    var block := Block(seqno, inner[2..]);
    assert block[2..|inner|] == inner[2..];
    assert inner == [inner[0], inner[1]] + inner[2..];
    assert block[0 := |inner|] == [inner[0], inner[1]] + block[2..|inner|] + block[|inner|..];
  }

  /** A block with a payload, and two neighbouring bytes of it changed: its last payload byte and the byte after it. */
  function Garbled(block: seq<Byte>): (other: seq<Byte>)
    requires MESSAGE_MIN < |block|
    ensures |other| == |block|
  {
    var k := |block| - 4;
    block[k := Crc.Flipped(block[k], 0x91)][k + 1 := Crc.Flipped(block[k + 1], 0x85)]
  }

  /** Every block with a payload has a neighbour that both readers accept in its place: the same header and length, a
    * different payload, and no more than two bytes apart. */
  lemma UndetectedNeighbour(block: seq<Byte>, rest: seq<Byte>)
    requires IsBlock(block) && MESSAGE_MIN < |block|
    ensures var other := Garbled(block); var k := |block| - 4;
            && other[..k] == block[..k] && other[k] != block[k] && other[k + 1] != block[k + 1]
            && other[k + 2..] == block[k + 2..]
            && IsBlock(other) && Check(false, other + rest) == Message(|block|) && CheckPacket(other + rest) == |block|
  {
    hide Crc.Code, Crc.Bits, Crc.Flip, Crc.Flipped, Check, CheckPacket;
    var other, k := Garbled(block), |block| - 4;
    Crc.FlippedBits(block[k], 0x91);
    Crc.FlippedBits(block[k + 1], 0x85);
    ShortBurst(block, other, k);
    CheckStable(false, other, rest);
    ReadersAgree(other + rest);
  }

  lemma HeadSlices(block: seq<Byte>, other: seq<Byte>, k: nat)
    requires |other| == |block| && k + 5 <= |block|
    requires other[..k] == block[..k] && other[k + 2..] == block[k + 2..]
    ensures var n := |block|;
            var a, b := block[..n - 3], other[..n - 3];
            && a[..k] == b[..k] && a[k + 2..] == b[k + 2..]
            && other[n - 3] == block[n - 3] && other[n - 2] == block[n - 2]
  {
    var n := |block|;
    assert block[..n - 3][..k] == block[..k] && other[..n - 3][..k] == other[..k];
    assert block[..n - 3][k + 2..] == block[k + 2..][..n - 5 - k];
    assert other[..n - 3][k + 2..] == other[k + 2..][..n - 5 - k];
    assert block[n - 3] == block[k + 2..][n - 5 - k] && other[n - 3] == other[k + 2..][n - 5 - k];
    assert block[n - 2] == block[k + 2..][n - 4 - k] && other[n - 2] == other[k + 2..][n - 4 - k];
  }

  lemma BoundaryCase(block: seq<Byte>, other: seq<Byte>)
    requires IsBlock(block) && |other| == |block|
    requires MESSAGE_MIN <= |block|
    requires var k := |block| - 4;
             && other[..k] == block[..k] && other[k + 2..] == block[k + 2..]
             && (other[k] != block[k] || other[k + 1] != block[k + 1])
    ensures var k := |block| - 4;
            IsBlock(other) <==>
            && MESSAGE_MIN < |block|
            && Crc.Bits(other[k]) == Crc.Flip(Crc.Bits(block[k]), 0x91)
            && Crc.Bits(other[k + 1]) == Crc.Flip(Crc.Bits(block[k + 1]), 0x85)
  {
    hide Crc.Code, Crc.Bits, Crc.Flip;
    var n := |block|;
    var a, b := block[..n - 3], other[..n - 3];
    assert block[..n] == block && other[..n] == other;
    BoundaryEnds(block, other);
    Crc.BoundaryBurst(a, b, other[n - 3]);
    if n == MESSAGE_MIN {
      SeqByte(block[1], other[1]);
    }
  }

  lemma BoundaryEnds(block: seq<Byte>, other: seq<Byte>)
    requires |other| == |block| && MESSAGE_MIN <= |block|
    requires var k := |block| - 4;
             && other[..k] == block[..k] && other[k + 2..] == block[k + 2..]
             && (other[k] != block[k] || other[k + 1] != block[k + 1])
    ensures var n := |block|;
            var a, b := block[..n - 3], other[..n - 3];
            && other[n - 1] == block[n - 1] && other[n - 2] == block[n - 2]
            && other[0] == block[0] && (MESSAGE_MIN < n ==> other[1] == block[1])
            && a[..|a| - 1] == b[..|b| - 1]
            && a[n - 4] == block[n - 4] && b[n - 4] == other[n - 4]
  {
    var n := |block|;
    var k := n - 4;
    assert block[n - 1] == block[k + 2..][1] && other[n - 1] == other[k + 2..][1];
    assert block[n - 2] == block[k + 2..][0] && other[n - 2] == other[k + 2..][0];
    assert block[0] == block[..k][0] && other[0] == other[..k][0];
    if MESSAGE_MIN < n {
      assert block[1] == block[..k][1] && other[1] == other[..k][1];
    }
    var a, b := block[..n - 3], other[..n - 3];
    assert a[..|a| - 1] == block[..k];
    assert b[..|b| - 1] == other[..k];
  }

  /** Flipping 0x91 in a sequence byte breaks its upper half. */
  lemma SeqByte(b: Byte, c: Byte)
    ensures 0x10 <= b < 0x20 && 0x10 <= c < 0x20 ==> Crc.Bits(c) != Crc.Flip(Crc.Bits(b), 0x91)
  {
    var b1, c1 := b / 2, c / 2;
    var b2, c2 := b1 / 2, c1 / 2;
    var b3, c3 := b2 / 2, c2 / 2;
    var b4, c4 := b3 / 2, c3 / 2;
    var b5, c5 := b4 / 2, c4 / 2;
    var b6, c6 := b5 / 2, c5 / 2;
    if 0x10 <= b < 0x20 && 0x10 <= c < 0x20 {
      assert b4 == 1 == c4 && b5 == 0 == c5 && b6 == 0 == c6;
      SeqBits(
        Crc.Bit(b), Crc.Bit(b1), Crc.Bit(b2), Crc.Bit(b3), Crc.Bit(b4), Crc.Bit(b5), Crc.Bit(b6), Crc.Bit(b6 / 2),
        Crc.Bit(c), Crc.Bit(c1), Crc.Bit(c2), Crc.Bit(c3), Crc.Bit(c4), Crc.Bit(c5), Crc.Bit(c6), Crc.Bit(c6 / 2));
    }
  }

  lemma SeqBits(b0: bv16, b1: bv16, b2: bv16, b3: bv16, b4: bv16, b5: bv16, b6: bv16, b7: bv16,
                c0: bv16, c1: bv16, c2: bv16, c3: bv16, c4: bv16, c5: bv16, c6: bv16, c7: bv16)
    requires b0 < 2 && b1 < 2 && b2 < 2 && b3 < 2 && c0 < 2 && c1 < 2 && c2 < 2 && c3 < 2
    requires b4 == 1 == c4 && b5 == b6 == b7 == 0 == c5 == c6 == c7
    ensures Crc.Pack(c0, c1, c2, c3, c4, c5, c6, c7) != Crc.Flip(Crc.Pack(b0, b1, b2, b3, b4, b5, b6, b7), 0x91)
  {
  }
}
