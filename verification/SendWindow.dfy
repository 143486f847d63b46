/** The sender's window: blocks in flight, acknowledgements, retransmission and round trip times. */
module SendWindow {
  import opened RealMath
  import opened Wire
  import Framing

  const MIN_RTO := 0.025
  const MAX_RTO := 5.0
  const MAX_PENDING_BLOCKS := 12

  datatype Timer = Now | Never | At(time: real)

  /** The transport underneath, with the seconds one bit or byte takes on it. */
  datatype Line = Uart(adjust: real) | Can(adjust: real)

  /** The line before its frequency is known; no time passes on it. */
  function Unset(can: bool): Line {
    if can then Can(0.0) else Uart(0.0)
  }

  /** serialqueue_set_wire_frequency: a byte on a serial line takes ten bits. */
  function AtFrequency(line: Line, frequency: real): Line
    requires frequency != 0.0
  {
    match line
    case Uart(_) => Uart(10.0 / frequency)
    case Can(_) => Can(1.0 / frequency)
  }

  /** calculate_bittime: on CAN, frames of eight bytes with 47 bits of packaging, less the last gap of 4. */
  function BitTime(line: Line, bytes: nat): real {
    match line
    case Uart(adjust) => adjust * bytes as real
    case Can(adjust) => adjust * U32(bytes * 8 + (bytes + 7) / 8 * 47 - 4) as real
  }

  /** An entry of the sent queue. */
  datatype InFlight = InFlight(block: seq<Byte>, sentTime: real, receiveTime: real)

  /** The fields of struct serialqueue that the window is made of.  The debug-file value -1 of receive_seq is not
    * part of this model. */
  datatype Link = Link(
    sendSeq: nat, receiveSeq: nat, sent: seq<InFlight>,
    needAckBytes: int, lastAckBytes: nat, lastAckSeq: nat,
    ignoreNakSeq: nat, retransmitSeq: nat, rttSampleSeq: nat,
    srtt: real, rttvar: real, rto: real, lastReceiveSentTime: real,
    idleTime: real, timer: Timer, receiveWindow: int)

  /** serialqueue_alloc. */
  const FRESH := Link(1, 1, [], 0, 0, 0, 0, 0, 0, 0.0, 0.0, MIN_RTO, 0.0, 0.0, Never, 0)

  function Bytes(sent: seq<InFlight>): nat {
    if sent == [] then 0 else Bytes(sent[..|sent| - 1]) + |sent[|sent| - 1].block|
  }

  lemma {:induction false} BytesAppend(a: seq<InFlight>, b: seq<InFlight>)
    ensures Bytes(a + b) == Bytes(a) + Bytes(b)
    decreases |b|
  {
    if b == [] {
      assert a + b == a;
    } else {
      assert (a + b)[..|a + b| - 1] == a + b[..|b| - 1];
      BytesAppend(a, b[..|b| - 1]);
    }
  }

  lemma BytesSplit(sent: seq<InFlight>, k: nat)
    requires k <= |sent|
    ensures Bytes(sent) == Bytes(sent[..k]) + Bytes(sent[k..])
  {
    assert sent == sent[..k] + sent[k..];
    BytesAppend(sent[..k], sent[k..]);
  }

  // Acknowledgements.

  /** The sequence number an acknowledgement with this nibble stands for. */
  function AckSeq(l: Link, nibble: nat): nat {
    l.receiveSeq + (nibble - l.receiveSeq) % 0x10
  }

  /** An acknowledgement of something not sent is refused, except before the first one. */
  predicate Refused(l: Link, rseq: nat) {
    rseq != l.receiveSeq && rseq > l.sendSeq && l.receiveSeq != 1
  }

  predicate Releases(l: Link, rseq: nat) {
    l.receiveSeq < rseq <= l.receiveSeq + |l.sent|
  }

  /** The first loop of update_receive_seq: blocks are released up to the one acknowledged, or all of them when
    * that one was never sent, which is taken for the start of a connection. */
  function Release(l: Link, rseq: nat): Link {
    if Releases(l, rseq) then
      var k := rseq - l.receiveSeq;
      var last := l.sent[k - 1];
      l.(receiveSeq := rseq, sent := l.sent[k..], needAckBytes := l.needAckBytes - Bytes(l.sent[..k]),
         lastReceiveSentTime := last.receiveTime, lastAckBytes := |last.block|)
    else
      l.(receiveSeq := rseq, sent := [], needAckBytes := l.needAckBytes - Bytes(l.sent),
         sendSeq := rseq, lastReceiveSentTime := 0.0)
  }

  predicate Samples(l: Link) {
    l.rttSampleSeq != 0 && l.receiveSeq > l.rttSampleSeq && l.lastReceiveSentTime != 0.0
  }

  function Clamp(rto: real): real {
    if rto < MIN_RTO then MIN_RTO else if rto > MAX_RTO then MAX_RTO else rto
  }

  /** The round trip calculation of section 2 of RFC 6298, with the source's first estimate. */
  function Sampled(l: Link, delta: real): Link {
    var rttvar := if l.srtt == 0.0 then delta / 2.0 else (3.0 * l.rttvar + Abs(l.srtt - delta)) / 4.0;
    var srtt := if l.srtt == 0.0 then delta * 10.0 else (7.0 * l.srtt + delta) / 8.0;
    l.(srtt := srtt, rttvar := rttvar, rto := Clamp(srtt + Max(rttvar * 4.0, 0.001)), rttSampleSeq := 0)
  }

  function Rearmed(l: Link, line: Line, eventtime: real): Link {
    l.(timer := if l.sent == [] then Never else At(eventtime + l.rto + BitTime(line, |l.sent[0].block|)))
  }

  /** update_receive_seq. */
  function UpdateReceiveSeq(l: Link, line: Line, eventtime: real, rseq: nat): Link {
    var r := Release(l, rseq);
    Rearmed(if Samples(r) then Sampled(r, eventtime - r.lastReceiveSentTime) else r, line, eventtime)
  }

  function Advanced(l: Link, line: Line, eventtime: real, rseq: nat): Link {
    if rseq == l.receiveSeq then l else UpdateReceiveSeq(l, line, eventtime, rseq)
  }

  /** The bookkeeping of a block without data: the first one with its number is an ack, another one a nak, which
    * asks for a retransmission unless one for it is under way. */
  function AckOrNak(l: Link): Link {
    if l.lastAckSeq < l.receiveSeq then l.(lastAckSeq := l.receiveSeq)
    else if l.receiveSeq > l.ignoreNakSeq && l.sent != [] then l.(timer := Now)
    else l
  }

  /** What an accepted block of len bytes does to the window. */
  function Acknowledged(l: Link, line: Line, eventtime: real, rseq: nat, len: nat): Link {
    var a := Advanced(l, line, eventtime, rseq);
    if len == MESSAGE_MIN then AckOrNak(a) else a
  }

  // Sending.

  function Blocks(sent: seq<InFlight>): seq<seq<Byte>> {
    if sent == [] then [] else Blocks(sent[..|sent| - 1]) + [sent[|sent| - 1].block]
  }

  /** The bytes of a retransmission. */
  function Burst(l: Link): seq<Byte> {
    [MESSAGE_SYNC] + Concat(Blocks(l.sent))
  }

  /** retransmit_event; a timer of Now means that a nak caused it. */
  function Retransmitted(l: Link, line: Line, eventtime: real): Link {
    var nak := l.timer == Now;
    var rto := if nak then l.rto else Min(l.rto * 2.0, MAX_RTO);
    var ignore :=
      if !nak then l.sendSeq else if l.receiveSeq < l.retransmitSeq then l.retransmitSeq else l.receiveSeq;
    var first := if l.sent == [] then 0 else |l.sent[0].block| + 1;
    l.(rto := rto, ignoreNakSeq := ignore, retransmitSeq := l.sendSeq, rttSampleSeq := 0,
       idleTime := eventtime + BitTime(line, |Burst(l)|),
       timer := At(eventtime + rto + BitTime(line, first)))
  }

  /** The part of build_and_send_command that stores the block; `pending` bytes are waiting to be written. */
  function Built(l: Link, line: Line, payload: seq<Byte>, pending: nat, eventtime: real): Link
    requires |payload| <= MESSAGE_PAYLOAD_MAX
  {
    var block := Framing.Block(l.sendSeq, payload);
    var idletime := Max(l.idleTime, eventtime) + BitTime(line, pending + |block|);
    l.(sent := l.sent + [InFlight(block, eventtime, idletime)],
       timer := if l.sent == [] then At(idletime + l.rto) else l.timer,
       rttSampleSeq := if l.rttSampleSeq == 0 then l.sendSeq else l.rttSampleSeq,
       sendSeq := l.sendSeq + 1, needAckBytes := l.needAckBytes + |block|)
  }

  /** The first part of check_send_command: whether the window lets another block out. */
  predicate Open(l: Link) {
    && l.sendSeq - l.receiveSeq < MAX_PENDING_BLOCKS
    && (l.sendSeq > l.receiveSeq && l.receiveWindow != 0 ==>
        l.needAckBytes + MESSAGE_MAX + (if l.lastAckSeq < l.receiveSeq then l.lastAckBytes else 0) <= l.receiveWindow)
  }

  // What every step keeps.

  /** A complete block with this sequence nibble. */
  predicate Carries(block: seq<Byte>, nibble: nat) {
    2 <= |block| && Framing.IsBlock(block) && block[1] % 0x10 == nibble
  }

  ghost predicate Numbered(l: Link) {
    forall k :: 0 <= k < |l.sent| ==> Carries(l.sent[k].block, (l.receiveSeq + k) % 0x10)
  }

  /** The bytes that may lie in the controller's receive buffer: what is in flight, and the last block that was
    * acknowledged, until an empty block confirms that it was taken out. */
  function Occupied(l: Link): int {
    l.needAckBytes + if l.lastAckSeq < l.receiveSeq then l.lastAckBytes else 0
  }

  /** That fits a receive window of this size; one block is always let out. */
  predicate Fits(l: Link, window: int) {
    window != 0 ==> Occupied(l) <= window || |l.sent| <= 1
  }

  predicate WithinWindow(l: Link) {
    Fits(l, l.receiveWindow)
  }

  /** The window: at most twelve blocks in flight, exactly those between the two sequence numbers, their bytes
    * counted exactly, and a timeout in its range. */
  ghost predicate Sound(l: Link) {
    && 1 <= l.receiveSeq && l.sendSeq == l.receiveSeq + |l.sent| && |l.sent| <= MAX_PENDING_BLOCKS
    && l.needAckBytes == Bytes(l.sent)
    && l.retransmitSeq <= l.sendSeq
    && MIN_RTO <= l.rto <= MAX_RTO
    && Numbered(l)
  }

  lemma FreshIsSound()
    ensures Sound(FRESH) && WithinWindow(FRESH)
  {
  }

  lemma ClampBounds(x: real)
    ensures MIN_RTO <= Clamp(x) <= MAX_RTO
  {
  }

  lemma NumberedTail(l: Link, r: Link, k: nat)
    requires Numbered(l) && k <= |l.sent| && r.sent == l.sent[k..] && r.receiveSeq == l.receiveSeq + k
    ensures Numbered(r)
  {
    hide Carries;
    forall i | 0 <= i < |r.sent|
      ensures Carries(r.sent[i].block, (r.receiveSeq + i) % 0x10)
    {
      assert r.sent[i] == l.sent[k + i];
      assert r.receiveSeq + i == l.receiveSeq + (k + i);
    }
  }

  lemma ReleaseKeeps(l: Link, rseq: nat)
    requires Sound(l) && l.receiveSeq < rseq && !Refused(l, rseq)
    ensures Sound(Release(l, rseq)) && Release(l, rseq).receiveSeq == rseq
  {
    hide Numbered, Bytes;
    var r := Release(l, rseq);
    if Releases(l, rseq) {
      var k := rseq - l.receiveSeq;
      BytesSplit(l.sent, k);
      NumberedTail(l, r, k);
    } else {
      NoneLeft(r);
    }
  }

  lemma NoneLeft(l: Link)
    requires l.sent == []
    ensures Numbered(l) && Bytes(l.sent) == 0
  {
  }

  lemma SampledKeeps(l: Link, delta: real)
    requires Sound(l)
    ensures Sound(Sampled(l, delta))
  {
    hide Carries, Clamp;
    var s := Sampled(l, delta);
    ClampBounds(s.srtt + Max(s.rttvar * 4.0, 0.001));
  }

  lemma TimerKeeps(l: Link, timer: Timer)
    requires Sound(l)
    ensures Sound(l.(timer := timer))
  {
    hide Carries;
  }

  lemma UpdateKeeps(l: Link, line: Line, eventtime: real, rseq: nat)
    requires Sound(l) && l.receiveSeq < rseq && !Refused(l, rseq)
    ensures Sound(UpdateReceiveSeq(l, line, eventtime, rseq))
    ensures UpdateReceiveSeq(l, line, eventtime, rseq).receiveSeq == rseq
  {
    hide Sound, Release, Clamp, BitTime;
    ReleaseKeeps(l, rseq);
    var r := Release(l, rseq);
    SampledKeeps(r, eventtime - r.lastReceiveSentTime);
    var s := if Samples(r) then Sampled(r, eventtime - r.lastReceiveSentTime) else r;
    TimerKeeps(s, Rearmed(s, line, eventtime).timer);
  }

  lemma AckOrNakKeeps(l: Link)
    requires Sound(l)
    ensures Sound(AckOrNak(l))
  {
    hide Carries;
  }

  /** Every accepted block, a first one of a connection included, keeps the window sound. */
  lemma AcknowledgedKeeps(l: Link, line: Line, eventtime: real, rseq: nat, len: nat)
    requires Sound(l) && l.receiveSeq <= rseq && !Refused(l, rseq)
    ensures Sound(Acknowledged(l, line, eventtime, rseq, len))
    ensures Acknowledged(l, line, eventtime, rseq, len).receiveSeq == rseq
  {
    hide Sound, UpdateReceiveSeq;
    if rseq != l.receiveSeq {
      UpdateKeeps(l, line, eventtime, rseq);
    }
    AckOrNakKeeps(Advanced(l, line, eventtime, rseq));
  }

  lemma RetransmittedKeeps(l: Link, line: Line, eventtime: real)
    requires Sound(l)
    ensures Sound(Retransmitted(l, line, eventtime))
  {
    hide Carries, Burst, BitTime;
  }

  lemma BuiltKeeps(l: Link, line: Line, payload: seq<Byte>, pending: nat, eventtime: real)
    requires Sound(l) && Open(l) && |payload| <= MESSAGE_PAYLOAD_MAX
    ensures Sound(Built(l, line, payload, pending, eventtime))
  {
    hide Carries, BitTime, Framing.Block;
    var b := Built(l, line, payload, pending, eventtime);
    var out := b.sent[|l.sent|];
    assert b.sent[..|b.sent| - 1] == l.sent;
    NewBlock(l.sendSeq, payload);
    forall i | 0 <= i < |b.sent|
      ensures Carries(b.sent[i].block, (b.receiveSeq + i) % 0x10)
    {
      if i < |l.sent| {
        assert b.sent[i] == l.sent[i];
      }
    }
    assert l.sent == [] ==> Bytes(l.sent) == 0;
  }

  lemma NewBlock(seqno: nat, payload: seq<Byte>)
    requires |payload| <= MESSAGE_PAYLOAD_MAX
    ensures Carries(Framing.Block(seqno, payload), seqno % 0x10)
  {
    hide Framing.Block, Framing.Check, Framing.CheckPacket;
    Framing.BlockAccepted(seqno, payload, []);
  }

  // The receive window.

  /** Acknowledging takes bytes out of flight, never in. */
  lemma AcknowledgedWithin(l: Link, line: Line, eventtime: real, rseq: nat, len: nat)
    requires WithinWindow(l)
    ensures WithinWindow(Acknowledged(l, line, eventtime, rseq, len))
  {
    hide BitTime, Clamp, Release, Samples;
    ReleaseWithin(l, rseq);
  }

  lemma ReleaseWithin(l: Link, rseq: nat)
    requires WithinWindow(l)
    ensures WithinWindow(Release(l, rseq))
  {
    if Releases(l, rseq) {
      var out := l.sent[..rseq - l.receiveSeq];
      assert out[|out| - 1] == l.sent[rseq - l.receiveSeq - 1];
    }
  }

  lemma RetransmittedWithin(l: Link, line: Line, eventtime: real)
    ensures WithinWindow(Retransmitted(l, line, eventtime)) == WithinWindow(l)
  {
    hide Burst, BitTime;
  }

  /** While more is in flight than the window holds, nothing is sent; and a block that is sent leaves no more in flight
    * than the window holds, whatever was in flight before. */
  lemma BuiltWithin(l: Link, line: Line, payload: seq<Byte>, pending: nat, eventtime: real)
    requires Sound(l) && |payload| <= MESSAGE_PAYLOAD_MAX
    ensures !WithinWindow(l) ==> !Open(l)
    ensures Open(l) ==> WithinWindow(Built(l, line, payload, pending, eventtime))
  {
    hide Carries, BitTime, Framing.Block;
    NewBlock(l.sendSeq, payload);
    BlockLength(Framing.Block(l.sendSeq, payload), l.sendSeq % 0x10);
    if l.sent == [] {
      assert Bytes(l.sent) == 0;
    }
  }

  /** A block is let out whenever there is a place for it: fewer than twelve are in flight, and the receive buffer holds
    * even the largest one in addition, or has no limit, or nothing is in flight. */
  lemma OpenMeans(l: Link)
    requires Sound(l)
    ensures Open(l) <==> |l.sent| < 12 && (l.sent == [] || l.receiveWindow == 0 || Occupied(l) + 64 <= l.receiveWindow)
  {
    hide Numbered, Bytes;
  }

  /** serialqueue_set_receive_window. */
  function WindowSet(l: Link, window: int): Link {
    l.(receiveWindow := window)
  }

  /** A new window leaves the rest as it is; it is kept at once exactly when what is in flight fits it. */
  lemma WindowSetKeeps(l: Link, window: int)
    requires Sound(l)
    ensures Sound(WindowSet(l, window)) && Armed(WindowSet(l, window)) == Armed(l)
    ensures WithinWindow(WindowSet(l, window)) <==> Fits(l, window)
  {
    hide Carries;
  }

  // The retransmission timer.

  /** Blocks are in flight exactly when the retransmission timer is set, so none can be forgotten. */
  predicate Armed(l: Link) {
    l.sent == [] <==> l.timer == Never
  }

  lemma AcknowledgedArmed(l: Link, line: Line, eventtime: real, rseq: nat, len: nat)
    requires Armed(l) && l.receiveSeq <= rseq
    ensures Armed(Acknowledged(l, line, eventtime, rseq, len))
  {
    hide BitTime, Clamp, Bytes;
  }

  lemma BuiltArmed(l: Link, line: Line, payload: seq<Byte>, pending: nat, eventtime: real)
    requires Armed(l) && |payload| <= MESSAGE_PAYLOAD_MAX
    ensures Armed(Built(l, line, payload, pending, eventtime))
  {
    hide BitTime, Framing.Block;
  }

  lemma RetransmittedArmed(l: Link, line: Line, eventtime: real)
    requires Armed(l) && l.timer != Never
    ensures Armed(Retransmitted(l, line, eventtime))
  {
    hide BitTime, Burst;
  }

  // Naks.

  /** A block received by the host, as far as the window sees it. */
  datatype Frame = Frame(nibble: nat, len: nat, eventtime: real)

  function Framed(l: Link, line: Line, f: Frame): Link {
    if Refused(l, AckSeq(l, f.nibble)) then l
    else Acknowledged(l, line, f.eventtime, AckSeq(l, f.nibble), f.len)
  }

  function FramedAll(l: Link, line: Line, fs: seq<Frame>): Link {
    if fs == [] then l else Framed(FramedAll(l, line, fs[..|fs| - 1]), line, fs[|fs| - 1])
  }

  /** No nak starts a retransmission while the window's start has not passed the point up to which they are
    * ignored. */
  predicate Calm(l: Link, upTo: nat) {
    l.ignoreNakSeq == upTo && (l.timer == Now ==> upTo < l.receiveSeq)
  }

  lemma {:induction false} CalmStays(l: Link, line: Line, fs: seq<Frame>, upTo: nat)
    requires Calm(l, upTo)
    ensures Calm(FramedAll(l, line, fs), upTo) && l.receiveSeq <= FramedAll(l, line, fs).receiveSeq
  {
    hide BitTime, Clamp, Bytes;
    if fs != [] {
      CalmStays(l, line, fs[..|fs| - 1], upTo);
    }
  }

  /** The point up to which a retransmission has naks ignored: one for a timeout, all that was sent; one for a nak, what
    * an earlier retransmission sent, or the start of the window when that is past it. */
  function IgnoredUpTo(l: Link): nat {
    if l.timer != Now then l.sendSeq else if l.receiveSeq < l.retransmitSeq then l.retransmitSeq else l.receiveSeq
  }

  /** After a retransmission for a timeout, no frame starts another one before everything sent by then is
    * acknowledged; after one for a nak, none before the window has moved; and after a second one for naks of the
    * same retransmission, none before everything sent by the first one is acknowledged. */
  lemma NaksAreIgnored(l: Link, line: Line, eventtime: real, fs: seq<Frame>)
    requires Sound(l)
    ensures var r := FramedAll(Retransmitted(l, line, eventtime), line, fs);
            r.timer == Now ==> IgnoredUpTo(l) < r.receiveSeq
  {
    hide BitTime, Burst, Numbered, Bytes, FramedAll;
    var r := Retransmitted(l, line, eventtime);
    CalmStays(r, line, fs, r.ignoreNakSeq);
  }

  /** A nak is an empty block that repeats a number already acknowledged, while that number is past the point up to
    * which naks are ignored and blocks from it on are in flight: it makes the retransmission due at once, and of the
    * blocks received nothing else does.  An empty block that is new is remembered as the newest acknowledgement. */
  lemma NakMeans(l: Link, line: Line, eventtime: real, rseq: nat, len: nat)
    requires Sound(l) && l.timer != Now && l.receiveSeq <= rseq
    ensures var a := Acknowledged(l, line, eventtime, rseq, len);
            && (a.timer == Now <==> len == MESSAGE_MIN && l.ignoreNakSeq < rseq <= l.lastAckSeq && rseq < l.sendSeq)
            && a.lastAckSeq == if len == MESSAGE_MIN && l.lastAckSeq < rseq then rseq else l.lastAckSeq
  {
    hide Advanced, Sound;
    AdvancedIs(l, line, eventtime, rseq);
  }

  lemma AdvancedIs(l: Link, line: Line, eventtime: real, rseq: nat)
    requires Sound(l) && l.receiveSeq <= rseq
    ensures var a := Advanced(l, line, eventtime, rseq);
            && a.receiveSeq == rseq && (rseq < l.sendSeq ==> a.sendSeq == l.sendSeq)
            && (a.sent != [] <==> rseq < l.sendSeq)
            && a.ignoreNakSeq == l.ignoreNakSeq && a.lastAckSeq == l.lastAckSeq
            && (l.timer != Now ==> a.timer != Now)
  {
    hide BitTime, Clamp, Bytes, Carries, Samples;
  }

  /** A first acknowledgement past the ignored point, received once more: the window stands at its number, and the
    * retransmission is due. */
  lemma RepeatedIsNak(l: Link, line: Line, f: Frame)
    requires Sound(l) && f.nibble < 0x10 && f.len == MESSAGE_MIN && !Refused(l, AckSeq(l, f.nibble))
    requires l.ignoreNakSeq < AckSeq(l, f.nibble) < l.sendSeq
    ensures Framed(Framed(l, line, f), line, f).timer == Now
  {
    hide BitTime, Clamp, Bytes, Carries, Release, Sampled;
    AcceptedNibbles(l, f.nibble);
    var rseq := AckSeq(l, f.nibble);
    var a := Framed(l, line, f);
    AcknowledgedKeeps(l, line, f.eventtime, rseq, f.len);
    StillInFlight(l, line, f.eventtime, rseq, f.len);
    SameNumber(a, f.nibble);
  }

  lemma SameNumber(l: Link, nibble: nat)
    requires l.receiveSeq % 0x10 == nibble
    ensures AckSeq(l, nibble) == l.receiveSeq
  {
    DeltaOf(nibble - l.receiveSeq, 0 - 0x10 * (l.receiveSeq / 0x10), 0, 0 - l.receiveSeq / 0x10);
  }

  lemma StillInFlight(l: Link, line: Line, eventtime: real, rseq: nat, len: nat)
    requires Sound(l) && l.receiveSeq <= rseq < l.sendSeq
    ensures var a := Acknowledged(l, line, eventtime, rseq, len);
            && a.sent != [] && a.sendSeq == l.sendSeq && a.ignoreNakSeq == l.ignoreNakSeq
            && (len == MESSAGE_MIN ==> rseq <= a.lastAckSeq)
  {
    hide Advanced, Sound;
    AdvancedIs(l, line, eventtime, rseq);
  }

  /** The other half of `NaksAreIgnored`: after a retransmission and any frames, an acknowledgement past that point that
    * is repeated while blocks from it on are in flight starts another one. */
  lemma NaksAreHeard(l: Link, line: Line, eventtime: real, fs: seq<Frame>, f: Frame)
    requires Sound(l) && f.nibble < 0x10 && f.len == MESSAGE_MIN
    requires var s := FramedAll(Retransmitted(l, line, eventtime), line, fs);
             !Refused(s, AckSeq(s, f.nibble)) && IgnoredUpTo(l) < AckSeq(s, f.nibble) < s.sendSeq
    ensures FramedAll(Retransmitted(l, line, eventtime), line, fs + [f, f]).timer == Now
  {
    hide Sound, BitTime, Burst, FramedAll, AckSeq, Refused, Framed;
    var r := Retransmitted(l, line, eventtime);
    RetransmittedKeeps(l, line, eventtime);
    CalmStays(r, line, fs, r.ignoreNakSeq);
    FramedAllKeeps(r, line, fs);
    TwoMore(r, line, fs, f);
    RepeatedIsNak(FramedAll(r, line, fs), line, f);
  }

  lemma {:induction false} FramedAllKeeps(l: Link, line: Line, fs: seq<Frame>)
    requires Sound(l)
    ensures Sound(FramedAll(l, line, fs))
  {
    hide Sound, Acknowledged, Refused;
    if fs != [] {
      FramedAllKeeps(l, line, fs[..|fs| - 1]);
      var s, f := FramedAll(l, line, fs[..|fs| - 1]), fs[|fs| - 1];
      if !Refused(s, AckSeq(s, f.nibble)) {
        AcknowledgedKeeps(s, line, f.eventtime, AckSeq(s, f.nibble), f.len);
      }
    }
  }

  lemma TwoMore(l: Link, line: Line, fs: seq<Frame>, f: Frame)
    ensures FramedAll(l, line, fs + [f, f]) == Framed(Framed(FramedAll(l, line, fs), line, f), line, f)
  {
    hide FramedAll, Framed;
    OneMore(l, line, fs, f);
    OneMore(l, line, fs + [f], f);
    assert fs + [f] + [f] == fs + [f, f];
  }

  lemma OneMore(l: Link, line: Line, fs: seq<Frame>, f: Frame)
    ensures FramedAll(l, line, fs + [f]) == Framed(FramedAll(l, line, fs), line, f)
  {
    hide Framed;
    assert (fs + [f])[..|fs|] == fs;
  }

  /** Which nibbles are accepted: those of the window and, before the first acknowledgement, all. */
  lemma AcceptedNibbles(l: Link, nibble: nat)
    requires Sound(l) && nibble < 0x10
    ensures var rseq := AckSeq(l, nibble);
            && rseq % 0x10 == nibble && l.receiveSeq <= rseq < l.receiveSeq + 0x10
            && (!Refused(l, rseq) <==> rseq <= l.sendSeq || l.receiveSeq == 1)
  {
    hide Carries;
    var d := (nibble - l.receiveSeq) % 0x10;
    var q := (nibble - l.receiveSeq) / 0x10;
    assert nibble - l.receiveSeq == q * 0x10 + d;
    NibbleOf(l.receiveSeq + d, nibble, -q);
  }

  lemma NibbleOf(x: nat, nibble: nat, q: int)
    requires x == nibble + q * 0x10 && nibble < 0x10
    ensures x % 0x10 == nibble
  {
  }

  /** Once the first acknowledgement is in, one that is one to three blocks stale is always refused. */
  lemma StaleIsRefused(l: Link, stale: nat)
    requires Sound(l) && l.receiveSeq != 1 && 1 <= stale <= 3 && stale <= l.receiveSeq
    ensures Refused(l, AckSeq(l, (l.receiveSeq - stale) % 0x10))
  {
    hide Carries;
    var n := (l.receiveSeq - stale) % 0x10;
    var q := (l.receiveSeq - stale) / 0x10;
    assert n == l.receiveSeq - stale - q * 0x10;
    DeltaOf(n - l.receiveSeq, 0 - stale - q * 0x10, 0x10 - stale, 0 - q - 1);
  }

  lemma DeltaOf(x: int, y: int, d: int, q: int)
    requires x == y && y == q * 0x10 + d && 0 <= d < 0x10
    ensures x % 0x10 == d
  {
  }

  // The retransmission.

  lemma {:induction false} BlocksOf(sent: seq<InFlight>)
    ensures |Blocks(sent)| == |sent| && |Concat(Blocks(sent))| == Bytes(sent)
    ensures forall k :: 0 <= k < |sent| ==> Blocks(sent)[k] == sent[k].block
    decreases |sent|
  {
    if sent != [] {
      var n := |sent| - 1;
      BlocksOf(sent[..n]);
      ConcatSnoc(Blocks(sent[..n]), sent[n].block);
    }
  }

  lemma {:induction false} BytesBound(sent: seq<InFlight>)
    requires forall k :: 0 <= k < |sent| ==> |sent[k].block| <= MESSAGE_MAX
    ensures Bytes(sent) <= MESSAGE_MAX * |sent|
    decreases |sent|
  {
    if sent != [] {
      BytesBound(sent[..|sent| - 1]);
    }
  }

  lemma BlockLength(block: seq<Byte>, nibble: nat)
    requires Carries(block, nibble)
    ensures MESSAGE_MIN <= |block| <= MESSAGE_MAX
  {
    hide Framing.Check;
    Framing.CheckBounds(false, block);
  }

  /** A retransmission fits its buffer, and any reader, whether it lost its place or not, takes from it exactly
    * the blocks not yet acknowledged, in order. */
  lemma BurstIsUnacked(l: Link, needSync: bool)
    requires Sound(l) && l.sent != []
    ensures |Burst(l)| == 1 + l.needAckBytes <= MESSAGE_MAX * MAX_PENDING_BLOCKS + 1
    ensures Framing.Drain(Framing.Input(needSync, Burst(l)))
         == Framing.Drained(Framing.Input(false, []), Blocks(l.sent), 1)
    ensures |Blocks(l.sent)| == l.sendSeq - l.receiveSeq
  {
    hide Framing.Check, Framing.Drain;
    BlocksOf(l.sent);
    forall k | 0 <= k < |l.sent|
      ensures |l.sent[k].block| <= MESSAGE_MAX
    {
      BlockLength(l.sent[k].block, (l.receiveSeq + k) % 0x10);
    }
    BytesBound(l.sent);
    forall b | b in Blocks(l.sent)
      ensures Framing.IsBlock(b)
    {
      var k :| 0 <= k < |l.sent| && Blocks(l.sent)[k] == b;
      assert Carries(l.sent[k].block, (l.receiveSeq + k) % 0x10);
    }
    Framing.BurstDelivered(needSync, Blocks(l.sent));
  }
}
