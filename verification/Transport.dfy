/** End to end: the sender's window, two lossy links that keep the order, and a controller that accepts the next
  * block it expects and nothing else, telling blocks apart by four bits.  The controller is assumed; its firmware
  * is not part of this model. */
module Transport {
  import opened Wire
  import opened SendWindow
  import Framing

  /** A block on its way.  The controller sees the block only; the number is kept for the proof. */
  datatype Packet = Packet(seqno: nat, block: seq<Byte>)

  /** A block of the controller on its way.  The host sees the low four bits of the number, and the length. */
  datatype Reply = Reply(seqno: nat, len: nat)

  datatype System = System(link: Link, line: Line, built: seq<seq<Byte>>, toMcu: seq<Packet>,
                           next: nat, accepted: seq<seq<Byte>>, toHost: seq<Reply>)

  /** Both ends as they start; window and frequency are learned later on. */
  function Start(can: bool): System {
    System(FRESH, Unset(can), [], [], 1, [], [])
  }

  /** The blocks a retransmission sends. */
  function Unacked(l: Link): (r: seq<Packet>)
    ensures |r| == |l.sent|
    ensures forall i :: 0 <= i < |l.sent| ==> r[i] == Packet(l.receiveSeq + i, l.sent[i].block)
  {
    seq(|l.sent|, i requires 0 <= i < |l.sent| => Packet(l.receiveSeq + i, l.sent[i].block))
  }

  function Without<T>(s: seq<T>, i: nat): seq<T>
    requires i < |s|
  {
    s[..i] + s[i + 1..]
  }

  datatype Event =
    | Send(payload: seq<Byte>, pending: nat, eventtime: real)
    | Retransmit(eventtime: real)
    | LoseToMcu(i: nat)
    | LoseToHost(i: nat)
    | McuReceives
    | McuSends(len: nat)
    | HostReceives(eventtime: real)
    | NewWindow(window: int)
    | NewFrequency(frequency: real)

  predicate Possible(s: System, e: Event) {
    match e
    case Send(payload, _, _) => Open(s.link) && |payload| <= MESSAGE_PAYLOAD_MAX
    case Retransmit(_) => true
    case LoseToMcu(i) => i < |s.toMcu|
    case LoseToHost(i) => i < |s.toHost|
    case McuReceives => s.toMcu != [] && MESSAGE_MIN <= |s.toMcu[0].block|
    case McuSends(len) => MESSAGE_MIN <= len
    case HostReceives(_) => s.toHost != []
    case NewWindow(_) => true
    case NewFrequency(frequency) => frequency != 0.0
  }

  /** The controller takes a block whose nibble is that of the next number, and answers each one with the number
    * it now expects. */
  function Receive(s: System, block: seq<Byte>): System
    requires MESSAGE_MIN <= |block|
  {
    var t := if block[1] % 0x10 != s.next % 0x10 then s
             else s.(next := s.next + 1,
                     accepted := s.accepted + [block[MESSAGE_HEADER_SIZE..|block| - MESSAGE_TRAILER_SIZE]]);
    t.(toHost := t.toHost + [Reply(t.next, MESSAGE_MIN)])
  }

  /** The host's reading of a reply: of its number it sees the nibble. */
  function Answered(l: Link, line: Line, nibble: nat, len: nat, eventtime: real): Link {
    var rseq := AckSeq(l, nibble);
    if Refused(l, rseq) then l else Acknowledged(l, line, eventtime, rseq, len)
  }

  function Step(s: System, e: Event): System
    requires Possible(s, e)
  {
    match e
    case Send(payload, pending, eventtime) =>
      var block := Framing.Block(s.link.sendSeq, payload);
      s.(link := Built(s.link, s.line, payload, pending, eventtime), built := s.built + [payload],
         toMcu := s.toMcu + [Packet(s.link.sendSeq, block)])
    case Retransmit(eventtime) =>
      s.(link := Retransmitted(s.link, s.line, eventtime), toMcu := s.toMcu + Unacked(s.link))
    case LoseToMcu(i) => s.(toMcu := Without(s.toMcu, i))
    case LoseToHost(i) => s.(toHost := Without(s.toHost, i))
    case McuReceives => Receive(s.(toMcu := s.toMcu[1..]), s.toMcu[0].block)
    case McuSends(len) => s.(toHost := s.toHost + [Reply(s.next, len)])
    case HostReceives(eventtime) =>
      var reply := s.toHost[0];
      s.(link := Answered(s.link, s.line, reply.seqno % 0x10, reply.len, eventtime), toHost := s.toHost[1..])
    case NewWindow(window) => s.(link := WindowSet(s.link, window))
    case NewFrequency(frequency) => s.(line := AtFrequency(s.line, frequency))
  }

  // The invariant.

  /** The block with this number, among those built. */
  predicate IsBuilt(built: seq<seq<Byte>>, seqno: nat, block: seq<Byte>) {
    && 1 <= seqno <= |built| && |built[seqno - 1]| <= MESSAGE_PAYLOAD_MAX
    && block == Framing.Block(seqno, built[seqno - 1])
  }

  ghost predicate SentIsBuilt(l: Link, built: seq<seq<Byte>>) {
    forall k :: 0 <= k < |l.sent| ==> IsBuilt(built, l.receiveSeq + k, l.sent[k].block)
  }

  /** A copy in transit can be confused with no other block: later copies are at most eleven numbers older. */
  ghost predicate Forward(ps: seq<Packet>, built: seq<seq<Byte>>, next: nat) {
    && (forall i :: 0 <= i < |ps| ==> IsBuilt(built, ps[i].seqno, ps[i].block) && next <= ps[i].seqno + 12)
    && forall i, j :: 0 <= i < j < |ps| ==> ps[i].seqno < ps[j].seqno + 12
  }

  /** Replies in transit never go back, and none is about a block the host has not sent. */
  ghost predicate Backward(rs: seq<Reply>, low: nat, high: nat) {
    && (forall i :: 0 <= i < |rs| ==> low <= rs[i].seqno <= high)
    && forall i, j :: 0 <= i < j < |rs| ==> rs[i].seqno <= rs[j].seqno
  }

  /** What the controller accepted are the first blocks built, each once and in order; the sender's window starts
    * at or before the block it expects next, so no block is released that was not delivered. */
  ghost predicate Delivered(s: System) {
    && 1 <= s.next && s.link.receiveSeq <= s.next <= s.link.sendSeq
    && |s.built| == s.link.sendSeq - 1
    && s.next - 1 <= |s.built| && s.accepted == s.built[..s.next - 1]
  }

  ghost predicate Safe(s: System) {
    && Sound(s.link) && Delivered(s) && SentIsBuilt(s.link, s.built)
    && Forward(s.toMcu, s.built, s.next) && Backward(s.toHost, s.link.receiveSeq, s.next)
  }

  lemma StartIsSafe(can: bool)
    ensures Safe(Start(can))
  {
    FreshIsSound();
  }

  lemma WindowBounds(l: Link)
    requires Sound(l)
    ensures 1 <= l.receiveSeq <= l.sendSeq <= l.receiveSeq + 12 && l.sendSeq == l.receiveSeq + |l.sent|
  {
  }

  lemma BuiltGrows(built: seq<seq<Byte>>, payload: seq<Byte>, seqno: nat, block: seq<Byte>)
    requires IsBuilt(built, seqno, block)
    ensures IsBuilt(built + [payload], seqno, block)
  {
    hide Framing.Block;
    assert (built + [payload])[seqno - 1] == built[seqno - 1];
  }

  lemma SendIsSafe(s: System, e: Event)
    requires Safe(s) && e.Send? && Possible(s, e)
    ensures Safe(Step(s, e))
  {
    hide Sound, Open, BitTime, Framing.Block, IsBuilt, Backward;
    WindowBounds(s.link);
    BuiltKeeps(s.link, s.line, e.payload, e.pending, e.eventtime);
    var t := Step(s, e);
    NewIsBuilt(s.built, s.link.sendSeq, e.payload);
    forall k | 0 <= k < |t.link.sent|
      ensures IsBuilt(t.built, t.link.receiveSeq + k, t.link.sent[k].block)
    {
      if k < |s.link.sent| {
        BuiltGrows(s.built, e.payload, s.link.receiveSeq + k, s.link.sent[k].block);
      }
    }
    assert Forward(t.toMcu, t.built, t.next) by {
      ForwardGrows(s, e.payload);
      NumbersBelow(s.toMcu, s.built);
    }
    assert t.built[..t.next - 1] == s.built[..s.next - 1];
  }

  lemma NewIsBuilt(built: seq<seq<Byte>>, seqno: nat, payload: seq<Byte>)
    requires |payload| <= MESSAGE_PAYLOAD_MAX && seqno == |built| + 1
    ensures IsBuilt(built + [payload], seqno, Framing.Block(seqno, payload))
  {
    hide Framing.Block;
  }

  lemma NumbersBelow(ps: seq<Packet>, built: seq<seq<Byte>>)
    requires forall i :: 0 <= i < |ps| ==> IsBuilt(built, ps[i].seqno, ps[i].block)
    ensures forall i :: 0 <= i < |ps| ==> 1 <= ps[i].seqno <= |built|
  {
    hide Framing.Block;
  }

  lemma ForwardGrows(s: System, payload: seq<Byte>)
    requires Forward(s.toMcu, s.built, s.next)
    ensures Forward(s.toMcu, s.built + [payload], s.next)
  {
    hide IsBuilt;
    forall i | 0 <= i < |s.toMcu|
      ensures IsBuilt(s.built + [payload], s.toMcu[i].seqno, s.toMcu[i].block)
    {
      BuiltGrows(s.built, payload, s.toMcu[i].seqno, s.toMcu[i].block);
    }
  }

  lemma RetransmitIsSafe(s: System, e: Event)
    requires Safe(s) && e.Retransmit? && Possible(s, e)
    ensures Safe(Step(s, e))
  {
    hide Sound, BitTime, Burst, IsBuilt, Backward;
    WindowBounds(s.link);
    RetransmittedKeeps(s.link, s.line, e.eventtime);
    NumbersBelow(s.toMcu, s.built);
  }

  lemma LoseIsSafe(s: System, e: Event)
    requires Safe(s) && (e.LoseToMcu? || e.LoseToHost?) && Possible(s, e)
    ensures Safe(Step(s, e))
  {
    hide Sound, IsBuilt, SentIsBuilt;
  }

  /** Of the blocks that can be in transit, only the next one has its nibble. */
  lemma SameNibble(a: int, b: int)
    requires a % 0x10 == b % 0x10 && -0x10 < a - b < 0x10
    ensures a == b
  {
  }

  lemma BlockRead(built: seq<seq<Byte>>, seqno: nat, block: seq<Byte>)
    requires IsBuilt(built, seqno, block)
    ensures MESSAGE_MIN <= |block| && block[1] % 0x10 == seqno % 0x10
    ensures block[MESSAGE_HEADER_SIZE..|block| - MESSAGE_TRAILER_SIZE] == built[seqno - 1]
  {
    hide Framing.Block, Framing.Check, Framing.CheckPacket;
    Framing.BlockAccepted(seqno, built[seqno - 1], []);
  }

  lemma McuReceiveIsSafe(s: System, e: Event)
    requires Safe(s) && e.McuReceives? && Possible(s, e)
    ensures Safe(Step(s, e))
  {
    hide Sound, IsBuilt, SentIsBuilt;
    WindowBounds(s.link);
    var p := s.toMcu[0];
    BlockRead(s.built, p.seqno, p.block);
    NumbersBelow(s.toMcu, s.built);
    if p.block[1] % 0x10 == s.next % 0x10 {
      SameNibble(p.seqno, s.next);
      assert s.built[..s.next] == s.built[..s.next - 1] + [s.built[s.next - 1]];
    }
  }

  lemma McuSendIsSafe(s: System, e: Event)
    requires Safe(s) && e.McuSends? && Possible(s, e)
    ensures Safe(Step(s, e))
  {
    hide Sound, IsBuilt, SentIsBuilt, Forward;
  }

  /** A reply in transit is read as exactly the number it stands for, and is never refused. */
  lemma ReplyIsRead(l: Link, seqno: nat)
    requires Sound(l) && l.receiveSeq <= seqno <= l.sendSeq
    ensures AckSeq(l, seqno % 0x10) == seqno && !Refused(l, seqno)
    ensures seqno == l.receiveSeq || Releases(l, seqno)
  {
    WindowBounds(l);
    AcceptedNibbles(l, seqno % 0x10);
    SameNibble(AckSeq(l, seqno % 0x10), seqno);
  }

  lemma HostReceiveIsSafe(s: System, e: Event)
    requires Safe(s) && e.HostReceives? && Possible(s, e)
    ensures Safe(Step(s, e))
  {
    hide Sound, IsBuilt, Forward, Acknowledged, AckSeq, Refused, Releases;
    var reply := s.toHost[0];
    ReplyIsRead(s.link, reply.seqno);
    AcknowledgedKeeps(s.link, s.line, e.eventtime, reply.seqno, reply.len);
    AckedWindow(s.link, s.line, e.eventtime, reply.seqno, reply.len);
    var t := Step(s, e);
    var k := reply.seqno - s.link.receiveSeq;
    forall i | 0 <= i < |t.link.sent|
      ensures IsBuilt(t.built, t.link.receiveSeq + i, t.link.sent[i].block)
    {
      assert t.link.sent[i] == s.link.sent[k + i];
      assert t.link.receiveSeq + i == s.link.receiveSeq + (k + i);
    }
  }

  lemma AckedWindow(l: Link, line: Line, eventtime: real, rseq: nat, len: nat)
    requires Sound(l) && (rseq == l.receiveSeq || Releases(l, rseq))
    ensures var a := Acknowledged(l, line, eventtime, rseq, len);
            && a.receiveSeq == rseq && a.sendSeq == l.sendSeq
            && rseq - l.receiveSeq <= |l.sent| && a.sent == l.sent[rseq - l.receiveSeq..]
  {
    hide Numbered, Bytes, BitTime, Clamp;
  }

  lemma NewWindowIsSafe(s: System, e: Event)
    requires Safe(s) && e.NewWindow? && Possible(s, e)
    ensures Safe(Step(s, e))
  {
    hide Sound, IsBuilt, Forward, Backward;
    WindowSetKeeps(s.link, e.window);
  }

  lemma NewFrequencyIsSafe(s: System, e: Event)
    requires Safe(s) && e.NewFrequency? && Possible(s, e)
    ensures Safe(Step(s, e))
  {
    hide Sound, IsBuilt, Forward, Backward;
  }

  lemma StepIsSafe(s: System, e: Event)
    requires Safe(s) && Possible(s, e)
    ensures Safe(Step(s, e))
  {
    hide Safe, Step, Possible;
    match e
    case Send(_, _, _) => SendIsSafe(s, e);
    case Retransmit(_) => RetransmitIsSafe(s, e);
    case LoseToMcu(_) => LoseIsSafe(s, e);
    case LoseToHost(_) => LoseIsSafe(s, e);
    case McuReceives => McuReceiveIsSafe(s, e);
    case McuSends(_) => McuSendIsSafe(s, e);
    case HostReceives(_) => HostReceiveIsSafe(s, e);
    case NewWindow(_) => NewWindowIsSafe(s, e);
    case NewFrequency(_) => NewFrequencyIsSafe(s, e);
  }

  predicate IsRun(s: System, es: seq<Event>)
    decreases |es|
  {
    es == [] || (Possible(s, es[0]) && IsRun(Step(s, es[0]), es[1..]))
  }

  function Run(s: System, es: seq<Event>): System
    requires IsRun(s, es)
    decreases |es|
  {
    if es == [] then s else Run(Step(s, es[0]), es[1..])
  }

  lemma {:induction false} RunIsSafe(s: System, es: seq<Event>)
    requires Safe(s) && IsRun(s, es)
    ensures Safe(Run(s, es))
    decreases |es|
  {
    hide Safe, Step, Possible;
    if es != [] {
      StepIsSafe(s, es[0]);
      RunIsSafe(Step(s, es[0]), es[1..]);
    }
  }

  /** Exactly once, in order: after any run, whatever was lost or retransmitted, the blocks the controller accepted
    * are a prefix of the blocks built; the sender's window starts no later than the block the controller expects
    * and ends no earlier. */
  lemma ExactlyOnceInOrder(can: bool, es: seq<Event>)
    requires IsRun(Start(can), es)
    ensures var s := Run(Start(can), es);
            && s.accepted <= s.built && |s.accepted| == s.next - 1
            && s.link.receiveSeq <= s.next <= s.link.sendSeq
  {
    hide Run, IsRun, Sound;
    StartIsSafe(can);
    RunIsSafe(Start(can), es);
    var s := Run(Start(can), es);
    assert s.built[..s.next - 1] <= s.built;
  }

  /** After any run the next reply is read as exactly the number it stands for, so that a connection that started in
    * step is never taken for a new one. */
  lemma RepliesAreRead(can: bool, es: seq<Event>)
    requires IsRun(Start(can), es)
    ensures var s := Run(Start(can), es);
            s.toHost != [] ==>
              var seqno := s.toHost[0].seqno;
              AckSeq(s.link, seqno % 0x10) == seqno && (seqno == s.link.receiveSeq || Releases(s.link, seqno))
  {
    hide Run, IsRun, Sound, AckSeq, Releases;
    StartIsSafe(can);
    RunIsSafe(Start(can), es);
    var s := Run(Start(can), es);
    if s.toHost != [] {
      ReplyIsRead(s.link, s.toHost[0].seqno);
    }
  }
}
