/** The serial queue as one state: window, command queues, notifications and received messages, with a record of
  * what went through it.  Each transition is one section that the source runs under its lock. */
module SerialProtocol {
  import opened RealMath
  import opened Wire
  import opened Clocks
  import opened SendWindow
  import opened KarnRule
  import opened CommandScheduler

  const MIN_REQTIME_DELTA := 0.25
  const MIN_BACKGROUND_DELTA := 0.005

  /** An entry of the notify queue: a message that asked for a notification, and the block it went out in. */
  datatype Note = Note(msg: Msg, seqno: nat)

  /** An entry of the receive queue: a notification, or a message from the controller. */
  datatype Received =
    | Acked(note: Note, sentTime: real, receiveTime: real)
    | Data(block: seq<Byte>, sentTime: real, receiveTime: real)

  /** A message that left its command queue in the block of that number. */
  datatype Shipped = Shipped(id: nat, msg: Msg, seqno: nat)

  /** What went through the queue so far. */
  datatype Log = Log(enqueued: seq<Packed>, shipped: seq<Shipped>, fired: seq<Note>, pulled: seq<Received>,
                     trace: Trace, written: seq<Byte>)

  datatype Queue = Queue(link: Link, sched: Sched, notes: seq<Note>, received: seq<Received>, command: Timer,
                         bytesInvalid: nat, log: Log)

  const EMPTY_LOG := Log([], [], [], [], map[], [])

  /** A queue as it is allocated, without a receive window. */
  const FRESH_QUEUE := Queue(FRESH, NO_COMMANDS, [], [], Never, 0, EMPTY_LOG)

  /** serialqueue_set_receive_window. */
  function SetWindow(q: Queue, window: int): Queue {
    q.(link := WindowSet(q.link, window))
  }

  // Receiving.

  /** The last block whose notifications a received block of this length sets off.  The subtraction is done on
    * 64-bit words. */
  function WakeSeq(rseq: nat, len: nat): Word64 {
    U64(rseq - 1 - (if len > MESSAGE_MIN then 1 else 0))
  }

  /** How many notifications at the head of the queue go off. */
  function Woken(notes: seq<Note>, wakeSeq: nat): (n: nat)
    ensures n <= |notes|
    ensures forall i :: 0 <= i < n ==> notes[i].seqno <= wakeSeq
    ensures n < |notes| ==> wakeSeq < notes[n].seqno
  {
    if notes == [] || notes[0].seqno > wakeSeq then 0 else 1 + Woken(notes[1..], wakeSeq)
  }

  function AckedAll(notes: seq<Note>, sentTime: real, receiveTime: real): (r: seq<Received>)
    ensures |r| == |notes|
    ensures forall i :: 0 <= i < |notes| ==> r[i] == Acked(notes[i], sentTime, receiveTime)
  {
    seq(|notes|, i requires 0 <= i < |notes| => Acked(notes[i], sentTime, receiveTime))
  }

  /** handle_message, for a block that the framer accepted; `arrival` is the clock read after the read call. */
  function HandleMessage(q: Queue, line: Line, eventtime: real, arrival: real, block: seq<Byte>): Queue
    requires MESSAGE_MIN <= |block|
  {
    var len := |block|;
    var rseq := AckSeq(q.link, block[1] % 0x10);
    if Refused(q.link, rseq) then q.(bytesInvalid := q.bytesInvalid + len)
    else
      var link := Acknowledged(q.link, line, eventtime, rseq, len);
      var n := Woken(q.notes, WakeSeq(rseq, len));
      var data := if len == MESSAGE_MIN then [] else [Data(block, SentTime(link), arrival - BitTime(line, len))];
      q.(link := link,
         command := if rseq != q.link.receiveSeq then Now else q.command,
         notes := q.notes[n..],
         received := q.received + AckedAll(q.notes[..n], link.lastReceiveSentTime, eventtime) + data,
         log := q.log.(fired := q.log.fired + q.notes[..n]))
  }

  /** serialqueue_pull on a queue with something in it. */
  function Pull(q: Queue): Queue
    requires q.received != []
  {
    q.(received := q.received[1..], log := q.log.(pulled := q.log.pulled + [q.received[0]]))
  }

  // Sending.

  /** The written bytes of retransmit_event. */
  function Retransmit(q: Queue, line: Line, eventtime: real): Queue {
    q.(link := Retransmitted(q.link, line, eventtime),
       log := q.log.(trace := TraceRetransmitted(q.log.trace, q.link), written := q.log.written + Burst(q.link)))
  }

  function Tagged(id: nat, ms: seq<Msg>): (r: seq<Packed>)
    ensures |r| == |ms| && forall i :: 0 <= i < |ms| ==> r[i] == Packed(id, ms[i])
  {
    seq(|ms|, i requires 0 <= i < |ms| => Packed(id, ms[i]))
  }

  /** serialqueue_send_batch, with the messages it lets in. */
  function Enqueue(q: Queue, id: nat, ms: seq<Msg>): Queue {
    q.(sched := SendBatch(q.sched, id, ms),
       log := q.log.(enqueued := q.log.enqueued + Tagged(id, if Length(RaisedAll(ms)) == 0 then [] else RaisedAll(ms))))
  }

  /** The messages of a block that asked for a notification. */
  function NotesOf(ps: seq<Packed>, seqno: nat): seq<Note> {
    if ps == [] then []
    else NotesOf(ps[..|ps| - 1], seqno)
         + (if ps[|ps| - 1].msg.notifyId != 0 then [Note(ps[|ps| - 1].msg, seqno)] else [])
  }

  function ShippedIn(ps: seq<Packed>, seqno: nat): (r: seq<Shipped>)
    ensures |r| == |ps| && forall i :: 0 <= i < |ps| ==> r[i] == Shipped(ps[i].id, ps[i].msg, seqno)
  {
    seq(|ps|, i requires 0 <= i < |ps| => Shipped(ps[i].id, ps[i].msg, seqno))
  }

  /** What the states of a run have in common with the first one. */
  ghost predicate Regular(q: Queue) {
    Sound(q.link) && Orderly(q.sched)
  }

  /** build_and_send_command; `pending` bytes wait in the write buffer. */
  ghost function Build(q: Queue, line: Line, pending: nat, eventtime: real): Queue
    requires Regular(q)
  {
    var p := Pack(q.sched, MESSAGE_HEADER_SIZE);
    PackConserves(q.sched, MESSAGE_HEADER_SIZE, 0);
    var link := Built(q.link, line, Payload(p.packed), pending, eventtime);
    q.(link := link, sched := p.sched,
       notes := q.notes + NotesOf(p.packed, q.link.sendSeq),
       log := q.log.(shipped := q.log.shipped + ShippedIn(p.packed, q.link.sendSeq),
                     trace := TraceBuilt(q.log.trace, q.link, link.sent[|q.link.sent|].receiveTime)))
  }

  /** When the next command may go out, as check_send_command decides it. */
  datatype Decision = Decision(sched: Sched, wake: Timer)

  /** The last part of check_send_command, once the messages due are ready. */
  function Schedule(s: Sched, ce: Estimate, idletime: real, ackClock: Word64, minReady: Word64): Decision {
    var minStalled := MinStalled(s.pending);
    if s.readyBytes >= MESSAGE_PAYLOAD_MAX then Decision(s, Now)
    else if ce.freq == 0.0 then
      if s.readyBytes != 0 then Decision(s, Now) else Decision(s.(needKick := MAX_CLOCK), Never)
    else
      var delta := U64(Cut(MIN_REQTIME_DELTA * ce.freq));
      if minReady <= U64(ackClock + delta) then Decision(s, Now)
      else
        var due := U64(minReady - delta);
        var want := if minStalled < due then minStalled else due;
        Decision(s.(needKick := want), At(idletime + U64(want - ackClock) as real / ce.freq))
  }

  function Idle(l: Link, eventtime: real): real {
    Max(l.idleTime, eventtime)
  }

  /** check_send_command. */
  function Decide(q: Queue, line: Line, ce: Estimate, pending: nat, eventtime: real): Decision {
    if !Open(q.link) then Decision(q.sched, Never)
    else
      var idletime := Idle(q.link, eventtime) + BitTime(line, pending + MESSAGE_MIN);
      var ackClock := FromTime(ce, idletime);
      var s := Promoted(q.sched, ackClock);
      var bgtime := if pending != 0 then idletime else q.link.idleTime;
      var bgClock := FromTime(ce, bgtime + (MIN_REQTIME_DELTA + MIN_BACKGROUND_DELTA));
      Schedule(s, ce, idletime, ackClock, MinReady(s.pending, bgClock))
  }

  /** Writing the buffer out. */
  function Flushed(q: Queue, line: Line, buf: seq<Byte>, eventtime: real): Queue {
    if buf == [] then q
    else
      q.(link := q.link.(idleTime := Idle(q.link, eventtime) + BitTime(line, |buf|)),
         log := q.log.(written := q.log.written + buf))
  }

  // The transitions keep the window sound and the queues orderly.

  lemma HandleKeeps(q: Queue, line: Line, eventtime: real, arrival: real, block: seq<Byte>)
    requires Regular(q) && MESSAGE_MIN <= |block|
    ensures Regular(HandleMessage(q, line, eventtime, arrival, block))
  {
    hide Sound, Orderly, Acknowledged, Refused;
    var rseq := AckSeq(q.link, block[1] % 0x10);
    if !Refused(q.link, rseq) {
      AcknowledgedKeeps(q.link, line, eventtime, rseq, |block|);
    }
  }

  /** Of the blocks received, those make the retransmission due that are naks: accepted, without data, with a number
    * already acknowledged that is past the ignored ones, and with blocks from that number on in flight. */
  lemma HandleNak(q: Queue, line: Line, eventtime: real, arrival: real, block: seq<Byte>)
    requires Regular(q) && MESSAGE_MIN <= |block| && q.link.timer != Now
    ensures var rseq := AckSeq(q.link, block[1] % 0x10);
            HandleMessage(q, line, eventtime, arrival, block).link.timer == Now <==>
              && (rseq <= q.link.sendSeq || q.link.receiveSeq == 1)
              && |block| == MESSAGE_MIN
              && q.link.ignoreNakSeq < rseq <= q.link.lastAckSeq && rseq < q.link.sendSeq
  {
    hide Sound, Orderly, Acknowledged, Refused, AckSeq;
    var rseq := AckSeq(q.link, block[1] % 0x10);
    AcceptedNibbles(q.link, block[1] % 0x10);
    NakMeans(q.link, line, eventtime, rseq, |block|);
  }

  lemma RetransmitKeeps(q: Queue, line: Line, eventtime: real)
    requires Regular(q)
    ensures Regular(Retransmit(q, line, eventtime))
  {
    hide Sound, Orderly, Retransmitted;
    RetransmittedKeeps(q.link, line, eventtime);
  }

  lemma BuildKeeps(q: Queue, line: Line, pending: nat, eventtime: real)
    requires Regular(q) && Open(q.link)
    ensures Regular(Build(q, line, pending, eventtime))
    ensures |Build(q, line, pending, eventtime).link.sent| == |q.link.sent| + 1
  {
    hide Sound, Orderly, Pack, Open;
    var p := Pack(q.sched, MESSAGE_HEADER_SIZE);
    PackConserves(q.sched, MESSAGE_HEADER_SIZE, 0);
    BuiltKeeps(q.link, line, Payload(p.packed), pending, eventtime);
  }

  lemma IdleTimeKeeps(l: Link, idleTime: real)
    requires Sound(l)
    ensures Sound(l.(idleTime := idleTime)) && Open(l.(idleTime := idleTime)) == Open(l)
  {
    hide Carries;
  }

  lemma FlushedKeeps(q: Queue, line: Line, buf: seq<Byte>, eventtime: real)
    requires Regular(q)
    ensures Regular(Flushed(q, line, buf, eventtime))
    ensures Open(Flushed(q, line, buf, eventtime).link) == Open(q.link)
  {
    hide Sound, Orderly, Open;
    IdleTimeKeeps(q.link, Idle(q.link, eventtime) + BitTime(line, |buf|));
  }

  lemma KickKeeps(s: Sched, kick: Word64)
    requires Orderly(s)
    ensures Orderly(s.(needKick := kick))
  {
    hide Listed;
  }

  lemma ScheduleKeeps(s: Sched, ce: Estimate, idletime: real, ackClock: Word64, minReady: Word64)
    requires Orderly(s)
    ensures Orderly(Schedule(s, ce, idletime, ackClock, minReady).sched)
    ensures Schedule(s, ce, idletime, ackClock, minReady).sched.pending == s.pending
  {
    hide Orderly, MinStalled;
    KickKeeps(s, Schedule(s, ce, idletime, ackClock, minReady).sched.needKick);
  }

  lemma DecideKeeps(q: Queue, line: Line, ce: Estimate, pending: nat, eventtime: real, id: nat)
    requires Regular(q)
    ensures var d := Decide(q, line, ce, pending, eventtime);
            && Orderly(d.sched)
            && Held(d.sched.pending, id) == Held(q.sched.pending, id)
            && (d.wake == Now ==> Open(q.link))
  {
    hide Sound, Orderly, Held, Promoted, Schedule, Open, MinReady, FromTime, BitTime;
    if Open(q.link) {
      var idletime := Idle(q.link, eventtime) + BitTime(line, pending + MESSAGE_MIN);
      var ackClock := FromTime(ce, idletime);
      PromotedKeeps(q.sched, ackClock, id);
      var s := Promoted(q.sched, ackClock);
      var bgtime := if pending != 0 then idletime else q.link.idleTime;
      ScheduleKeeps(s, ce, idletime, ackClock,
                    MinReady(s.pending, FromTime(ce, bgtime + (MIN_REQTIME_DELTA + MIN_BACKGROUND_DELTA))));
    }
  }

  // command_event.

  datatype Commanded = Commanded(queue: Queue, wake: Timer)

  predicate BufferFull(buf: seq<Byte>) {
    |buf| + MESSAGE_MAX > MESSAGE_MAX * MAX_PENDING_BLOCKS
  }

  /** The queue when a turn of the loop is about to end or to build a block. */
  function Ready(q: Queue, line: Line, ce: Estimate, buf: seq<Byte>, eventtime: real): Queue {
    var d := Decide(q, line, ce, |buf|, eventtime);
    var q1 := q.(sched := d.sched);
    if d.wake != Now || BufferFull(buf) then Flushed(q1, line, buf, eventtime) else q1
  }

  function Carried(buf: seq<Byte>): seq<Byte> {
    if BufferFull(buf) then [] else buf
  }

  /** The loop of command_event: blocks are built while the decision is to send now; the buffer is written when
    * it might overflow and at the end.  It ends because every block fills a place of the window. */
  ghost function CommandLoop(q: Queue, line: Line, ce: Estimate, buf: seq<Byte>, eventtime: real): Commanded
    requires Regular(q)
    decreases MAX_PENDING_BLOCKS - |q.link.sent|
  {
    var wake := Decide(q, line, ce, |buf|, eventtime).wake;
    var q2 := Ready(q, line, ce, buf, eventtime);
    ReadyKeeps(q, line, ce, buf, eventtime);
    if wake != Now then Commanded(q2.(command := wake), wake)
    else
      var r := Build(q2, line, |Carried(buf)|, eventtime);
      BuildKeeps(q2, line, |Carried(buf)|, eventtime);
      CommandLoop(r, line, ce, Carried(buf) + r.link.sent[|q2.link.sent|].block, eventtime)
  }

  lemma ReadyKeeps(q: Queue, line: Line, ce: Estimate, buf: seq<Byte>, eventtime: real)
    requires Regular(q)
    ensures var q2 := Ready(q, line, ce, buf, eventtime);
            && Regular(q2) && q2.link.sent == q.link.sent
            && (Decide(q, line, ce, |buf|, eventtime).wake == Now ==> Open(q2.link))
  {
    hide Sound, Orderly, Decide, Open;
    var d := Decide(q, line, ce, |buf|, eventtime);
    DecideKeeps(q, line, ce, |buf|, eventtime, 0);
    FlushedKeeps(q.(sched := d.sched), line, buf, eventtime);
  }

  /** One turn of the loop. */
  lemma CommandStep(q: Queue, line: Line, ce: Estimate, buf: seq<Byte>, eventtime: real)
    requires Regular(q)
    ensures var d, q2 := Decide(q, line, ce, |buf|, eventtime), Ready(q, line, ce, buf, eventtime);
            && q2 == (if d.wake != Now || BufferFull(buf) then Flushed(q.(sched := d.sched), line, buf, eventtime)
                      else q.(sched := d.sched))
            && Regular(q2) && |q2.link.sent| == |q.link.sent|
            && if d.wake != Now
               then CommandLoop(q, line, ce, buf, eventtime) == Commanded(q2.(command := d.wake), d.wake)
               else
                 var r := Build(q2, line, |Carried(buf)|, eventtime);
                 && Open(q2.link) && |r.link.sent| == |q.link.sent| + 1 <= MAX_PENDING_BLOCKS
                 && Regular(r)
                 && CommandLoop(q, line, ce, buf, eventtime)
                    == CommandLoop(r, line, ce, Carried(buf) + r.link.sent[|q2.link.sent|].block, eventtime)
  {
    hide Sound, Orderly, Decide, Build, Open;
    ReadyKeeps(q, line, ce, buf, eventtime);
    var q2 := Ready(q, line, ce, buf, eventtime);
    if Decide(q, line, ce, |buf|, eventtime).wake == Now {
      BuildKeeps(q2, line, |Carried(buf)|, eventtime);
      AtMostTwelve(Build(q2, line, |Carried(buf)|, eventtime));
    }
  }

  lemma AtMostTwelve(q: Queue)
    requires Regular(q)
    ensures |q.link.sent| <= MAX_PENDING_BLOCKS
  {
    hide Numbered, Bytes;
  }
}
