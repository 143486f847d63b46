/** Which blocks are empty: the exact clocks at which the scheduler sends a block with nothing in it, a session in
  * which it does, and the sessions in which it never does. */
module SerialBlocks {
  import opened Wire
  import opened Clocks
  import opened SendWindow
  import opened CommandScheduler
  import opened SerialProtocol
  import opened SerialRuns
  import Framing

  /** The clock a decision is made for: that of the moment at which an acknowledgement could arrive. */
  function AckClock(q: Queue, line: Line, ce: Estimate, pending: nat, eventtime: real): Word64 {
    FromTime(ce, Idle(q.link, eventtime) + BitTime(line, pending + MESSAGE_MIN))
  }

  /** MIN_REQTIME_DELTA in ticks. */
  function LeadTicks(ce: Estimate): Word64 {
    U64(Cut(MIN_REQTIME_DELTA * ce.freq))
  }

  /** The clock up to which messages are sent at once reaches the greatest one a message can have. */
  predicate BeyondAll(ce: Estimate, ackClock: Word64) {
    ce.freq != 0.0 && MAX_CLOCK <= U64(ackClock + LeadTicks(ce))
  }

  lemma {:induction false} MinReadyNone(qs: seq<CommandQueue>, bgClock: Word64)
    requires forall i :: 0 <= i < |qs| ==> qs[i].ready == []
    ensures MinReady(qs, bgClock) == MAX_CLOCK
    decreases |qs|
  {
    if qs != [] {
      MinReadyNone(qs[..|qs| - 1], bgClock);
    }
  }

  lemma {:induction false} NoReadyBytes(qs: seq<CommandQueue>)
    requires ReadyLength(qs) == 0 && forall i :: 0 <= i < |qs| ==> Listed(qs[i])
    ensures forall i :: 0 <= i < |qs| ==> qs[i].ready == []
  {
    hide Paced, Length;
    if qs != [] {
      NoReadyBytes(qs[1..]);
      assert Listed(qs[0]);
      if qs[0].ready != [] {
        assert Sendable(qs[0].ready[0]);
        LengthPositive(qs[0].ready);
      }
    }
  }

  /** With nothing ready the last part of the decision is to send exactly when the clock is beyond all messages. */
  lemma ScheduleEmpty(s: Sched, ce: Estimate, idletime: real, ackClock: Word64, bgClock: Word64)
    requires Orderly(s) && s.readyBytes == 0
    ensures Schedule(s, ce, idletime, ackClock, MinReady(s.pending, bgClock)).wake == Now <==> BeyondAll(ce, ackClock)
  {
    hide MinReady, MinStalled, Cut, U64, ReadyLength, UpcomingLength, Listed;
    NoReadyBytes(s.pending);
    MinReadyNone(s.pending, bgClock);
  }

  /** The messages due by this clock are ready. */
  function PromotedAt(q: Queue, line: Line, ce: Estimate, pending: nat, eventtime: real): Sched {
    Promoted(q.sched, AckClock(q, line, ce, pending, eventtime))
  }

  /** Whether to send an empty block, exactly: the window is open, nothing is ready, and the clock is beyond all
    * messages.  The scheduler takes "no message ready" for a message due at the greatest clock. */
  lemma EmptyDecision(q: Queue, line: Line, ce: Estimate, pending: nat, eventtime: real)
    requires Regular(q) && Open(q.link) && PromotedAt(q, line, ce, pending, eventtime).readyBytes == 0
    ensures Decide(q, line, ce, pending, eventtime).wake == Now
            <==> BeyondAll(ce, AckClock(q, line, ce, pending, eventtime))
  {
    hide Sound, Orderly, Open, Promoted, Schedule, MinReady, FromTime, BitTime, BeyondAll;
    var s := PromotedAt(q, line, ce, pending, eventtime);
    PromotedKeeps(q.sched, AckClock(q, line, ce, pending, eventtime), 0);
    var idletime := Idle(q.link, eventtime) + BitTime(line, pending + MESSAGE_MIN);
    var bgtime := if pending != 0 then idletime else q.link.idleTime;
    ScheduleEmpty(s, ce, idletime, AckClock(q, line, ce, pending, eventtime),
                  FromTime(ce, bgtime + (MIN_REQTIME_DELTA + MIN_BACKGROUND_DELTA)));
  }

  lemma DecidedBytes(q: Queue, line: Line, ce: Estimate, pending: nat, eventtime: real)
    requires Open(q.link)
    ensures Decide(q, line, ce, pending, eventtime).sched.readyBytes
         == PromotedAt(q, line, ce, pending, eventtime).readyBytes
  {
    hide Open, Promoted, MinReady, MinStalled, FromTime, BitTime;
  }

  /** The block that a decision leads to is empty exactly then. */
  lemma EmptyBlock(q: Queue, line: Line, ce: Estimate, pending: nat, eventtime: real)
    requires Regular(q)
    ensures var d := Decide(q, line, ce, pending, eventtime);
            && Orderly(d.sched)
            && (d.wake == Now && Payload(Pack(d.sched, MESSAGE_HEADER_SIZE).packed) == []
                <==> Open(q.link) && PromotedAt(q, line, ce, pending, eventtime).readyBytes == 0
                     && BeyondAll(ce, AckClock(q, line, ce, pending, eventtime)))
  {
    hide Sound, Orderly, Open, PromotedAt, AckClock, Decide, Pack, Payload, BeyondAll;
    var d := Decide(q, line, ce, pending, eventtime);
    DecideKeeps(q, line, ce, pending, eventtime, 0);
    if Open(q.link) {
      DecidedBytes(q, line, ce, pending, eventtime);
      PackConserves(d.sched, MESSAGE_HEADER_SIZE, 0);
      if d.sched.readyBytes == 0 {
        EmptyDecision(q, line, ce, pending, eventtime);
        NothingPacked(d.sched);
      }
    }
  }

  lemma NothingPacked(s: Sched)
    requires Orderly(s) && s.readyBytes == 0
    ensures Payload(Pack(s, MESSAGE_HEADER_SIZE).packed) == []
  {
  }

  // A session in which empty blocks are sent.

  /** An estimate whose conversion point lies nine seconds after the time of the event, at clock 0: the clock of the
    * event is negative, and wraps around. */
  const LATE_ESTIMATE := Estimate(0, 0, 10.0, 1000.0)

  lemma LateClock(can: bool)
    ensures BitTime(Unset(can), MESSAGE_MIN) == 0.0
    ensures FromTime(LATE_ESTIMATE, 1.0) == TWO64 - 8999
    ensures BeyondAll(LATE_ESTIMATE, TWO64 - 8999)
  {
    assert Scaled(-9.0, 1000.0) == -9000.0;
    assert Cut(-8999.5) == -8999 by {
      assert (8999.5).Floor == 8999;
    }
    assert Cut(250.0) == 250;
  }

  lemma LateState(can: bool)
    ensures Open(FRESH_QUEUE.link)
    ensures PromotedAt(FRESH_QUEUE, Unset(can), LATE_ESTIMATE, 0, 1.0).readyBytes == 0
    ensures BeyondAll(LATE_ESTIMATE, AckClock(FRESH_QUEUE, Unset(can), LATE_ESTIMATE, 0, 1.0))
  {
    hide Promoted, BitTime, FromTime, BeyondAll;
    LateClock(can);
    NothingPromoted(NO_COMMANDS, TWO64 - 8999);
  }

  lemma LateDecision(can: bool)
    ensures Decide(FRESH_QUEUE, Unset(can), LATE_ESTIMATE, 0, 1.0).wake == Now
    ensures Orderly(Decide(FRESH_QUEUE, Unset(can), LATE_ESTIMATE, 0, 1.0).sched)
    ensures var d := Decide(FRESH_QUEUE, Unset(can), LATE_ESTIMATE, 0, 1.0);
            Payload(Pack(d.sched, MESSAGE_HEADER_SIZE).packed) == []
  {
    hide Kept, Regular, Open, PromotedAt, AckClock, BeyondAll, Decide, Pack, Payload, Orderly, Unset;
    FreshIsKept();
    KeptIsRegular(FRESH_QUEUE);
    LateState(can);
    EmptyBlock(FRESH_QUEUE, Unset(can), LATE_ESTIMATE, 0, 1.0);
  }

  /** The first event of a new session, with such an estimate, sends an empty block although nothing was ever
    * enqueued. */
  lemma EmptyBlockExample(can: bool)
    ensures var es := [Command(LATE_ESTIMATE, 1.0)];
            && IsRun(Opened(can), es)
            && var q := Run(Opened(can), es).queue;
               && q.log.enqueued == [] && q.link.sent != [] && |q.link.sent[0].block| == MESSAGE_MIN
  {
    hide Kept, Regular, CommandLoop, Ready, Decide, Build, Pack;
    FreshIsKept();
    KeptIsRegular(FRESH_QUEUE);
    LateDecision(can);
    var line := Unset(can);
    CommandStep(FRESH_QUEUE, line, LATE_ESTIMATE, [], 1.0);
    var q2 := Ready(FRESH_QUEUE, line, LATE_ESTIMATE, [], 1.0);
    ReadyIs(FRESH_QUEUE, line, LATE_ESTIMATE, 1.0);
    var b := Build(q2, line, |Carried([])|, 1.0);
    BuiltBlock(q2, line, |Carried([])|, 1.0);
    CommandWrites(b, line, LATE_ESTIMATE, Carried([]) + b.link.sent[0].block, 1.0);
    CommandEnqueues(FRESH_QUEUE, line, LATE_ESTIMATE, [], 1.0);
    var r := CommandLoop(FRESH_QUEUE, line, LATE_ESTIMATE, [], 1.0).queue;
    assert r.link.sent[0] == r.link.sent[..1][0] == b.link.sent[0];
    OneEvent(Opened(can), Command(LATE_ESTIMATE, 1.0));
  }

  lemma OneEvent(s: Session, e: Event)
    requires Possible(s.queue, e)
    ensures IsRun(s, [e]) && Run(s, [e]) == Step(s, e)
  {
    hide Possible, Next;
    assert [e][1..] == [];
  }

  lemma ReadyIs(q: Queue, line: Line, ce: Estimate, eventtime: real)
    requires Decide(q, line, ce, 0, eventtime).wake == Now
    ensures Ready(q, line, ce, [], eventtime) == q.(sched := Decide(q, line, ce, 0, eventtime).sched)
  {
    hide Decide;
  }

  /** The block that is built, and what was in flight before. */
  lemma BuiltBlock(q: Queue, line: Line, pending: nat, eventtime: real)
    requires Regular(q)
    ensures var b := Build(q, line, pending, eventtime); var n := |q.link.sent|;
            && |b.link.sent| == n + 1 && b.link.sent[..n] == q.link.sent
            && |b.link.sent[n].block| == MESSAGE_MIN + |Payload(Pack(q.sched, MESSAGE_HEADER_SIZE).packed)|
            && |b.link.sent[n].block| <= MESSAGE_MAX && b.link.idleTime == q.link.idleTime
            && b.link.receiveWindow == q.link.receiveWindow
  {
    hide Sound, Orderly, Pack, Payload, BitTime, Framing.Block;
    var p := Pack(q.sched, MESSAGE_HEADER_SIZE);
    PackConserves(q.sched, MESSAGE_HEADER_SIZE, 0);
  }

  /** command_event enqueues nothing. */
  lemma {:induction false} CommandEnqueues(q: Queue, line: Line, ce: Estimate, buf: seq<Byte>, eventtime: real)
    requires Regular(q)
    ensures CommandLoop(q, line, ce, buf, eventtime).queue.log.enqueued == q.log.enqueued
    decreases MAX_PENDING_BLOCKS - |q.link.sent|
  {
    hide Regular, Decide, Carried, CommandLoop, Pack, Payload, BitTime;
    CommandStep(q, line, ce, buf, eventtime);
    var q2 := Ready(q, line, ce, buf, eventtime);
    if Decide(q, line, ce, |buf|, eventtime).wake == Now {
      var r := Build(q2, line, |Carried(buf)|, eventtime);
      CommandEnqueues(r, line, ce, Carried(buf) + r.link.sent[|q2.link.sent|].block, eventtime);
    }
  }

  // Every session in which none is.

  /** More than the time these bytes take on the line: on CAN every byte may need a packet of its own. */
  function Cost(line: Line, bytes: int): real {
    Scaled((55 * bytes) as real, line.adjust)
  }

  const BUFFER_SIZE := MESSAGE_MAX * MAX_PENDING_BLOCKS

  lemma CostAdds(line: Line, a: int, b: int)
    ensures Cost(line, a + b) == Cost(line, a) + Cost(line, b)
  {
    hide Scaled;
    assert (55 * (a + b)) as real == (55 * a) as real + (55 * b) as real;
    ScaledAdds((55 * a) as real, (55 * b) as real, line.adjust);
  }

  lemma ScaledAdds(x: real, y: real, f: real)
    ensures Scaled(x + y, f) == Scaled(x, f) + Scaled(y, f)
  {
  }

  lemma CostGrows(line: Line, a: int, b: int)
    requires 0.0 <= line.adjust && a <= b
    ensures Cost(line, a) <= Cost(line, b)
  {
    hide Scaled;
    ScaleMonotone((55 * a) as real, (55 * b) as real, line.adjust);
  }

  /** The bits of so many bytes, or on a serial line the bytes themselves. */
  function Bits(line: Line, bytes: nat): (bits: nat)
    requires 0 < bytes <= BUFFER_SIZE + MESSAGE_MIN
    ensures bits <= 55 * bytes
  {
    if line.Uart? then bytes
    else
      var packets := (bytes + 7) / 8;
      assert 1 <= packets <= bytes;
      bytes * 8 + packets * 47 - 4
  }

  lemma BitTimeIs(line: Line, bytes: nat)
    requires 0 < bytes <= BUFFER_SIZE + MESSAGE_MIN
    ensures BitTime(line, bytes) == Scaled(Bits(line, bytes) as real, line.adjust)
  {
    hide Scaled, U32;
    var bits := Bits(line, bytes);
    SmallWord(bits);
    Commuted(line.adjust, bits as real);
  }

  lemma SmallWord(x: nat)
    requires x <= 55 * (BUFFER_SIZE + MESSAGE_MIN)
    ensures U32(x) == x
  {
  }

  lemma Commuted(x: real, y: real)
    ensures x * y == Scaled(y, x)
  {
  }

  lemma BitTimeCosts(line: Line, bytes: nat)
    requires 0.0 <= line.adjust && 0 < bytes <= BUFFER_SIZE + MESSAGE_MIN
    ensures 0.0 <= BitTime(line, bytes) <= Cost(line, bytes)
  {
    hide Bits, BitTime, Scaled;
    BitTimeIs(line, bytes);
    ScaleMonotone(0.0, Bits(line, bytes) as real, line.adjust);
    ScaleMonotone(Bits(line, bytes) as real, (55 * bytes) as real, line.adjust);
    NoTimeAtAll(line.adjust);
  }

  lemma NoTimeAtAll(f: real)
    ensures Scaled(0.0, f) == 0.0
  {
  }

  /** The clocks of a moment, and of all that can be sent until the window is full, are neither negative nor within a
    * quarter of a second of the greatest clock. */
  predicate ClockFits(ce: Estimate, line: Line, from: real) {
    ce.freq != 0.0 ==>
      && 0.0 < ce.freq && 0.0 <= line.adjust && 0 <= TicksAt(ce, from)
      && TicksAt(ce, from + Cost(line, BUFFER_SIZE + MESSAGE_MIN)) + LeadTicks(ce) < MAX_CLOCK
  }

  lemma FitsBelow(ce: Estimate, line: Line, from: real, t: real)
    requires ClockFits(ce, line, from)
    requires ce.freq != 0.0 ==> from <= t <= from + Cost(line, BUFFER_SIZE + MESSAGE_MIN)
    ensures !BeyondAll(ce, FromTime(ce, t))
  {
    hide TicksAt, Cost, LeadTicks;
    if ce.freq != 0.0 {
      TicksMonotone(ce, from, t);
      TicksMonotone(ce, t, from + Cost(line, BUFFER_SIZE + MESSAGE_MIN));
      WrapSmall(TicksAt(ce, t));
      WrapSmall(TicksAt(ce, t) + LeadTicks(ce));
    }
  }

  /** Every block in flight carries a payload. */
  predicate AllFull(l: Link) {
    forall k :: 0 <= k < |l.sent| ==> MESSAGE_MIN < |l.sent[k].block|
  }

  /** How far the loop of command_event has come: what is in the buffer, and what still fits the window, takes no more
    * time than a whole buffer from the start. */
  predicate OnTime(q: Queue, line: Line, buffered: nat, eventtime: real, from: real) {
    && from <= Idle(q.link, eventtime) && buffered <= BUFFER_SIZE && 0.0 <= line.adjust
    && Idle(q.link, eventtime) + Cost(line, buffered + MESSAGE_MAX * (MAX_PENDING_BLOCKS - |q.link.sent|))
       <= from + Cost(line, BUFFER_SIZE)
  }

  lemma OnTimeStart(q: Queue, line: Line, eventtime: real)
    requires 0.0 <= line.adjust
    ensures OnTime(q, line, 0, eventtime, Idle(q.link, eventtime))
  {
    hide Cost;
    CostGrows(line, MESSAGE_MAX * (MAX_PENDING_BLOCKS - |q.link.sent|), BUFFER_SIZE);
  }

  /** A decision of the loop is made for a clock that is not beyond all messages. */
  lemma OnTimeBelow(q: Queue, line: Line, ce: Estimate, buffered: nat, eventtime: real, from: real)
    requires |q.link.sent| <= MAX_PENDING_BLOCKS && ClockFits(ce, line, from)
    requires ce.freq != 0.0 ==> OnTime(q, line, buffered, eventtime, from)
    ensures !BeyondAll(ce, AckClock(q, line, ce, buffered, eventtime))
  {
    hide Cost, BitTime, FromTime, BeyondAll, ClockFits, Idle;
    if ce.freq != 0.0 {
      var left := MESSAGE_MAX * (MAX_PENDING_BLOCKS - |q.link.sent|);
      BitTimeCosts(line, buffered + MESSAGE_MIN);
      CostAdds(line, buffered, MESSAGE_MIN);
      CostAdds(line, BUFFER_SIZE, MESSAGE_MIN);
      CostGrows(line, buffered, buffered + left);
    }
    FitsBelow(ce, line, from, Idle(q.link, eventtime) + BitTime(line, buffered + MESSAGE_MIN));
  }

  /** Building a block, after the buffer was written out if it had to be, keeps the loop on time. */
  lemma OnTimeNext(q: Queue, q2: Queue, r: Queue, line: Line, buf: seq<Byte>, block: seq<Byte>, eventtime: real,
                   from: real)
    requires OnTime(q, line, |buf|, eventtime, from) && |block| <= MESSAGE_MAX
    requires q2.link.idleTime == if BufferFull(buf) then Idle(q.link, eventtime) + BitTime(line, |buf|)
                                 else q.link.idleTime
    requires r.link.idleTime == q2.link.idleTime && |r.link.sent| == |q.link.sent| + 1 <= MAX_PENDING_BLOCKS
    ensures OnTime(r, line, |Carried(buf) + block|, eventtime, from)
  {
    hide Cost, BitTime;
    var left := MESSAGE_MAX * (MAX_PENDING_BLOCKS - |q.link.sent|);
    var next := |Carried(buf) + block| + (left - MESSAGE_MAX);
    if BufferFull(buf) {
      BitTimeCosts(line, |buf|);
      CostAdds(line, |buf|, left);
      CostGrows(line, next, left);
    } else {
      CostGrows(line, next, |buf| + left);
    }
  }

  lemma FlushedIdle(q: Queue, line: Line, buf: seq<Byte>, eventtime: real)
    requires BufferFull(buf)
    ensures Flushed(q, line, buf, eventtime).link.idleTime == Idle(q.link, eventtime) + BitTime(line, |buf|)
    ensures Flushed(q, line, buf, eventtime).sched == q.sched
  {
    hide BitTime;
  }

  lemma ReadySched(q: Queue, line: Line, ce: Estimate, buf: seq<Byte>, eventtime: real)
    requires Decide(q, line, ce, |buf|, eventtime).wake == Now
    ensures var q2 := Ready(q, line, ce, buf, eventtime);
            && q2.sched == Decide(q, line, ce, |buf|, eventtime).sched && q2.link.sent == q.link.sent
            && q2.link.idleTime == if BufferFull(buf) then Idle(q.link, eventtime) + BitTime(line, |buf|)
                                   else q.link.idleTime
  {
    hide Decide, BitTime, Idle;
    if BufferFull(buf) {
      FlushedIdle(q.(sched := Decide(q, line, ce, |buf|, eventtime).sched), line, buf, eventtime);
    }
  }

  lemma FullSnoc(l: Link, r: Link)
    requires AllFull(l) && |r.sent| == |l.sent| + 1 && r.sent[..|l.sent|] == l.sent
    requires MESSAGE_MIN < |r.sent[|l.sent|].block|
    ensures AllFull(r)
  {
    forall k | 0 <= k < |r.sent|
      ensures MESSAGE_MIN < |r.sent[k].block|
    {
      if k < |l.sent| {
        assert r.sent[k] == r.sent[..|l.sent|][k];
      }
    }
  }

  lemma {:induction false} CommandFull(q: Queue, line: Line, ce: Estimate, buf: seq<Byte>, eventtime: real, from: real)
    requires Regular(q) && AllFull(q.link) && ClockFits(ce, line, from)
    requires ce.freq != 0.0 ==> OnTime(q, line, |buf|, eventtime, from)
    ensures AllFull(CommandLoop(q, line, ce, buf, eventtime).queue.link)
    decreases MAX_PENDING_BLOCKS - |q.link.sent|
  {
    hide *;
    CommandStep(q, line, ce, buf, eventtime);
    AtMostTwelve(q);
    var d, q2 := Decide(q, line, ce, |buf|, eventtime), Ready(q, line, ce, buf, eventtime);
    if d.wake == Now {
      OnTimeBelow(q, line, ce, |buf|, eventtime, from);
      EmptyBlock(q, line, ce, |buf|, eventtime);
      ReadySched(q, line, ce, buf, eventtime);
      BuiltBlock(q2, line, |Carried(buf)|, eventtime);
      var r := Build(q2, line, |Carried(buf)|, eventtime);
      var block := r.link.sent[|q2.link.sent|].block;
      FullSnoc(q.link, r.link);
      if ce.freq != 0.0 {
        OnTimeNext(q, q2, r, line, buf, block, eventtime, from);
      }
      CommandFull(r, line, ce, Carried(buf) + block, eventtime, from);
    } else {
      ReadyWithin(q, line, ce, buf, eventtime);
      SameFull(q.link, q2.link);
    }
  }

  lemma SameFull(l: Link, r: Link)
    requires AllFull(l) && r.sent == l.sent
    ensures AllFull(r)
  {
  }

  /** The clock of every run of command_event fits. */
  ghost predicate ClocksFit(s: Session, es: seq<Event>)
    requires IsRun(s, es)
    decreases |es|
  {
    es != [] ==>
      && (es[0].Command? ==> ClockFits(es[0].ce, s.line, Idle(s.queue.link, es[0].eventtime)))
      && ClocksFit(Step(s, es[0]), es[1..])
  }

  lemma NextFull(q: Queue, line: Line, e: Event)
    requires Kept(q) && Possible(q, e) && AllFull(q.link)
    requires e.Command? ==> ClockFits(e.ce, line, Idle(q.link, e.eventtime))
    ensures AllFull(Next(q, line, e).link)
  {
    hide Kept, Regular, CommandLoop, HandleMessage, ClockFits, Idle, BitTime, Burst, AllFull;
    KeptIsRegular(q);
    match e
    case Frame(block, eventtime, arrival) => HandledFull(q, line, eventtime, arrival, block);
    case Command(ce, eventtime) =>
      if ce.freq != 0.0 {
        FitsAdjust(ce, line, Idle(q.link, eventtime));
        OnTimeStart(q, line, eventtime);
      }
      CommandFull(q, line, ce, [], eventtime, Idle(q.link, eventtime));
    case _ => SameFull(q.link, Next(q, line, e).link);
  }

  lemma HandledFull(q: Queue, line: Line, eventtime: real, arrival: real, block: seq<Byte>)
    requires AllFull(q.link) && MESSAGE_MIN <= |block|
    ensures AllFull(HandleMessage(q, line, eventtime, arrival, block).link)
  {
    hide Acknowledged, AckSeq, Woken, WakeSeq, AckedAll, BitTime;
    AcknowledgedFull(q.link, line, eventtime, AckSeq(q.link, block[1] % 0x10), |block|);
  }

  lemma AcknowledgedFull(l: Link, line: Line, eventtime: real, rseq: nat, len: nat)
    requires AllFull(l)
    ensures AllFull(Acknowledged(l, line, eventtime, rseq, len))
  {
    hide Bytes, BitTime, Clamp;
  }

  lemma FitsAdjust(ce: Estimate, line: Line, from: real)
    requires ClockFits(ce, line, from) && ce.freq != 0.0
    ensures 0.0 <= line.adjust
  {
  }

  lemma {:induction false} RunFull(s: Session, es: seq<Event>)
    requires Kept(s.queue) && AllFull(s.queue.link) && IsRun(s, es) && ClocksFit(s, es)
    ensures AllFull(Run(s, es).queue.link)
    decreases |es|
  {
    hide Kept, Next, Possible, ClockFits, AllFull, Idle;
    if es != [] {
      NextKept(s.queue, s.line, es[0]);
      NextFull(s.queue, s.line, es[0]);
      RunFull(Step(s, es[0]), es[1..]);
    }
  }

  /** In every session whose clocks fit, no block is empty: what is in flight at any time carries messages. */
  lemma NoBlockIsEmpty(can: bool, es: seq<Event>, k: nat)
    requires IsRun(Opened(can), es) && ClocksFit(Opened(can), es)
    requires k < |Run(Opened(can), es).queue.link.sent|
    ensures MESSAGE_MIN < |Run(Opened(can), es).queue.link.sent[k].block|
  {
    hide Run, IsRun, ClocksFit, Kept;
    FreshIsKept();
    RunFull(Opened(can), es);
  }
}
