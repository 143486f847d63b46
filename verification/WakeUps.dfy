/** When the serial queue's handlers run again: nothing that is queued is forgotten, and the line's bytes are accounted
  * for. */
module WakeUps {
  import opened RealMath
  import opened Wire
  import opened Clocks
  import opened SendWindow
  import opened CommandScheduler
  import opened SerialProtocol
  import opened SerialRuns
  import Framing

  // The command timer.

  /** While the command timer is off, an acknowledgement or a retransmission will come, or nothing is ready to be sent and
    * the next batch that may ever be sent kicks, unless one has done so already. */
  predicate Awake(q: Queue) {
    q.command == Never ==>
      q.link.sent != [] || (q.sched.readyBytes == 0 && (q.sched.needKick == 0 || q.sched.needKick == MAX_CLOCK))
  }

  /** A batch kicks exactly when its first message may go before the clock for which the handler is set. */
  lemma KickMeans(s: Sched, id: nat, ms: seq<Msg>)
    requires ms != [] && forall i :: 0 <= i < |ms| ==> Sendable(ms[i])
    ensures var r := SendBatch(s, id, ms);
            r.needKick == if Raised(ms[0]).minClock < s.needKick then 0 else s.needKick
  {
    hide Raised;
    LetIn(ms);
  }

  /** A refused block leaves everything as it is, but for the count of bytes that came to nothing. */
  lemma HandleRefuses(q: Queue, line: Line, eventtime: real, arrival: real, block: seq<Byte>)
    requires Regular(q) && MESSAGE_MIN <= |block|
    ensures var r := HandleMessage(q, line, eventtime, arrival, block);
            if AckSeq(q.link, block[1] % 0x10) <= q.link.sendSeq || q.link.receiveSeq == 1 then r.bytesInvalid == q.bytesInvalid
            else r == q.(bytesInvalid := q.bytesInvalid + |block|)
  {
    hide Sound, Orderly, Acknowledged, Refused, AckSeq;
    AcceptedNibbles(q.link, block[1] % 0x10);
  }

  /** A block that moves the window has the next commands considered at once; any other leaves the timer alone. */
  lemma HandleWakes(q: Queue, line: Line, eventtime: real, arrival: real, block: seq<Byte>)
    requires Regular(q) && MESSAGE_MIN <= |block|
    ensures var r := HandleMessage(q, line, eventtime, arrival, block);
            && r.command == (if r.link.receiveSeq != q.link.receiveSeq then Now else q.command)
            && (r.link.receiveSeq == q.link.receiveSeq ==> r.link.sent == q.link.sent) && r.sched == q.sched
  {
    hide Sound, Orderly, Refused, UpdateReceiveSeq, AckSeq, BitTime;
    var rseq := AckSeq(q.link, block[1] % 0x10);
    NibbleBounds(q.link, block[1] % 0x10);
    if !Refused(q.link, rseq) {
      AcknowledgedKeeps(q.link, line, eventtime, rseq, |block|);
    }
  }

  lemma ClosedWaits(l: Link)
    requires Sound(l) && !Open(l)
    ensures l.sent != []
  {
    hide Numbered, Bytes;
  }

  /** Once the window is open and the messages that may go are ready, a block is sent at once exactly when a whole one can
    * be filled, or a ready message is due within a quarter of a second; while the clock is not known, whenever anything
    * is ready. */
  lemma SendsNow(s: Sched, ce: Estimate, idletime: real, ackClock: Word64, bgClock: Word64)
    requires ackClock + U64(Cut(0.25 * ce.freq)) < MAX_CLOCK
    ensures Schedule(s, ce, idletime, ackClock, MinReady(s.pending, bgClock)).wake == Now <==>
              || 59 <= s.readyBytes
              || if ce.freq == 0.0 then s.readyBytes != 0
                 else exists i :: 0 <= i < |s.pending| && s.pending[i].ready != []
                                  && DueClock(s.pending[i].ready[0], bgClock) <= ackClock + U64(Cut(0.25 * ce.freq))
  {
    hide MinStalled, MinReady, Cut, U64;
    MinReadyIsLeast(s.pending, bgClock);
    WrapSmall(ackClock + U64(Cut(0.25 * ce.freq)));
  }

  lemma DecideWakes(q: Queue, line: Line, ce: Estimate, pending: nat, eventtime: real)
    requires Regular(q)
    ensures var d := Decide(q, line, ce, pending, eventtime);
            d.wake == Never ==> q.link.sent != [] || (d.sched.readyBytes == 0 && d.sched.needKick == MAX_CLOCK)
  {
    hide Sound, Orderly, Promoted, MinReady, MinStalled, FromTime, BitTime, Open, U64, Cut;
    if !Open(q.link) {
      ClosedWaits(q.link);
    }
  }

  lemma {:induction false} CommandWakes(q: Queue, line: Line, ce: Estimate, buf: seq<Byte>, eventtime: real)
    requires Regular(q)
    ensures Awake(CommandLoop(q, line, ce, buf, eventtime).queue)
    decreases MAX_PENDING_BLOCKS - |q.link.sent|
  {
    hide CommandLoop, Regular, Decide, Build, Open, BitTime;
    CommandStep(q, line, ce, buf, eventtime);
    var d, q2 := Decide(q, line, ce, |buf|, eventtime), Ready(q, line, ce, buf, eventtime);
    if d.wake == Now {
      var r := Build(q2, line, |Carried(buf)|, eventtime);
      CommandWakes(r, line, ce, Carried(buf) + r.link.sent[|q2.link.sent|].block, eventtime);
    } else {
      DecideWakes(q, line, ce, |buf|, eventtime);
    }
  }

  lemma NextWakes(q: Queue, line: Line, e: Event)
    requires Kept(q) && Awake(q) && Possible(q, e)
    ensures Awake(Next(q, line, e))
  {
    hide Kept, Regular, HandleMessage, CommandLoop, BitTime, Burst;
    KeptIsRegular(q);
    match e
    case Frame(block, eventtime, arrival) => HandleWakes(q, line, eventtime, arrival, block);
    case Command(ce, eventtime) => CommandWakes(q, line, ce, [], eventtime);
    case _ =>
  }

  lemma {:induction false} RunWakes(s: Session, es: seq<Event>)
    requires Kept(s.queue) && Awake(s.queue) && IsRun(s, es)
    ensures Awake(Run(s, es).queue)
    decreases |es|
  {
    hide Kept, Awake, Next, Possible;
    if es != [] {
      NextKept(s.queue, s.line, es[0]);
      NextWakes(s.queue, s.line, es[0]);
      RunWakes(Step(s, es[0]), es[1..]);
    }
  }

  /** After any run of a new session, nothing is forgotten: while the command timer is off and no kick is on its way,
    * either blocks are in flight, and then the retransmission timer is set, or nothing is ready to be sent; and then a
    * batch whose first message may ever be sent kicks. */
  lemma NeverForgotten(can: bool, es: seq<Event>, id: nat, ms: seq<Msg>)
    requires IsRun(Opened(can), es) && (forall i :: 0 <= i < |ms| ==> Sendable(ms[i]))
    ensures var q := Run(Opened(can), es).queue;
            q.command == Never && q.sched.needKick != 0 ==>
              || (q.link.sent != [] && q.link.timer != Never)
              || (q.sched.readyBytes == 0 && (ms != [] && RaisedAll(ms)[0].minClock < MAX_CLOCK ==>
                                              Enqueue(q, id, ms).sched.needKick == 0))
  {
    hide Kept, IsRun, Run, Raised;
    FreshIsKept();
    RunWakes(Opened(can), es);
    RunKept(Opened(can), es);
    KeptIsArmed(Run(Opened(can), es).queue);
    LetIn(ms);
  }

  lemma KeptIsArmed(q: Queue)
    requires Kept(q)
    ensures Armed(q.link)
  {
  }

  // The time of the line.

  /** Once a burst is written the line is busy until the sync byte and all the blocks have left. */
  lemma RetransmissionTakes(l: Link, line: Line, eventtime: real)
    requires Sound(l) && l.sent != []
    ensures Retransmitted(l, line, eventtime).idleTime == eventtime + BitTime(line, 1 + l.needAckBytes)
  {
    hide BitTime, Burst, Sound;
    BurstIsUnacked(l, false);
    AtLeastNone(l);
  }

  /** What a retransmission writes is read, by a reader that has lost its place or not, as exactly the blocks not yet
    * acknowledged, in order; it changes nothing else but the window's own record. */
  lemma RetransmissionOnWire(q: Queue, line: Line, eventtime: real, needSync: bool)
    requires Regular(q) && q.link.sent != []
    ensures var r := Retransmit(q, line, eventtime);
            && q.log.written <= r.log.written
            && Framing.Drain(Framing.Input(needSync, r.log.written[|q.log.written|..]))
               == Framing.Drained(Framing.Input(false, []), Blocks(q.link.sent), 1)
            && r.link.sent == q.link.sent && r.sched == q.sched && r.notes == q.notes && r.received == q.received
            && r.command == q.command
  {
    hide Sound, Orderly, BitTime, Burst, Framing.Drain;
    BurstIsUnacked(q.link, needSync);
    assert (q.log.written + Burst(q.link))[|q.log.written|..] == Burst(q.link);
  }

  lemma AtLeastNone(l: Link)
    requires Sound(l)
    ensures 0 <= l.needAckBytes
  {
    hide Numbered;
  }

  /** The blocks after the first n: each was built at a time, and has left the line, counted from another, after the
    * bytes before them and those of the blocks up to it. */
  predicate Stamped(sent: seq<InFlight>, n: nat, line: Line, at: real, from: real, before: nat) {
    forall k :: n <= k < |sent| ==> StampedAt(sent, n, line, at, from, before, k)
  }

  predicate StampedAt(sent: seq<InFlight>, n: nat, line: Line, at: real, from: real, before: nat, k: nat)
    requires n <= k < |sent|
  {
    && sent[k].block != [] && sent[k].sentTime == at
    && sent[k].receiveTime == from + BitTime(line, before + Bytes(sent[n..k + 1]))
  }

  /** What a call of the command handler does to the line, when `buf` waits to be written with it: the blocks it sends
    * follow one another, from when the line is free, and it is busy until the last of them has left. */
  predicate Takes(l: Link, r: Link, line: Line, at: real, from: real, before: nat) {
    && l.sent <= r.sent && Stamped(r.sent, |l.sent|, line, at, from, before)
    && var bytes := before + Bytes(r.sent[|l.sent|..]);
       r.idleTime == if bytes == 0 then l.idleTime else from + BitTime(line, bytes)
  }

  lemma NoneTaken(l: Link, r: Link, line: Line, at: real, from: real, before: nat)
    requires r.sent == l.sent
    requires r.idleTime == if before == 0 then l.idleTime else from + BitTime(line, before)
    ensures Takes(l, r, line, at, from, before)
  {
    hide BitTime;
    assert r.sent[|l.sent|..] == [];
  }

  lemma OneTaken(l: Link, b: Link, r: Link, line: Line, at: real, from: real, before: nat)
    requires |b.sent| == |l.sent| + 1 && b.sent[..|l.sent|] == l.sent && b.idleTime == l.idleTime
    requires var len := |b.sent[|l.sent|].block|;
             && 0 < len && b.sent[|l.sent|].sentTime == at && b.sent[|l.sent|].receiveTime == from + BitTime(line, before + len)
             && Takes(b, r, line, at, from, before + len)
    ensures Takes(l, r, line, at, from, before)
  {
    hide BitTime, Bytes;
    var n := |l.sent|;
    assert r.sent[n] == b.sent[n];
    forall k | n <= k < |r.sent|
      ensures StampedAt(r.sent, n, line, at, from, before, k)
    {
      FirstOf(r.sent, n, k + 1);
      if n < k {
        assert StampedAt(r.sent, n + 1, line, at, from, before + |b.sent[n].block|, k);
      } else {
        assert r.sent[n + 1..k + 1] == [];
        NoBytes();
      }
    }
    FirstFrom(r.sent, n);
  }

  lemma FirstFrom(sent: seq<InFlight>, n: nat)
    requires n < |sent|
    ensures Bytes(sent[n..]) == |sent[n].block| + Bytes(sent[n + 1..])
  {
    hide Bytes;
    FirstOf(sent, n, |sent|);
    assert sent[n..|sent|] == sent[n..];
    assert sent[n + 1..|sent|] == sent[n + 1..];
  }

  lemma NoBytes()
    ensures Bytes([]) == 0
  {
  }

  lemma FirstOf(sent: seq<InFlight>, n: nat, m: nat)
    requires n < m <= |sent|
    ensures Bytes(sent[n..m]) == |sent[n].block| + Bytes(sent[n + 1..m])
  {
    assert sent[n..m] == [sent[n]] + sent[n + 1..m];
    BytesAppend([sent[n]], sent[n + 1..m]);
    assert [sent[n]][..0] == [];
  }

  lemma {:induction false} CommandTakes(q: Queue, line: Line, ce: Estimate, buf: seq<Byte>, eventtime: real)
    requires Regular(q) && |buf| <= MESSAGE_MAX * |q.link.sent|
    ensures Takes(q.link, CommandLoop(q, line, ce, buf, eventtime).queue.link, line, eventtime, Idle(q.link, eventtime), |buf|)
    decreases MAX_PENDING_BLOCKS - |q.link.sent|
  {
    hide CommandLoop, Regular, Decide, Build, Open, BitTime, Takes, Idle;
    CommandStep(q, line, ce, buf, eventtime);
    var d, q2 := Decide(q, line, ce, |buf|, eventtime), Ready(q, line, ce, buf, eventtime);
    if d.wake == Now {
      FewPlaces(q2, buf);
      var r := Build(q2, line, |buf|, eventtime);
      BuildTakes(q2, line, |buf|, eventtime);
      CommandTakes(r, line, ce, buf + r.link.sent[|q2.link.sent|].block, eventtime);
      SameIdle(q2.link, r.link, eventtime);
      OneTaken(q2.link, r.link, CommandLoop(q, line, ce, buf, eventtime).queue.link, line, eventtime, Idle(q.link, eventtime), |buf|);
    } else {
      NoneTaken(q.link, q2.link, line, eventtime, Idle(q.link, eventtime), |buf|);
    }
  }

  lemma SameIdle(l: Link, r: Link, eventtime: real)
    requires r.idleTime == l.idleTime
    ensures Idle(r, eventtime) == Idle(l, eventtime)
  {
  }

  /** The buffer never overflows before the window is full. */
  lemma FewPlaces(q: Queue, buf: seq<Byte>)
    requires Open(q.link) && Regular(q) && |buf| <= MESSAGE_MAX * |q.link.sent|
    ensures !BufferFull(buf)
  {
    hide Numbered, Bytes;
  }

  lemma BuildTakes(q: Queue, line: Line, pending: nat, eventtime: real)
    requires Regular(q) && Open(q.link)
    ensures var r := Build(q, line, pending, eventtime).link;
            && |r.sent| == |q.link.sent| + 1 && r.sent[..|q.link.sent|] == q.link.sent
            && r.idleTime == q.link.idleTime
            && var len := |r.sent[|q.link.sent|].block|;
               && 0 < len <= MESSAGE_MAX && r.sent[|q.link.sent|].sentTime == eventtime
               && r.sent[|q.link.sent|].receiveTime == Idle(q.link, eventtime) + BitTime(line, pending + len)
  {
    hide BitTime, Pack, Payload, Open, Sound, Orderly;
    BuildKeeps(q, line, pending, eventtime);
    LastLength(Build(q, line, pending, eventtime).link);
  }

  lemma LastLength(l: Link)
    requires Sound(l) && l.sent != []
    ensures 0 < |l.sent[|l.sent| - 1].block| <= MESSAGE_MAX
  {
    hide Bytes;
    var k := |l.sent| - 1;
    BlockLength(l.sent[k].block, (l.receiveSeq + k) % 0x10);
  }

  /** The command handler never talks over itself: the blocks it sends leave one after the other, once the line is free,
    * their times say when, and the line is busy until the last one has left; if none is sent it is free as before. */
  lemma CommandTakesLine(q: Queue, line: Line, ce: Estimate, eventtime: real)
    requires Regular(q)
    ensures var r := CommandLoop(q, line, ce, [], eventtime).queue.link; var n := |q.link.sent|;
            && q.link.sent <= r.sent
            && (forall k :: n <= k < |r.sent| ==>
                  StampedAt(r.sent, n, line, eventtime, Max(q.link.idleTime, eventtime), 0, k))
            && r.idleTime == if |r.sent| == n then q.link.idleTime else r.sent[|r.sent| - 1].receiveTime
  {
    hide CommandLoop, Regular, BitTime;
    CommandTakes(q, line, ce, [], eventtime);
    var r, n := CommandLoop(q, line, ce, [], eventtime).queue.link, |q.link.sent|;
    if |r.sent| == n {
      assert r.sent[n..] == [];
    } else {
      assert StampedAt(r.sent, n, line, eventtime, Idle(q.link, eventtime), 0, |r.sent| - 1);
      assert r.sent[n..|r.sent| - 1 + 1] == r.sent[n..];
      assert StampedAt(r.sent, n, line, eventtime, Idle(q.link, eventtime), 0, n);
      FirstFrom(r.sent, n);
    }
  }
}
