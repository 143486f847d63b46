/** A run of the serial queue in which the receive window is learned too late: more is in flight than it holds. */
module LateWindow {
  import opened Wire
  import opened SendWindow
  import opened CommandScheduler
  import opened SerialProtocol
  import opened SerialRuns
  import SerialBlocks

  /** A message that fills a block, due at once. */
  function Large(): (m: Msg)
    ensures |m.bytes| == MESSAGE_PAYLOAD_MAX && m.minClock == m.reqClock == m.notifyId == 0
  {
    Msg(seq(MESSAGE_PAYLOAD_MAX, _ => 1), 0, 0, 0)
  }

  /** Queue 0 holds so many of them, and no other queue holds anything. */
  predicate Holds(qs: seq<CommandQueue>, n: nat) {
    && |qs| == 1 && qs[0].id == 0 && |qs[0].ready| + |qs[0].upcoming| == n
    && (forall i :: 0 <= i < |qs[0].ready| ==> qs[0].ready[i] == Large())
    && forall i :: 0 <= i < |qs[0].upcoming| ==> qs[0].upcoming[i] == Large()
  }

  /** Whatever the clock says, they all become ready. */
  lemma AllReady(s: Sched, ackClock: Word64, n: nat)
    requires Orderly(s) && 0 < n && Holds(s.pending, n)
    ensures var r := Promoted(s, ackClock);
            Orderly(r) && Holds(r.pending, n) && r.pending[0].upcoming == [] && 0 < r.readyBytes
  {
    hide Listed;
    PromotedKeeps(s, ackClock, 0);
    var q := s.pending[0];
    var r := Promoted(s, ackClock);
    assert r.pending == [PromoteOne(q, ackClock)];
    assert Due(q.upcoming, ackClock) == |q.upcoming|;
    One(r.pending[0], 0);
    assert r.pending[0].ready[0] == Large();
  }

  predicate AllOut(qs: seq<CommandQueue>, n: nat) {
    if n == 0 then qs == [] else Holds(qs, n) && qs[0].upcoming == []
  }

  /** The first of them is the most urgent message, and leaves the others. */
  lemma TakesOne(s: Sched, n: nat)
    requires Orderly(s) && 0 < n && AllOut(s.pending, n)
    ensures |s.pending| == 1 && MostUrgent(s.pending) == 0
    ensures s.pending[0].ready != [] && s.pending[0].ready[0] == Large()
    ensures Orderly(TakeFrom(s, 0)) && AllOut(TakeFrom(s, 0).pending, n - 1)
  {
    hide Orderly;
    assert s.pending[0].ready[0] == Large();
    assert s.pending[..0] == [];
    assert MostUrgent(s.pending) == 0;
    TakeFromKeeps(s, 0);
  }

  lemma ReadyWhileOut(s: Sched, n: nat)
    requires Orderly(s) && AllOut(s.pending, n)
    ensures s.readyBytes == 0 <==> n == 0
  {
    hide Listed;
    if 0 < n {
      assert s.pending == [s.pending[0]];
      One(s.pending[0], 0);
      assert s.pending[0].ready[0] == Large();
    }
  }

  /** A block takes one of them, and has no room for another. */
  lemma PacksOne(s: Sched, n: nat)
    requires Orderly(s) && 0 < n && AllOut(s.pending, n)
    ensures var p := Pack(s, MESSAGE_HEADER_SIZE);
            Orderly(p.sched) && |Payload(p.packed)| == MESSAGE_PAYLOAD_MAX && AllOut(p.sched.pending, n - 1)
  {
    hide Orderly, AllOut, MostUrgent, TakeFrom, Large;
    TakesOne(s, n);
    ReadyWhileOut(s, n);
    var t := TakeFrom(s, 0);
    ReadyWhileOut(t, n - 1);
    if n > 1 {
      TakesOne(t, n - 1);
    }
    assert Pack(t, MESSAGE_HEADER_SIZE + MESSAGE_PAYLOAD_MAX) == Packing(t, []);
    PayloadSnoc([], Packed(s.pending[0].id, Large()));
    assert [] + [Packed(s.pending[0].id, Large())] == [Packed(s.pending[0].id, Large())];
  }

  /** The loop of command_event goes on from there. */
  ghost predicate Continues(q: Queue, buf: seq<Byte>, b: Queue, more: seq<Byte>, line: Line, eventtime: real)
    requires Regular(q) && Regular(b)
  {
    CommandLoop(q, line, NO_ESTIMATE, buf, eventtime) == CommandLoop(b, line, NO_ESTIMATE, more, eventtime)
  }

  /** One more block, of the greatest length, is in flight. */
  predicate OneMore(l: Link, r: Link) {
    var k := |l.sent|;
    && |r.sent| == k + 1 && r.sent[..k] == l.sent && |r.sent[k].block| == MESSAGE_MAX
    && r.receiveWindow == l.receiveWindow
  }

  /** One turn of command_event without a clock estimate sends one of them, in a full block. */
  lemma SendsOne(q: Queue, line: Line, buf: seq<Byte>, eventtime: real, n: nat)
    returns (b: Queue, more: seq<Byte>)
    requires Regular(q) && Open(q.link) && 0 < n && Holds(q.sched.pending, n)
    ensures Regular(b) && AllOut(b.sched.pending, n - 1)
    ensures Continues(q, buf, b, more, line, eventtime)
    ensures OneMore(q.link, b.link)
  {
    hide Regular, Open, Decide, Promoted, CommandLoop, Ready, Flushed, Build, Pack, Payload, Orderly, Holds, Carried,
      Large;
    DecidedBlind(q, line, |buf|, eventtime);
    var ack: Word64 :| var s := Promoted(q.sched, ack);
                       0 < s.readyBytes ==> Decide(q, line, NO_ESTIMATE, |buf|, eventtime) == Decision(s, Now);
    RegularQueues(q);
    AllReady(q.sched, ack, n);
    CommandStep(q, line, NO_ESTIMATE, buf, eventtime);
    var q2 := Ready(q, line, NO_ESTIMATE, buf, eventtime);
    FlushedRest(q.(sched := Promoted(q.sched, ack)), line, buf, eventtime);
    b := Build(q2, line, |Carried(buf)|, eventtime);
    more := Carried(buf) + b.link.sent[|q2.link.sent|].block;
    PacksOne(q2.sched, n);
    BuildPacks(q2, line, |Carried(buf)|, eventtime);
    SerialBlocks.BuiltBlock(q2, line, |Carried(buf)|, eventtime);
  }

  lemma RegularQueues(q: Queue)
    requires Regular(q)
    ensures Orderly(q.sched) && Sound(q.link)
  {
  }

  lemma FlushedRest(q: Queue, line: Line, buf: seq<Byte>, eventtime: real)
    ensures var r := Flushed(q, line, buf, eventtime);
            r.sched == q.sched && r.link.sent == q.link.sent && r.link.receiveWindow == q.link.receiveWindow
  {
  }

  lemma BuildPacks(q: Queue, line: Line, pending: nat, eventtime: real)
    requires Regular(q)
    ensures Build(q, line, pending, eventtime).sched == Pack(q.sched, MESSAGE_HEADER_SIZE).sched
  {
    hide Pack, Sound, Orderly, Payload;
    PackConserves(q.sched, MESSAGE_HEADER_SIZE, 0);
  }

  /** Two of them enqueued on a new session. */
  lemma TwoQueued()
    ensures var q := Enqueue(FRESH_QUEUE, 0, [Large(), Large()]);
            q.link == FRESH && Holds(q.sched.pending, 2)
  {
    hide Large;
    var ms := [Large(), Large()];
    assert RaisedAll(ms) == ms;
    assert ms[1..] == [Large()];
    LengthOne(Large());
    assert [] + ms == ms;
  }

  lemma OneMoreAdds(l: Link, r: Link)
    requires OneMore(l, r)
    ensures Bytes(r.sent) == Bytes(l.sent) + MESSAGE_MAX
  {
    assert r.sent[..|r.sent| - 1] == l.sent;
  }

  /** Before a window is known, command_event sends both: twelve blocks may be in flight then, whatever their length. */
  lemma BothSent(q: Queue, line: Line, eventtime: real)
    requires Regular(q) && q.link == FRESH && Holds(q.sched.pending, 2)
    ensures var r := CommandLoop(q, line, NO_ESTIMATE, [], eventtime).queue;
            |r.link.sent| == 2 && Bytes(r.link.sent) == 2 * MESSAGE_MAX
  {
    hide Regular, Open, CommandLoop, Holds, AllOut, Orderly;
    FreshIsOpen();
    var b, more := SendsOne(q, line, [], eventtime, 2);
    StillOpen(b);
    OutAre(b.sched, 1);
    var c, rest := SendsOne(b, line, more, eventtime, 1);
    StillOpen(c);
    RegularQueues(c);
    OutAre(c.sched, 0);
    ReadyWhileOut(c.sched, 0);
    NothingLeft(c, line, rest, eventtime);
    OneMoreAdds(q.link, b.link);
    OneMoreAdds(b.link, c.link);
  }

  lemma FreshIsOpen()
    ensures Open(FRESH)
  {
  }

  lemma OutAre(s: Sched, n: nat)
    requires AllOut(s.pending, n)
    ensures if n == 0 then s.pending == [] else Holds(s.pending, n)
  {
  }

  lemma StillOpen(q: Queue)
    requires Regular(q) && q.link.receiveWindow == 0 && |q.link.sent| < MAX_PENDING_BLOCKS
    ensures Open(q.link)
  {
  }

  /** The window is learned when two full blocks are in flight already, and holds less than they are.  The run meets
    * every condition of a session; only the change of the window does not fit. */
  lemma LateWindowExample(can: bool)
    ensures var es := [Batch(0, [Large(), Large()]), Command(NO_ESTIMATE, 0.0), NewWindow(100)];
            && IsRun(Opened(can), es)
            && var l := Run(Opened(can), es).queue.link;
               |l.sent| == 2 && l.needAckBytes == 2 * MESSAGE_MAX && l.receiveWindow == 100 && !WithinWindow(l)
  {
    hide Kept, Enqueue, CommandLoop, Regular, Holds, Large;
    var line := Unset(can);
    var a, b, c := Batch(0, [Large(), Large()]), Command(NO_ESTIMATE, 0.0), NewWindow(100);
    FreshIsKept();
    BatchPossible();
    EnqueueKept(FRESH_QUEUE, 0, [Large(), Large()]);
    var q := Enqueue(FRESH_QUEUE, 0, [Large(), Large()]);
    KeptIsRegular(q);
    TwoQueued();
    BothSent(q, line, 0.0);
    CommandKept(q, line, NO_ESTIMATE, [], 0.0);
    var r := CommandLoop(q, line, NO_ESTIMATE, [], 0.0).queue;
    KeptIsRegular(r);
    CountIs(r);
    ThreeEvents(Opened(can), a, b, c);
  }

  lemma BatchPossible()
    ensures Possible(FRESH_QUEUE, Batch(0, [Large(), Large()]))
  {
  }

  lemma CountIs(q: Queue)
    requires Regular(q)
    ensures q.link.needAckBytes == Bytes(q.link.sent)
  {
  }
}
