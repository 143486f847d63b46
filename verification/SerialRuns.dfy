/** Whole runs of the serial queue: nothing enqueued is lost, doubled or reordered, notifications come once and in
  * order, and every measured round trip obeys Karn's rule. */
module SerialRuns {
  import opened Wire
  import opened Clocks
  import opened SendWindow
  import opened KarnRule
  import opened CommandScheduler
  import opened SerialProtocol
  import Framing
  import Seqs

  // The record, read by queue and by kind.

  function ShippedFrom(ss: seq<Shipped>, id: nat): seq<Msg> {
    if ss == [] then []
    else ShippedFrom(ss[..|ss| - 1], id) + (if ss[|ss| - 1].id == id then [ss[|ss| - 1].msg] else [])
  }

  /** The shipped messages that asked for a notification. */
  function Notifying(ss: seq<Shipped>): seq<Note> {
    if ss == [] then []
    else
      var last := ss[|ss| - 1];
      Notifying(ss[..|ss| - 1]) + (if last.msg.notifyId != 0 then [Note(last.msg, last.seqno)] else [])
  }

  function AckedIn(rs: seq<Received>): seq<Note> {
    if rs == [] then []
    else AckedIn(rs[..|rs| - 1]) + (if rs[|rs| - 1].Acked? then [rs[|rs| - 1].note] else [])
  }

  predicate ConservedFor(enqueued: seq<Packed>, shipped: seq<Shipped>, pending: seq<CommandQueue>, id: nat) {
    PackedFrom(enqueued, id) == ShippedFrom(shipped, id) + Held(pending, id)
  }

  /** For each command queue, what was enqueued is what was shipped followed by what it still holds. */
  ghost predicate Conserved(q: Queue) {
    forall id: nat :: ConservedFor(q.log.enqueued, q.log.shipped, q.sched.pending, id)
  }

  /** The shipped messages that asked for a notification are those notified followed by those still waiting; the
    * notifications given are those pulled followed by those to be pulled.  So each such message is at any time in
    * exactly one of: a command queue, the notify queue, the receive queue, or the hands of the reader. */
  predicate Notified(q: Queue) {
    && Notifying(q.log.shipped) == q.log.fired + q.notes
    && AckedIn(q.log.pulled + q.received) == q.log.fired
  }

  ghost predicate InOrder(notes: seq<Note>, sendSeq: nat) {
    && (forall i :: 0 <= i < |notes| ==> 1 <= notes[i].seqno < sendSeq)
    && forall i, j :: 0 <= i < j < |notes| ==> notes[i].seqno <= notes[j].seqno
  }

  ghost predicate Kept(q: Queue) {
    && Regular(q) && Armed(q.link) && Honest(q.link, q.log.trace)
    && Conserved(q) && Notified(q) && InOrder(q.notes, q.link.sendSeq)
  }

  lemma FreshIsKept()
    ensures Kept(FRESH_QUEUE)
  {
    var q := FRESH_QUEUE;
    FreshIsSound();
    FreshIsHonest();
    forall id: nat
      ensures ConservedFor(q.log.enqueued, q.log.shipped, q.sched.pending, id)
    {
    }
    assert q.log.pulled + q.received == [];
  }

  lemma {:induction false} PackedFromAppend(a: seq<Packed>, b: seq<Packed>, id: nat)
    ensures PackedFrom(a + b, id) == PackedFrom(a, id) + PackedFrom(b, id)
  {
    if a == [] {
      assert a + b == b;
    } else {
      assert (a + b)[0] == a[0] && (a + b)[1..] == a[1..] + b;
      PackedFromAppend(a[1..], b, id);
      var own := if a[0].id == id then [a[0].msg] else [];
      assert own + (PackedFrom(a[1..], id) + PackedFrom(b, id)) == own + PackedFrom(a[1..], id) + PackedFrom(b, id);
    }
  }

  lemma {:induction false} TaggedFrom(ms: seq<Msg>, id: nat, other: nat)
    ensures PackedFrom(Tagged(id, ms), other) == if other == id then ms else []
  {
    if ms != [] {
      assert Tagged(id, ms)[1..] == Tagged(id, ms[1..]);
      TaggedFrom(ms[1..], id, other);
    }
  }

  lemma {:induction false} ShippedAppend(ss: seq<Shipped>, ps: seq<Packed>, seqno: nat, id: nat)
    ensures ShippedFrom(ss + ShippedIn(ps, seqno), id) == ShippedFrom(ss, id) + PackedFrom(ps, id)
    ensures Notifying(ss + ShippedIn(ps, seqno)) == Notifying(ss) + NotesOf(ps, seqno)
    decreases |ps|
  {
    if ps == [] {
      assert ss + ShippedIn(ps, seqno) == ss;
    } else {
      var n := |ps| - 1;
      var all := ss + ShippedIn(ps, seqno);
      assert all[..|all| - 1] == ss + ShippedIn(ps[..n], seqno);
      assert all[|all| - 1] == Shipped(ps[n].id, ps[n].msg, seqno);
      ShippedAppend(ss, ps[..n], seqno, id);
      PackedSnoc(ps, id);
      var own := if ps[n].id == id then [ps[n].msg] else [];
      Assoc(ShippedFrom(ss, id), PackedFrom(ps[..n], id), own);
      var note := if ps[n].msg.notifyId != 0 then [Note(ps[n].msg, seqno)] else [];
      Assoc(Notifying(ss), NotesOf(ps[..n], seqno), note);
    }
  }

  lemma PackedSnoc(ps: seq<Packed>, id: nat)
    requires ps != []
    ensures var n := |ps| - 1;
            PackedFrom(ps, id) == PackedFrom(ps[..n], id) + (if ps[n].id == id then [ps[n].msg] else [])
  {
    var n := |ps| - 1;
    assert ps == ps[..n] + [ps[n]];
    PackedFromAppend(ps[..n], [ps[n]], id);
    assert [ps[n]][1..] == [];
  }

  lemma Assoc<T>(a: seq<T>, b: seq<T>, c: seq<T>)
    ensures a + b + c == a + (b + c)
  {
  }

  lemma {:induction false} AckedAppend(rs: seq<Received>, more: seq<Received>)
    ensures AckedIn(rs + more) == AckedIn(rs) + AckedIn(more)
    decreases |more|
  {
    if more == [] {
      assert rs + more == rs;
    } else {
      var n := |more| - 1;
      assert (rs + more)[..|rs| + n] == rs + more[..n];
      AckedAppend(rs, more[..n]);
      Assoc(AckedIn(rs), AckedIn(more[..n]), if more[n].Acked? then [more[n].note] else []);
    }
  }

  lemma {:induction false} AckedOfNotes(notes: seq<Note>, sentTime: real, receiveTime: real)
    ensures AckedIn(AckedAll(notes, sentTime, receiveTime)) == notes
    decreases |notes|
  {
    if notes != [] {
      var n := |notes| - 1;
      assert AckedAll(notes, sentTime, receiveTime)[..n] == AckedAll(notes[..n], sentTime, receiveTime);
      AckedOfNotes(notes[..n], sentTime, receiveTime);
      assert notes == notes[..n] + [notes[n]];
    }
  }

  // Each transition keeps the record right.

  lemma ReceivedKeeps(q: Queue, n: nat, sentTime: real, eventtime: real, data: seq<Received>)
    requires Notified(q) && n <= |q.notes|
    requires forall i :: 0 <= i < |data| ==> data[i].Data?
    ensures AckedIn(q.log.pulled + (q.received + AckedAll(q.notes[..n], sentTime, eventtime) + data))
         == q.log.fired + q.notes[..n]
    ensures Notifying(q.log.shipped) == q.log.fired + q.notes[..n] + q.notes[n..]
  {
    hide AckedIn, Notifying, AckedAll;
    var acks := AckedAll(q.notes[..n], sentTime, eventtime);
    ReceivedOrder(q.log.pulled, q.received, acks, data);
    AckedOfNotes(q.notes[..n], sentTime, eventtime);
    NoAcks(data);
    assert q.log.fired + q.notes[..n] + [] == q.log.fired + q.notes[..n];
    Seqs.Halves(q.log.fired, q.notes, n);
  }

  lemma ReceivedOrder(pulled: seq<Received>, received: seq<Received>, acks: seq<Received>, data: seq<Received>)
    ensures AckedIn(pulled + (received + acks + data)) == AckedIn(pulled + received) + AckedIn(acks) + AckedIn(data)
  {
    hide AckedIn;
    Assoc(pulled, received + acks, data);
    Assoc(pulled, received, acks);
    AckedAppend(pulled + received + acks, data);
    AckedAppend(pulled + received, acks);
  }

  lemma {:induction false} NoAcks(data: seq<Received>)
    requires forall i :: 0 <= i < |data| ==> data[i].Data?
    ensures AckedIn(data) == []
    decreases |data|
  {
    if data != [] {
      NoAcks(data[..|data| - 1]);
    }
  }

  lemma HandleKept(q: Queue, line: Line, eventtime: real, arrival: real, block: seq<Byte>)
    requires Kept(q) && MESSAGE_MIN <= |block|
    ensures Kept(HandleMessage(q, line, eventtime, arrival, block))
  {
    hide Regular, Armed, Honest, Acknowledged, Refused, Notified, AckSeq, Woken, WakeSeq, AckedAll;
    var rseq := AckSeq(q.link, block[1] % 0x10);
    var r := HandleMessage(q, line, eventtime, arrival, block);
    HandleKeeps(q, line, eventtime, arrival, block);
    NibbleBounds(q.link, block[1] % 0x10);
    if !Refused(q.link, rseq) {
      SoundOf(q);
      var n := Woken(q.notes, WakeSeq(rseq, |block|));
      var link := Acknowledged(q.link, line, eventtime, rseq, |block|);
      AcknowledgedIsHonest(q.link, q.log.trace, line, eventtime, rseq, |block|);
      AcknowledgedArmed(q.link, line, eventtime, rseq, |block|);
      SendSeqGrows(q.link, line, eventtime, rseq, |block|);
      var data := if |block| == MESSAGE_MIN then [] else [Data(block, SentTime(link), arrival - BitTime(line, |block|))];
      ReceivedKeeps(q, n, link.lastReceiveSentTime, eventtime, data);
      NotifiedIf(r);
    } else {
      NotifiedSame(q, r);
    }
  }

  lemma NibbleBounds(l: Link, nibble: nat)
    ensures l.receiveSeq <= AckSeq(l, nibble)
  {
  }

  lemma SoundOf(q: Queue)
    requires Regular(q)
    ensures Sound(q.link) && Orderly(q.sched)
  {
  }

  lemma NotifiedIf(q: Queue)
    requires Notifying(q.log.shipped) == q.log.fired + q.notes
    requires AckedIn(q.log.pulled + q.received) == q.log.fired
    ensures Notified(q)
  {
  }

  lemma NotifiedSame(q: Queue, r: Queue)
    requires Notified(q) && r.notes == q.notes && r.received == q.received
    requires r.log.shipped == q.log.shipped && r.log.fired == q.log.fired && r.log.pulled == q.log.pulled
    ensures Notified(r)
  {
  }

  lemma SendSeqGrows(l: Link, line: Line, eventtime: real, rseq: nat, len: nat)
    requires Sound(l) && l.receiveSeq <= rseq && !Refused(l, rseq)
    ensures l.sendSeq <= Acknowledged(l, line, eventtime, rseq, len).sendSeq
  {
    hide Numbered, Bytes, BitTime, Clamp;
  }

  lemma RetransmitKept(q: Queue, line: Line, eventtime: real)
    requires Kept(q) && q.link.timer != Never
    ensures Kept(Retransmit(q, line, eventtime))
  {
    hide Regular, Armed, Honest, Notified, Burst, TraceRetransmitted;
    SoundOf(q);
    RetransmitKeeps(q, line, eventtime);
    RetransmittedIsHonest(q.link, q.log.trace, line, eventtime);
    RetransmittedArmed(q.link, line, eventtime);
    NotifiedSame(q, Retransmit(q, line, eventtime));
  }

  lemma EnqueueKept(q: Queue, id: nat, ms: seq<Msg>)
    requires Kept(q) && forall i :: 0 <= i < |ms| ==> Sendable(ms[i])
    ensures Kept(Enqueue(q, id, ms))
  {
    hide Sound, Orderly, Armed, Honest, Notified, SendBatch, Held, PackedFrom, Raised, Length;
    var r := Enqueue(q, id, ms);
    SendBatchKeeps(q.sched, id, ms, 0);
    NotifiedSame(q, r);
    forall other: nat
      ensures ConservedFor(r.log.enqueued, r.log.shipped, r.sched.pending, other)
    {
      SendBatchKeeps(q.sched, id, ms, other);
      assert ConservedFor(q.log.enqueued, q.log.shipped, q.sched.pending, other);
      LetIn(ms);
      var added := if Length(RaisedAll(ms)) == 0 then [] else RaisedAll(ms);
      PackedFromAppend(q.log.enqueued, Tagged(id, added), other);
      TaggedFrom(added, id, other);
      Assoc(ShippedFrom(q.log.shipped, other), Held(q.sched.pending, other), if other == id then added else []);
    }
  }

  /** A batch of messages a caller may enqueue is dropped only when it is empty. */
  lemma LetIn(ms: seq<Msg>)
    requires forall i :: 0 <= i < |ms| ==> Sendable(ms[i])
    ensures Length(RaisedAll(ms)) == 0 ==> RaisedAll(ms) == []
  {
    hide Raised;
    var r := RaisedAll(ms);
    if r != [] {
      RaisedIsPaced(ms[0]);
      LengthPositive(r);
    }
  }

  lemma PullKept(q: Queue)
    requires Kept(q) && q.received != []
    ensures Kept(Pull(q))
  {
    hide Sound, Orderly, Armed, Honest, Notifying, AckedIn;
    assert q.log.pulled + [q.received[0]] + q.received[1..] == q.log.pulled + q.received;
  }

  lemma NotesInOrder(ps: seq<Packed>, seqno: nat)
    ensures forall i :: 0 <= i < |NotesOf(ps, seqno)| ==> NotesOf(ps, seqno)[i].seqno == seqno
    decreases |ps|
  {
    if ps != [] {
      NotesInOrder(ps[..|ps| - 1], seqno);
    }
  }

  lemma BuildKept(q: Queue, line: Line, pending: nat, eventtime: real)
    requires Kept(q) && Open(q.link)
    ensures Kept(Build(q, line, pending, eventtime))
  {
    hide Sound, Orderly, Armed, Honest, Pack, Open, Held, PackedFrom, Built, TraceBuilt, NotesOf, Payload;
    hide ShippedFrom, Notifying;
    var p := Pack(q.sched, MESSAGE_HEADER_SIZE);
    var r := Build(q, line, pending, eventtime);
    BuildKeeps(q, line, pending, eventtime);
    PackConserves(q.sched, MESSAGE_HEADER_SIZE, 0);
    BuiltIsHonest(q.link, q.log.trace, line, Payload(p.packed), pending, eventtime);
    BuiltArmed(q.link, line, Payload(p.packed), pending, eventtime);
    BuiltSeq(q.link, line, Payload(p.packed), pending, eventtime);
    NotesInOrder(p.packed, q.link.sendSeq);
    ShippedAppend(q.log.shipped, p.packed, q.link.sendSeq, 0);
    Assoc(q.log.fired, q.notes, NotesOf(p.packed, q.link.sendSeq));
    forall id: nat
      ensures ConservedFor(r.log.enqueued, r.log.shipped, r.sched.pending, id)
    {
      PackConserves(q.sched, MESSAGE_HEADER_SIZE, id);
      ShippedAppend(q.log.shipped, p.packed, q.link.sendSeq, id);
      assert ConservedFor(q.log.enqueued, q.log.shipped, q.sched.pending, id);
      Assoc(ShippedFrom(q.log.shipped, id), PackedFrom(p.packed, id), Held(p.sched.pending, id));
    }
  }

  lemma BuiltSeq(l: Link, line: Line, payload: seq<Byte>, pending: nat, eventtime: real)
    requires Sound(l) && |payload| <= MESSAGE_PAYLOAD_MAX
    ensures Built(l, line, payload, pending, eventtime).sendSeq == l.sendSeq + 1
    ensures 1 <= l.sendSeq
  {
    hide Numbered;
  }

  lemma DecideKept(q: Queue, line: Line, ce: Estimate, pending: nat, eventtime: real)
    requires Kept(q)
    ensures Kept(q.(sched := Decide(q, line, ce, pending, eventtime).sched))
  {
    hide Sound, Orderly, Armed, Honest, Notified, Decide, Held, Open;
    var d := Decide(q, line, ce, pending, eventtime);
    var r := q.(sched := d.sched);
    DecideKeeps(q, line, ce, pending, eventtime, 0);
    NotifiedSame(q, r);
    forall id: nat
      ensures ConservedFor(r.log.enqueued, r.log.shipped, r.sched.pending, id)
    {
      DecideKeeps(q, line, ce, pending, eventtime, id);
      assert ConservedFor(q.log.enqueued, q.log.shipped, q.sched.pending, id);
    }
  }

  lemma FlushedKept(q: Queue, line: Line, buf: seq<Byte>, eventtime: real)
    requires Kept(q)
    ensures Kept(Flushed(q, line, buf, eventtime))
  {
    hide Regular, Honest, Notified;
    var r := Flushed(q, line, buf, eventtime);
    FlushedKeeps(q, line, buf, eventtime);
    NotifiedSame(q, r);
    SameTrace(q.link, r.link, q.log.trace);
  }

  lemma {:induction false} CommandKept(q: Queue, line: Line, ce: Estimate, buf: seq<Byte>, eventtime: real)
    requires Kept(q)
    ensures Kept(CommandLoop(q, line, ce, buf, eventtime).queue)
    decreases MAX_PENDING_BLOCKS - |q.link.sent|
  {
    hide *;
    KeptIsRegular(q);
    CommandStep(q, line, ce, buf, eventtime);
    var d := Decide(q, line, ce, |buf|, eventtime);
    var q1 := q.(sched := d.sched);
    DecideKept(q, line, ce, |buf|, eventtime);
    FlushedKept(q1, line, buf, eventtime);
    KeptIsRegular(q1);
    var q2 := Ready(q, line, ce, buf, eventtime);
    if d.wake == Now {
      KeptIsRegular(q2);
      var r := Build(q2, line, |Carried(buf)|, eventtime);
      BuildKept(q2, line, |Carried(buf)|, eventtime);
      KeptIsRegular(r);
      CommandKept(r, line, ce, Carried(buf) + r.link.sent[|q2.link.sent|].block, eventtime);
    } else {
      CommandTimerKept(q2, d.wake);
    }
  }

  lemma KeptIsRegular(q: Queue)
    requires Kept(q)
    ensures Regular(q)
  {
  }

  lemma CommandTimerKept(q: Queue, wake: Timer)
    requires Kept(q)
    ensures Kept(q.(command := wake))
  {
    hide Sound, Orderly, Armed, Honest, Notified;
    NotifiedSame(q, q.(command := wake));
  }

  lemma SetWindowKept(q: Queue, window: int)
    requires Kept(q)
    ensures Kept(SetWindow(q, window))
  {
    hide Sound, Orderly, Honest, Notified;
    SoundOf(q);
    WindowSetKeeps(q.link, window);
    NotifiedSame(q, SetWindow(q, window));
    SameTrace(q.link, WindowSet(q.link, window), q.log.trace);
  }

  // Runs.

  /** The queue and the line it talks over. */
  datatype Session = Session(queue: Queue, line: Line)

  /** A session as it is allocated: window and frequency are learned from the controller later on. */
  function Opened(can: bool): Session {
    Session(FRESH_QUEUE, Unset(can))
  }

  datatype Event =
    | Frame(block: seq<Byte>, eventtime: real, arrival: real)
    | Timeout(eventtime: real)
    | Command(ce: Estimate, eventtime: real)
    | Batch(id: nat, ms: seq<Msg>)
    | Take
    | NewWindow(window: int)
    | NewFrequency(frequency: real)

  ghost predicate Possible(q: Queue, e: Event) {
    match e
    case Frame(block, _, _) => MESSAGE_MIN <= |block|
    case Timeout(_) => q.link.timer != Never
    case Command(_, _) => Regular(q)
    case Batch(_, ms) => forall i :: 0 <= i < |ms| ==> Sendable(ms[i])
    case Take => q.received != []
    case NewWindow(_) => true
    case NewFrequency(frequency) => frequency != 0.0
  }

  /** What an event does to the queue. */
  ghost function Next(q: Queue, line: Line, e: Event): Queue
    requires Possible(q, e)
  {
    match e
    case Frame(block, eventtime, arrival) => HandleMessage(q, line, eventtime, arrival, block)
    case Timeout(eventtime) => Retransmit(q, line, eventtime)
    case Command(ce, eventtime) => CommandLoop(q, line, ce, [], eventtime).queue
    case Batch(id, ms) => Enqueue(q, id, ms)
    case Take => Pull(q)
    case NewWindow(window) => SetWindow(q, window)
    case NewFrequency(_) => q
  }

  ghost function Step(s: Session, e: Event): Session
    requires Possible(s.queue, e)
  {
    Session(Next(s.queue, s.line, e), if e.NewFrequency? then AtFrequency(s.line, e.frequency) else s.line)
  }

  ghost predicate IsRun(s: Session, es: seq<Event>)
    decreases |es|
  {
    es == [] || (Possible(s.queue, es[0]) && IsRun(Step(s, es[0]), es[1..]))
  }

  ghost function Run(s: Session, es: seq<Event>): Session
    requires IsRun(s, es)
    decreases |es|
  {
    if es == [] then s else Run(Step(s, es[0]), es[1..])
  }

  lemma NextKept(q: Queue, line: Line, e: Event)
    requires Kept(q) && Possible(q, e)
    ensures Kept(Next(q, line, e))
  {
    hide Kept, HandleMessage, Retransmit, Enqueue, Pull, CommandLoop, Regular, SetWindow;
    match e
    case Frame(block, eventtime, arrival) => HandleKept(q, line, eventtime, arrival, block);
    case Timeout(eventtime) => RetransmitKept(q, line, eventtime);
    case Command(ce, eventtime) => CommandKept(q, line, ce, [], eventtime);
    case Batch(id, ms) => EnqueueKept(q, id, ms);
    case Take => PullKept(q);
    case NewWindow(window) => SetWindowKept(q, window);
    case NewFrequency(_) =>
  }

  lemma {:induction false} RunKept(s: Session, es: seq<Event>)
    requires Kept(s.queue) && IsRun(s, es)
    ensures Kept(Run(s, es).queue)
    decreases |es|
  {
    hide Kept, Next, Possible;
    if es != [] {
      NextKept(s.queue, s.line, es[0]);
      RunKept(Step(s, es[0]), es[1..]);
    }
  }

  /** After any run of a new session, the learning of its window and frequency included: the window is sound, and its
    * timer set while a block is in flight; for every command queue, what was enqueued is what was shipped, in order,
    * followed by what is still held, so nothing is lost, doubled or overtaken; the byte counters are exact; and the
    * messages that asked for a notification are, in the order they were shipped, those already notified (pulled or
    * about to be) followed by those waiting. */
  lemma NothingLost(can: bool, es: seq<Event>, id: nat)
    requires IsRun(Opened(can), es)
    ensures var q := Run(Opened(can), es).queue;
            && Sound(q.link) && Armed(q.link) && Orderly(q.sched)
            && PackedFrom(q.log.enqueued, id) == ShippedFrom(q.log.shipped, id) + Held(q.sched.pending, id)
            && Notifying(q.log.shipped) == AckedIn(q.log.pulled + q.received) + q.notes
  {
    hide Sound, Orderly, Armed, Honest, Run, IsRun;
    FreshIsKept();
    RunKept(Opened(can), es);
    var q := Run(Opened(can), es).queue;
    assert ConservedFor(q.log.enqueued, q.log.shipped, q.sched.pending, id);
  }

  /** The serial queue may be asked for its next commands after every run: the window and the queues are as that
    * asks, so the condition on Command excludes nothing. */
  lemma CommandPossible(can: bool, es: seq<Event>, ce: Estimate, eventtime: real)
    requires IsRun(Opened(can), es)
    ensures Possible(Run(Opened(can), es).queue, Command(ce, eventtime))
  {
    hide Kept, Regular, Run, IsRun;
    FreshIsKept();
    RunKept(Opened(can), es);
    KeptIsRegular(Run(Opened(can), es).queue);
  }

  // The receive window over runs.

  /** One run of command_event never leaves more in flight than the window holds, unless it sends nothing and there was
    * more in flight before. */
  lemma {:induction false} CommandWithin(q: Queue, line: Line, ce: Estimate, buf: seq<Byte>, eventtime: real)
    requires Regular(q)
    ensures var r := CommandLoop(q, line, ce, buf, eventtime).queue;
            && |q.link.sent| <= |r.link.sent|
            && (WithinWindow(q.link) || |q.link.sent| < |r.link.sent| ==> WithinWindow(r.link))
    decreases MAX_PENDING_BLOCKS - |q.link.sent|
  {
    hide *;
    CommandStep(q, line, ce, buf, eventtime);
    var d, q2 := Decide(q, line, ce, |buf|, eventtime), Ready(q, line, ce, buf, eventtime);
    ReadyWithin(q, line, ce, buf, eventtime);
    if d.wake == Now {
      var r := Build(q2, line, |Carried(buf)|, eventtime);
      BuildWithin(q2, line, |Carried(buf)|, eventtime);
      CommandWithin(r, line, ce, Carried(buf) + r.link.sent[|q2.link.sent|].block, eventtime);
    }
  }

  lemma ReadyWithin(q: Queue, line: Line, ce: Estimate, buf: seq<Byte>, eventtime: real)
    ensures var q2 := Ready(q, line, ce, buf, eventtime);
            WithinWindow(q2.link) == WithinWindow(q.link) && q2.link.sent == q.link.sent
  {
    hide Decide, BitTime;
  }

  lemma BuildWithin(q: Queue, line: Line, pending: nat, eventtime: real)
    requires Regular(q) && Open(q.link)
    ensures WithinWindow(Build(q, line, pending, eventtime).link)
  {
    hide Sound, Orderly, Pack, Open, Payload, Built, WithinWindow;
    var p := Pack(q.sched, MESSAGE_HEADER_SIZE);
    PackConserves(q.sched, MESSAGE_HEADER_SIZE, 0);
    BuiltWithin(q.link, line, Payload(p.packed), pending, eventtime);
  }

  /** Only a change of the window can make what is in flight exceed it. */
  lemma NextWithin(q: Queue, line: Line, e: Event)
    requires Kept(q) && Possible(q, e) && WithinWindow(q.link)
    ensures WithinWindow(Next(q, line, e).link) <==> e.NewWindow? ==> Fits(q.link, e.window)
  {
    hide Sound, Orderly, Honest, Armed, Conserved, Notified, InOrder, Acknowledged, Retransmitted, CommandLoop;
    hide SendBatch, Fits, Woken, WakeSeq, AckedAll, Burst, TraceRetransmitted;
    KeptIsRegular(q);
    match e
    case Frame(block, eventtime, arrival) =>
      var rseq := AckSeq(q.link, block[1] % 0x10);
      AcknowledgedWithin(q.link, line, eventtime, rseq, |block|);
    case Timeout(eventtime) => RetransmittedWithin(q.link, line, eventtime);
    case Command(ce, eventtime) => CommandWithin(q, line, ce, [], eventtime);
    case Batch(_, _) =>
    case Take =>
    case NewWindow(window) => WindowSetKeeps(q.link, window);
    case NewFrequency(_) =>
  }

  /** At every moment of the run what is in flight is within the receive window. */
  ghost predicate AlwaysWithin(s: Session, es: seq<Event>)
    requires IsRun(s, es)
    decreases |es|
  {
    WithinWindow(s.queue.link) && (es != [] ==> AlwaysWithin(Step(s, es[0]), es[1..]))
  }

  /** Every new window finds no more in flight than it holds. */
  ghost predicate ChangesFit(s: Session, es: seq<Event>)
    requires IsRun(s, es)
    decreases |es|
  {
    es != [] ==>
      (es[0].NewWindow? ==> Fits(s.queue.link, es[0].window)) && ChangesFit(Step(s, es[0]), es[1..])
  }

  lemma {:induction false} RunWithin(s: Session, es: seq<Event>)
    requires Kept(s.queue) && WithinWindow(s.queue.link) && IsRun(s, es)
    ensures AlwaysWithin(s, es) <==> ChangesFit(s, es)
    decreases |es|
  {
    hide Kept, Next, Possible, WithinWindow, Fits;
    if es != [] {
      NextKept(s.queue, s.line, es[0]);
      NextWithin(s.queue, s.line, es[0]);
      var t := Step(s, es[0]);
      if WithinWindow(t.queue.link) {
        RunWithin(t, es[1..]);
      } else {
        NotWithin(t, es[1..]);
      }
    }
  }

  lemma NotWithin(s: Session, es: seq<Event>)
    requires IsRun(s, es) && !WithinWindow(s.queue.link)
    ensures !AlwaysWithin(s, es)
  {
  }

  /** What is in flight stays within the receive window throughout a session exactly when each window that is learned
    * finds no more in flight than it holds, or no more than one block. */
  lemma WindowRespected(can: bool, es: seq<Event>)
    requires IsRun(Opened(can), es)
    ensures AlwaysWithin(Opened(can), es) <==> ChangesFit(Opened(can), es)
  {
    hide *;
    FreshIsKept();
    OpenedWithin(can);
    RunWithin(Opened(can), es);
  }

  lemma OpenedWithin(can: bool)
    ensures Opened(can).queue == FRESH_QUEUE && WithinWindow(FRESH_QUEUE.link)
  {
  }

  /** A frame samples a round trip, or puts a time on the message it carries, only from a block that went out
    * exactly once, and only from the one it acknowledges. */
  ghost predicate MeasuresHonestly(q: Queue, line: Line, block: seq<Byte>, eventtime: real, arrival: real)
    requires MESSAGE_MIN <= |block|
  {
    var rseq := AckSeq(q.link, block[1] % 0x10);
    var r := HandleMessage(q, line, eventtime, arrival, block);
    !Refused(q.link, rseq) ==>
      && (rseq != q.link.receiveSeq && Samples(Release(q.link, rseq)) ==>
          SentOnce(q.log.trace, rseq - 1, Release(q.link, rseq).lastReceiveSentTime))
      && (MESSAGE_MIN < |block| ==>
          && r.received != [] && r.received[|r.received| - 1].Data?
          && (r.received[|r.received| - 1].sentTime != 0.0 ==>
              SentOnce(q.log.trace, rseq - 1, r.received[|r.received| - 1].sentTime)))
  }

  lemma FramesMeasureHonestly(q: Queue, line: Line, block: seq<Byte>, eventtime: real, arrival: real)
    requires Kept(q) && MESSAGE_MIN <= |block|
    ensures MeasuresHonestly(q, line, block, eventtime, arrival)
  {
    hide Honest, Acknowledged, Samples, Release, Refused, AckSeq, SentTime, Sound, Orderly, Conserved, Notified;
    var rseq := AckSeq(q.link, block[1] % 0x10);
    NibbleBounds(q.link, block[1] % 0x10);
    if !Refused(q.link, rseq) {
      KarnsRule(q.link, q.log.trace, line, eventtime, rseq, |block|);
    }
  }

  /** Karn's rule over all runs: whatever frame comes next, after whatever happened before. */
  lemma RoundTripsAreHonest(can: bool, es: seq<Event>, block: seq<Byte>, eventtime: real, arrival: real)
    requires IsRun(Opened(can), es) && MESSAGE_MIN <= |block|
    ensures var s := Run(Opened(can), es);
            MeasuresHonestly(s.queue, s.line, block, eventtime, arrival)
  {
    hide Run, IsRun, Kept, MeasuresHonestly;
    FreshIsKept();
    RunKept(Opened(can), es);
    var s := Run(Opened(can), es);
    FramesMeasureHonestly(s.queue, s.line, block, eventtime, arrival);
  }

  // Notifications and acknowledgements.

  /** The notifications a frame sets off. */
  function SetOff(q: Queue, rseq: nat, len: nat): seq<Note> {
    q.notes[..Woken(q.notes, WakeSeq(rseq, len))]
  }

  lemma WakeSeqBelow(rseq: nat, len: nat)
    requires 1 <= rseq
    ensures rseq != 1 || len == MESSAGE_MIN ==> WakeSeq(rseq, len) < rseq
    ensures rseq == 1 && len > MESSAGE_MIN ==> WakeSeq(rseq, len) == TWO64 - 1
    ensures rseq == 1 && len == MESSAGE_MIN ==> WakeSeq(rseq, len) == 0
  {
  }

  /** A frame sets off a notification whose block is not acknowledged yet exactly when it is a message, not a
    * plain acknowledgement, that comes before the first acknowledgement while some notification waits: the
    * subtraction then wraps around. */
  lemma NotifiedEarly(q: Queue, rseq: nat, len: nat)
    requires Regular(q) && InOrder(q.notes, q.link.sendSeq)
    requires MESSAGE_MIN <= len && q.link.receiveSeq <= rseq && !Refused(q.link, rseq)
    ensures (exists n :: n in SetOff(q, rseq, len) && rseq <= n.seqno)
            <==> rseq == 1 && len > MESSAGE_MIN && q.notes != []
  {
    hide Numbered, Bytes, Orderly;
    WakeSeqBelow(rseq, len);
    var wake := WakeSeq(rseq, len);
    var k := Woken(q.notes, wake);
    if rseq == 1 && len > MESSAGE_MIN && q.notes != [] {
      assert q.notes[0].seqno < q.link.sendSeq <= 13;
      assert q.notes[0] == SetOff(q, rseq, len)[0];
    } else {
      forall n | n in SetOff(q, rseq, len)
        ensures n.seqno < rseq
      {
        var i :| 0 <= i < k && SetOff(q, rseq, len)[i] == n;
        assert q.notes[i] == n;
      }
    }
  }

  /** In every other case a notification means that its block was acknowledged: the new window starts beyond it. */
  lemma NotifiedAfterAck(q: Queue, line: Line, eventtime: real, arrival: real, block: seq<Byte>, n: Note)
    requires Kept(q) && MESSAGE_MIN <= |block|
    requires var rseq := AckSeq(q.link, block[1] % 0x10);
             !Refused(q.link, rseq) && n in SetOff(q, rseq, |block|)
             && !(rseq == 1 && |block| > MESSAGE_MIN)
    ensures n.seqno < HandleMessage(q, line, eventtime, arrival, block).link.receiveSeq
  {
    hide Sound, Orderly, Armed, Honest, Conserved, Notified, Acknowledged, Refused, AckSeq;
    var rseq := AckSeq(q.link, block[1] % 0x10);
    NibbleBounds(q.link, block[1] % 0x10);
    AcknowledgedKeeps(q.link, line, eventtime, rseq, |block|);
    NotifiedEarly(q, rseq, |block|);
  }

  /** Before the first acknowledgement, a message with the first sequence number sets off every notification
    * although it acknowledges nothing. */
  lemma AllNotifiedEarly(q: Queue, line: Line, eventtime: real, arrival: real, data: seq<Byte>)
    requires Regular(q) && InOrder(q.notes, q.link.sendSeq) && q.link.receiveSeq == 1
    requires MESSAGE_MIN < |data| && data[1] % 0x10 == 1
    ensures var r := HandleMessage(q, line, eventtime, arrival, data);
            r.notes == [] && r.link == q.link && r.log.fired == q.log.fired + q.notes
  {
    hide Numbered, Bytes, Orderly;
    WakeSeqBelow(1, |data|);
    assert AckSeq(q.link, 1) == 1;
    AllWoken(q.notes, WakeSeq(1, |data|));
    assert q.notes[..|q.notes|] == q.notes;
  }

  lemma AllWoken(notes: seq<Note>, wakeSeq: nat)
    requires forall i :: 0 <= i < |notes| ==> notes[i].seqno <= wakeSeq
    ensures Woken(notes, wakeSeq) == |notes|
  {
  }

  // A run in which a notification comes early.

  /** A one-byte message that asks for a notification, due at once. */
  const HELLO := Msg([0x05], 0, 0, 7)

  /** Before the clock of the controller is known. */
  const NO_ESTIMATE := Estimate(0, 0, 0.0, 0.0)

  lemma HelloQueued()
    ensures var q := Enqueue(FRESH_QUEUE, 0, [HELLO]);
            && q.link == FRESH && q.notes == [] && q.log.fired == []
            && q.sched.pending == [CommandQueue(0, [], [HELLO])] && q.sched.readyBytes == 0
  {
    var raised := RaisedAll([HELLO]);
    assert raised == [HELLO];
    LengthOne(HELLO);
  }

  lemma LengthOne(m: Msg)
    ensures Length([m]) == |m.bytes| && Length([]) == 0
  {
    assert [m][1..] == [];
  }

  /** With nothing but this message queued, whatever the clock says, it becomes ready. */
  lemma HelloReady(s: Sched, ackClock: Word64)
    requires s.pending == [CommandQueue(0, [], [HELLO])] && s.readyBytes == 0
    ensures var r := Promoted(s, ackClock);
            r.pending == [CommandQueue(0, [HELLO], [])] && r.readyBytes == 1
  {
    var cq := CommandQueue(0, [], [HELLO]);
    assert Due([HELLO], ackClock) == 1 by {
      assert [HELLO][1..] == [];
    }
    assert PromoteOne(cq, ackClock) == CommandQueue(0, [HELLO], []) by {
      assert [] + [HELLO][..1] == [HELLO] && [HELLO][1..] == [];
    }
    assert Promote(s.pending, ackClock) == [CommandQueue(0, [HELLO], [])];
    One(cq, 0);
    One(CommandQueue(0, [HELLO], []), 0);
    LengthOne(HELLO);
  }

  /** Without a clock estimate, ready bytes are sent at once, and with none nothing is sent. */
  lemma DecidedBlind(q: Queue, line: Line, pending: nat, eventtime: real)
    requires Open(q.link)
    ensures var d := Decide(q, line, NO_ESTIMATE, pending, eventtime);
            exists ackClock :: var s := Promoted(q.sched, ackClock);
              && (0 < s.readyBytes ==> d == Decision(s, Now))
              && (s.readyBytes == 0 ==> d.wake == Never && d.sched.pending == s.pending)
  {
    hide Open, Promoted, MinReady, MinStalled, FromTime, BitTime;
    var ackClock := FromTime(NO_ESTIMATE, Idle(q.link, eventtime) + BitTime(line, pending + MESSAGE_MIN));
    var s := Promoted(q.sched, ackClock);
  }

  lemma HelloPacks(s: Sched)
    requires Orderly(s) && s.pending == [CommandQueue(0, [HELLO], [])] && s.readyBytes == 1
    ensures var p := Pack(s, MESSAGE_HEADER_SIZE);
            p.packed == [Packed(0, HELLO)] && p.sched.pending == [] && p.sched.readyBytes == 0
  {
    hide Orderly;
    assert s.pending[..0] == [];
    assert MostUrgent(s.pending) == 0;
    assert TakeFrom(s, 0).pending == [] by {
      assert [HELLO][1..] == [];
    }
  }

  /** The block with the message is built, and nothing else. */
  lemma HelloBuilt(q: Queue, line: Line, pending: nat, eventtime: real)
    requires Regular(q) && q.link == FRESH && q.notes == []
    requires q.sched.pending == [CommandQueue(0, [HELLO], [])] && q.sched.readyBytes == 1
    ensures var b := Build(q, line, pending, eventtime);
            && b.notes == [Note(HELLO, 1)] && b.link.receiveSeq == 1 && |b.link.sent| == 1 && b.link.sendSeq == 2
            && b.link.receiveWindow == 0
            && b.log.fired == q.log.fired && b.sched.pending == [] && b.sched.readyBytes == 0
  {
    hide Orderly, Sound, BitTime, Framing.Block, Pack, Payload;
    PackConserves(q.sched, MESSAGE_HEADER_SIZE, 0);
    HelloPacks(q.sched);
    assert [Packed(0, HELLO)][..0] == [];
    assert NotesOf([Packed(0, HELLO)], 1) == [Note(HELLO, 1)];
    assert q.notes + [Note(HELLO, 1)] == [Note(HELLO, 1)];
  }

  lemma NothingPromoted(s: Sched, ackClock: Word64)
    requires s.pending == [] && s.readyBytes == 0
    ensures Promoted(s, ackClock).pending == [] && Promoted(s, ackClock).readyBytes == 0
  {
    assert Promote([], ackClock) == [];
  }

  /** One run of command_event sends it. */
  lemma HelloSent(q: Queue, line: Line, eventtime: real)
    requires Regular(q) && q == Enqueue(FRESH_QUEUE, 0, [HELLO])
    ensures var r := CommandLoop(q, line, NO_ESTIMATE, [], eventtime).queue;
            && r.notes == [Note(HELLO, 1)] && r.link.receiveSeq == 1 && |r.link.sent| == 1 && r.log.fired == []
  {
    hide Regular, Enqueue, Decide, Promoted, Build, CommandLoop, BitTime, Flushed;
    HelloQueued();
    DecidedBlind(q, line, 0, eventtime);
    var ack1: Word64 :| var s := Promoted(q.sched, ack1);
                        0 < s.readyBytes ==> Decide(q, line, NO_ESTIMATE, 0, eventtime) == Decision(s, Now);
    HelloReady(q.sched, ack1);
    CommandStep(q, line, NO_ESTIMATE, [], eventtime);
    var q2 := Ready(q, line, NO_ESTIMATE, [], eventtime);
    HelloBuilt(q2, line, 0, eventtime);
    var b := Build(q2, line, 0, eventtime);
    var block := b.link.sent[0].block;
    assert Carried([]) + block == block;
    NothingLeft(b, line, block, eventtime);
  }

  /** With nothing left to send the loop ends. */
  lemma NothingLeft(b: Queue, line: Line, buf: seq<Byte>, eventtime: real)
    requires Regular(b) && b.sched.pending == [] && b.sched.readyBytes == 0 && Open(b.link)
    ensures var r := CommandLoop(b, line, NO_ESTIMATE, buf, eventtime).queue;
            && r.notes == b.notes && r.link.receiveSeq == b.link.receiveSeq && r.link.sent == b.link.sent
            && r.log.fired == b.log.fired
  {
    hide Regular, Decide, Promoted, CommandLoop, BitTime, Open;
    DecidedBlind(b, line, |buf|, eventtime);
    var ack: Word64 :| var s := Promoted(b.sched, ack);
                       s.readyBytes == 0 ==> Decide(b, line, NO_ESTIMATE, |buf|, eventtime).wake == Never;
    NothingPromoted(b.sched, ack);
    CommandStep(b, line, NO_ESTIMATE, buf, eventtime);
  }

  /** A run from a new session that gets there: one message that asks for a notification is enqueued and sent, and then
    * any data message with the first sequence number arrives.  The notification is given while its block is still
    * waiting to be acknowledged. */
  lemma EarlyNotificationExample(can: bool, data: seq<Byte>, eventtime: real, arrival: real)
    requires MESSAGE_MIN < |data| && data[1] % 0x10 == 1
    ensures var es := [Batch(0, [HELLO]), Command(NO_ESTIMATE, 0.0), Event.Frame(data, eventtime, arrival)];
            && IsRun(Opened(can), es)
            && var q := Run(Opened(can), es).queue;
               && q.log.fired == [Note(HELLO, 1)]
               && q.link.receiveSeq == 1 && |q.link.sent| == 1
  {
    hide Kept, Enqueue, CommandLoop, HandleMessage, Regular;
    var line := Unset(can);
    var e1, e2, e3 := Batch(0, [HELLO]), Command(NO_ESTIMATE, 0.0), Event.Frame(data, eventtime, arrival);
    var q1 := Enqueue(FRESH_QUEUE, 0, [HELLO]);
    FreshIsKept();
    EnqueueKept(FRESH_QUEUE, 0, [HELLO]);
    KeptIsRegular(q1);
    HelloSent(q1, line, 0.0);
    var q2 := CommandLoop(q1, line, NO_ESTIMATE, [], 0.0).queue;
    CommandKept(q1, line, NO_ESTIMATE, [], 0.0);
    KeptIsRegular(q2);
    NotesOrdered(q2);
    AllNotifiedEarly(q2, line, eventtime, arrival, data);
    ThreeEvents(Opened(can), e1, e2, e3);
    assert [] + [Note(HELLO, 1)] == [Note(HELLO, 1)];
  }

  lemma NotesOrdered(q: Queue)
    requires Kept(q)
    ensures InOrder(q.notes, q.link.sendSeq)
  {
  }

  lemma ThreeEvents(s: Session, a: Event, b: Event, c: Event)
    requires Possible(s.queue, a) && Possible(Step(s, a).queue, b) && Possible(Step(Step(s, a), b).queue, c)
    ensures IsRun(s, [a, b, c]) && Run(s, [a, b, c]) == Step(Step(Step(s, a), b), c)
  {
    hide Possible, Next;
    assert [a, b, c][1..] == [b, c] && [b, c][1..] == [c] && [c][1..] == [];
    var t, u := Step(s, a), Step(Step(s, a), b);
    assert IsRun(u, [c]) && Run(u, [c]) == Step(u, c);
    assert IsRun(t, [b, c]) && Run(t, [b, c]) == Run(u, [c]);
  }

  // What command_event writes.

  /** Every block built is written, once, in order, after what the buffer held. */
  lemma {:induction false} CommandWrites(q: Queue, line: Line, ce: Estimate, buf: seq<Byte>, eventtime: real)
    requires Regular(q)
    ensures var r := CommandLoop(q, line, ce, buf, eventtime).queue;
            && |q.link.sent| <= |r.link.sent| && r.link.sent[..|q.link.sent|] == q.link.sent
            && r.log.written == q.log.written + buf + Concat(Blocks(r.link.sent[|q.link.sent|..]))
    decreases MAX_PENDING_BLOCKS - |q.link.sent|
  {
    hide *;
    CommandStep(q, line, ce, buf, eventtime);
    var d, q2 := Decide(q, line, ce, |buf|, eventtime), Ready(q, line, ce, buf, eventtime);
    var n := |q.link.sent|;
    FlushWrites(q.(sched := d.sched), line, buf, eventtime);
    if d.wake == Now {
      var b := Build(q2, line, |Carried(buf)|, eventtime);
      var block := b.link.sent[n].block;
      BuildAppends(q2, line, |Carried(buf)|, eventtime);
      CommandWrites(b, line, ce, Carried(buf) + block, eventtime);
      var r := CommandLoop(b, line, ce, Carried(buf) + block, eventtime).queue;
      WrittenSplit(q.log.written, buf, q2.log.written, Carried(buf));
      BlocksCons(r.link.sent, n);
      assert r.link.sent[..n + 1][..n] == r.link.sent[..n];
      assert r.link.sent[n] == r.link.sent[..n + 1][n];
      Assoc(q2.log.written, Carried(buf), block);
      Assoc(q.log.written + buf, block, Concat(Blocks(r.link.sent[n + 1..])));
    } else {
      NoBlocks(q2.link.sent, n);
      assert q2.link.sent[..n] == q2.link.sent;
      assert q.log.written + buf + [] == q.log.written + buf;
    }
  }

  lemma FlushWrites(q: Queue, line: Line, buf: seq<Byte>, eventtime: real)
    ensures Flushed(q, line, buf, eventtime).log.written == q.log.written + buf
    ensures Flushed(q, line, buf, eventtime).link.sent == q.link.sent
  {
    if buf == [] {
      assert q.log.written + buf == q.log.written;
    }
  }

  lemma BuildAppends(q: Queue, line: Line, pending: nat, eventtime: real)
    requires Regular(q)
    ensures var b := Build(q, line, pending, eventtime);
            && |b.link.sent| == |q.link.sent| + 1 && b.link.sent[..|q.link.sent|] == q.link.sent
            && b.log.written == q.log.written
  {
    hide Pack, Payload, Sound, Orderly;
  }

  lemma WrittenSplit(before: seq<Byte>, buf: seq<Byte>, now: seq<Byte>, carried: seq<Byte>)
    requires carried == Carried(buf) && now == (if BufferFull(buf) then before + buf else before)
    ensures now + carried == before + buf
  {
  }

  lemma BlocksCons(sent: seq<InFlight>, n: nat)
    requires n < |sent|
    ensures Concat(Blocks(sent[n..])) == sent[n].block + Concat(Blocks(sent[n + 1..]))
  {
    hide Concat;
    BlocksOf(sent[n..]);
    BlocksOf(sent[n + 1..]);
    var b, c := Blocks(sent[n..]), Blocks(sent[n + 1..]);
    assert b == [sent[n].block] + c;
    ConcatAppend([sent[n].block], c);
    ConcatSnoc([], sent[n].block);
    assert [] + [sent[n].block] == [sent[n].block];
    assert Concat([sent[n].block]) == sent[n].block by { ConcatOne(sent[n].block); }
  }

  lemma ConcatOne(block: seq<Byte>)
    ensures Concat([block]) == block
  {
    assert [block][1..] == [];
  }

  lemma NoBlocks(sent: seq<InFlight>, n: nat)
    requires n == |sent|
    ensures Concat(Blocks(sent[n..])) == []
  {
  }

  /** On the line: a controller that is in step takes from what command_event writes exactly the blocks it built, in
    * order, with nothing skipped and nothing left over. */
  lemma CommandOnWire(q: Queue, line: Line, ce: Estimate, eventtime: real)
    requires Regular(q)
    ensures var r := CommandLoop(q, line, ce, [], eventtime).queue;
            && q.log.written <= r.log.written && |q.link.sent| <= |r.link.sent|
            && Framing.Drain(Framing.Input(false, r.log.written[|q.log.written|..]))
               == Framing.Drained(Framing.Input(false, []), Blocks(r.link.sent[|q.link.sent|..]), 0)
  {
    hide *;
    CommandWrites(q, line, ce, [], eventtime);
    CommandRegular(q, line, ce, [], eventtime);
    var r := CommandLoop(q, line, ce, [], eventtime).queue;
    var n := |q.link.sent|;
    var blocks := Blocks(r.link.sent[n..]);
    assert q.log.written + [] == q.log.written;
    assert r.log.written[|q.log.written|..] == Concat(blocks) + [];
    SoundOf(r);
    TailIsBlocks(r.link, n);
    Framing.BlocksDelivered(blocks, []);
    NothingToDrain(blocks);
  }

  lemma {:induction false} CommandRegular(q: Queue, line: Line, ce: Estimate, buf: seq<Byte>, eventtime: real)
    requires Regular(q)
    ensures Regular(CommandLoop(q, line, ce, buf, eventtime).queue)
    decreases MAX_PENDING_BLOCKS - |q.link.sent|
  {
    hide Regular, Decide, Ready, Carried, Build, CommandLoop;
    CommandStep(q, line, ce, buf, eventtime);
    var d, q2 := Decide(q, line, ce, |buf|, eventtime), Ready(q, line, ce, buf, eventtime);
    if d.wake == Now {
      var r := Build(q2, line, |Carried(buf)|, eventtime);
      CommandRegular(r, line, ce, Carried(buf) + r.link.sent[|q2.link.sent|].block, eventtime);
    } else {
      CommandTimerRegular(q2, d.wake);
    }
  }

  lemma CommandTimerRegular(q: Queue, wake: Timer)
    requires Regular(q)
    ensures Regular(q.(command := wake))
  {
    hide Sound, Orderly;
  }

  lemma TailIsBlocks(l: Link, n: nat)
    requires Sound(l) && n <= |l.sent|
    ensures forall b :: b in Blocks(l.sent[n..]) ==> Framing.IsBlock(b)
  {
    hide Framing.Check, Bytes, Blocks, Concat;
    var tail := l.sent[n..];
    BlocksOf(tail);
    forall b | b in Blocks(tail)
      ensures Framing.IsBlock(b)
    {
      var k :| 0 <= k < |tail| && Blocks(tail)[k] == b;
      assert Carries(l.sent[n + k].block, (l.receiveSeq + (n + k)) % 0x10);
    }
  }

  lemma NothingToDrain(blocks: seq<seq<Byte>>)
    ensures Framing.Then(blocks, 0, Framing.Drain(Framing.Input(false, [])))
         == Framing.Drained(Framing.Input(false, []), blocks, 0)
  {
    hide Framing.Drain;
    Framing.DrainStep(Framing.Input(false, []));
    assert blocks + [] == blocks;
  }

  // Waking up in time.

  /** When nothing is to be sent now but the clock is known, the handler wakes at a clock that is later than now, not
    * later than the first one at which a waiting message may become ready, and a quarter of a second before the most
    * urgent ready one is due; new messages that are earlier kick it awake. */
  lemma WakesInTime(s: Sched, ce: Estimate, idletime: real, ackClock: Word64, bgClock: Word64)
    requires ce.freq != 0.0
    requires Schedule(s, ce, idletime, ackClock, MinReady(s.pending, bgClock)).wake != Now
    requires forall i :: 0 <= i < |s.pending| && s.pending[i].upcoming != [] ==> ackClock < s.pending[i].upcoming[0].minClock
    requires var delta := U64(Cut(MIN_REQTIME_DELTA * ce.freq));
             ackClock + delta < MAX_CLOCK
    ensures var delta := U64(Cut(MIN_REQTIME_DELTA * ce.freq));
            var d := Schedule(s, ce, idletime, ackClock, MinReady(s.pending, bgClock));
            var want := d.sched.needKick;
            && ackClock < want && d.wake == At(idletime + (want - ackClock) as real / ce.freq)
            && (forall i :: 0 <= i < |s.pending| && s.pending[i].upcoming != [] ==>
                  want <= s.pending[i].upcoming[0].minClock)
            && (forall i :: 0 <= i < |s.pending| && s.pending[i].ready != [] ==>
                  want + delta <= DueClock(s.pending[i].ready[0], bgClock))
  {
    hide MinStalled, MinReady, Cut, U64;
    MinStalledIsLeast(s.pending);
    MinReadyIsLeast(s.pending, bgClock);
    var delta := U64(Cut(MIN_REQTIME_DELTA * ce.freq));
    var ready := MinReady(s.pending, bgClock);
    WrapSmall(ackClock + delta);
    WrapSmall(ready - delta);
    WrapSmall(ready - delta - ackClock);
    WrapSmall(MinStalled(s.pending) - ackClock);
  }
}
