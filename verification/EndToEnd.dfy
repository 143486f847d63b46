/** From the callers to the controller: whole sessions of the serial queue over two lossy links that keep the
  * order, with a controller that accepts the next block it expects.  What each caller enqueues arrives once and
  * in order, and a notification means delivery. */
module EndToEnd {
  import opened Wire
  import opened Clocks
  import opened SendWindow
  import opened CommandScheduler
  import opened SerialProtocol
  import opened SerialRuns
  import Framing
  import Transport

  datatype World = World(session: Session, toMcu: seq<Transport.Packet>, next: nat, accepted: seq<seq<Byte>>,
                         toHost: seq<Transport.Reply>)

  function Opening(can: bool): World {
    World(Opened(can), [], 1, [], [])
  }

  /** What one block carries. */
  function PayloadOf(ss: seq<Shipped>, seqno: nat): seq<Byte> {
    if ss == [] then []
    else PayloadOf(ss[..|ss| - 1], seqno) + (if ss[|ss| - 1].seqno == seqno then ss[|ss| - 1].msg.bytes else [])
  }

  /** What the first n blocks carry. */
  function Payloads(ss: seq<Shipped>, n: nat): (r: seq<seq<Byte>>)
    ensures |r| == n && forall k :: 0 <= k < n ==> r[k] == PayloadOf(ss, k + 1)
  {
    seq(n, k requires 0 <= k < n => PayloadOf(ss, k + 1))
  }

  /** How many blocks were built. */
  function Blocks(l: Link): nat {
    if l.sendSeq == 0 then 0 else l.sendSeq - 1
  }

  /** The session as the transport sees it: its window, and the payloads of the blocks built so far. */
  function View(w: World): Transport.System {
    var q := w.session.queue;
    Transport.System(q.link, w.session.line, Payloads(q.log.shipped, Blocks(q.link)), w.toMcu,
                     w.next, w.accepted, w.toHost)
  }

  datatype Event =
    | Host(e: SerialRuns.Event)
    | HostReceives(block: seq<Byte>, eventtime: real, arrival: real)
    | LoseToMcu(i: nat)
    | LoseToHost(i: nat)
    | McuReceives
    | McuSends(len: nat)

  /** The block that arrives is the oldest reply on its way: it has its length and its nibble. */
  predicate Arrives(w: World, block: seq<Byte>) {
    && w.toHost != [] && MESSAGE_MIN <= |block| == w.toHost[0].len
    && block[1] % 0x10 == w.toHost[0].seqno % 0x10
  }

  function LinkEvent(ev: Event): Transport.Event
    requires !ev.Host?
  {
    match ev
    case HostReceives(_, eventtime, _) => Transport.HostReceives(eventtime)
    case LoseToMcu(i) => Transport.LoseToMcu(i)
    case LoseToHost(i) => Transport.LoseToHost(i)
    case McuReceives => Transport.McuReceives
    case McuSends(len) => Transport.McuSends(len)
  }

  ghost predicate Possible(w: World, ev: Event) {
    match ev
    case Host(e) => !e.Frame? && SerialRuns.Possible(w.session.queue, e)
    case HostReceives(block, _, _) => Arrives(w, block)
    case _ => Transport.Possible(View(w), LinkEvent(ev))
  }

  /** The blocks that one run of command_event adds to those in flight. */
  function NewPackets(l: Link, r: Link): seq<Transport.Packet> {
    if |l.sent| <= |r.sent| then
      seq(|r.sent| - |l.sent|, k requires 0 <= k < |r.sent| - |l.sent| =>
            Transport.Packet(l.sendSeq + k, r.sent[|l.sent| + k].block))
    else []
  }

  /** What an event of the host puts on the line. */
  ghost function Written(w: World, e: SerialRuns.Event): seq<Transport.Packet>
    requires SerialRuns.Possible(w.session.queue, e)
  {
    var l := w.session.queue.link;
    if e.Command? then NewPackets(l, Next(w.session.queue, w.session.line, e).link)
    else if e.Timeout? then Transport.Unacked(l)
    else []
  }

  ghost function Step(w: World, ev: Event): World
    requires Possible(w, ev)
  {
    match ev
    case Host(e) => w.(session := SerialRuns.Step(w.session, e), toMcu := w.toMcu + Written(w, e))
    case HostReceives(block, eventtime, arrival) =>
      w.(session := SerialRuns.Step(w.session, SerialRuns.Frame(block, eventtime, arrival)), toHost := w.toHost[1..])
    case _ =>
      var t := Transport.Step(View(w), LinkEvent(ev));
      w.(toMcu := t.toMcu, next := t.next, accepted := t.accepted, toHost := t.toHost)
  }

  ghost predicate IsRun(w: World, es: seq<Event>)
    decreases |es|
  {
    es == [] || (Possible(w, es[0]) && IsRun(Step(w, es[0]), es[1..]))
  }

  ghost function Run(w: World, es: seq<Event>): World
    requires IsRun(w, es)
    decreases |es|
  {
    if es == [] then w else Run(Step(w, es[0]), es[1..])
  }

  // What every event keeps.

  /** Messages are shipped in the order of their blocks. */
  ghost predicate Ordered(ss: seq<Shipped>, sendSeq: nat) {
    && (forall i :: 0 <= i < |ss| ==> 1 <= ss[i].seqno < sendSeq)
    && forall i, j :: 0 <= i < j < |ss| ==> ss[i].seqno <= ss[j].seqno
  }

  /** The transport is safe, and the payloads it carries are those of the messages shipped. */
  ghost predicate Carried(w: World) {
    Transport.Safe(View(w)) && Ordered(w.session.queue.log.shipped, w.session.queue.link.sendSeq)
  }

  ghost predicate Good(w: World) {
    Kept(w.session.queue) && Carried(w)
  }

  lemma OpeningIsGood(can: bool)
    ensures Good(Opening(can))
  {
    FreshIsKept();
    Transport.StartIsSafe(can);
    assert Payloads([], 0) == [];
  }

  lemma {:induction false} NoPayload(ss: seq<Shipped>, seqno: nat)
    requires forall i :: 0 <= i < |ss| ==> ss[i].seqno != seqno
    ensures PayloadOf(ss, seqno) == []
  {
    if ss != [] {
      NoPayload(ss[..|ss| - 1], seqno);
    }
  }

  lemma {:induction false} PayloadAppend(ss: seq<Shipped>, ps: seq<Packed>, n: nat, seqno: nat)
    ensures PayloadOf(ss + ShippedIn(ps, n), seqno) == PayloadOf(ss, seqno) + (if seqno == n then Payload(ps) else [])
    decreases |ps|
  {
    hide Payload;
    if ps == [] {
      assert ss + ShippedIn(ps, n) == ss;
      EmptyPayload();
    } else {
      var m := |ps| - 1;
      var all := ss + ShippedIn(ps, n);
      assert all[..|all| - 1] == ss + ShippedIn(ps[..m], n);
      PayloadAppend(ss, ps[..m], n, seqno);
      PayloadSnoc(ps[..m], ps[m]);
      assert ps == ps[..m] + [ps[m]];
    }
  }

  /** One more block carries what was packed for it. */
  lemma PayloadsGrow(ss: seq<Shipped>, ps: seq<Packed>, n: nat)
    requires Ordered(ss, n) && 1 <= n
    ensures Payloads(ss + ShippedIn(ps, n), n) == Payloads(ss, n - 1) + [Payload(ps)]
  {
    hide Payload;
    forall k | 0 <= k < n
      ensures Payloads(ss + ShippedIn(ps, n), n)[k] == (Payloads(ss, n - 1) + [Payload(ps)])[k]
    {
      PayloadAppend(ss, ps, n, k + 1);
      if k == n - 1 {
        NoPayload(ss, n);
      }
    }
  }

  lemma OrderedGrows(ss: seq<Shipped>, ps: seq<Packed>, n: nat)
    requires Ordered(ss, n) && 1 <= n
    ensures Ordered(ss + ShippedIn(ps, n), n + 1)
  {
  }

  // One run of command_event.

  function WithQueue(w: World, q: Queue, ps: seq<Transport.Packet>): World {
    w.(session := w.session.(queue := q), toMcu := w.toMcu + ps)
  }

  /** Neither the queues nor the time at which the line is idle matter to the transport. */
  lemma IdleCarried(w: World, q: Queue)
    requires Carried(w) && q.log.shipped == w.session.queue.log.shipped
    requires q.link == w.session.queue.link.(idleTime := q.link.idleTime)
    ensures Carried(WithQueue(w, q, []))
  {
    hide Carries, Bytes, Payloads, Ordered, Transport.IsBuilt, Transport.Forward, Transport.Backward;
    assert w.toMcu + [] == w.toMcu;
    var s, t := View(w), View(WithQueue(w, q, []));
    assert forall k :: 0 <= k < |t.link.sent| ==> t.link.sent[k] == s.link.sent[k];
  }

  lemma ReadyLink(q: Queue, line: Line, ce: Estimate, buf: seq<Byte>, eventtime: real)
    ensures var q2 := Ready(q, line, ce, buf, eventtime);
            && q2.link == q.link.(idleTime := q2.link.idleTime)
            && q2.log.shipped == q.log.shipped && q2.log.fired == q.log.fired
  {
    hide Decide, BitTime;
  }

  /** The parts of the state after a block is built. */
  lemma BuildParts(q: Queue, line: Line, pending: nat, eventtime: real)
    requires Regular(q)
    ensures var b := Build(q, line, pending, eventtime); var ps := Pack(q.sched, MESSAGE_HEADER_SIZE).packed;
            && |Payload(ps)| <= MESSAGE_PAYLOAD_MAX && 1 <= q.link.sendSeq
            && b.link == Built(q.link, line, Payload(ps), pending, eventtime)
            && b.log.shipped == q.log.shipped + ShippedIn(ps, q.link.sendSeq) && b.log.fired == q.log.fired
            && b.link.sendSeq == q.link.sendSeq + 1 && b.link.receiveSeq == q.link.receiveSeq
            && |b.link.sent| == |q.link.sent| + 1 && b.link.sent[..|q.link.sent|] == q.link.sent
            && b.link.sent[|q.link.sent|].block == Framing.Block(q.link.sendSeq, Payload(ps))
  {
    hide Orderly, Pack, Payload, BitTime, Framing.Block, Numbered, Bytes;
    PackConserves(q.sched, MESSAGE_HEADER_SIZE, 0);
  }

  /** Building a block is a step of the transport. */
  lemma BuildCarried(w: World, pending: nat, eventtime: real)
    requires Carried(w) && Regular(w.session.queue) && Open(w.session.queue.link)
    ensures var q := w.session.queue; var b := Build(q, w.session.line, pending, eventtime);
            Carried(WithQueue(w, b, NewPackets(q.link, b.link)))
  {
    hide Regular, Open, Pack, Payload, Built, Build, Framing.Block, Transport.Safe, Ordered, Carried, View, WithQueue;
    hide NewPackets, Transport.Step, Transport.Possible;
    var q := w.session.queue;
    SoundOf(q);
    var b, ps := Build(q, w.session.line, pending, eventtime), Pack(q.sched, MESSAGE_HEADER_SIZE).packed;
    BuildParts(q, w.session.line, pending, eventtime);
    CarriedParts(w);
    PayloadsGrow(q.log.shipped, ps, q.link.sendSeq);
    OrderedGrows(q.log.shipped, ps, q.link.sendSeq);
    BuildView(w, b, Payload(ps), pending, eventtime);
    Transport.SendIsSafe(View(w), Transport.Send(Payload(ps), pending, eventtime));
    WithParts(w, b, NewPackets(q.link, b.link));
    PartsCarried(WithQueue(w, b, NewPackets(q.link, b.link)));
  }

  lemma CarriedParts(w: World)
    requires Carried(w)
    ensures Transport.Safe(View(w)) && Ordered(w.session.queue.log.shipped, w.session.queue.link.sendSeq)
  {
  }

  lemma PartsCarried(w: World)
    requires Transport.Safe(View(w)) && Ordered(w.session.queue.log.shipped, w.session.queue.link.sendSeq)
    ensures Carried(w)
  {
  }

  lemma BuildView(w: World, b: Queue, payload: seq<Byte>, pending: nat, eventtime: real)
    requires |payload| <= MESSAGE_PAYLOAD_MAX && 1 <= w.session.queue.link.sendSeq
    requires var l := w.session.queue.link;
             && b.link == Built(l, w.session.line, payload, pending, eventtime)
             && b.link.sendSeq == l.sendSeq + 1 && |b.link.sent| == |l.sent| + 1
             && b.link.sent[|l.sent|].block == Framing.Block(l.sendSeq, payload)
             && Payloads(b.log.shipped, l.sendSeq) == Payloads(w.session.queue.log.shipped, l.sendSeq - 1) + [payload]
    requires Open(w.session.queue.link)
    ensures var e := Transport.Send(payload, pending, eventtime);
            && Transport.Possible(View(w), e)
            && View(WithQueue(w, b, NewPackets(w.session.queue.link, b.link))) == Transport.Step(View(w), e)
  {
    hide Built, Framing.Block, Payloads, Open;
    var l := w.session.queue.link;
    assert NewPackets(l, b.link) == [Transport.Packet(l.sendSeq, Framing.Block(l.sendSeq, payload))];
  }

  lemma MorePackets(l: Link, m: Link, r: Link)
    requires |m.sent| == |l.sent| + 1 && m.sendSeq == l.sendSeq + 1 && |m.sent| <= |r.sent|
    requires m.sent[..|l.sent|] == l.sent && r.sent[..|m.sent|] == m.sent
    ensures NewPackets(l, m) + NewPackets(m, r) == NewPackets(l, r)
  {
    var n := |l.sent|;
    assert r.sent[n] == r.sent[..n + 1][n] == m.sent[n];
  }

  /** What one run of command_event leaves alone. */
  predicate Beside(q: Queue, r: Queue) {
    && |q.link.sent| <= |r.link.sent| && r.link.sent[..|q.link.sent|] == q.link.sent
    && r.link.receiveSeq == q.link.receiveSeq && r.log.fired == q.log.fired
  }

  lemma {:induction false} CommandCarried(w: World, ce: Estimate, buf: seq<Byte>, eventtime: real)
    requires Carried(w) && Regular(w.session.queue)
    ensures var q := w.session.queue; var r := CommandLoop(q, w.session.line, ce, buf, eventtime).queue;
            Beside(q, r) && Carried(WithQueue(w, r, NewPackets(q.link, r.link)))
    decreases MAX_PENDING_BLOCKS - |w.session.queue.link.sent|
  {
    hide *;
    var q, line := w.session.queue, w.session.line;
    CommandStep(q, line, ce, buf, eventtime);
    var d, q2 := Decide(q, line, ce, |buf|, eventtime), Ready(q, line, ce, buf, eventtime);
    ReadyLink(q, line, ce, buf, eventtime);
    IdleCarried(w, q2);
    var w2 := WithQueue(w, q2, []);
    WithParts(w, q2, []);
    if d.wake == Now {
      var pending := |SerialProtocol.Carried(buf)|;
      var b := Build(q2, line, pending, eventtime);
      BuildParts(q2, line, pending, eventtime);
      BuildCarried(w2, pending, eventtime);
      var w3 := WithQueue(w2, b, NewPackets(q2.link, b.link));
      WithParts(w2, b, NewPackets(q2.link, b.link));
      var next := SerialProtocol.Carried(buf) + b.link.sent[|q2.link.sent|].block;
      CommandCarried(w3, ce, next, eventtime);
      var r := CommandLoop(b, line, ce, next, eventtime).queue;
      BesideTrans(q, b, r);
      MorePackets(q2.link, b.link, r.link);
      SamePackets(q.link, q2.link, r.link);
      WithWith(w, q2, b, r, NewPackets(q2.link, b.link), NewPackets(b.link, r.link));
    } else {
      var r := q2.(command := d.wake);
      IdleCarried(w, r);
      BesideIdle(q, r);
      NoPackets(q.link, r.link);
    }
  }

  lemma WithParts(w: World, q: Queue, ps: seq<Transport.Packet>)
    ensures var v := WithQueue(w, q, ps);
            v.session.queue == q && v.session.line == w.session.line && v.toMcu == w.toMcu + ps
  {
  }

  lemma BesideTrans(q: Queue, b: Queue, r: Queue)
    requires Beside(b, r) && |b.link.sent| == |q.link.sent| + 1 && b.link.sent[..|q.link.sent|] == q.link.sent
    requires b.link.receiveSeq == q.link.receiveSeq && b.log.fired == q.log.fired
    ensures Beside(q, r) && |b.link.sent| <= |r.link.sent| && r.link.sent[..|b.link.sent|] == b.link.sent
  {
    assert r.link.sent[..|b.link.sent|][..|q.link.sent|] == r.link.sent[..|q.link.sent|];
  }

  lemma BesideIdle(q: Queue, r: Queue)
    requires r.link == q.link.(idleTime := r.link.idleTime) && r.log.fired == q.log.fired
    ensures Beside(q, r)
  {
  }

  lemma SamePackets(l: Link, m: Link, r: Link)
    requires m.sent == l.sent && m.sendSeq == l.sendSeq
    ensures NewPackets(l, r) == NewPackets(m, r)
  {
  }

  lemma NoPackets(l: Link, r: Link)
    requires r.sent == l.sent
    ensures NewPackets(l, r) == []
  {
  }

  lemma WithWith(w: World, q2: Queue, b: Queue, r: Queue, ps: seq<Transport.Packet>, more: seq<Transport.Packet>)
    ensures WithQueue(WithQueue(WithQueue(w, q2, []), b, ps), r, more) == WithQueue(w, r, ps + more)
  {
    assert w.toMcu + [] + ps + more == w.toMcu + (ps + more);
  }

  // The other events.

  lemma HostCarried(w: World, e: SerialRuns.Event)
    requires Good(w) && !e.Frame? && SerialRuns.Possible(w.session.queue, e)
    ensures Carried(Step(w, Host(e)))
  {
    hide Kept, Regular, Ordered, Transport.Safe, CommandLoop, Retransmitted, Burst, SendBatch, WindowSet;
    var q := w.session.queue;
    var v := Step(w, Host(e));
    assert w.toMcu + [] == w.toMcu;
    match e
    case Timeout(eventtime) =>
      TimeoutView(w, eventtime);
      Transport.RetransmitIsSafe(View(w), Transport.Retransmit(eventtime));
    case Command(ce, eventtime) =>
      KeptIsRegular(q);
      CommandCarried(w, ce, [], eventtime);
    case Batch(_, _) => assert View(v) == View(w);
    case Take => assert View(v) == View(w);
    case NewWindow(window) =>
      WindowView(w, window);
      Transport.NewWindowIsSafe(View(w), Transport.NewWindow(window));
    case NewFrequency(frequency) =>
      assert View(v) == Transport.Step(View(w), Transport.NewFrequency(frequency));
      Transport.NewFrequencyIsSafe(View(w), Transport.NewFrequency(frequency));
  }

  lemma TimeoutView(w: World, eventtime: real)
    requires SerialRuns.Possible(w.session.queue, Timeout(eventtime))
    ensures View(Step(w, Host(Timeout(eventtime)))) == Transport.Step(View(w), Transport.Retransmit(eventtime))
    ensures Step(w, Host(Timeout(eventtime))).session.queue.link.sendSeq == w.session.queue.link.sendSeq
  {
    hide Burst, BitTime;
  }

  lemma WindowView(w: World, window: int)
    ensures View(Step(w, Host(NewWindow(window)))) == Transport.Step(View(w), Transport.NewWindow(window))
    ensures Step(w, Host(NewWindow(window))).session.queue.link.sendSeq == w.session.queue.link.sendSeq
  {
    assert w.toMcu + [] == w.toMcu;
  }

  lemma ReceiveCarried(w: World, block: seq<Byte>, eventtime: real, arrival: real)
    requires Good(w) && Arrives(w, block)
    ensures Carried(Step(w, HostReceives(block, eventtime, arrival)))
  {
    hide Kept, Ordered, Transport.Safe, Transport.Answered, Payloads;
    var v := Step(w, HostReceives(block, eventtime, arrival));
    var t := Transport.Step(View(w), Transport.HostReceives(eventtime));
    Transport.HostReceiveIsSafe(View(w), Transport.HostReceives(eventtime));
    AnsweredLink(w.session.queue, w.session.line, eventtime, arrival, block);
    SafeCount(View(w));
    SafeCount(t);
  }

  lemma AnsweredLink(q: Queue, line: Line, eventtime: real, arrival: real, block: seq<Byte>)
    requires MESSAGE_MIN <= |block|
    ensures var r := HandleMessage(q, line, eventtime, arrival, block);
            && r.link == Transport.Answered(q.link, line, block[1] % 0x10, |block|, eventtime)
            && r.log.shipped == q.log.shipped
  {
    hide Acknowledged, AckSeq, BitTime, Woken, WakeSeq, AckedAll;
  }

  lemma SafeCount(s: Transport.System)
    requires Transport.Safe(s)
    ensures |s.built| == s.link.sendSeq - 1
  {
  }

  lemma StepIsGood(w: World, ev: Event)
    requires Good(w) && Possible(w, ev)
    ensures Good(Step(w, ev))
  {
    hide Kept, Ordered, Transport.Safe, Transport.Step, Next, SerialRuns.Possible;
    match ev
    case Host(e) =>
      NextKept(w.session.queue, w.session.line, e);
      HostCarried(w, e);
    case HostReceives(block, eventtime, arrival) =>
      FramePossible(w.session.queue, block, eventtime, arrival);
      NextKept(w.session.queue, w.session.line, SerialRuns.Frame(block, eventtime, arrival));
      ReceiveCarried(w, block, eventtime, arrival);
    case _ =>
      LinkView(w, ev);
      Transport.StepIsSafe(View(w), LinkEvent(ev));
  }

  lemma FramePossible(q: Queue, block: seq<Byte>, eventtime: real, arrival: real)
    requires MESSAGE_MIN <= |block|
    ensures SerialRuns.Possible(q, SerialRuns.Frame(block, eventtime, arrival))
  {
  }

  lemma LinkView(w: World, ev: Event)
    requires Possible(w, ev) && !ev.Host? && !ev.HostReceives?
    ensures View(Step(w, ev)) == Transport.Step(View(w), LinkEvent(ev))
  {
  }

  lemma {:induction false} RunIsGood(w: World, es: seq<Event>)
    requires Good(w) && IsRun(w, es)
    ensures Good(Run(w, es))
    decreases |es|
  {
    hide Good, Step, Possible;
    if es != [] {
      StepIsGood(w, es[0]);
      RunIsGood(Step(w, es[0]), es[1..]);
    }
  }

  // What the controller has, message by message.

  /** The messages shipped in blocks before this one. */
  function Before(ss: seq<Shipped>, n: nat): seq<Shipped> {
    if ss == [] then []
    else Before(ss[..|ss| - 1], n) + (if ss[|ss| - 1].seqno < n then [ss[|ss| - 1]] else [])
  }

  function BytesOf(ss: seq<Shipped>): seq<Byte> {
    if ss == [] then [] else BytesOf(ss[..|ss| - 1]) + ss[|ss| - 1].msg.bytes
  }

  lemma OrderedPrefix(ss: seq<Shipped>, sendSeq: nat)
    requires Ordered(ss, sendSeq) && ss != []
    ensures Ordered(ss[..|ss| - 1], sendSeq)
    ensures forall i :: 0 <= i < |ss| ==> ss[i].seqno <= ss[|ss| - 1].seqno
  {
  }

  /** They are the first ones shipped. */
  lemma {:induction false} BeforePrefix(ss: seq<Shipped>, sendSeq: nat, n: nat)
    requires Ordered(ss, sendSeq)
    ensures Before(ss, n) <= ss
    ensures forall i :: 0 <= i < |Before(ss, n)| ==> ss[i].seqno < n
    ensures forall i :: |Before(ss, n)| <= i < |ss| ==> n <= ss[i].seqno
  {
    if ss != [] {
      var m := |ss| - 1;
      OrderedPrefix(ss, sendSeq);
      if ss[m].seqno < n {
        AllBefore(ss, n);
      } else {
        BeforePrefix(ss[..m], sendSeq, n);
        forall i | |Before(ss, n)| <= i < |ss|
          ensures n <= ss[i].seqno
        {
          assert i < m ==> ss[..m][i] == ss[i];
        }
      }
    }
  }

  lemma {:induction false} AllBefore(ss: seq<Shipped>, n: nat)
    requires forall i :: 0 <= i < |ss| ==> ss[i].seqno < n
    ensures Before(ss, n) == ss
  {
    if ss != [] {
      AllBefore(ss[..|ss| - 1], n);
    }
  }

  lemma LastSplit(ss: seq<Shipped>, n: nat)
    requires ss != []
    ensures var front, x := ss[..|ss| - 1], ss[|ss| - 1];
            && Before(ss, n) == (if x.seqno < n then Before(front, n) + [x] else Before(front, n))
            && PayloadOf(ss, n) == (if x.seqno == n then PayloadOf(front, n) + x.msg.bytes else PayloadOf(front, n))
  {
  }

  lemma {:induction false} BeforeNext(ss: seq<Shipped>, sendSeq: nat, n: nat)
    requires Ordered(ss, sendSeq)
    ensures BytesOf(Before(ss, n + 1)) == BytesOf(Before(ss, n)) + PayloadOf(ss, n)
  {
    hide *;
    if ss == [] {
      NothingShipped(n);
    } else {
      var front, x := ss[..|ss| - 1], ss[|ss| - 1];
      OrderedPrefix(ss, sendSeq);
      LastSplit(ss, n);
      LastSplit(ss, n + 1);
      BeforeNext(front, sendSeq, n);
      if x.seqno < n {
        BytesSnoc(Before(front, n + 1), x);
        BytesSnoc(Before(front, n), x);
        NoPayload(front, n);
        assert BytesOf(Before(front, n)) + [] == BytesOf(Before(front, n));
        assert BytesOf(Before(ss, n)) + [] == BytesOf(Before(ss, n));
      } else if x.seqno == n {
        BytesSnoc(Before(front, n + 1), x);
        Assoc(BytesOf(Before(front, n)), PayloadOf(front, n), x.msg.bytes);
      }
    }
  }

  lemma NothingShipped(n: nat)
    ensures Before([], n) == [] && Before([], n + 1) == [] && BytesOf([]) == [] && PayloadOf([], n) == []
  {
  }

  lemma BytesSnoc(ss: seq<Shipped>, x: Shipped)
    ensures BytesOf(ss + [x]) == BytesOf(ss) + x.msg.bytes
  {
    assert (ss + [x])[..|ss|] == ss;
  }

  lemma {:induction false} NoneBefore(ss: seq<Shipped>)
    requires forall i :: 0 <= i < |ss| ==> 1 <= ss[i].seqno
    ensures Before(ss, 1) == []
  {
    if ss != [] {
      NoneBefore(ss[..|ss| - 1]);
    }
  }

  /** The payloads of the first n blocks are the bytes of the messages in them. */
  lemma {:induction false} PayloadBytes(ss: seq<Shipped>, sendSeq: nat, n: nat)
    requires Ordered(ss, sendSeq)
    ensures Concat(Payloads(ss, n)) == BytesOf(Before(ss, n + 1))
  {
    hide BytesOf, Before, Concat;
    if n == 0 {
      NoneBefore(ss);
      assert Payloads(ss, 0) == [];
      Nothing();
    } else {
      PayloadBytes(ss, sendSeq, n - 1);
      assert Payloads(ss, n) == Payloads(ss, n - 1) + [PayloadOf(ss, n)];
      ConcatSnoc(Payloads(ss, n - 1), PayloadOf(ss, n));
      BeforeNext(ss, sendSeq, n);
    }
  }

  lemma Nothing()
    ensures BytesOf([]) == [] && Concat<Byte>([]) == []
  {
  }

  lemma {:induction false} ShippedConcat(a: seq<Shipped>, b: seq<Shipped>, id: nat)
    ensures ShippedFrom(a + b, id) == ShippedFrom(a, id) + ShippedFrom(b, id)
    ensures Notifying(a + b) == Notifying(a) + Notifying(b)
    decreases |b|
  {
    if b == [] {
      assert a + b == a;
    } else {
      var m := |b| - 1;
      assert (a + b)[..|a| + m] == a + b[..m];
      ShippedConcat(a, b[..m], id);
      Assoc(ShippedFrom(a, id), ShippedFrom(b[..m], id), if b[m].id == id then [b[m].msg] else []);
      Assoc(Notifying(a), Notifying(b[..m]),
            if b[m].msg.notifyId != 0 then [Note(b[m].msg, b[m].seqno)] else []);
    }
  }

  /** What the controller has in hand: the messages in the blocks it accepted. */
  function Delivered(w: World): seq<Shipped> {
    Before(w.session.queue.log.shipped, w.next)
  }

  lemma AcceptedAre(w: World)
    requires Good(w)
    ensures 1 <= w.next && w.session.queue.link.receiveSeq <= w.next <= w.session.queue.link.sendSeq
    ensures w.accepted == Payloads(w.session.queue.log.shipped, w.next - 1)
  {
    hide Kept, Ordered, Sound, Transport.Forward, Transport.Backward, Transport.SentIsBuilt;
    var ss, n := w.session.queue.log.shipped, w.next - 1;
    assert Payloads(ss, Blocks(w.session.queue.link))[..n] == Payloads(ss, n);
  }

  /** From every caller to the controller, exactly once and in order: after any run, whatever was lost, retransmitted
    * or rescheduled, the bytes the controller accepted are those of the first messages shipped, one after the other;
    * and of those, the messages of each command queue are the first ones enqueued there, in that order. */
  lemma EveryQueueInOrder(can: bool, es: seq<Event>, id: nat)
    requires IsRun(Opening(can), es)
    ensures var w := Run(Opening(can), es); var log := w.session.queue.log;
            && Concat(w.accepted) == BytesOf(Delivered(w)) && Delivered(w) <= log.shipped
            && ShippedFrom(Delivered(w), id) <= ShippedFrom(log.shipped, id) <= PackedFrom(log.enqueued, id)
  {
    hide Run, IsRun, Sound, Orderly, Armed, Before, BytesOf, Concat, Ordered, Transport.Safe, Payloads;
    OpeningIsGood(can);
    RunIsGood(Opening(can), es);
    var w := Run(Opening(can), es);
    var q, ss := w.session.queue, w.session.queue.log.shipped;
    AcceptedAre(w);
    PayloadBytes(ss, q.link.sendSeq, w.next - 1);
    BeforePrefix(ss, q.link.sendSeq, w.next);
    var d := Delivered(w);
    assert ss == d + ss[|d|..];
    ShippedConcat(d, ss[|d|..], id);
    assert ConservedFor(q.log.enqueued, ss, q.sched.pending, id);
  }

  // A notification means delivery.

  /** A message that comes before the first acknowledgement while a notification waits; such a message sets it off. */
  predicate Early(q: Queue, block: seq<Byte>)
    requires MESSAGE_MIN <= |block|
  {
    AckSeq(q.link, block[1] % 0x10) == 1 && |block| > MESSAGE_MIN && q.notes != []
  }

  ghost predicate NeverEarly(w: World, es: seq<Event>)
    requires IsRun(w, es)
    decreases |es|
  {
    es != [] ==>
      && (es[0].HostReceives? ==> !Early(w.session.queue, es[0].block))
      && NeverEarly(Step(w, es[0]), es[1..])
  }

  /** Every notification given is for a block that was acknowledged. */
  predicate FiredAcked(q: Queue) {
    forall n :: n in q.log.fired ==> n.seqno < q.link.receiveSeq
  }

  lemma HostFired(w: World, e: SerialRuns.Event)
    requires Good(w) && FiredAcked(w.session.queue) && !e.Frame? && SerialRuns.Possible(w.session.queue, e)
    ensures FiredAcked(Next(w.session.queue, w.session.line, e))
  {
    hide Kept, Carried, Regular, CommandLoop, Burst, SendBatch, BitTime;
    if e.Command? {
      KeptIsRegular(w.session.queue);
      CommandCarried(w, e.ce, [], e.eventtime);
    }
  }

  lemma FrameFired(q: Queue, line: Line, block: seq<Byte>, eventtime: real, arrival: real)
    requires Kept(q) && FiredAcked(q) && MESSAGE_MIN <= |block| && !Early(q, block)
    ensures FiredAcked(HandleMessage(q, line, eventtime, arrival, block))
  {
    hide Sound, Orderly, Armed, KarnRule.Honest, Conserved, Notified, InOrder, Acknowledged, Refused, AckSeq;
    var rseq := AckSeq(q.link, block[1] % 0x10);
    NibbleBounds(q.link, block[1] % 0x10);
    if !Refused(q.link, rseq) {
      AcknowledgedKeeps(q.link, line, eventtime, rseq, |block|);
      var off := SetOff(q, rseq, |block|);
      forall n | n in off
        ensures n.seqno < HandleMessage(q, line, eventtime, arrival, block).link.receiveSeq
      {
        NotifiedAfterAck(q, line, eventtime, arrival, block, n);
      }
    }
  }

  lemma StepFired(w: World, ev: Event)
    requires Good(w) && FiredAcked(w.session.queue) && Possible(w, ev)
    requires ev.HostReceives? ==> !Early(w.session.queue, ev.block)
    ensures FiredAcked(Step(w, ev).session.queue)
  {
    hide Kept, Carried, FiredAcked, HandleMessage, Transport.Step, SerialRuns.Possible, Early;
    match ev
    case Host(e) => HostFired(w, e);
    case HostReceives(block, eventtime, arrival) =>
      FrameFired(w.session.queue, w.session.line, block, eventtime, arrival);
    case _ =>
  }

  lemma {:induction false} RunFired(w: World, es: seq<Event>)
    requires Good(w) && FiredAcked(w.session.queue) && IsRun(w, es) && NeverEarly(w, es)
    ensures FiredAcked(Run(w, es).session.queue)
    decreases |es|
  {
    hide Good, FiredAcked, Step, Possible, Early;
    if es != [] {
      StepIsGood(w, es[0]);
      StepFired(w, es[0]);
      RunFired(Step(w, es[0]), es[1..]);
    }
  }

  lemma {:induction false} NotesAre(ss: seq<Shipped>, n: nat)
    requires forall i :: 0 <= i < |ss| ==> n <= ss[i].seqno
    ensures forall k :: 0 <= k < |Notifying(ss)| ==> n <= Notifying(ss)[k].seqno
  {
    if ss != [] {
      NotesAre(ss[..|ss| - 1], n);
    }
  }

  /** A prefix of a list that holds nothing of its second part is a prefix of the first. */
  lemma PrefixOfFirst(fired: seq<Note>, first: seq<Note>, rest: seq<Note>, n: nat)
    requires fired <= first + rest
    requires forall k :: 0 <= k < |rest| ==> n <= rest[k].seqno
    requires forall x :: x in fired ==> x.seqno < n
    ensures fired <= first
  {
    if fired != [] {
      var k := |fired| - 1;
      assert fired[k] == (first + rest)[k] && fired[k] in fired;
      assert k < |first|;
      assert fired == (first + rest)[..|fired|] == first[..|fired|];
    }
  }

  /** In a run in which no message comes early, a notification means delivery: the notifications given are, in order,
    * the first ones asked for among the messages the controller has accepted. */
  lemma NotifiedIsDelivered(can: bool, es: seq<Event>)
    requires IsRun(Opening(can), es) && NeverEarly(Opening(can), es)
    ensures var w := Run(Opening(can), es);
            && w.session.queue.log.fired <= Notifying(Delivered(w))
            && AckedIn(w.session.queue.log.pulled + w.session.queue.received) == w.session.queue.log.fired
  {
    hide Run, IsRun, NeverEarly, Sound, Orderly, Armed, Before, Ordered, Transport.Safe, Notifying;
    OpeningIsGood(can);
    RunIsGood(Opening(can), es);
    RunFired(Opening(can), es);
    var w := Run(Opening(can), es);
    var q, ss, d := w.session.queue, w.session.queue.log.shipped, Delivered(w);
    AcceptedAre(w);
    BeforePrefix(ss, q.link.sendSeq, w.next);
    var rest := ss[|d|..];
    assert ss == d + rest;
    ShippedConcat(d, rest, 0);
    NotesAre(rest, w.next);
    PrefixOfFirst(q.log.fired, Notifying(d), Notifying(rest), w.next);
  }
}
