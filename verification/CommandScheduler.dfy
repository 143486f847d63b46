/** The command queues: messages wait for their earliest clock, and then leave in the order of their deadlines. */
module CommandScheduler {
  import opened Wire
  import Seqs

  const MAX_CLOCK := 0x7fff_ffff_ffff_ffff
  const BACKGROUND_PRIORITY_CLOCK := 0x7fff_ffff_0000_0000

  /** struct queue_message while it is on a command queue. */
  datatype Msg = Msg(bytes: seq<Byte>, minClock: Word64, reqClock: Word64, notifyId: Word64)

  /** A command queue with something on it.  Queues are told apart by a number; an empty one is not listed. */
  datatype CommandQueue = CommandQueue(id: nat, ready: seq<Msg>, upcoming: seq<Msg>)

  datatype Sched = Sched(pending: seq<CommandQueue>, readyBytes: int, upcomingBytes: int, needKick: Word64)

  const NO_COMMANDS := Sched([], 0, 0, MAX_CLOCK)

  function Length(ms: seq<Msg>): nat {
    if ms == [] then 0 else |ms[0].bytes| + Length(ms[1..])
  }

  function ReadyLength(qs: seq<CommandQueue>): nat {
    if qs == [] then 0 else Length(qs[0].ready) + ReadyLength(qs[1..])
  }

  function UpcomingLength(qs: seq<CommandQueue>): nat {
    if qs == [] then 0 else Length(qs[0].upcoming) + UpcomingLength(qs[1..])
  }

  /** What the queue with this number holds, in the order it will leave. */
  function Held(qs: seq<CommandQueue>, id: nat): seq<Msg> {
    if qs == [] then [] else (if qs[0].id == id then qs[0].ready + qs[0].upcoming else []) + Held(qs[1..], id)
  }

  // Enqueueing.

  /** The clock from which a message may be sent: at most half a turn of a 32-bit clock before it is due. */
  function Raised(m: Msg): Msg {
    if U64(m.minClock + 0x8000_0000) < m.reqClock && m.reqClock != BACKGROUND_PRIORITY_CLOCK
    then m.(minClock := U64(m.reqClock - 0x8000_0000)) else m
  }

  function RaisedAll(ms: seq<Msg>): (r: seq<Msg>)
    ensures |r| == |ms| && forall i :: 0 <= i < |ms| ==> r[i] == Raised(ms[i])
  {
    seq(|ms|, i requires 0 <= i < |ms| => Raised(ms[i]))
  }

  /** list_join_tail on the queue's upcoming list, listing the queue first if it was empty. */
  function Joined(qs: seq<CommandQueue>, id: nat, ms: seq<Msg>): seq<CommandQueue> {
    if qs == [] then [CommandQueue(id, [], ms)]
    else if qs[0].id == id then [qs[0].(upcoming := qs[0].upcoming + ms)] + qs[1..]
    else [qs[0]] + Joined(qs[1..], id, ms)
  }

  /** serialqueue_send_batch; a batch without any bytes is dropped. */
  function SendBatch(s: Sched, id: nat, ms: seq<Msg>): Sched {
    var raised := RaisedAll(ms);
    var len := Length(raised);
    if len == 0 then s
    else
      Sched(Joined(s.pending, id, raised), s.readyBytes, s.upcomingBytes + len,
            if raised[0].minClock < s.needKick then 0 else s.needKick)
  }

  // Promotion: from upcoming to ready.

  /** How many messages at the head may go now. */
  function Due(ms: seq<Msg>, ackClock: Word64): (n: nat)
    ensures n <= |ms|
    ensures forall i :: 0 <= i < n ==> ms[i].minClock <= ackClock
    ensures n < |ms| ==> ackClock < ms[n].minClock
  {
    if ms == [] || ackClock < ms[0].minClock then 0 else 1 + Due(ms[1..], ackClock)
  }

  function PromoteOne(q: CommandQueue, ackClock: Word64): CommandQueue {
    var n := Due(q.upcoming, ackClock);
    CommandQueue(q.id, q.ready + q.upcoming[..n], q.upcoming[n..])
  }

  function Promote(qs: seq<CommandQueue>, ackClock: Word64): (r: seq<CommandQueue>)
    ensures |r| == |qs| && forall i :: 0 <= i < |qs| ==> r[i] == PromoteOne(qs[i], ackClock)
  {
    seq(|qs|, i requires 0 <= i < |qs| => PromoteOne(qs[i], ackClock))
  }

  function Promoted(s: Sched, ackClock: Word64): Sched {
    var qs := Promote(s.pending, ackClock);
    var moved := ReadyLength(qs) - ReadyLength(s.pending);
    s.(pending := qs, readyBytes := s.readyBytes + moved, upcomingBytes := s.upcomingBytes - moved)
  }

  /** The least clock at which a message still stalled may go. */
  function MinStalled(qs: seq<CommandQueue>): Word64 {
    if qs == [] then MAX_CLOCK
    else
      var least := MinStalled(qs[..|qs| - 1]);
      var q := qs[|qs| - 1];
      if q.upcoming != [] && q.upcoming[0].minClock < least then q.upcoming[0].minClock else least
  }

  /** The least deadline of the messages ready to go, where background messages count as due at bgClock. */
  function MinReady(qs: seq<CommandQueue>, bgClock: Word64): Word64 {
    if qs == [] then MAX_CLOCK
    else
      var least := MinReady(qs[..|qs| - 1], bgClock);
      var q := qs[|qs| - 1];
      if q.ready == [] then least
      else
        var due := if q.ready[0].reqClock == BACKGROUND_PRIORITY_CLOCK then bgClock else q.ready[0].reqClock;
        if due < least then due else least
  }

  /** What is due when: a background message counts as due at bgClock. */
  function DueClock(m: Msg, bgClock: Word64): Word64 {
    if m.reqClock == BACKGROUND_PRIORITY_CLOCK then bgClock else m.reqClock
  }

  lemma {:induction false} MinStalledIsLeast(qs: seq<CommandQueue>)
    ensures MinStalled(qs) <= MAX_CLOCK
    ensures forall i :: 0 <= i < |qs| && qs[i].upcoming != [] ==> MinStalled(qs) <= qs[i].upcoming[0].minClock
    ensures MinStalled(qs) < MAX_CLOCK ==>
              exists i :: 0 <= i < |qs| && qs[i].upcoming != [] && MinStalled(qs) == qs[i].upcoming[0].minClock
  {
    if qs != [] {
      var n := |qs| - 1;
      MinStalledIsLeast(qs[..n]);
      assert forall i :: 0 <= i < n ==> qs[..n][i] == qs[i];
    }
  }

  lemma {:induction false} MinReadyIsLeast(qs: seq<CommandQueue>, bgClock: Word64)
    ensures MinReady(qs, bgClock) <= MAX_CLOCK
    ensures forall i :: 0 <= i < |qs| && qs[i].ready != [] ==> MinReady(qs, bgClock) <= DueClock(qs[i].ready[0], bgClock)
    ensures MinReady(qs, bgClock) < MAX_CLOCK ==>
              exists i :: 0 <= i < |qs| && qs[i].ready != [] && MinReady(qs, bgClock) == DueClock(qs[i].ready[0], bgClock)
  {
    if qs != [] {
      var n := |qs| - 1;
      MinReadyIsLeast(qs[..n], bgClock);
      assert forall i :: 0 <= i < n ==> qs[..n][i] == qs[i];
    }
  }

  // Packing: the most urgent ready message first.

  /** The index of the queue whose ready head has the least deadline, the first such one; |qs| if there is none. */
  function MostUrgent(qs: seq<CommandQueue>): (i: nat)
    ensures i <= |qs|
    ensures i < |qs| ==> qs[i].ready != [] && qs[i].ready[0].reqClock < MAX_CLOCK
    ensures i < |qs| ==>
              forall k :: 0 <= k < |qs| && qs[k].ready != [] ==> qs[i].ready[0].reqClock <= qs[k].ready[0].reqClock
    ensures i == |qs| ==> forall k :: 0 <= k < |qs| && qs[k].ready != [] ==> MAX_CLOCK <= qs[k].ready[0].reqClock
  {
    if qs == [] then 0
    else
      var n := |qs| - 1;
      var i := MostUrgent(qs[..n]);
      if qs[n].ready == [] then (if i < n then i else |qs|)
      else if qs[n].ready[0].reqClock < (if i < n then qs[i].ready[0].reqClock else MAX_CLOCK) then n
      else if i < n then i
      else |qs|
  }

  /** The list after its i-th queue gives up its first ready message; an empty queue leaves the list. */
  function Taken(qs: seq<CommandQueue>, i: nat): seq<CommandQueue>
    requires i < |qs| && qs[i].ready != []
  {
    var q := qs[i].(ready := qs[i].ready[1..]);
    if q.ready == [] && q.upcoming == [] then qs[..i] + qs[i + 1..] else qs[i := q]
  }

  /** A message on its way into a block, with the queue it comes from. */
  datatype Packed = Packed(id: nat, msg: Msg)

  datatype Packing = Packing(sched: Sched, packed: seq<Packed>)

  function Payload(ps: seq<Packed>): seq<Byte> {
    if ps == [] then [] else ps[0].msg.bytes + Payload(ps[1..])
  }

  lemma {:induction false} PayloadSnoc(ps: seq<Packed>, p: Packed)
    ensures Payload(ps + [p]) == Payload(ps) + p.msg.bytes
  {
    if ps == [] {
      assert ps + [p] == [p] && [p][1..] == [];
    } else {
      assert (ps + [p])[0] == ps[0] && (ps + [p])[1..] == ps[1..] + [p];
      PayloadSnoc(ps[1..], p);
      assert ps[0].msg.bytes + (Payload(ps[1..]) + p.msg.bytes) == ps[0].msg.bytes + Payload(ps[1..]) + p.msg.bytes;
    }
  }

  // What the queues keep.

  /** A message its callers may enqueue: it fits a block, and its deadline is a real one. */
  predicate Sendable(m: Msg) {
    1 <= |m.bytes| <= MESSAGE_PAYLOAD_MAX && m.reqClock < MAX_CLOCK
  }

  /** Unless it is a background message, it waits until half a turn of the clock before its deadline. */
  predicate Paced(m: Msg) {
    m.reqClock == BACKGROUND_PRIORITY_CLOCK || m.reqClock <= m.minClock + 0x8000_0000
  }

  predicate Listed(q: CommandQueue) {
    && (q.ready != [] || q.upcoming != [])
    && (forall i :: 0 <= i < |q.ready| ==> Sendable(q.ready[i]) && Paced(q.ready[i]))
    && forall i :: 0 <= i < |q.upcoming| ==> Sendable(q.upcoming[i]) && Paced(q.upcoming[i])
  }

  predicate Distinct(qs: seq<CommandQueue>) {
    forall i, j :: 0 <= i < j < |qs| ==> qs[i].id != qs[j].id
  }

  /** The byte counters are exact sums; every listed queue holds something sendable, and is listed once. */
  ghost predicate Orderly(s: Sched) {
    && s.readyBytes == ReadyLength(s.pending) && s.upcomingBytes == UpcomingLength(s.pending)
    && Distinct(s.pending)
    && forall i :: 0 <= i < |s.pending| ==> Listed(s.pending[i])
  }

  lemma {:induction false} LengthAppend(a: seq<Msg>, b: seq<Msg>)
    ensures Length(a + b) == Length(a) + Length(b)
  {
    if a == [] {
      assert a + b == b;
    } else {
      assert (a + b)[0] == a[0] && (a + b)[1..] == a[1..] + b;
      LengthAppend(a[1..], b);
    }
  }

  lemma {:induction false} SumsAppend(a: seq<CommandQueue>, b: seq<CommandQueue>)
    ensures ReadyLength(a + b) == ReadyLength(a) + ReadyLength(b)
    ensures UpcomingLength(a + b) == UpcomingLength(a) + UpcomingLength(b)
  {
    hide Length;
    if a == [] {
      assert a + b == b;
    } else {
      assert (a + b)[0] == a[0] && (a + b)[1..] == a[1..] + b;
      SumsAppend(a[1..], b);
    }
  }

  lemma {:induction false} HeldAppend(a: seq<CommandQueue>, b: seq<CommandQueue>, id: nat)
    ensures Held(a + b, id) == Held(a, id) + Held(b, id)
  {
    if a == [] {
      assert a + b == b;
    } else {
      assert (a + b)[0] == a[0] && (a + b)[1..] == a[1..] + b;
      HeldAppend(a[1..], b, id);
      var own := if a[0].id == id then a[0].ready + a[0].upcoming else [];
      assert own + (Held(a[1..], id) + Held(b, id)) == own + Held(a[1..], id) + Held(b, id);
    }
  }

  lemma One(q: CommandQueue, id: nat)
    ensures ReadyLength([q]) == Length(q.ready) && UpcomingLength([q]) == Length(q.upcoming)
    ensures Held([q], id) == if q.id == id then q.ready + q.upcoming else []
  {
    assert [q][1..] == [];
  }

  /** The sums over a list of queues, split at one of them. */
  lemma SumsAt(qs: seq<CommandQueue>, i: nat)
    requires i < |qs|
    ensures ReadyLength(qs) == ReadyLength(qs[..i]) + Length(qs[i].ready) + ReadyLength(qs[i + 1..])
    ensures UpcomingLength(qs) == UpcomingLength(qs[..i]) + Length(qs[i].upcoming) + UpcomingLength(qs[i + 1..])
  {
    hide ReadyLength, UpcomingLength, Length;
    assert qs == qs[..i] + ([qs[i]] + qs[i + 1..]);
    SumsAppend(qs[..i], [qs[i]] + qs[i + 1..]);
    SumsAppend([qs[i]], qs[i + 1..]);
    One(qs[i], 0);
  }

  /** What a number holds is what its one queue holds. */
  lemma HeldAt(qs: seq<CommandQueue>, i: nat, id: nat)
    requires i < |qs| && Distinct(qs)
    ensures qs[i].id == id ==> Held(qs, id) == qs[i].ready + qs[i].upcoming
    ensures qs[i].id != id ==> Held(qs, id) == Held(qs[..i], id) + Held(qs[i + 1..], id)
  {
    hide Held;
    var front, back := qs[..i], qs[i + 1..];
    assert qs == front + ([qs[i]] + back);
    HeldAppend(front, [qs[i]] + back, id);
    HeldAppend([qs[i]], back, id);
    One(qs[i], id);
    if qs[i].id == id {
      NotHeld(front, id);
      NotHeld(back, id);
    }
  }

  lemma {:induction false} NotHeld(qs: seq<CommandQueue>, id: nat)
    requires forall i :: 0 <= i < |qs| ==> qs[i].id != id
    ensures Held(qs, id) == []
  {
    if qs != [] {
      NotHeld(qs[1..], id);
    }
  }

  // Taking a message.

  lemma TakenSums(qs: seq<CommandQueue>, i: nat)
    requires i < |qs| && qs[i].ready != []
    ensures ReadyLength(qs) == |qs[i].ready[0].bytes| + ReadyLength(Taken(qs, i))
    ensures UpcomingLength(qs) == UpcomingLength(Taken(qs, i))
  {
    hide ReadyLength, UpcomingLength, Length;
    var q := qs[i].(ready := qs[i].ready[1..]);
    SumsAt(qs, i);
    TakeHead(qs[i].ready);
    if q.ready == [] && q.upcoming == [] {
      SumsAppend(qs[..i], qs[i + 1..]);
      NothingHeld();
    } else {
      var t := qs[i := q];
      assert t[..i] == qs[..i] && t[i + 1..] == qs[i + 1..] && t[i] == q;
      SumsAt(t, i);
    }
  }

  lemma TakenHeld(qs: seq<CommandQueue>, i: nat, id: nat)
    requires i < |qs| && qs[i].ready != [] && Distinct(qs)
    ensures Held(qs, id) == (if qs[i].id == id then [qs[i].ready[0]] else []) + Held(Taken(qs, i), id)
  {
    hide Held;
    var q := qs[i].(ready := qs[i].ready[1..]);
    var front, back := qs[..i], qs[i + 1..];
    HeldAt(qs, i, id);
    if q.ready == [] && q.upcoming == [] {
      HeldAppend(front, back, id);
      if qs[i].id == id {
        NotHeld(front + back, id);
        assert qs[i].ready + qs[i].upcoming == [qs[i].ready[0]];
      }
    } else {
      var t := qs[i := q];
      assert t[..i] == front && t[i + 1..] == back && t[i] == q;
      HeldAt(t, i, id);
      if qs[i].id == id {
        assert qs[i].ready + qs[i].upcoming == [qs[i].ready[0]] + (q.ready + q.upcoming);
      }
    }
  }

  lemma NothingHeld()
    ensures Length([]) == 0
  {
  }

  lemma TakeHead(ms: seq<Msg>)
    requires ms != []
    ensures Length(ms) == |ms[0].bytes| + Length(ms[1..])
  {
  }

  /** The scheduler after the i-th queue's head left. */
  function TakeFrom(s: Sched, i: nat): Sched
    requires i < |s.pending| && s.pending[i].ready != []
  {
    s.(pending := Taken(s.pending, i), readyBytes := s.readyBytes - |s.pending[i].ready[0].bytes|)
  }

  lemma TakeFromKeeps(s: Sched, i: nat)
    requires Orderly(s) && i < |s.pending| && s.pending[i].ready != []
    ensures Orderly(TakeFrom(s, i))
  {
    hide ReadyLength, UpcomingLength, Held;
    TakenSums(s.pending, i);
    var qs, t := s.pending, Taken(s.pending, i);
    forall k | 0 <= k < |t|
      ensures Listed(t[k])
    {
      var o := if |t| == |qs| || k < i then k else k + 1;
      assert Listed(qs[o]) && Listed(qs[i]);
    }
    assert Distinct(t);
  }

  lemma {:induction false} NothingReady(qs: seq<CommandQueue>)
    requires forall i :: 0 <= i < |qs| ==> qs[i].ready == []
    ensures ReadyLength(qs) == 0
  {
    if qs != [] {
      NothingReady(qs[1..]);
    }
  }

  /** While bytes are ready there is a most urgent message. */
  lemma SomethingUrgent(s: Sched)
    requires Orderly(s) && s.readyBytes != 0
    ensures MostUrgent(s.pending) < |s.pending|
  {
    hide ReadyLength, UpcomingLength, Sendable, Paced;
    var i := MostUrgent(s.pending);
    if i == |s.pending| {
      forall k | 0 <= k < |s.pending|
        ensures s.pending[k].ready == []
      {
        assert Listed(s.pending[k]);
        if s.pending[k].ready != [] {
          HeadIsSendable(s.pending[k]);
        }
      }
      NothingReady(s.pending);
    }
  }

  lemma HeadIsSendable(q: CommandQueue)
    requires Listed(q) && q.ready != []
    ensures 1 <= |q.ready[0].bytes| <= MESSAGE_PAYLOAD_MAX && q.ready[0].reqClock < MAX_CLOCK
  {
    assert Sendable(q.ready[0]);
  }

  /** The loop of build_and_send_command, from a block of len bytes so far. */
  ghost function Pack(s: Sched, len: nat): Packing
    requires Orderly(s) && len <= MESSAGE_MAX - MESSAGE_TRAILER_SIZE
    decreases MESSAGE_MAX - len
  {
    if s.readyBytes == 0 then Packing(s, [])
    else
      SomethingUrgent(s);
      var i := MostUrgent(s.pending);
      var m := s.pending[i].ready[0];
      HeadIsSendable(s.pending[i]);
      TakeFromKeeps(s, i);
      if len + |m.bytes| > MESSAGE_MAX - MESSAGE_TRAILER_SIZE then Packing(s, [])
      else
        var p := Pack(TakeFrom(s, i), len + |m.bytes|);
        Packing(p.sched, [Packed(s.pending[i].id, m)] + p.packed)
  }

  function PackedFrom(ps: seq<Packed>, id: nat): seq<Msg> {
    if ps == [] then [] else (if ps[0].id == id then [ps[0].msg] else []) + PackedFrom(ps[1..], id)
  }

  /** What a block takes from the queues: each queue's messages leave in order, none lost or doubled; the payload
    * fits, and it is not empty when something is ready. */
  lemma {:induction false} PackConserves(s: Sched, len: nat, id: nat)
    requires Orderly(s) && len <= MESSAGE_MAX - MESSAGE_TRAILER_SIZE
    ensures var p := Pack(s, len);
            && Orderly(p.sched)
            && Held(s.pending, id) == PackedFrom(p.packed, id) + Held(p.sched.pending, id)
            && len + |Payload(p.packed)| <= MESSAGE_MAX - MESSAGE_TRAILER_SIZE
            && (s.readyBytes != 0 && len == MESSAGE_HEADER_SIZE ==> Payload(p.packed) != [])
    decreases MESSAGE_MAX - len
  {
    hide Orderly, Held, MostUrgent, Taken, Listed;
    if s.readyBytes != 0 {
      SomethingUrgent(s);
      var i := MostUrgent(s.pending);
      var m := s.pending[i].ready[0];
      HeadOf(s, i);
      if len + |m.bytes| <= MESSAGE_MAX - MESSAGE_TRAILER_SIZE {
        TakeFromKeeps(s, i);
        TakenHeld(s.pending, i, id);
        var rest := Pack(TakeFrom(s, i), len + |m.bytes|);
        PackConserves(TakeFrom(s, i), len + |m.bytes|, id);
        PackedHead(Packed(s.pending[i].id, m), rest.packed, id);
      }
    }
  }

  lemma HeadOf(s: Sched, i: nat)
    requires Orderly(s) && i < |s.pending| && s.pending[i].ready != []
    ensures 1 <= |s.pending[i].ready[0].bytes| <= MESSAGE_PAYLOAD_MAX
    ensures Distinct(s.pending)
  {
    HeadIsSendable(s.pending[i]);
  }

  lemma EmptyPayload()
    ensures Payload([]) == []
  {
  }

  lemma PackedHead(p: Packed, ps: seq<Packed>, id: nat)
    ensures PackedFrom([p] + ps, id) == (if p.id == id then [p.msg] else []) + PackedFrom(ps, id)
    ensures Payload([p] + ps) == p.msg.bytes + Payload(ps)
  {
    assert ([p] + ps)[1..] == ps;
  }

  /** A message that is at the head of a ready queue and has the least deadline of all such heads, the first
    * listed queue going first among equals. */
  predicate IsMostUrgent(qs: seq<CommandQueue>, i: nat) {
    && i < |qs| && qs[i].ready != []
    && (forall k :: 0 <= k < |qs| && qs[k].ready != [] ==> qs[i].ready[0].reqClock <= qs[k].ready[0].reqClock)
    && forall k :: 0 <= k < i && qs[k].ready != [] ==> qs[i].ready[0].reqClock < qs[k].ready[0].reqClock
  }

  lemma {:induction false} MostUrgentIs(qs: seq<CommandQueue>)
    requires MostUrgent(qs) < |qs|
    ensures IsMostUrgent(qs, MostUrgent(qs))
  {
    var n := |qs| - 1;
    var front := qs[..n];
    var i := MostUrgent(front);
    if i < n {
      MostUrgentIs(front);
      assert forall k :: 0 <= k < n ==> front[k] == qs[k];
    }
    if MostUrgent(qs) == n && i == n {
      assert forall k :: 0 <= k < n ==> front[k] == qs[k];
    }
  }

  /** Taking these messages one after the other, each time the most urgent one. */
  ghost predicate MostUrgentFirst(s: Sched, ps: seq<Packed>, last: Sched)
    decreases |ps|
  {
    if ps == [] then last == s
    else
      exists i: nat :: IsMostUrgent(s.pending, i)
                       && ps[0] == Packed(s.pending[i].id, s.pending[i].ready[0])
                       && MostUrgentFirst(TakeFrom(s, i), ps[1..], last)
  }

  /** Nothing is ready, or the most urgent message does not fit a block of len bytes so far. */
  ghost predicate Full(s: Sched, len: nat) {
    s.readyBytes == 0
    || exists i: nat :: IsMostUrgent(s.pending, i)
                        && len + |s.pending[i].ready[0].bytes| > MESSAGE_MAX - MESSAGE_TRAILER_SIZE
  }

  /** A block is filled with the most urgent message each time, until none is ready or the most urgent one does
    * not fit. */
  lemma {:induction false} PackInOrder(s: Sched, len: nat)
    requires Orderly(s) && len <= MESSAGE_MAX - MESSAGE_TRAILER_SIZE
    ensures var p := Pack(s, len);
            && MostUrgentFirst(s, p.packed, p.sched)
            && Full(p.sched, len + |Payload(p.packed)|)
    decreases MESSAGE_MAX - len
  {
    hide Orderly, MostUrgent, Taken, Listed, IsMostUrgent, Payload;
    EmptyPayload();
    if s.readyBytes != 0 {
      SomethingUrgent(s);
      var i := MostUrgent(s.pending);
      var m := s.pending[i].ready[0];
      HeadOf(s, i);
      MostUrgentIs(s.pending);
      var p := Pack(s, len);
      if len + |m.bytes| <= MESSAGE_MAX - MESSAGE_TRAILER_SIZE {
        TakeFromKeeps(s, i);
        PackInOrder(TakeFrom(s, i), len + |m.bytes|);
        var rest := Pack(TakeFrom(s, i), len + |m.bytes|);
        PackedHead(Packed(s.pending[i].id, m), rest.packed, 0);
        assert p.packed[1..] == rest.packed;
      } else {
        assert IsMostUrgent(s.pending, i);
      }
    }
  }

  // Enqueueing.

  lemma {:induction false} JoinedKeeps(qs: seq<CommandQueue>, id: nat, ms: seq<Msg>, other: nat)
    requires Distinct(qs)
    ensures var r := Joined(qs, id, ms);
            && ReadyLength(r) == ReadyLength(qs) && UpcomingLength(r) == UpcomingLength(qs) + Length(ms)
            && Held(r, other) == Held(qs, other) + (if other == id then ms else [])
            && (forall i :: 0 <= i < |r| ==> r[i].id == id || (i < |qs| && r[i].id == qs[i].id))
            && Distinct(r)
  {
    hide Length;
    var r := Joined(qs, id, ms);
    if qs == [] {
      One(CommandQueue(id, [], ms), other);
      assert [] + ms == ms;
      EmptyLength();
    } else if qs[0].id == id {
      var q := qs[0].(upcoming := qs[0].upcoming + ms);
      assert r == [q] + qs[1..];
      LengthAppend(qs[0].upcoming, ms);
      HeldAt(qs, 0, other);
      HeldAt(r, 0, other);
      assert r[1..] == qs[1..] && qs[..0] == r[..0] == [];
      assert q.ready + q.upcoming == qs[0].ready + qs[0].upcoming + ms;
    } else {
      JoinedKeeps(qs[1..], id, ms, other);
      var t := Joined(qs[1..], id, ms);
      assert r[0] == qs[0] && r[1..] == t;
      JoinedDistinct(qs, r, t, id);
      var own := if qs[0].id == other then qs[0].ready + qs[0].upcoming else [];
      var added := if other == id then ms else [];
      assert own + (Held(qs[1..], other) + added) == own + Held(qs[1..], other) + added;
    }
  }

  lemma JoinedDistinct(qs: seq<CommandQueue>, r: seq<CommandQueue>, t: seq<CommandQueue>, id: nat)
    requires qs != [] && Distinct(qs) && Distinct(t) && qs[0].id != id
    requires r == [qs[0]] + t
    requires forall i :: 0 <= i < |t| ==> t[i].id == id || (i < |qs[1..]| && t[i].id == qs[1..][i].id)
    ensures Distinct(r)
    ensures forall i :: 0 <= i < |r| ==> r[i].id == id || (i < |qs| && r[i].id == qs[i].id)
  {
    forall i | 0 <= i < |t|
      ensures t[i].id == id || (i + 1 < |qs| && t[i].id == qs[i + 1].id)
    {
    }
    assert forall i :: 1 <= i < |r| ==> r[i] == t[i - 1];
  }

  lemma EmptyLength()
    ensures Length([]) == 0 && ReadyLength([]) == 0 && UpcomingLength([]) == 0
  {
  }

  lemma {:induction false} JoinedListed(qs: seq<CommandQueue>, id: nat, ms: seq<Msg>)
    requires forall i :: 0 <= i < |qs| ==> Listed(qs[i])
    requires ms != [] && forall i :: 0 <= i < |ms| ==> Sendable(ms[i]) && Paced(ms[i])
    ensures forall i :: 0 <= i < |Joined(qs, id, ms)| ==> Listed(Joined(qs, id, ms)[i])
  {
    hide Sendable, Paced;
    if qs == [] {
      assert Listed(CommandQueue(id, [], ms));
    } else if qs[0].id == id {
      assert Listed(qs[0]);
      var q := qs[0].(upcoming := qs[0].upcoming + ms);
      assert Listed(q);
    } else {
      JoinedListed(qs[1..], id, ms);
    }
  }

  lemma RaisedIsPaced(m: Msg)
    ensures Paced(Raised(m)) && Raised(m).bytes == m.bytes && Raised(m).reqClock == m.reqClock
    ensures Raised(m).notifyId == m.notifyId
    ensures m.reqClock <= m.minClock + 0x8000_0000 < TWO64 ==> Raised(m) == m
  {
  }

  /** A message may be sent from its own clock on, and no earlier than half a turn before it is due; a background message,
    * which is never due, from its own. */
  lemma RaisedMeans(m: Msg, x: int)
    requires m.minClock + 0x8000_0000 < TWO64
    ensures Raised(m).minClock <= x <==>
              m.minClock <= x && (m.reqClock == BACKGROUND_PRIORITY_CLOCK || m.reqClock - 0x8000_0000 <= x)
    ensures Raised(m) == m.(minClock := Raised(m).minClock)
  {
  }

  lemma {:induction false} LengthPositive(ms: seq<Msg>)
    requires ms != [] && Sendable(ms[0])
    ensures 0 < Length(ms)
  {
  }

  /** Enqueueing puts a batch behind what its queue holds, and changes no other queue. */
  lemma SendBatchKeeps(s: Sched, id: nat, ms: seq<Msg>, other: nat)
    requires Orderly(s) && forall i :: 0 <= i < |ms| ==> Sendable(ms[i])
    ensures var r := SendBatch(s, id, ms);
            && Orderly(r)
            && Held(r.pending, other) == Held(s.pending, other) + (if other == id then RaisedAll(ms) else [])
  {
    hide ReadyLength, UpcomingLength, Held, Joined, Listed, Paced, Raised, Length;
    var raised := RaisedAll(ms);
    if ms == [] {
      assert raised == [];
      EmptyLength();
      assert Held(s.pending, other) + [] == Held(s.pending, other);
    } else {
      forall i | 0 <= i < |raised|
        ensures Sendable(raised[i]) && Paced(raised[i])
      {
        RaisedIsPaced(ms[i]);
      }
      LengthPositive(raised);
      JoinedKeeps(s.pending, id, raised, other);
      JoinedListed(s.pending, id, raised);
    }
  }

  // Promotion.

  lemma {:induction false} PromoteSums(qs: seq<CommandQueue>, ackClock: Word64)
    ensures var r := Promote(qs, ackClock);
            ReadyLength(r) + UpcomingLength(r) == ReadyLength(qs) + UpcomingLength(qs)
  {
    hide Length;
    if qs != [] {
      var q, n := qs[0], Due(qs[0].upcoming, ackClock);
      assert Promote(qs, ackClock)[1..] == Promote(qs[1..], ackClock);
      PromoteSums(qs[1..], ackClock);
      assert q.upcoming == q.upcoming[..n] + q.upcoming[n..];
      LengthAppend(q.upcoming[..n], q.upcoming[n..]);
      LengthAppend(q.ready, q.upcoming[..n]);
    }
  }

  lemma {:induction false} PromoteHeld(qs: seq<CommandQueue>, ackClock: Word64, id: nat)
    ensures Held(Promote(qs, ackClock), id) == Held(qs, id)
  {
    hide Due;
    if qs != [] {
      var q, n := qs[0], Due(qs[0].upcoming, ackClock);
      assert Promote(qs, ackClock)[1..] == Promote(qs[1..], ackClock);
      PromoteHeld(qs[1..], ackClock, id);
      Seqs.Halves(q.ready, q.upcoming, n);
    }
  }

  lemma PromotedKeeps(s: Sched, ackClock: Word64, id: nat)
    requires Orderly(s)
    ensures Orderly(Promoted(s, ackClock))
    ensures Held(Promoted(s, ackClock).pending, id) == Held(s.pending, id)
  {
    hide ReadyLength, UpcomingLength, Held, Sendable, Paced;
    PromoteSums(s.pending, ackClock);
    PromoteHeld(s.pending, ackClock, id);
    var r := Promote(s.pending, ackClock);
    forall i | 0 <= i < |r|
      ensures Listed(r[i])
    {
      assert Listed(s.pending[i]);
      PromoteOneListed(s.pending[i], ackClock);
    }
  }

  lemma PromoteOneListed(q: CommandQueue, ackClock: Word64)
    requires Listed(q)
    ensures Listed(PromoteOne(q, ackClock))
  {
    hide Sendable, Paced;
    var n, r := Due(q.upcoming, ackClock), PromoteOne(q, ackClock);
    hide Due;
    forall i | 0 <= i < |r.ready|
      ensures Sendable(r.ready[i]) && Paced(r.ready[i])
    {
      if i < |q.ready| {
        assert r.ready[i] == q.ready[i];
      } else {
        assert r.ready[i] == q.upcoming[i - |q.ready|];
      }
    }
    forall i | 0 <= i < |r.upcoming|
      ensures Sendable(r.upcoming[i]) && Paced(r.upcoming[i])
    {
      assert r.upcoming[i] == q.upcoming[n + i];
    }
    assert |r.ready| + |r.upcoming| == |q.ready| + |q.upcoming|;
  }

  /** No message becomes ready before its earliest clock, nor, unless it is a background message, more than half
    * a turn of a 32-bit clock before its deadline; the head that stays behind is not due yet. */
  lemma NoneReadyEarly(s: Sched, ackClock: Word64, i: nat, k: nat)
    requires Orderly(s) && i < |s.pending|
    requires var q := Promoted(s, ackClock).pending[i];
             |s.pending[i].ready| <= k < |q.ready|
    ensures var m := Promoted(s, ackClock).pending[i].ready[k];
            && m.minClock <= ackClock
            && (m.reqClock == BACKGROUND_PRIORITY_CLOCK || m.reqClock <= ackClock + 0x8000_0000)
    ensures var q := Promoted(s, ackClock).pending[i];
            q.upcoming != [] ==> ackClock < q.upcoming[0].minClock
  {
    hide ReadyLength, UpcomingLength, Sendable;
    var q, n := s.pending[i], Due(s.pending[i].upcoming, ackClock);
    assert Listed(q);
    assert Promoted(s, ackClock).pending[i] == PromoteOne(q, ackClock);
    assert PromoteOne(q, ackClock).ready[k] == q.upcoming[k - |q.ready|];
    assert Paced(q.upcoming[k - |q.ready|]);
  }
}
