/** Dispatching a trigger to several micro-controllers, with a deadline on each one that only the reports of the
  * others can extend. */
module TriggerDispatch {
  import opened Options
  import opened Wire
  import opened Clocks
  import opened VlqMessages
  import Framing

  /** A message put on a controller's command queue. */
  datatype Sent = Sent(words: seq<Word32>, reqClock: Word64)

  /** struct trdispatch_mcu, with the messages sent to that controller. */
  datatype Mcu = Mcu(oid: Word32, timeoutTag: Word32, triggerTag: Word32, ce: Estimate,
                     lastStatus: Word64, expire: Word64, ticks: Word64, minExtend: Word64, sent: seq<Sent>)

  /** struct trdispatch.  The fast readers that deliver reports are registered while it is active. */
  datatype Dispatch = Dispatch(mcus: seq<Mcu>, active: bool, armed: bool, reason: Word32)

  const NEVER := 9999999999999999.0

  function StatusTime(m: Mcu): real
    requires m.ce.freq != 0.0
  {
    ToTime(m.ce, m.lastStatus)
  }

  ghost predicate Ticking(ms: seq<Mcu>) {
    forall i :: 0 <= i < |ms| ==> 0.0 < ms[i].ce.freq
  }

  // The least and the second least status time, as the loop finds them.

  datatype Least = Least(min: real, next: real, who: int)

  function Consider(l: Least, time: real, i: nat): Least {
    if time < l.next then
      if time < l.min then Least(time, l.min, i) else Least(l.min, time, l.who)
    else l
  }

  ghost function Scan(ms: seq<Mcu>): Least
    requires Ticking(ms)
  {
    if ms == [] then Least(NEVER, NEVER, -1)
    else
      var n := |ms| - 1;
      Consider(Scan(ms[..n]), StatusTime(ms[n]), n)
  }

  /** The time up to which controller i may be told to go on. */
  function Horizon(l: Least, i: nat): real {
    if i != l.who then l.min else if l.next == NEVER then l.min else l.next
  }

  /** Whose reports count for controller i: those of the others, its own only when it is alone. */
  predicate Watches(n: nat, i: nat, j: nat) {
    i < n && j < n && (i != j || n == 1)
  }

  ghost predicate Scanned(ms: seq<Mcu>, l: Least)
    requires Ticking(ms)
  {
    && 0 <= l.who < |ms| && l.min == StatusTime(ms[l.who])
    && (forall j :: 0 <= j < |ms| ==> l.min <= StatusTime(ms[j]))
    && (forall j :: 0 <= j < |ms| && j != l.who ==> l.next <= StatusTime(ms[j]))
    && (if |ms| == 1 then l.next == NEVER
        else exists j :: 0 <= j < |ms| && j != l.who && StatusTime(ms[j]) == l.next)
  }

  ghost predicate Timely(ms: seq<Mcu>)
    requires Ticking(ms)
  {
    forall i :: 0 <= i < |ms| ==> StatusTime(ms[i]) < NEVER
  }

  lemma {:induction false} ScanIsScanned(ms: seq<Mcu>)
    requires ms != [] && Ticking(ms) && Timely(ms)
    ensures Scanned(ms, Scan(ms))
  {
    hide ToTime;
    var n := |ms| - 1;
    var front := ms[..n];
    if n > 0 {
      assert forall i :: 0 <= i < n ==> front[i] == ms[i];
      ScanIsScanned(front);
      ScanStep(ms, Scan(front));
    }
  }

  lemma ScanStep(ms: seq<Mcu>, l: Least)
    requires |ms| > 1 && Ticking(ms) && Timely(ms)
    requires Ticking(ms[..|ms| - 1]) && Scanned(ms[..|ms| - 1], l)
    ensures Scanned(ms, Consider(l, StatusTime(ms[|ms| - 1]), |ms| - 1))
  {
    hide ToTime, StatusTime;
    var n := |ms| - 1;
    var front, t, r := ms[..n], StatusTime(ms[n]), Consider(l, StatusTime(ms[n]), n);
    assert forall i :: 0 <= i < n ==> front[i] == ms[i];
    if t < l.next && t < l.min {
      assert StatusTime(ms[l.who]) == r.next;
    } else if t < l.next {
      assert StatusTime(ms[n]) == r.next;
    } else {
      assert l.next <= t < NEVER;
      var j :| 0 <= j < n && j != l.who && StatusTime(front[j]) == l.next;
      assert StatusTime(ms[j]) == r.next;
    }
  }

  /** The horizon of a controller is the least status time of those it watches. */
  lemma HorizonIsLeast(ms: seq<Mcu>, i: nat)
    requires i < |ms| && Ticking(ms) && Timely(ms)
    ensures var h := Horizon(Scan(ms), i);
            && (forall j: nat :: Watches(|ms|, i, j) ==> h <= StatusTime(ms[j]))
            && exists j: nat :: Watches(|ms|, i, j) && StatusTime(ms[j]) == h
  {
    hide ToTime, StatusTime, Scan;
    ScanIsScanned(ms);
    var l := Scan(ms);
    var h := Horizon(l, i);
    if |ms| == 1 {
      assert l.who == 0 == i && h == l.min;
      assert Watches(|ms|, i, 0) && StatusTime(ms[0]) == h;
    } else if i == l.who {
      var j :| 0 <= j < |ms| && j != l.who && StatusTime(ms[j]) == l.next;
      assert StatusTime(ms[j]) < NEVER;
      assert Watches(|ms|, i, j);
    } else {
      assert Watches(|ms|, i, l.who);
    }
  }

  // Messages.

  function TriggerMessage(m: Mcu, reason: Word32): Sent {
    Sent([m.triggerTag, m.oid, reason], 0)
  }

  function TimeoutMessage(m: Mcu, expire: Word64): Sent {
    Sent([m.timeoutTag, m.oid, U32(expire)], expire)
  }

  /** Moving a deadline.  The source compares a signed difference with an unsigned bound, which makes it an
    * unsigned comparison. */
  function Extend(m: Mcu, horizon: real): Mcu {
    var expire := U64(FromTime(m.ce, horizon) + m.ticks);
    if U64(expire - m.expire) >= m.minExtend
    then m.(expire := expire, sent := m.sent + [TimeoutMessage(m, expire)])
    else m
  }

  ghost function ExtendAll(ms: seq<Mcu>, l: Least): (r: seq<Mcu>)
    ensures |r| == |ms|
  {
    seq(|ms|, i requires 0 <= i < |ms| => Extend(ms[i], Horizon(l, i)))
  }

  ghost function TriggerAll(ms: seq<Mcu>, reason: Word32): (r: seq<Mcu>)
    ensures |r| == |ms|
  {
    seq(|ms|, i requires 0 <= i < |ms| => ms[i].(sent := ms[i].sent + [TriggerMessage(ms[i], reason)]))
  }

  /** A message block as the framer delivers it. */
  predicate IsFrame(data: seq<Byte>) {
    MESSAGE_MIN <= |data| && data[|data| - 1] == MESSAGE_SYNC
  }

  datatype Report = Report(canTrigger: bool, clock: Word32)

  /** The report in a trsync_state message of five integers, if it is for this controller's object. */
  function ReadReport(data: seq<Byte>, oid: Word32): Option<Report>
    requires IsFrame(data)
  {
    match Decoded(data, MESSAGE_HEADER_SIZE, |data| - MESSAGE_TRAILER_SIZE, 5)
    case None => None
    case Some(f) => if |f| == 5 && f[1] == oid then Some(Report(f[2] != 0, f[4])) else None
  }

  /** A report encoded by the other side in a block of any sequence number is read back. */
  lemma ReportArrives(seqno: nat, fields: seq<Word32>, oid: Word32)
    requires |fields| == 5 && |EncodeAll(fields)| <= MESSAGE_PAYLOAD_MAX
    ensures var data := Framing.Block(seqno, EncodeAll(fields));
            && IsFrame(data)
            && ReadReport(data, oid) == if fields[1] == oid then Some(Report(fields[2] != 0, fields[4])) else None
  {
    hide EncodeAll, Decoded, Framing.Block, Framing.Check, Framing.CheckPacket;
    var payload := EncodeAll(fields);
    var data := Framing.Block(seqno, payload);
    Framing.BlockAccepted(seqno, payload, []);
    Framing.CheckBounds(false, data);
    ListRoundTrip(data, MESSAGE_HEADER_SIZE, |data| - MESSAGE_TRAILER_SIZE, fields, 5);
  }

  // The transitions.

  ghost function Noted(ms: seq<Mcu>, k: nat, clock32: Word32, ce: Estimate): (r: seq<Mcu>)
    requires k < |ms|
    ensures |r| == |ms|
  {
    ms[k := ms[k].(ce := ce, lastStatus := FromClock32(ce, clock32))]
  }

  /** handle_trsync_state, after its message is read. */
  ghost function Handle(d: Dispatch, k: nat, report: Report, ce: Estimate): Dispatch
    requires k < |d.mcus|
    requires Ticking(Noted(d.mcus, k, report.clock, ce))
  {
    if !d.armed then d
    else if !report.canTrigger then d.(armed := false, mcus := TriggerAll(d.mcus, d.reason))
    else
      var ms := Noted(d.mcus, k, report.clock, ce);
      d.(mcus := ExtendAll(ms, Scan(ms)))
  }

  datatype Event =
    | Incoming(k: nat, data: seq<Byte>, ce: Estimate)
    | Start(reason: Word32)
    | Stop
    | Setup(k: nat, lastStatus: Word64, expire: Word64, ticks: Word64, minExtend: Word64, ce: Estimate)

  ghost predicate Possible(d: Dispatch, e: Event) {
    match e
    case Incoming(k, data, ce) => k < |d.mcus| && IsFrame(data) && Ticking(d.mcus) && 0.0 < ce.freq
    case Setup(k, _, _, _, _, ce) => k < |d.mcus| && 0.0 < ce.freq
    case _ => true
  }

  ghost function Step(d: Dispatch, e: Event): Dispatch
    requires Possible(d, e)
  {
    match e
    case Incoming(k, data, ce) =>
      if !d.active then d
      else
        (match ReadReport(data, d.mcus[k].oid)
         case None => d
         case Some(report) => Handle(d, k, report, ce))
    case Start(reason) =>
      if d.active || d.mcus == [] then d else d.(active := true, armed := true, reason := reason)
    case Stop => d.(active := false)
    case Setup(k, lastStatus, expire, ticks, minExtend, ce) =>
      d.(mcus := d.mcus[k := d.mcus[k].(lastStatus := lastStatus, expire := expire, ticks := ticks,
                                         minExtend := minExtend, ce := ce)])
  }

  // One trigger to each controller, then silence.

  /** Nothing in the run arms the dispatcher again: a start does so only when it is not active. */
  ghost predicate Undisturbed(d: Dispatch, es: seq<Event>)
    decreases |es|
  {
    es == [] || (Possible(d, es[0]) && !(es[0].Start? && !d.active && d.mcus != [])
                 && Undisturbed(Step(d, es[0]), es[1..]))
  }

  ghost function Run(d: Dispatch, es: seq<Event>): Dispatch
    requires Undisturbed(d, es)
    decreases |es|
  {
    if es == [] then d else Run(Step(d, es[0]), es[1..])
  }

  ghost predicate SameSent(a: Dispatch, b: Dispatch) {
    |a.mcus| == |b.mcus| && forall i :: 0 <= i < |a.mcus| ==> a.mcus[i].sent == b.mcus[i].sent
  }

  /** Once disarmed, a dispatcher sends nothing, whatever arrives, until it is started again. */
  lemma {:induction false} DisarmedIsSilent(d: Dispatch, es: seq<Event>)
    requires !d.armed && Undisturbed(d, es)
    ensures !Run(d, es).armed && SameSent(Run(d, es), d)
    decreases |es|
  {
    hide ReadReport, IsFrame;
    if es != [] {
      DisarmedIsSilent(Step(d, es[0]), es[1..]);
    }
  }

  ghost predicate Fails(d: Dispatch, e: Event)
    requires Possible(d, e)
  {
    && e.Incoming? && d.active
    && ReadReport(e.data, d.mcus[e.k].oid).Some? && !ReadReport(e.data, d.mcus[e.k].oid).value.canTrigger
  }

  /** The first report of a trigger or a timeout sends exactly one trigger to every controller, with the reason
    * of the start, and it is the last message any of them gets until the next start. */
  lemma OneTriggerEach(d: Dispatch, e: Event, es: seq<Event>)
    requires d.armed && Possible(d, e) && Fails(d, e) && Undisturbed(Step(d, e), es)
    ensures var last := Run(Step(d, e), es);
            && !last.armed && |last.mcus| == |d.mcus|
            && forall i :: 0 <= i < |d.mcus| ==>
                 last.mcus[i].sent == d.mcus[i].sent + [Sent([d.mcus[i].triggerTag, d.mcus[i].oid, d.reason], 0)]
  {
    hide ReadReport, IsFrame, Run, Undisturbed;
    DisarmedIsSilent(Step(d, e), es);
  }

  /** No other event sends a trigger: what a step adds to a queue is at most one new deadline. */
  lemma OnlyFailuresTrigger(d: Dispatch, e: Event, i: nat)
    requires Possible(d, e) && i < |d.mcus| && !(d.armed && Fails(d, e))
    ensures var m, m' := d.mcus[i], Step(d, e).mcus[i];
            || m'.sent == m.sent
            || m'.sent == m.sent + [Sent([m.timeoutTag, m.oid, m'.expire % 0x1_0000_0000], m'.expire)]
  {
    hide ReadReport, IsFrame, Scan, Horizon, FromTime;
  }

  // The dead man's switch.

  /** With these status times no controller's deadline leaves the range of a clock. */
  ghost predicate Ranged(ms: seq<Mcu>)
    requires Ticking(ms)
  {
    forall i: nat, j: nat :: i < |ms| && j < |ms| ==> InRange(ms[i], StatusTime(ms[j]))
  }

  predicate InRange(m: Mcu, time: real) {
    time < NEVER && 0 <= TicksAt(m.ce, time) && TicksAt(m.ce, time) + m.ticks < TWO64
  }

  predicate Within(m: Mcu, time: real) {
    m.expire <= TicksAt(m.ce, time) + m.ticks
  }

  /** No deadline is further than its own allowance beyond the last report of any controller it watches. */
  ghost predicate Bounded(ms: seq<Mcu>)
    requires Ticking(ms)
  {
    forall i: nat, j: nat :: Watches(|ms|, i, j) ==> Within(ms[i], StatusTime(ms[j]))
  }

  /** The estimate of the controller is as it was, and its reported time does not go back. */
  ghost predicate Steady(ms: seq<Mcu>, k: nat, clock32: Word32, ce: Estimate)
    requires Ticking(ms)
  {
    && k < |ms| && ce == ms[k].ce
    && StatusTime(ms[k]) <= ToTime(ce, FromClock32(ce, clock32))
  }

  /** At the start of a session each deadline is the status clock plus the allowance, and the status clocks all
    * stand for one time. */
  ghost predicate EqualStart(ms: seq<Mcu>)
    requires Ticking(ms)
  {
    && (forall i, j :: 0 <= i < |ms| && 0 <= j < |ms| ==> StatusTime(ms[i]) == StatusTime(ms[j]))
    && forall i :: 0 <= i < |ms| ==> FreshDeadline(ms[i])
  }

  predicate FreshDeadline(m: Mcu) {
    && m.expire == m.lastStatus + m.ticks
    && -0x8000_0000_0000_0000 <= m.lastStatus - m.ce.convClock < 0x8000_0000_0000_0000
  }

  lemma StartIsBounded(ms: seq<Mcu>)
    requires Ticking(ms) && EqualStart(ms)
    ensures Bounded(ms)
  {
    hide ToTime, TicksAt;
    forall i: nat, j: nat | Watches(|ms|, i, j)
      ensures Within(ms[i], StatusTime(ms[j]))
    {
      assert FreshDeadline(ms[i]);
      ClockRoundTrip(ms[i].ce, ms[i].lastStatus);
      assert StatusTime(ms[i]) == StatusTime(ms[j]);
    }
  }

  /** A later report never takes a deadline out of bounds. */
  lemma NotedIsBounded(ms: seq<Mcu>, k: nat, clock32: Word32, ce: Estimate)
    requires Ticking(ms) && Bounded(ms) && Steady(ms, k, clock32, ce)
    ensures Ticking(Noted(ms, k, clock32, ce)) && Bounded(Noted(ms, k, clock32, ce))
  {
    hide ToTime, TicksAt, FromClock32;
    var after := Noted(ms, k, clock32, ce);
    assert Ticking(after);
    forall i: nat, j: nat | Watches(|after|, i, j)
      ensures Within(after[i], StatusTime(after[j]))
    {
      assert Within(ms[i], StatusTime(ms[j]));
      TicksMonotone(ms[i].ce, StatusTime(ms[j]), StatusTime(after[j]));
    }
  }

  /** One deadline: it moves to the bound its horizon gives it, never back, and is never left behind by
    * min_extend_ticks or more. */
  lemma ExtendMeans(m: Mcu, h: real)
    requires InRange(m, h) && Within(m, h)
    ensures var m' := Extend(m, h);
            && m'.ce == m.ce && m'.lastStatus == m.lastStatus && m'.ticks == m.ticks && m'.minExtend == m.minExtend
            && m.expire <= m'.expire && Within(m', h)
            && (TicksAt(m.ce, h) + m.ticks < m'.expire + m.minExtend || m'.expire == TicksAt(m.ce, h) + m.ticks)
            && (m'.expire != m.expire ==> m'.expire == TicksAt(m.ce, h) + m.ticks && m'.sent != m.sent)
  {
    hide TicksAt, TimeoutMessage;
    WrapSmall(TicksAt(m.ce, h));
    WrapSmall(TicksAt(m.ce, h) + m.ticks);
    WrapSmall(TicksAt(m.ce, h) + m.ticks - m.expire);
    assert |m.sent + [TimeoutMessage(m, 0)]| == |m.sent| + 1;
  }

  predicate CaughtUp(m: Mcu, h: real) {
    TicksAt(m.ce, h) + m.ticks < m.expire + m.minExtend || m.expire == TicksAt(m.ce, h) + m.ticks
  }

  /** A report keeps every deadline within its bound, moves none back, and leaves none behind. */
  lemma ReportKeepsBound(ms: seq<Mcu>, k: nat, clock32: Word32, ce: Estimate)
    requires Ticking(ms) && Bounded(ms) && Steady(ms, k, clock32, ce)
    requires Ticking(Noted(ms, k, clock32, ce)) && Ranged(Noted(ms, k, clock32, ce))
    ensures var noted := Noted(ms, k, clock32, ce);
            var after := ExtendAll(noted, Scan(noted));
            && Ticking(after) && Bounded(after) && Ranged(after)
            && (forall i :: 0 <= i < |ms| ==> ms[i].expire <= after[i].expire && after[i].ce == ms[i].ce)
            && forall i :: 0 <= i < |ms| ==> CaughtUp(after[i], Horizon(Scan(noted), i))
  {
    hide ToTime, TicksAt, FromClock32, Scan, Horizon, Extend, InRange, Within, CaughtUp, StatusTime;
    NotedIsBounded(ms, k, clock32, ce);
    var noted := Noted(ms, k, clock32, ce);
    var after := ExtendAll(noted, Scan(noted));
    assert Timely(noted) by { RangedIsTimely(noted); }
    forall i: nat | i < |ms|
      ensures ExtendedWell(noted, after, i)
    {
      OneExtension(noted, i);
    }
    AfterExtensions(noted, after);
    forall i | 0 <= i < |ms|
      ensures ms[i].expire <= after[i].expire && after[i].ce == ms[i].ce
      ensures CaughtUp(after[i], Horizon(Scan(noted), i))
    {
      assert ExtendedWell(noted, after, i);
    }
  }

  lemma RangedIsTimely(ms: seq<Mcu>)
    requires Ticking(ms) && Ranged(ms)
    ensures Timely(ms)
  {
    hide ToTime, TicksAt;
    forall i | 0 <= i < |ms|
      ensures StatusTime(ms[i]) < NEVER
    {
      assert InRange(ms[i], StatusTime(ms[i]));
    }
  }

  ghost predicate ExtendedWell(noted: seq<Mcu>, after: seq<Mcu>, i: nat)
    requires i < |noted| == |after| && Ticking(noted)
  {
    var m, m' := noted[i], after[i];
    && m'.ce == m.ce && m'.lastStatus == m.lastStatus && m'.ticks == m.ticks
    && m.expire <= m'.expire
    && Within(m', Horizon(Scan(noted), i)) && CaughtUp(m', Horizon(Scan(noted), i))
  }

  lemma OneExtension(noted: seq<Mcu>, i: nat)
    requires i < |noted| && Ticking(noted) && Timely(noted) && Bounded(noted) && Ranged(noted)
    ensures ExtendedWell(noted, ExtendAll(noted, Scan(noted)), i)
  {
    hide ToTime, TicksAt, Scan, Horizon, Extend, InRange, Within, StatusTime;
    HorizonIsLeast(noted, i);
    var h := Horizon(Scan(noted), i);
    var j: nat :| Watches(|noted|, i, j) && StatusTime(noted[j]) == h;
    assert InRange(noted[i], StatusTime(noted[j])) && Within(noted[i], StatusTime(noted[j]));
    ExtendMeans(noted[i], h);
  }

  lemma AfterExtensions(noted: seq<Mcu>, after: seq<Mcu>)
    requires |noted| == |after| && Ticking(noted) && Timely(noted) && Ranged(noted)
    requires forall i: nat :: i < |noted| ==> ExtendedWell(noted, after, i)
    ensures Ticking(after) && Bounded(after) && Ranged(after)
  {
    hide ToTime, TicksAt, Scan, Horizon;
    assert Ticking(after) by {
      forall i | 0 <= i < |after|
        ensures 0.0 < after[i].ce.freq
      {
        assert ExtendedWell(noted, after, i);
      }
    }
    forall i: nat, j: nat | i < |after| && j < |after|
      ensures InRange(after[i], StatusTime(after[j]))
      ensures Watches(|after|, i, j) ==> Within(after[i], StatusTime(after[j]))
    {
      assert ExtendedWell(noted, after, i) && ExtendedWell(noted, after, j);
      assert StatusTime(after[j]) == StatusTime(noted[j]);
      assert InRange(noted[i], StatusTime(noted[j]));
      if Watches(|after|, i, j) {
        HorizonIsLeast(noted, i);
        TicksMonotone(after[i].ce, Horizon(Scan(noted), i), StatusTime(noted[j]));
      }
    }
  }

  /** An event of a homing session: controllers are not set up again, and reports that are acted on are steady
    * and in range. */
  ghost predicate InSession(d: Dispatch, e: Event)
    requires Ticking(d.mcus)
  {
    match e
    case Setup(_, _, _, _, _, _) => false
    case Incoming(k, data, ce) =>
      && Possible(d, e)
      && (d.active && d.armed && ReadReport(data, d.mcus[k].oid).Some?
          && ReadReport(data, d.mcus[k].oid).value.canTrigger ==>
          SteadyReport(d.mcus, k, ReadReport(data, d.mcus[k].oid).value.clock, ce))
    case _ => true
  }

  ghost predicate SteadyReport(ms: seq<Mcu>, k: nat, clock32: Word32, ce: Estimate)
    requires Ticking(ms)
  {
    Steady(ms, k, clock32, ce) && Ticking(Noted(ms, k, clock32, ce)) && Ranged(Noted(ms, k, clock32, ce))
  }

  /** What the session keeps, step by step. */
  lemma SessionStep(d: Dispatch, e: Event)
    requires Ticking(d.mcus) && Bounded(d.mcus) && InSession(d, e)
    ensures Possible(d, e)
    ensures var d' := Step(d, e);
            && Ticking(d'.mcus) && Bounded(d'.mcus) && |d'.mcus| == |d.mcus|
            && forall i :: 0 <= i < |d.mcus| ==> d.mcus[i].expire <= d'.mcus[i].expire
  {
    hide ToTime, TicksAt, Scan, Horizon, Extend, Within, ReadReport, IsFrame, Noted, ExtendAll, StatusTime, Ranged, Steady;
    if e.Incoming? && d.active && d.armed && ReadReport(e.data, d.mcus[e.k].oid).Some? {
      var report := ReadReport(e.data, d.mcus[e.k].oid).value;
      if report.canTrigger {
        ReportKeepsBound(d.mcus, e.k, report.clock, e.ce);
      } else {
        TriggersKeepBound(d.mcus, d.reason);
      }
    }
  }

  lemma TriggersKeepBound(ms: seq<Mcu>, reason: Word32)
    requires Ticking(ms) && Bounded(ms)
    ensures Ticking(TriggerAll(ms, reason)) && Bounded(TriggerAll(ms, reason))
    ensures forall i :: 0 <= i < |ms| ==> TriggerAll(ms, reason)[i].expire == ms[i].expire
  {
    hide ToTime, TicksAt;
    var after := TriggerAll(ms, reason);
    assert Ticking(after);
    forall i: nat, j: nat | Watches(|after|, i, j)
      ensures Within(after[i], StatusTime(after[j]))
    {
      assert Within(ms[i], StatusTime(ms[j]));
    }
  }

  ghost predicate Session(d: Dispatch, es: seq<Event>)
    decreases |es|
  {
    es == []
    || (Ticking(d.mcus) && InSession(d, es[0]) && Possible(d, es[0]) && Session(Step(d, es[0]), es[1..]))
  }

  ghost function After(d: Dispatch, es: seq<Event>): Dispatch
    requires Session(d, es)
    decreases |es|
  {
    if es == [] then d else After(Step(d, es[0]), es[1..])
  }

  /** Over a whole session that starts with equal status times, no deadline is ever further than its allowance
    * beyond the last status time of any other controller, and none ever moves back. */
  lemma DeadManSwitch(d: Dispatch, es: seq<Event>)
    requires Ticking(d.mcus) && EqualStart(d.mcus) && Session(d, es)
    ensures var d' := After(d, es);
            && Ticking(d'.mcus) && Bounded(d'.mcus) && |d'.mcus| == |d.mcus|
            && forall i :: 0 <= i < |d.mcus| ==> d.mcus[i].expire <= d'.mcus[i].expire
  {
    StartIsBounded(d.mcus);
    SessionRun(d, es);
  }

  lemma {:induction false} SessionRun(d: Dispatch, es: seq<Event>)
    requires Ticking(d.mcus) && Bounded(d.mcus) && Session(d, es)
    ensures var d' := After(d, es);
            && Ticking(d'.mcus) && Bounded(d'.mcus) && |d'.mcus| == |d.mcus|
            && forall i :: 0 <= i < |d.mcus| ==> d.mcus[i].expire <= d'.mcus[i].expire
    decreases |es|
  {
    hide Bounded, InSession, Step, Possible;
    if es != [] {
      SessionStep(d, es[0]);
      SessionRun(Step(d, es[0]), es[1..]);
    }
  }

  /** The bound in time: a deadline exceeds the time it was granted by less than one and a half ticks of
    * rounding, by at most half a tick once past the conversion point. */
  lemma DeadlineInTime(m: Mcu, time: real)
    requires Within(m, time)
    ensures var exact := Scaled(time - m.ce.convTime, m.ce.freq) + m.ce.convClock as real + m.ticks as real;
            && m.expire as real < exact + 1.5
            && (m.ce.convClock as real + m.ticks as real <= exact + 0.5 ==> m.expire as real <= exact + 0.5)
  {
    hide TicksAt, Scaled;
    TicksNear(m.ce, time);
  }

  /** Without the session's assumptions a report can move a deadline back: it does so exactly when the new one, the
    * clock of the horizon and the allowance as a 64-bit word, is earlier and the wrapped difference reaches
    * min_extend_ticks. */
  lemma MovesBack(m: Mcu, h: real)
    ensures var e := U64(FromTime(m.ce, h) + m.ticks);
            Extend(m, h).expire < m.expire <==> e < m.expire && TWO64 - (m.expire - e) >= m.minExtend
  {
    hide FromTime, TimeoutMessage;
    var e := U64(FromTime(m.ce, h) + m.ticks);
    if e < m.expire {
      WrapTurn(e - m.expire);
    }
  }

  lemma WrapTurn(x: int)
    ensures -TWO64 <= x < 0 ==> U64(x) == x + TWO64
  {
  }

  /** The same for the deadline of any controller when a report of controller k is handled: what counts is the horizon
    * that the report leaves. */
  lemma ReportMovesBack(d: Dispatch, k: nat, report: Report, ce: Estimate, i: nat)
    requires k < |d.mcus| && i < |d.mcus| && d.armed && report.canTrigger
    requires Ticking(Noted(d.mcus, k, report.clock, ce))
    ensures var noted := Noted(d.mcus, k, report.clock, ce);
            var e := U64(FromTime(noted[i].ce, Horizon(Scan(noted), i)) + noted[i].ticks);
            Handle(d, k, report, ce).mcus[i].expire < d.mcus[i].expire
            <==> e < d.mcus[i].expire && TWO64 - (d.mcus[i].expire - e) >= d.mcus[i].minExtend
  {
    hide FromTime, Scan, Horizon, Extend, FromClock32;
    var noted := Noted(d.mcus, k, report.clock, ce);
    MovesBack(noted[i], Horizon(Scan(noted), i));
  }

  // A report that moves a deadline back.

  /** A thousand ticks a second, clock 0 at time 0. */
  const EARLY := Estimate(0, 0, 0.0, 1000.0)

  /** The same rate, after a correction by one second: clock 10000 at time 9. */
  const CORRECTED := Estimate(10000, 10000, 9.0, 1000.0)

  /** A controller at clock 10000, with its first deadline. */
  function Starting(oid: Word32): Mcu {
    Mcu(oid, 1, 2, EARLY, 10000, 10250, 250, 75, [])
  }

  /** Both start at the same time and are watched by each other. */
  const PAIR := [Starting(1), Starting(2)]

  /** Reports of the second controller at clock 10100. */
  function LateReport(): seq<Word32> {
    [3, 2, 1, 0, 10100]
  }

  lemma PairStarts()
    ensures Ticking(PAIR) && EqualStart(PAIR)
  {
    hide ToTime;
    assert FreshDeadline(PAIR[0]) && FreshDeadline(PAIR[1]);
    assert StatusTime(PAIR[0]) == StatusTime(PAIR[1]) == ToTime(EARLY, 10000);
  }

  lemma CorrectedTimes()
    ensures FromClock32(CORRECTED, 10100) == 10100
    ensures ToTime(CORRECTED, 10100) == 9.1 && ToTime(EARLY, 10000) == 10.0
    ensures TicksAt(EARLY, 9.1) == 9100
  {
    assert Scaled(9.1, 1000.0) == 9100.0;
    assert Cut(9100.5) == 9100;
  }

  /** Two controllers that start together, as a session does, and one report of the second with an estimate that was
    * corrected by a second: the deadline of the first moves back from 10250 to 9350. */
  lemma DeadlineMovesBack(seqno: nat)
    ensures var d := Dispatch(PAIR, true, true, 1);
            var e := Incoming(1, Framing.Block(seqno, EncodeAll(LateReport())), CORRECTED);
            && |EncodeAll(LateReport())| <= MESSAGE_PAYLOAD_MAX
            && Ticking(d.mcus) && EqualStart(d.mcus) && Possible(d, e)
            && d.mcus[0].expire == 10250 && Step(d, e).mcus[0].expire == 9350
  {
    hide EncodeAll, Framing.Block, ToTime, TicksAt, FromClock32, ReadReport, IsFrame, EqualStart;
    EncodeLength(LateReport());
    PairStarts();
    CorrectedTimes();
    ReportArrives(seqno, LateReport(), 2);
    var ms := Noted(PAIR, 1, 10100, CORRECTED);
    assert ms[0] == PAIR[0] && ms[1].ce == CORRECTED && ms[1].lastStatus == 10100;
    PairScan(ms);
    WrapSmall(9100);
    WrapSmall(9350);
    WrapTurn(9350 - 10250);
  }

  lemma PairScan(ms: seq<Mcu>)
    requires |ms| == 2 && Ticking(ms) && StatusTime(ms[0]) == 10.0 && StatusTime(ms[1]) == 9.1
    ensures Scan(ms) == Least(9.1, 10.0, 1) && Horizon(Scan(ms), 0) == 9.1
  {
    hide ToTime, StatusTime;
    assert ms[..1][..0] == [] && ms[..1][0] == ms[0];
    assert Scan(ms[..1][..0]) == Least(NEVER, NEVER, -1);
    assert Scan(ms[..1]) == Consider(Least(NEVER, NEVER, -1), 10.0, 0);
  }
}
