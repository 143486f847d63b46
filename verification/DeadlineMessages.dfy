/** What the controllers of a trigger session read: the words of the messages queued for them. */
module DeadlineMessages {
  import opened Wire
  import opened Clocks
  import opened TriggerDispatch

  /** What a step adds to the queue of one controller, word by word.  The failure that is acted on adds the trigger:
    * its tag, the controller's object and the reason of the start, to be sent at once.  Anything else adds nothing and
    * leaves the deadline alone, or adds the deadline that is held from then on: its tag, the object and the low half of
    * that deadline, to be sent by then. */
  ghost predicate Adds(d: Dispatch, e: Event, m: Mcu, m': Mcu)
    requires Possible(d, e)
  {
    && m'.oid == m.oid && m'.timeoutTag == m.timeoutTag && m'.triggerTag == m.triggerTag
    && if d.armed && Fails(d, e) then
         m'.expire == m.expire && m'.sent == m.sent + [Sent([m.triggerTag, m.oid, d.reason], 0)]
       else
         || (m'.expire == m.expire && m'.sent == m.sent)
         || m'.sent == m.sent + [Sent([m.timeoutTag, m.oid, m'.expire % 0x1_0000_0000], m'.expire)]
  }

  lemma StepAdds(d: Dispatch, e: Event, i: nat)
    requires Possible(d, e) && !e.Setup? && i < |d.mcus|
    ensures |Step(d, e).mcus| == |d.mcus| && Adds(d, e, d.mcus[i], Step(d, e).mcus[i])
  {
    hide ReadReport, IsFrame, Scan, Horizon, FromTime, FromClock32;
  }

  /** A message that tells the controller the deadline of its object. */
  predicate SetsTimeout(s: Sent, tag: Word32, oid: Word32) {
    |s.words| == 3 && s.words[0] == tag && s.words[1] == oid
  }

  /** The deadline the controller goes by after these messages. */
  function LastTold(sent: seq<Sent>, tag: Word32, oid: Word32, from: Word32): Word32 {
    if sent == [] then from
    else if SetsTimeout(sent[|sent| - 1], tag, oid) then sent[|sent| - 1].words[2]
    else LastTold(sent[..|sent| - 1], tag, oid, from)
  }

  /** A run in which no controller is set up anew. */
  ghost predicate Goes(d: Dispatch, es: seq<Event>)
    decreases |es|
  {
    es == [] || (Possible(d, es[0]) && !es[0].Setup? && Goes(Step(d, es[0]), es[1..]))
  }

  ghost function Gone(d: Dispatch, es: seq<Event>): Dispatch
    requires Goes(d, es)
    decreases |es|
  {
    if es == [] then d else Gone(Step(d, es[0]), es[1..])
  }

  /** What was queued for a controller since m0 tells it the deadline that the host now holds for it; with nothing
    * queued, the deadline of m0 still stands. */
  predicate Told(m0: Mcu, m: Mcu) {
    && m.oid == m0.oid && m.timeoutTag == m0.timeoutTag && m.triggerTag == m0.triggerTag
    && |m0.sent| <= |m.sent| && m.sent[..|m0.sent|] == m0.sent
    && LastTold(m.sent[|m0.sent|..], m.timeoutTag, m.oid, m0.expire % 0x1_0000_0000) == m.expire % 0x1_0000_0000
  }

  lemma StepTells(d: Dispatch, e: Event, m0: Mcu, m: Mcu, m': Mcu)
    requires Possible(d, e) && Adds(d, e, m, m') && m.timeoutTag != m.triggerTag && Told(m0, m)
    ensures Told(m0, m')
  {
    hide Fails, Possible;
    var n := |m0.sent|;
    if m'.sent != m.sent {
      assert |m'.sent| == |m.sent| + 1;
      assert m'.sent[n..][..|m'.sent| - n - 1] == m.sent[n..];
    }
  }

  lemma {:induction false} RunTells(d: Dispatch, es: seq<Event>, i: nat, m0: Mcu)
    requires Goes(d, es) && i < |d.mcus| && m0.timeoutTag != m0.triggerTag && Told(m0, d.mcus[i])
    ensures i < |Gone(d, es).mcus| && Told(m0, Gone(d, es).mcus[i])
    decreases |es|
  {
    hide Step, Possible, Adds, LastTold;
    if es != [] {
      StepAdds(d, es[0], i);
      StepTells(d, es[0], m0, d.mcus[i], Step(d, es[0]).mcus[i]);
      RunTells(Step(d, es[0]), es[1..], i, m0);
    }
  }

  /** Over every run, every controller is told its deadline: the last one it was told is the low half of the deadline
    * that the host holds for it at that moment. */
  lemma DeadlinesAreTold(d: Dispatch, es: seq<Event>, i: nat)
    requires Goes(d, es) && i < |d.mcus| && d.mcus[i].timeoutTag != d.mcus[i].triggerTag
    ensures i < |Gone(d, es).mcus| && Told(d.mcus[i], Gone(d, es).mcus[i])
  {
    RunTells(d, es, i, d.mcus[i]);
  }

  /** What a controller takes those 32 bits for: the clock that agrees with them and is within half a turn of its own. */
  predicate TakenFor(word: Word32, now: Word64, deadline: Word64) {
    && deadline % 0x1_0000_0000 == word
    && -0x8000_0000 <= deadline - now < 0x8000_0000
  }

  /** In a homing session a controller never goes on longer than its allowance after the last report of any controller
    * it watches: this holds of the deadline that it reads, as long as that is within half a turn of its clock. */
  lemma ReadDeadlineIsBounded(d: Dispatch, es: seq<Event>, i: nat, j: nat, now: Word64, deadline: Word64)
    requires Ticking(d.mcus) && EqualStart(d.mcus) && Session(d, es)
    requires Watches(|d.mcus|, i, j) && d.mcus[i].timeoutTag != d.mcus[i].triggerTag
    requires var m, m' := d.mcus[i], After(d, es).mcus;
             && i < |m'| && |m.sent| <= |m'[i].sent|
             && TakenFor(LastTold(m'[i].sent[|m.sent|..], m.timeoutTag, m.oid, m.expire % 0x1_0000_0000), now, deadline)
             && -0x8000_0000 <= m'[i].expire - now < 0x8000_0000
    ensures var ms := After(d, es).mcus;
            && deadline == ms[i].expire
            && |ms| == |d.mcus| && Ticking(ms)
            && deadline <= TicksAt(ms[i].ce, StatusTime(ms[j])) + ms[i].ticks
  {
    hide LastTold, TicksAt, ToTime, StatusTime, Within, Told, TakenFor, EqualStart, Session, After, Goes, Gone;
    DeadManSwitch(d, es);
    SessionGoes(d, es);
    DeadlinesAreTold(d, es, i);
    var m, ms := d.mcus[i], After(d, es).mcus;
    ToldIsHeld(m, ms[i], now, deadline);
    BoundHolds(ms, i, j);
  }

  lemma ToldIsHeld(m0: Mcu, m: Mcu, now: Word64, deadline: Word64)
    requires Told(m0, m) && -0x8000_0000 <= m.expire - now < 0x8000_0000
    requires TakenFor(LastTold(m.sent[|m0.sent|..], m0.timeoutTag, m0.oid, m0.expire % 0x1_0000_0000), now, deadline)
    ensures deadline == m.expire
  {
    hide LastTold;
  }

  lemma BoundHolds(ms: seq<Mcu>, i: nat, j: nat)
    requires Ticking(ms) && Bounded(ms) && Watches(|ms|, i, j)
    ensures ms[i].expire <= TicksAt(ms[i].ce, StatusTime(ms[j])) + ms[i].ticks
  {
    hide TicksAt, ToTime, StatusTime;
    assert Within(ms[i], StatusTime(ms[j]));
  }

  lemma {:induction false} SessionGoes(d: Dispatch, es: seq<Event>)
    requires Session(d, es)
    ensures Goes(d, es) && Gone(d, es) == After(d, es)
    decreases |es|
  {
    if es != [] {
      SessionGoes(Step(d, es[0]), es[1..]);
    }
  }
}
