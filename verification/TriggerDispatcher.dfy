/** The dispatcher as it runs: objects whose fields the report handler updates under the lock. */
module TriggerDispatchers {
  import opened Options
  import opened Wire
  import opened Clocks
  import opened VlqMessages
  import opened TriggerDispatch

  class DispatchMcu {
    const oid: Word32
    const timeoutTag: Word32
    const triggerTag: Word32
    var ce: Estimate
    var lastStatus: Word64
    var expire: Word64
    var ticks: Word64
    var minExtend: Word64
    var sent: seq<Sent>

    constructor (oid: Word32, timeoutTag: Word32, triggerTag: Word32)
      ensures Value() == Mcu(oid, timeoutTag, triggerTag, Estimate(0, 0, 0.0, 1.0), 0, 0, 0, 0, [])
    {
      this.oid, this.timeoutTag, this.triggerTag := oid, timeoutTag, triggerTag;
      ce, lastStatus, expire, ticks, minExtend, sent := Estimate(0, 0, 0.0, 1.0), 0, 0, 0, 0, [];
    }

    ghost function Value(): Mcu
      reads this
    {
      Mcu(oid, timeoutTag, triggerTag, ce, lastStatus, expire, ticks, minExtend, sent)
    }

    /** send_trsync_trigger. */
    method SendTrigger(reason: Word32)
      modifies this
      ensures Value() == old(Value().(sent := sent + [TriggerMessage(Value(), reason)]))
    {
      sent := sent + [Sent([triggerTag, oid, reason], 0)];
    }

    /** send_trsync_set_timeout. */
    method SendTimeout()
      modifies this
      ensures Value() == old(Value().(sent := sent + [TimeoutMessage(Value(), expire)]))
    {
      sent := sent + [Sent([timeoutTag, oid, U32(expire)], expire)];
    }

    /** trdispatch_mcu_setup. */
    method Setup(lastStatus: Word64, expire: Word64, ticks: Word64, minExtend: Word64, ce: Estimate)
      modifies this
      ensures Value() == old(Value()).(lastStatus := lastStatus, expire := expire, ticks := ticks,
                                       minExtend := minExtend, ce := ce)
    {
      this.lastStatus, this.expire, this.ticks, this.minExtend := lastStatus, expire, ticks, minExtend;
      this.ce := ce;
    }

    /** The body of the second loop of the report handler. */
    method ExtendTo(statusTime: real)
      modifies this
      ensures Value() == old(Extend(Value(), statusTime))
    {
      hide FromTime;
      var next := U64(FromTime(ce, statusTime) + ticks);
      if U64(next - expire) >= minExtend {
        expire := next;
        SendTimeout();
      }
    }
  }

  ghost predicate Distinct(ms: seq<DispatchMcu>) {
    forall i, j :: 0 <= i < j < |ms| ==> ms[i] != ms[j]
  }

  ghost function Values(ms: seq<DispatchMcu>): (r: seq<Mcu>)
    reads ms
    ensures |r| == |ms|
  {
    seq(|ms|, i requires 0 <= i < |ms| reads ms => ms[i].Value())
  }

  class Dispatcher {
    var mcus: seq<DispatchMcu>
    var active: bool
    var armed: bool
    var reason: Word32

    ghost predicate Valid()
      reads this
    {
      Distinct(mcus)
    }

    ghost function State(): Dispatch
      reads this, mcus
    {
      Dispatch(Values(mcus), active, armed, reason)
    }

    /** trdispatch_alloc. */
    constructor ()
      ensures Valid() && State() == Dispatch([], false, false, 0)
    {
      mcus, active, armed, reason := [], false, false, 0;
      new;
      assert Values(mcus) == [];
    }

    /** The list_add_tail of trdispatch_mcu_alloc. */
    method Add(tdm: DispatchMcu)
      requires Valid() && tdm !in mcus
      modifies this`mcus
      ensures Valid() && mcus == old(mcus) + [tdm]
    {
      mcus := mcus + [tdm];
    }

    /** trdispatch_start. */
    method Start(dispatchReason: Word32)
      requires Valid()
      modifies this
      ensures Valid() && mcus == old(mcus) && State() == old(Step(State(), Event.Start(dispatchReason)))
    {
      if active || mcus == [] {
        return;
      }
      reason := dispatchReason;
      active, armed := true, true;
    }

    /** trdispatch_stop. */
    method Stop()
      requires Valid()
      modifies this
      ensures Valid() && mcus == old(mcus) && State() == old(Step(State(), Event.Stop))
    {
      if !active {
        return;
      }
      active := false;
    }

    /** The first loop of the report handler: the least and the second least status time. */
    method FindLeast() returns (min: real, next: real, minTdm: DispatchMcu?, ghost who: int)
      requires Valid() && Ticking(Values(mcus))
      ensures Least(min, next, who) == Scan(Values(mcus))
      ensures 0 <= who < |mcus| ==> minTdm == mcus[who]
      ensures who < 0 ==> minTdm == null
      ensures who < |mcus|
    {
      hide ToTime;
      ghost var ms := Values(mcus);
      min, next, minTdm, who := NEVER, NEVER, null, -1;
      for i := 0 to |mcus|
        invariant Least(min, next, who) == Scan(ms[..i])
        invariant who < i && (0 <= who ==> minTdm == mcus[who]) && (who < 0 ==> minTdm == null)
      {
        assert ms[..i + 1][..i] == ms[..i] && ms[..i + 1][i] == ms[i] == mcus[i].Value();
        var statusTime := ToTime(mcus[i].ce, mcus[i].lastStatus);
        assert Scan(ms[..i + 1]) == Consider(Scan(ms[..i]), statusTime, i);
        if statusTime < next {
          next := statusTime;
          if statusTime < min {
            next := min;
            min := statusTime;
            minTdm := mcus[i];
            who := i;
          }
        }
      }
      assert ms[..|mcus|] == ms;
    }

    method TriggerEach()
      requires Valid()
      modifies mcus
      ensures Values(mcus) == old(TriggerAll(Values(mcus), reason))
    {
      ghost var ms := Values(mcus);
      for i := 0 to |mcus|
        invariant forall j :: 0 <= j < i ==> mcus[j].Value() == ms[j].(sent := ms[j].sent + [TriggerMessage(ms[j], reason)])
        invariant forall j :: i <= j < |mcus| ==> mcus[j].Value() == ms[j]
      {
        mcus[i].SendTrigger(reason);
      }
      assert Values(mcus) == TriggerAll(ms, reason);
    }

    method ExtendEach(min: real, next: real, minTdm: DispatchMcu?, ghost who: int)
      requires Valid()
      requires 0 <= who < |mcus| ==> minTdm == mcus[who]
      requires who < 0 ==> minTdm == null
      requires who < |mcus|
      modifies mcus
      ensures Values(mcus) == old(ExtendAll(Values(mcus), Least(min, next, who)))
    {
      hide Extend;
      ghost var ms, l := Values(mcus), Least(min, next, who);
      var nextMin := if next == NEVER then min else next;
      for i := 0 to |mcus|
        invariant forall j :: 0 <= j < i ==> mcus[j].Value() == Extend(ms[j], Horizon(l, j))
        invariant forall j :: i <= j < |mcus| ==> mcus[j].Value() == ms[j]
      {
        var statusTime := if mcus[i] == minTdm then nextMin else min;
        assert statusTime == Horizon(l, i);
        mcus[i].ExtendTo(statusTime);
      }
      assert Values(mcus) == ExtendAll(ms, l);
    }

    method NoteStatus(k: nat, clock: Word32, estimate: Estimate)
      requires Valid() && k < |mcus|
      modifies mcus
      ensures Values(mcus) == old(Noted(Values(mcus), k, clock, estimate))
    {
      ghost var ms := Values(mcus);
      var tdm := mcus[k];
      tdm.ce := estimate;
      tdm.lastStatus := FromClock32(tdm.ce, clock);
      assert forall i :: 0 <= i < |mcus| && i != k ==> mcus[i].Value() == ms[i];
      assert Values(mcus) == Noted(ms, k, clock, estimate);
    }

    /** The rest of handle_trsync_state, once its message is read. */
    method HandleReport(k: nat, canTrigger: Word32, clock: Word32, estimate: Estimate)
      requires Valid() && k < |mcus|
      requires Ticking(Noted(Values(mcus), k, clock, estimate))
      modifies this`armed, mcus
      ensures State() == old(Handle(State(), k, Report(canTrigger != 0, clock), estimate))
    {
      hide Scan, Extend, Noted, TriggerAll, ExtendAll, Values;
      if !armed {
        return;
      }
      if canTrigger == 0 {
        armed := false;
        TriggerEach();
        return;
      }
      NoteStatus(k, clock, estimate);
      var min, next, minTdm, who := FindLeast();
      ExtendEach(min, next, minTdm, who);
    }

    /** handle_trsync_state, called for a message of controller k while its fast reader is registered; the clock
      * estimate is the one its serial queue holds. */
    method HandleTrsyncState(k: nat, data: seq<Byte>, estimate: Estimate)
      requires Valid() && active && k < |mcus| && IsFrame(data)
      requires Ticking(Values(mcus)) && 0.0 < estimate.freq
      modifies this`armed, mcus
      ensures State() == old(Step(State(), Incoming(k, data, estimate)))
    {
      hide Decoded, Handle;
      ghost var d := State();
      assert d.mcus[k] == mcus[k].Value();
      var fields := new Word32[5](_ => 0);
      var ok := Decode(fields, data);
      ghost var read := ReadReport(data, mcus[k].oid);
      if !ok || fields[1] != mcus[k].oid {
        assert read == None;
        return;
      }
      assert read == Some(Report(fields[2] != 0, fields[4]));
      assert Ticking(Noted(Values(mcus), k, fields[4], estimate)) && State() == d;
      HandleReport(k, fields[2], fields[4], estimate);
    }
  }
}
