/** Whole trigger sessions: controllers are set up, the dispatcher is started with a reason, reports come in until one of
  * them fails, and it is stopped. */
module TriggerSessions {
  import opened Wire
  import opened Clocks
  import opened TriggerDispatch
  import opened DeadlineMessages

  // Setting up.

  /** What a controller is set up with: its first deadline is the allowance after its first status. */
  datatype Settings = Settings(lastStatus: Word64, ticks: Word64, minExtend: Word64, ce: Estimate)

  predicate Proper(s: Settings) {
    && 0.0 < s.ce.freq && s.lastStatus + s.ticks < TWO64
    && -0x8000_0000_0000_0000 <= s.lastStatus - s.ce.convClock < 0x8000_0000_0000_0000
  }

  predicate AllProper(ss: seq<Settings>) {
    forall i :: 0 <= i < |ss| ==> Proper(ss[i])
  }

  /** One call of trdispatch_mcu_setup for each controller, in order. */
  function SetUps(ss: seq<Settings>): (es: seq<Event>)
    requires AllProper(ss)
  {
    if ss == [] then []
    else
      var n := |ss| - 1;
      var s := ss[n];
      SetUps(ss[..n]) + [Setup(n, s.lastStatus, s.lastStatus + s.ticks, s.ticks, s.minExtend, s.ce)]
  }

  ghost predicate Runs(d: Dispatch, es: seq<Event>)
    decreases |es|, 0
  {
    es == [] || (Runs(d, es[..|es| - 1]) && Possible(After(d, es[..|es| - 1]), es[|es| - 1]))
  }

  ghost function After(d: Dispatch, es: seq<Event>): Dispatch
    requires Runs(d, es)
    decreases |es|, 1
  {
    if es == [] then d else Step(After(d, es[..|es| - 1]), es[|es| - 1])
  }

  /** The controller has these settings, and was sent nothing. */
  predicate HasSettings(m0: Mcu, m: Mcu, s: Settings) {
    Proper(s)
    && m == m0.(lastStatus := s.lastStatus, expire := s.lastStatus + s.ticks, ticks := s.ticks, minExtend := s.minExtend,
             ce := s.ce)
  }

  lemma {:induction false} SetUpsApply(d: Dispatch, ss: seq<Settings>)
    requires AllProper(ss) && |ss| <= |d.mcus|
    ensures Runs(d, SetUps(ss))
    ensures var r := After(d, SetUps(ss));
            && |r.mcus| == |d.mcus| && r.(mcus := []) == d.(mcus := [])
            && (forall i :: 0 <= i < |ss| ==> HasSettings(d.mcus[i], r.mcus[i], ss[i]))
            && forall i :: |ss| <= i < |d.mcus| ==> r.mcus[i] == d.mcus[i]
  {
    hide ReadReport, IsFrame, Handle;
    if ss != [] {
      var n, es := |ss| - 1, SetUps(ss);
      assert AllProper(ss[..n]);
      SetUpsApply(d, ss[..n]);
      assert es[..|es| - 1] == SetUps(ss[..n]);
      assert Proper(ss[n]);
    }
  }

  /** Once every controller is set up with a status of the same time, a session may start: the deadlines are within their
    * bounds, and from then on the dead man's switch holds. */
  lemma SetUpStarts(d: Dispatch, ss: seq<Settings>)
    requires AllProper(ss) && |ss| == |d.mcus|
    requires forall i, j :: 0 <= i < |ss| && 0 <= j < |ss| ==>
               ToTime(ss[i].ce, ss[i].lastStatus) == ToTime(ss[j].ce, ss[j].lastStatus)
    ensures Runs(d, SetUps(ss))
    ensures var ms := After(d, SetUps(ss)).mcus;
            && Ticking(ms) && EqualStart(ms)
            && |ms| == |d.mcus| && forall i :: 0 <= i < |ms| ==> ms[i].sent == d.mcus[i].sent
  {
    hide ToTime;
    SetUpsApply(d, ss);
    var ms := After(d, SetUps(ss)).mcus;
    forall i | 0 <= i < |ms|
      ensures 0.0 < ms[i].ce.freq && FreshDeadline(ms[i]) && ms[i].sent == d.mcus[i].sent
    {
      assert Proper(ss[i]) && HasSettings(d.mcus[i], ms[i], ss[i]);
    }
    forall i, j | 0 <= i < |ms| && 0 <= j < |ms|
      ensures StatusTime(ms[i]) == StatusTime(ms[j])
    {
      assert HasSettings(d.mcus[i], ms[i], ss[i]) && HasSettings(d.mcus[j], ms[j], ss[j]);
    }
  }

  // Starting and stopping.

  /** Reports in a session that is not stopped, none of which is a failure. */
  ghost predicate Unbroken(d: Dispatch, es: seq<Event>)
    decreases |es|
  {
    es == [] || (Possible(d, es[0]) && !es[0].Setup? && !es[0].Stop? && !Fails(d, es[0])
                 && Unbroken(Step(d, es[0]), es[1..]))
  }

  lemma {:induction false} UnbrokenStays(d: Dispatch, es: seq<Event>)
    requires d.active && d.armed && Unbroken(d, es)
    ensures Goes(d, es) && var r := Gone(d, es); r.active && r.armed && r.reason == d.reason && |r.mcus| == |d.mcus|
    ensures forall i :: 0 <= i < |d.mcus| ==> SameTags(d.mcus[i], Gone(d, es).mcus[i])
    decreases |es|
  {
    hide ReadReport, IsFrame, Scan, Horizon, FromTime, FromClock32, ToTime;
    if es != [] {
      var next := Step(d, es[0]);
      StepStays(d, es[0]);
      UnbrokenStays(next, es[1..]);
      forall i | 0 <= i < |d.mcus|
        ensures SameTags(d.mcus[i], Gone(d, es).mcus[i])
      {
        assert SameTags(d.mcus[i], next.mcus[i]) && SameTags(next.mcus[i], Gone(next, es[1..]).mcus[i]);
      }
    }
  }

  predicate SameTags(m0: Mcu, m: Mcu) {
    m.oid == m0.oid && m.triggerTag == m0.triggerTag && m.timeoutTag == m0.timeoutTag
  }

  lemma StepStays(d: Dispatch, e: Event)
    requires d.active && d.armed && Possible(d, e) && !e.Setup? && !e.Stop? && !Fails(d, e)
    ensures var r := Step(d, e);
            && r.active && r.armed && r.reason == d.reason && |r.mcus| == |d.mcus|
            && forall i :: 0 <= i < |d.mcus| ==> SameTags(d.mcus[i], r.mcus[i])
  {
    hide ReadReport, IsFrame, Scan, Horizon, FromTime, FromClock32, ToTime;
  }

  lemma PassesOn(s: Dispatch, es: seq<Event>, e: Event)
    requires s.active && s.armed && Unbroken(s, es)
    requires Goes(s, es) && Possible(Gone(s, es), e) && Fails(Gone(s, es), e)
    ensures var before := Gone(s, es); var after := Step(before, e);
            && |before.mcus| == |after.mcus| == |s.mcus|
            && forall i :: 0 <= i < |s.mcus| ==>
                 after.mcus[i].sent == before.mcus[i].sent + [Sent([s.mcus[i].triggerTag, s.mcus[i].oid, s.reason], 0)]
  {
    hide Fails, Goes, Gone, Unbroken, Step, Possible;
    UnbrokenStays(s, es);
    var before := Gone(s, es);
    FailsIsReport(before, e);
    forall i | 0 <= i < |s.mcus|
      ensures i < |Step(before, e).mcus|
              && Step(before, e).mcus[i].sent
                 == before.mcus[i].sent + [Sent([s.mcus[i].triggerTag, s.mcus[i].oid, s.reason], 0)]
    {
      assert SameTags(s.mcus[i], before.mcus[i]);
      StepAdds(before, e, i);
    }
    SameNumber(before, e);
  }

  lemma SameNumber(d: Dispatch, e: Event)
    requires Possible(d, e)
    ensures |Step(d, e).mcus| == |d.mcus|
  {
    hide ReadReport, IsFrame, Scan;
  }

  /** A session from its start: whatever is reported in between, later starts included, the first failure passes the
    * trigger on to every controller, with the reason that the session was started with. */
  lemma FailurePassesOn(d: Dispatch, reason: Word32, es: seq<Event>, e: Event)
    requires !d.active && d.mcus != [] && Unbroken(Step(d, Start(reason)), es)
    requires var s := Step(d, Start(reason)); Goes(s, es) && Possible(Gone(s, es), e) && Fails(Gone(s, es), e)
    ensures var before := Gone(Step(d, Start(reason)), es); var after := Step(before, e);
            && |before.mcus| == |after.mcus| == |d.mcus|
            && forall i :: 0 <= i < |d.mcus| ==>
                 after.mcus[i].sent == before.mcus[i].sent + [Sent([d.mcus[i].triggerTag, d.mcus[i].oid, reason], 0)]
  {
    hide Fails, Goes, Gone, Unbroken;
    PassesOn(Step(d, Start(reason)), es, e);
  }

  lemma FailsIsReport(d: Dispatch, e: Event)
    requires Possible(d, e) && Fails(d, e)
    ensures e.Incoming? && !e.Setup?
  {
  }

  lemma {:induction false} InactiveIsSilent(d: Dispatch, es: seq<Event>)
    requires !d.active && Undisturbed(d, es)
    ensures SameSent(Run(d, es), d)
    decreases |es|
  {
    hide ReadReport, IsFrame;
    if es != [] {
      InactiveIsSilent(Step(d, es[0]), es[1..]);
    }
  }

  /** Once it is stopped, a dispatcher sends nothing, whatever arrives, until the next start. */
  lemma StoppedIsSilent(d: Dispatch, es: seq<Event>)
    requires Undisturbed(Step(d, Event.Stop), es)
    ensures SameSent(Run(Step(d, Event.Stop), es), d)
  {
    hide Run, Undisturbed;
    InactiveIsSilent(Step(d, Event.Stop), es);
  }
}
