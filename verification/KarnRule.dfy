/** Karn's rule, section 3 of RFC 6298: a round trip is measured only on a block that was sent exactly once. */
module KarnRule {
  import opened Wire
  import opened SendWindow

  /** How often a block went out, and the time stamped on it when it was built. */
  datatype Tx = Tx(count: nat, stamp: real)

  /** What was sent so far, by sequence number. */
  type Trace = map<nat, Tx>

  function TraceBuilt(t: Trace, l: Link, stamp: real): Trace {
    t[l.sendSeq := Tx(1, stamp)]
  }

  function TraceRetransmitted(t: Trace, l: Link): Trace {
    map s | s in t :: if l.receiveSeq <= s < l.sendSeq then Tx(t[s].count + 1, t[s].stamp) else t[s]
  }

  predicate SentOnce(t: Trace, s: int, stamp: real) {
    0 <= s && s in t && t[s] == Tx(1, stamp)
  }

  predicate Traced(t: Trace, l: Link, k: nat)
    requires k < |l.sent|
  {
    var s := l.receiveSeq + k;
    s in t && t[s].stamp == l.sent[k].receiveTime && (l.retransmitSeq <= s ==> t[s].count == 1)
  }

  /** What ties the window's fields to the trace. */
  ghost predicate Honest(l: Link, t: Trace) {
    && (forall k: nat :: k < |l.sent| ==> Traced(t, l, k))
    && (forall s :: s in t ==> s < l.sendSeq)
    && (l.rttSampleSeq != 0 ==> l.retransmitSeq <= l.rttSampleSeq)
    && (l.lastReceiveSentTime != 0.0 && l.receiveSeq > l.retransmitSeq ==>
        SentOnce(t, l.receiveSeq - 1, l.lastReceiveSentTime))
  }

  lemma FreshIsHonest()
    ensures Honest(FRESH, map[])
  {
  }

  lemma BuiltIsHonest(l: Link, t: Trace, line: Line, payload: seq<Byte>, pending: nat, eventtime: real)
    requires Sound(l) && Honest(l, t) && |payload| <= MESSAGE_PAYLOAD_MAX
    ensures var b := Built(l, line, payload, pending, eventtime);
            Honest(b, TraceBuilt(t, l, b.sent[|l.sent|].receiveTime))
  {
    hide Numbered, Bytes, BitTime;
    var b := Built(l, line, payload, pending, eventtime);
    var t' := TraceBuilt(t, l, b.sent[|l.sent|].receiveTime);
    forall k: nat | k < |b.sent|
      ensures Traced(t', b, k)
    {
      if k < |l.sent| {
        assert Traced(t, l, k);
      }
    }
  }

  lemma RetransmittedIsHonest(l: Link, t: Trace, line: Line, eventtime: real)
    requires Sound(l) && Honest(l, t)
    ensures Honest(Retransmitted(l, line, eventtime), TraceRetransmitted(t, l))
  {
    hide Numbered, Bytes, BitTime, Burst;
    var r := Retransmitted(l, line, eventtime);
    forall k: nat | k < |r.sent|
      ensures Traced(TraceRetransmitted(t, l), r, k)
    {
      assert Traced(t, l, k);
    }
  }

  lemma ReleaseIsHonest(l: Link, t: Trace, rseq: nat)
    requires Sound(l) && Honest(l, t) && l.receiveSeq < rseq
    ensures Honest(Release(l, rseq), t)
    ensures Samples(Release(l, rseq)) ==> SentOnce(t, rseq - 1, Release(l, rseq).lastReceiveSentTime)
  {
    hide Numbered, Bytes;
    var r := Release(l, rseq);
    if Releases(l, rseq) {
      var k := rseq - l.receiveSeq;
      assert Traced(t, l, k - 1);
      forall i: nat | i < |r.sent|
        ensures Traced(t, r, i)
      {
        assert Traced(t, l, k + i);
      }
    }
  }

  lemma AcknowledgedIsHonest(l: Link, t: Trace, line: Line, eventtime: real, rseq: nat, len: nat)
    requires Sound(l) && Honest(l, t) && l.receiveSeq <= rseq
    ensures Honest(Acknowledged(l, line, eventtime, rseq, len), t)
  {
    hide Sound, Release, BitTime, Clamp;
    if rseq != l.receiveSeq {
      ReleaseIsHonest(l, t, rseq);
      var r := Release(l, rseq);
      var s := if Samples(r) then Sampled(r, eventtime - r.lastReceiveSentTime) else r;
      SameTrace(r, s, t);
      SameTrace(s, Rearmed(s, line, eventtime), t);
    }
    SameTrace(Advanced(l, line, eventtime, rseq), Acknowledged(l, line, eventtime, rseq, len), t);
  }

  lemma SameTrace(l: Link, m: Link, t: Trace)
    requires Honest(l, t)
    requires m.sent == l.sent && m.sendSeq == l.sendSeq && m.receiveSeq == l.receiveSeq
    requires m.retransmitSeq == l.retransmitSeq && m.lastReceiveSentTime == l.lastReceiveSentTime
    requires m.rttSampleSeq == l.rttSampleSeq || m.rttSampleSeq == 0
    ensures Honest(m, t)
  {
    forall k: nat | k < |m.sent|
      ensures Traced(t, m, k)
    {
      assert Traced(t, l, k);
    }
  }

  /** The time put on a received data message: that of the block it acknowledges, or 0 when that block may have
    * been retransmitted. */
  function SentTime(a: Link): real {
    if a.receiveSeq > a.retransmitSeq then a.lastReceiveSentTime else 0.0
  }

  /** Karn's rule, for both uses of a round trip: a sample is taken, and a time is put on a data message, only
    * from a block that was transmitted exactly once. */
  lemma KarnsRule(l: Link, t: Trace, line: Line, eventtime: real, rseq: nat, len: nat)
    requires Sound(l) && Honest(l, t) && l.receiveSeq <= rseq && !Refused(l, rseq)
    ensures rseq != l.receiveSeq && Samples(Release(l, rseq)) ==>
              SentOnce(t, rseq - 1, Release(l, rseq).lastReceiveSentTime)
    ensures var a := Acknowledged(l, line, eventtime, rseq, len);
            SentTime(a) != 0.0 ==> SentOnce(t, rseq - 1, SentTime(a))
  {
    hide Sound, Release, Samples, Acknowledged;
    AcknowledgedIsHonest(l, t, line, eventtime, rseq, len);
    AcknowledgedKeeps(l, line, eventtime, rseq, len);
    if rseq != l.receiveSeq {
      ReleaseIsHonest(l, t, rseq);
    }
  }

  /** The other half: a received block that acknowledges one that was sent since the last retransmission, and so once,
    * is given the time of that one. */
  lemma TimesAreGiven(l: Link, t: Trace, line: Line, eventtime: real, rseq: nat, len: nat)
    requires Sound(l) && Honest(l, t) && Releases(l, rseq) && l.retransmitSeq < rseq
    ensures rseq - 1 in t && SentTime(Acknowledged(l, line, eventtime, rseq, len)) == t[rseq - 1].stamp
  {
    hide Numbered, Bytes, BitTime, Clamp;
    assert Traced(t, l, rseq - l.receiveSeq - 1);
  }

  /** A retransmission of the blocks in flight ends every measurement in progress. */
  lemma RetransmissionEndsSample(l: Link, line: Line, eventtime: real, rseq: nat)
    requires Sound(l) && l.receiveSeq < rseq
    ensures !Samples(Release(Retransmitted(l, line, eventtime), rseq))
    ensures Releases(l, rseq) ==>
              SentTime(Acknowledged(Retransmitted(l, line, eventtime), line, eventtime, rseq, MESSAGE_MAX)) == 0.0
  {
    hide Numbered, Bytes, BitTime, Burst, Clamp;
  }
}
