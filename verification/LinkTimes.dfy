/** The times of the window: what bytes cost on the line, how round trips are estimated, and when a retransmission is
  * due. */
module LinkTimes {
  import opened RealMath
  import opened Wire
  import opened SendWindow

  // The line.

  /** The bits of so many bytes on a CAN bus: frames of up to eight bytes, each packed in 47 bits. */
  function CanBits(bytes: nat): nat {
    if bytes == 0 then 0
    else if bytes <= 8 then 8 * bytes + 47
    else 8 * 8 + 47 + CanBits(bytes - 8)
  }

  lemma {:induction false} CanBitsAre(bytes: nat)
    ensures CanBits(bytes) == bytes * 8 + (bytes + 7) / 8 * 47
  {
    if 8 < bytes {
      CanBitsAre(bytes - 8);
      assert (bytes + 7) / 8 == (bytes - 8 + 7) / 8 + 1;
    }
  }

  /** What bytes cost: nothing before the frequency of the line is set; from then on ten bits each on a serial line, and
    * on a CAN bus what its frames take, less the gap of 4 bits after the last one, counted in a 32-bit word. */
  lemma LineCosts(can: bool, frequency: real, bytes: nat)
    requires frequency != 0.0
    ensures BitTime(AtFrequency(Unset(can), frequency), bytes) * frequency
         == (if can then U32(CanBits(bytes) - 4) else 10 * bytes) as real
    ensures BitTime(Unset(can), bytes) == 0.0
  {
    hide CanBits;
    CanBitsAre(bytes);
    if can {
      Spread(1.0, frequency, U32(CanBits(bytes) - 4) as real);
    } else {
      Spread(10.0, frequency, bytes as real);
    }
  }

  lemma Spread(a: real, f: real, n: real)
    requires f != 0.0
    ensures a / f * n * f == a * n
  {
    var q := a / f;
    assert q * f == a;
    assert q * n * f == (q * f) * n;
  }

  // Round trips.

  /** Section 2 of RFC 6298, with alpha 1/8 and beta 1/4: a later sample moves the smoothed round trip time by an eighth
    * of the difference, and its variation, for which the old round trip time counts, by a quarter; the first sets them,
    * the time to its tenfold. */
  lemma SampledMoves(l: Link, delta: real)
    ensures var s := Sampled(l, delta);
            if l.srtt == 0.0 then s.srtt == 10.0 * delta && 2.0 * s.rttvar == delta
            else
              && 8.0 * (s.srtt - l.srtt) == delta - l.srtt
              && 4.0 * (s.rttvar - l.rttvar) == Abs(delta - l.srtt) - l.rttvar
  {
  }

  /** The timeout is the least that is a millisecond and four times the variation above the round trip time, as far as
    * its range allows. */
  lemma TimeoutCovers(l: Link, delta: real, x: real)
    ensures var s := Sampled(l, delta);
            s.rto <= x <==> 0.025 <= x && (5.0 <= x || (s.srtt + 0.001 <= x && s.srtt + 4.0 * s.rttvar <= x))
  {
  }

  function SampledAll(l: Link, deltas: seq<real>): Link {
    if deltas == [] then l else Sampled(SampledAll(l, deltas[..|deltas| - 1]), deltas[|deltas| - 1])
  }

  predicate Within(x: real, low: real, high: real) {
    low <= x <= high
  }

  /** Once the round trip time is between two bounds that all samples keep, it stays there. */
  lemma {:induction false} SamplesBound(l: Link, deltas: seq<real>, low: real, high: real)
    requires 0.0 < low && Within(l.srtt, low, high)
    requires forall i :: 0 <= i < |deltas| ==> Within(deltas[i], low, high)
    ensures Within(SampledAll(l, deltas).srtt, low, high)
  {
    if deltas != [] {
      var n := |deltas| - 1;
      SamplesBound(l, deltas[..n], low, high);
      assert Within(deltas[n], low, high);
    }
  }

  /** How much of an error is left after so many samples. */
  function Left(error: real, n: nat): real {
    if n == 0 then error else Left(error, n - 1) * 7.0 / 8.0
  }

  /** While the samples stay the same, the round trip time closes in on them: each takes an eighth off the error. */
  lemma {:induction false} SamplesConverge(l: Link, deltas: seq<real>, delta: real)
    requires 0.0 < l.srtt && 0.0 < delta && forall i :: 0 <= i < |deltas| ==> deltas[i] == delta
    ensures SampledAll(l, deltas).srtt - delta == Left(l.srtt - delta, |deltas|)
    ensures 0.0 < SampledAll(l, deltas).srtt
  {
    if deltas != [] {
      var n := |deltas| - 1;
      SamplesConverge(l, deltas[..n], delta);
      assert deltas[n] == delta;
    }
  }

  /** The block that starts a measurement is the first one sent while there is none; a later one leaves it alone.  Of the
    * acknowledgements that follow, the first beyond that block gives the sample, if the block it releases has a time. */
  lemma SampleStarts(l: Link, line: Line, payload: seq<Byte>, pending: nat, eventtime: real, rseq: nat)
    requires Sound(l) && |payload| <= MESSAGE_PAYLOAD_MAX
    requires var b := Built(l, line, payload, pending, eventtime);
             Releases(b, rseq) && Release(b, rseq).lastReceiveSentTime != 0.0
    ensures var b := Built(l, line, payload, pending, eventtime);
            Samples(Release(b, rseq)) <==> (if l.rttSampleSeq == 0 then l.sendSeq else l.rttSampleSeq) < rseq
  {
    hide BitTime, Bytes, Numbered;
  }

  /** One measurement at a time: once a sample was taken, no further acknowledgement gives one, until a block is sent
    * after it; and then none before that block is acknowledged. */
  lemma OneSampleEach(l: Link, line: Line, eventtime: real, rseq: nat, later: nat, payload: seq<Byte>, pending: nat)
    requires l.receiveSeq < rseq && Samples(Release(l, rseq)) && |payload| <= MESSAGE_PAYLOAD_MAX
    ensures var a := UpdateReceiveSeq(l, line, eventtime, rseq);
            && !Samples(Release(a, later))
            && var b := Built(a, line, payload, pending, eventtime);
               Samples(Release(b, later)) ==> a.sendSeq < later
  {
    hide BitTime, Clamp, Bytes;
  }

  // When a retransmission is due.

  function Timeouts(l: Link, line: Line, times: seq<real>): Link {
    if times == [] then l else Retransmitted(Timeouts(l, line, times[..|times| - 1]), line, times[|times| - 1])
  }

  function Doubled(rto: real, n: nat): real {
    if n == 0 then rto else 2.0 * Doubled(rto, n - 1)
  }

  lemma {:induction false} DoubledGrows(rto: real, n: nat)
    requires 0.0 < rto
    ensures rto <= Doubled(rto, n)
  {
    if n != 0 {
      DoubledGrows(rto, n - 1);
    }
  }

  /** Timeouts in a row, with nothing received between them, double the timeout each time, up to five seconds; the blocks
    * in flight stay as they are, and the timer is set again. */
  lemma {:induction false} TimeoutsBackOff(l: Link, line: Line, times: seq<real>)
    requires l.timer.At? && MIN_RTO <= l.rto <= MAX_RTO
    ensures var r := Timeouts(l, line, times);
            r.rto == Min(Doubled(l.rto, |times|), 5.0) && r.timer.At? && r.sent == l.sent && r.receiveSeq == l.receiveSeq
  {
    hide BitTime, Burst;
    if times != [] {
      var n := |times| - 1;
      TimeoutsBackOff(l, line, times[..n]);
      DoubledGrows(l.rto, n);
    }
  }

  /** A nak is no sign that the timeout is too short. */
  lemma NakKeepsTimeout(l: Link, line: Line, eventtime: real)
    ensures l.timer == Now ==> Retransmitted(l, line, eventtime).rto == l.rto
  {
    hide BitTime, Burst;
  }

  /** The retransmission is due when the timeout has passed since the first block in flight can have left, after `wait`
    * and so many bytes. */
  predicate Due(l: Link, line: Line, since: real, bytes: nat) {
    l.timer == At(since + BitTime(line, bytes) + l.rto)
  }

  /** It is due from the moment: when a block is received that acknowledges something new, for the first block left; when
    * the blocks are sent again, for the first of them, with a byte before it; and when a block is sent with none in
    * flight, from the end of the bytes that wait on the line and in the buffer. */
  lemma TimerIsDue(l: Link, line: Line, eventtime: real, rseq: nat, len: nat, payload: seq<Byte>, pending: nat)
    requires Sound(l) && |payload| <= MESSAGE_PAYLOAD_MAX
    ensures var a := Acknowledged(l, line, eventtime, rseq, len);
            l.receiveSeq < rseq && a.sent != [] && a.timer != Now ==> Due(a, line, eventtime, |a.sent[0].block|)
    ensures Due(Retransmitted(l, line, eventtime), line, eventtime, if l.sent == [] then 0 else 1 + |l.sent[0].block|)
    ensures var b := Built(l, line, payload, pending, eventtime);
            if l.sent == [] then Due(b, line, Max(l.idleTime, eventtime), pending + |b.sent[0].block|)
            else b.timer == l.timer
  {
    hide BitTime, Burst, Clamp, Numbered, Bytes;
  }
}
