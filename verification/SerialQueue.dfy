/** The serial queue as it runs: one object, whose methods are the event handlers and the calls of its users. */
module SerialQueues {
  import opened RealMath
  import opened Wire
  import opened Clocks
  import opened SendWindow
  import opened KarnRule
  import opened CommandScheduler
  import opened SerialProtocol
  import Crc
  import Framing

  class SerialQueue {
    // The line and the clock.
    var receiveWindow: int
    var line: Line
    var ce: Estimate
    var idleTime: real
    var lastReceiveSentTime: real
    // The window.
    var sendSeq: nat
    var receiveSeq: nat
    var ignoreNakSeq: nat
    var lastAckSeq: nat
    var retransmitSeq: nat
    var rttSampleSeq: nat
    var sentQueue: seq<InFlight>
    var srtt: real
    var rttvar: real
    var rto: real
    // What waits to be sent, and to be notified.
    var pendingQueues: seq<CommandQueue>
    var readyBytes: int
    var upcomingBytes: int
    var needAckBytes: int
    var lastAckBytes: nat
    var needKickClock: Word64
    var notifyQueue: seq<Note>
    // What waits to be pulled.
    var receiveQueue: seq<Received>
    // The two timers, a counter, and the record.
    var retransmitTimer: Timer
    var commandTimer: Timer
    var bytesInvalid: nat
    ghost var log: Log

    ghost function LinkState(): Link
      reads `sendSeq, `receiveSeq, `sentQueue, `needAckBytes, `lastAckBytes, `lastAckSeq, `ignoreNakSeq,
            `retransmitSeq, `rttSampleSeq, `srtt, `rttvar, `rto, `lastReceiveSentTime, `idleTime, `retransmitTimer,
            `receiveWindow
    {
      Link(sendSeq, receiveSeq, sentQueue, needAckBytes, lastAckBytes, lastAckSeq, ignoreNakSeq, retransmitSeq,
           rttSampleSeq, srtt, rttvar, rto, lastReceiveSentTime, idleTime, retransmitTimer, receiveWindow)
    }

    ghost function SchedState(): Sched
      reads `pendingQueues, `readyBytes, `upcomingBytes, `needKickClock
    {
      Sched(pendingQueues, readyBytes, upcomingBytes, needKickClock)
    }

    ghost function State(): Queue
      reads this
    {
      Queue(LinkState(), SchedState(), notifyQueue, receiveQueue, commandTimer, bytesInvalid, log)
    }

    /** serialqueue_alloc; the line's frequency and the receive window are not known yet. */
    constructor (can: bool)
      ensures State() == FRESH_QUEUE && line == Unset(can)
    {
      line, receiveWindow := Unset(can), 0;
      ce := Estimate(0, 0, 0.0, 0.0);
      idleTime, lastReceiveSentTime := 0.0, 0.0;
      sendSeq, receiveSeq := 1, 1;
      ignoreNakSeq, lastAckSeq, retransmitSeq, rttSampleSeq := 0, 0, 0, 0;
      sentQueue, notifyQueue, receiveQueue, pendingQueues := [], [], [], [];
      srtt, rttvar, rto := 0.0, 0.0, MIN_RTO;
      readyBytes, upcomingBytes, needAckBytes, lastAckBytes := 0, 0, 0, 0;
      needKickClock := MAX_CLOCK;
      retransmitTimer, commandTimer, bytesInvalid := Never, Never, 0;
      log := EMPTY_LOG;
    }

    /** serialqueue_set_wire_frequency */
    method SetWireFrequency(frequency: real)
      requires frequency != 0.0
      modifies `line
      ensures line == AtFrequency(old(line), frequency)
    {
      line := if line.Can? then Can(1.0 / frequency) else Uart(10.0 / frequency);
    }

    /** serialqueue_set_receive_window */
    method SetReceiveWindow(window: int)
      modifies `receiveWindow
      ensures State() == old(SerialProtocol.SetWindow(State(), window))
    {
      receiveWindow := window;
    }

    // Receiving.

    /** The first loop of update_receive_seq. */
    method ReleaseSent(rseq: nat)
      requires receiveSeq < rseq
      modifies `sendSeq, `receiveSeq, `sentQueue, `needAckBytes, `lastAckBytes, `lastReceiveSentTime
      ensures LinkState() == old(Release(LinkState(), rseq))
    {
      var sentSeq := receiveSeq;
      hide Bytes;
      ghost var k: nat, all := 0, sentQueue;
      NoBytes(all);
      while true
        invariant k <= |all| && receiveSeq == old(receiveSeq) && sentSeq == receiveSeq + k < rseq
        invariant sentQueue == all[k..]
        invariant needAckBytes == old(needAckBytes) - Bytes(all[..k])
        invariant sendSeq == old(sendSeq) && lastAckBytes == old(lastAckBytes)
        invariant lastReceiveSentTime == old(lastReceiveSentTime)
        decreases |sentQueue|
      {
        if sentQueue == [] {
          // The number was never sent: the other end sets it.
          assert all[..k] == all;
          sendSeq := rseq;
          lastReceiveSentTime := 0.0;
          break;
        }
        var sent := sentQueue[0];
        NextBytes(all, k);
        needAckBytes := needAckBytes - |sent.block|;
        sentQueue := sentQueue[1..];
        sentSeq := sentSeq + 1;
        k := k + 1;
        if rseq == sentSeq {
          // The block that is acknowledged is the last to be released.
          lastReceiveSentTime := sent.receiveTime;
          lastAckBytes := |sent.block|;
          break;
        }
      }
      receiveSeq := rseq;
    }

    /** The round trip calculation of update_receive_seq. */
    method SampleRoundTrip(eventtime: real)
      modifies `srtt, `rttvar, `rto, `rttSampleSeq
      ensures LinkState() == old(Sampled(LinkState(), eventtime - lastReceiveSentTime))
    {
      var delta := eventtime - lastReceiveSentTime;
      if srtt == 0.0 {
        rttvar := delta / 2.0;
        srtt := delta * 10.0;
      } else {
        rttvar := (3.0 * rttvar + Abs(srtt - delta)) / 4.0;
        srtt := (7.0 * srtt + delta) / 8.0;
      }
      var rttvar4 := rttvar * 4.0;
      if rttvar4 < 0.001 {
        rttvar4 := 0.001;
      }
      rto := srtt + rttvar4;
      if rto < MIN_RTO {
        rto := MIN_RTO;
      } else if rto > MAX_RTO {
        rto := MAX_RTO;
      }
      rttSampleSeq := 0;
    }

    /** update_receive_seq. */
    method UpdateReceiveSeq(eventtime: real, rseq: nat)
      requires receiveSeq < rseq
      modifies `sendSeq, `receiveSeq, `sentQueue, `needAckBytes, `lastAckBytes, `lastReceiveSentTime,
               `srtt, `rttvar, `rto, `rttSampleSeq, `retransmitTimer, `commandTimer
      ensures LinkState() == old(SendWindow.UpdateReceiveSeq(LinkState(), line, eventtime, rseq))
      ensures commandTimer == Now
    {
      hide Release, Sampled, BitTime;
      ghost var before := LinkState();
      ReleaseSent(rseq);
      ghost var released := LinkState();
      assert released == Release(before, rseq) && receiveSeq == rseq by { ReleaseReaches(before, rseq); }
      commandTimer := Now;
      if rttSampleSeq != 0 && rseq > rttSampleSeq && lastReceiveSentTime != 0.0 {
        SampleRoundTrip(eventtime);
      }
      if sentQueue == [] {
        retransmitTimer := Never;
      } else {
        retransmitTimer := At(eventtime + rto + BitTime(line, |sentQueue[0].block|));
      }
    }

    /** The loop over the notify queue. */
    method WakeNotified(rseq: nat, len: nat, eventtime: real) returns (mustWake: bool)
      modifies `notifyQueue, `receiveQueue, `log
      ensures var n := Woken(old(notifyQueue), WakeSeq(rseq, len));
              && notifyQueue == old(notifyQueue)[n..]
              && receiveQueue == old(receiveQueue) + AckedAll(old(notifyQueue)[..n], lastReceiveSentTime, eventtime)
              && log == old(log).(fired := old(log.fired + notifyQueue[..n]))
              && mustWake == (n > 0)
    {
      mustWake := false;
      ghost var all, k: nat, received := notifyQueue, 0, receiveQueue;
      while notifyQueue != []
        invariant k <= |all| && notifyQueue == all[k..]
        invariant forall i :: 0 <= i < k ==> all[i].seqno <= WakeSeq(rseq, len)
        invariant receiveQueue == received + AckedAll(all[..k], lastReceiveSentTime, eventtime)
        invariant mustWake == (k > 0) && log == old(log)
        decreases |notifyQueue|
      {
        var qm := notifyQueue[0];
        var wakeSeq := WakeSeq(rseq, len);
        if qm.seqno > wakeSeq {
          break;
        }
        notifyQueue := notifyQueue[1..];
        assert AckedAll(all[..k + 1], lastReceiveSentTime, eventtime)
            == AckedAll(all[..k], lastReceiveSentTime, eventtime) + [Acked(qm, lastReceiveSentTime, eventtime)];
        receiveQueue := receiveQueue + [Acked(qm, lastReceiveSentTime, eventtime)];
        mustWake := true;
        k := k + 1;
      }
      WokenIs(all, WakeSeq(rseq, len), k);
      log := log.(fired := log.fired + all[..k]);
    }

    /** The part of handle_message for a block without data. */
    method NoteAck()
      modifies `lastAckSeq, `retransmitTimer
      ensures LinkState() == old(AckOrNak(LinkState()))
    {
      if lastAckSeq < receiveSeq {
        lastAckSeq := receiveSeq;
      } else if receiveSeq > ignoreNakSeq && sentQueue != [] {
        // The same number again asks for a retransmission.
        retransmitTimer := Now;
      }
    }

    /** The part of handle_message before the notifications: whether the acknowledgement is accepted. */
    method TakeAck(eventtime: real, rseq: nat, len: nat) returns (accepted: bool)
      requires receiveSeq <= rseq
      modifies `sendSeq, `receiveSeq, `sentQueue, `needAckBytes, `lastAckBytes, `lastReceiveSentTime,
               `srtt, `rttvar, `rto, `rttSampleSeq, `retransmitTimer, `commandTimer, `bytesInvalid
      ensures accepted == !old(Refused(LinkState(), rseq))
      ensures accepted ==>
                && LinkState() == old(Advanced(LinkState(), line, eventtime, rseq)) && receiveSeq == rseq
                && commandTimer == (if rseq != old(receiveSeq) then Now else old(commandTimer))
                && bytesInvalid == old(bytesInvalid)
      ensures !accepted ==>
                && LinkState() == old(LinkState()) && commandTimer == old(commandTimer)
                && bytesInvalid == old(bytesInvalid) + len
    {
      hide SendWindow.UpdateReceiveSeq;
      ghost var before := LinkState();
      if rseq != receiveSeq {
        if rseq > sendSeq && receiveSeq != 1 {
          bytesInvalid := bytesInvalid + len;
          return false;
        }
        UpdateReceiveSeq(eventtime, rseq);
        AdvancedReaches(before, line, eventtime, rseq);
      }
      accepted := true;
    }

    /** The rest of handle_message, once the acknowledgement is accepted. */
    method Deliver(rseq: nat, eventtime: real, arrival: real, block: seq<Byte>)
      requires MESSAGE_MIN <= |block| && receiveSeq == rseq
      modifies `notifyQueue, `receiveQueue, `log, `lastAckSeq, `retransmitTimer
      ensures var len := |block|;
              var n := Woken(old(notifyQueue), WakeSeq(rseq, len));
              && LinkState() == old(if len == MESSAGE_MIN then AckOrNak(LinkState()) else LinkState())
              && notifyQueue == old(notifyQueue)[n..]
              && log == old(log).(fired := old(log.fired) + old(notifyQueue)[..n])
              && receiveQueue == old(receiveQueue)
                   + AckedAll(old(notifyQueue)[..n], lastReceiveSentTime, eventtime)
                   + (if len == MESSAGE_MIN then [] else [DataOf(LinkState(), line, arrival, block)])
    {
      hide BitTime, WakeSeq, Woken, AckedAll;
      var len := |block|;
      var mustWake := WakeNotified(rseq, len, eventtime);
      if len == MESSAGE_MIN {
        NoteAck();
        assert receiveQueue + [] == receiveQueue;
      } else {
        var sentTime := if rseq > retransmitSeq then lastReceiveSentTime else 0.0;
        receiveQueue := receiveQueue + [Data(block, sentTime, arrival - BitTime(line, len))];
      }
    }

    /** The same, with what it makes of the whole state since the message came in. */
    method Accept(ghost start: Queue, rseq: nat, eventtime: real, arrival: real, block: seq<Byte>)
      requires AfterAck(start, line, eventtime, block, rseq, State())
      modifies `notifyQueue, `receiveQueue, `log, `lastAckSeq, `retransmitTimer
      ensures MESSAGE_MIN <= |block|
      ensures State() == SerialProtocol.HandleMessage(start, line, eventtime, arrival, block)
    {
      hide Refused, AckSeq, Advanced, AckOrNak, DataOf, WakeSeq, Woken, AckedAll, SerialProtocol.HandleMessage;
      ghost var advanced := LinkState();
      Deliver(rseq, eventtime, arrival, block);
      HandledIs(start, line, eventtime, arrival, block, rseq, advanced, State());
    }

    /** handle_message, without the call of a fast reader and the waking of the receiver. */
    method HandleMessage(eventtime: real, arrival: real, block: seq<Byte>)
      requires MESSAGE_MIN <= |block|
      modifies `sendSeq, `receiveSeq, `sentQueue, `needAckBytes, `lastAckBytes, `lastReceiveSentTime, `lastAckSeq,
               `srtt, `rttvar, `rto, `rttSampleSeq, `retransmitTimer, `commandTimer, `bytesInvalid,
               `notifyQueue, `receiveQueue, `log
      ensures State() == old(SerialProtocol.HandleMessage(State(), line, eventtime, arrival, block))
    {
      hide SeqDelta, Refused, AckSeq, Advanced, SerialProtocol.HandleMessage, SchedState;
      ghost var start := State();
      var rseqDelta := SeqDelta(block[1], receiveSeq);
      var rseq := receiveSeq + rseqDelta;
      RseqIs(start.link, block[1], rseq);
      var accepted := TakeAck(eventtime, rseq, |block|);
      if accepted {
        Accept(start, rseq, eventtime, arrival, block);
      } else {
        RefusedIs(start, line, eventtime, arrival, block, State());
      }
    }

    /** serialqueue_pull, once something is there. */
    method Pull() returns (r: Received)
      requires receiveQueue != []
      modifies `receiveQueue, `log
      ensures r == old(receiveQueue[0])
      ensures State() == old(SerialProtocol.Pull(State()))
    {
      r := receiveQueue[0];
      receiveQueue := receiveQueue[1..];
      log := log.(pulled := log.pulled + [r]);
    }

    // Retransmission.

    /** do_write: the bytes leave for the controller. */
    method DoWrite(buf: array<Byte>, buflen: nat)
      requires buflen <= buf.Length
      modifies `log
      ensures log == old(log).(written := old(log).written + buf[..buflen])
    {
      log := log.(written := log.written + buf[..buflen]);
    }

    /** The first part of retransmit_event: a SYNC and every block in flight, in a buffer of fixed size. */
    method GatherBurst() returns (buf: array<Byte>, buflen: nat, firstBuflen: nat)
      requires Sound(LinkState())
      ensures fresh(buf) && buf.Length == MESSAGE_MAX * MAX_PENDING_BLOCKS + 1 && buflen <= buf.Length
      ensures buf[..buflen] == Burst(LinkState())
      ensures firstBuflen == if sentQueue == [] then 0 else |sentQueue[0].block| + 1
    {
      hide Sound, Bytes, Blocks, Concat;
      BurstFits(LinkState());
      buf := new Byte[MESSAGE_MAX * MAX_PENDING_BLOCKS + 1](_ => 0);
      buf[0] := MESSAGE_SYNC;
      buflen, firstBuflen := 1, 0;
      NoBlocks(sentQueue);
      for i := 0 to |sentQueue|
        invariant buflen == 1 + Bytes(sentQueue[..i]) <= buf.Length
        invariant buf[..buflen] == [MESSAGE_SYNC] + Concat(Blocks(sentQueue[..i]))
        invariant firstBuflen == if i == 0 then 0 else |sentQueue[0].block| + 1
      {
        NextBlock(LinkState(), i);
        MemCpy(buf, buflen, sentQueue[i].block);
        buflen := buflen + |sentQueue[i].block|;
        if firstBuflen == 0 {
          firstBuflen := |sentQueue[i].block| + 1;
        }
      }
      assert sentQueue[..|sentQueue|] == sentQueue;
    }

    /** The second part of retransmit_event. */
    method BackOff(eventtime: real, buflen: nat, firstBuflen: nat) returns (waketime: Timer)
      requires buflen == |Burst(LinkState())|
      requires firstBuflen == if sentQueue == [] then 0 else |sentQueue[0].block| + 1
      modifies `rto, `ignoreNakSeq, `retransmitSeq, `rttSampleSeq, `idleTime, `retransmitTimer
      ensures LinkState() == old(Retransmitted(LinkState(), line, eventtime))
      ensures waketime == retransmitTimer
    {
      hide Burst, BitTime;
      UpdateRto();
      retransmitSeq := sendSeq;
      rttSampleSeq := 0;
      idleTime := eventtime + BitTime(line, buflen);
      waketime := At(eventtime + rto + BitTime(line, firstBuflen));
      retransmitTimer := waketime;
    }

    /** The timeout after a retransmission, and which naks are to be ignored. */
    method UpdateRto()
      modifies `rto, `ignoreNakSeq
      ensures rto == if retransmitTimer == Now then old(rto) else Min(old(rto) * 2.0, MAX_RTO)
      ensures ignoreNakSeq == if retransmitTimer != Now then sendSeq
                              else if receiveSeq < retransmitSeq then retransmitSeq
                              else receiveSeq
    {
      if retransmitTimer == Now {
        ignoreNakSeq := receiveSeq;
        if receiveSeq < retransmitSeq {
          // The last retransmission is still on its way: no further nak counts before it is acknowledged.
          ignoreNakSeq := retransmitSeq;
        }
      } else {
        rto := rto * 2.0;
        if rto > MAX_RTO {
          rto := MAX_RTO;
        }
        ignoreNakSeq := sendSeq;
      }
    }

    /** retransmit_event, without the flush of the terminal's output. */
    method RetransmitEvent(eventtime: real) returns (waketime: Timer)
      requires Sound(LinkState())
      modifies `rto, `ignoreNakSeq, `retransmitSeq, `rttSampleSeq, `idleTime, `retransmitTimer, `log
      ensures State() == old(SerialProtocol.Retransmit(State(), line, eventtime))
      ensures waketime == retransmitTimer
    {
      hide Sound, Burst, Retransmitted, TraceRetransmitted, LinkState, SchedState;
      ghost var start := LinkState();
      var buf, buflen, firstBuflen := GatherBurst();
      DoWrite(buf, buflen);
      waketime := BackOff(eventtime, buflen, firstBuflen);
      log := log.(trace := TraceRetransmitted(log.trace, start));
    }

    // Enqueueing.

    /** The second part of serialqueue_send_batch: add the list to the command queue. */
    method AddBatch(id: nat, raised: seq<Msg>, len: nat)
      requires raised != []
      modifies `pendingQueues, `upcomingBytes, `needKickClock
      ensures SchedState() == old(Sched(Joined(pendingQueues, id, raised), readyBytes, upcomingBytes + len,
                                        if raised[0].minClock < needKickClock then 0 else needKickClock))
    {
      hide Joined;
      pendingQueues := JoinTail(pendingQueues, id, raised);
      upcomingBytes := upcomingBytes + len;
      if raised[0].minClock < needKickClock {
        needKickClock := 0;
      }
    }

    /** serialqueue_send_batch.  The list of command queues is searched for the queue of this number, where the
      * source holds a pointer to it; waking the background thread is left out. */
    method SendBatch(id: nat, msgs: seq<Msg>)
      modifies `pendingQueues, `upcomingBytes, `needKickClock, `log
      ensures State() == old(SerialProtocol.Enqueue(State(), id, msgs))
    {
      hide Raised, RaisedAll, Length, Joined, Tagged, LinkState;
      var raised, len := RaiseAll(msgs);
      log := log.(enqueued := log.enqueued + Tagged(id, if len == 0 then [] else raised));
      if len != 0 {
        LengthOfNone(raised);
        AddBatch(id, raised, len);
      }
    }

    // Sending.

    /** Taking the head of a ready queue; a queue with nothing left leaves the list. */
    method TakeReady(i: nat) returns (qm: Msg)
      requires i < |pendingQueues| && pendingQueues[i].ready != []
      modifies `pendingQueues, `readyBytes
      ensures SchedState() == old(TakeFrom(SchedState(), i))
      ensures qm == old(pendingQueues[i].ready[0])
    {
      var cq := pendingQueues[i];
      qm := cq.ready[0];
      cq := cq.(ready := cq.ready[1..]);
      if cq.ready == [] && cq.upcoming == [] {
        pendingQueues := pendingQueues[..i] + pendingQueues[i + 1..];
      } else {
        pendingQueues := pendingQueues[i := cq];
      }
      readyBytes := readyBytes - |qm.bytes|;
    }

    /** The loop of build_and_send_command. */
    method PackReady(buf: array<Byte>, start: nat) returns (len: nat, ghost ps: seq<Packed>)
      requires Orderly(SchedState()) && start + MESSAGE_MAX <= buf.Length
      modifies `pendingQueues, `readyBytes, `notifyQueue, buf
      ensures old(Pack(SchedState(), MESSAGE_HEADER_SIZE)) == Packing(SchedState(), ps)
      ensures len == MESSAGE_HEADER_SIZE + |Payload(ps)| <= MESSAGE_MAX - MESSAGE_TRAILER_SIZE
      ensures buf[..start] == old(buf[..start])
      ensures buf[start + MESSAGE_HEADER_SIZE..start + len] == Payload(ps)
      ensures notifyQueue == old(notifyQueue) + NotesOf(ps, sendSeq)
    {
      hide Orderly, Pack, Payload, NotesOf, TakeFrom, MostUrgent;
      len, ps := MESSAGE_HEADER_SIZE, [];
      ghost var whole := Pack(SchedState(), len);
      PackNothing(whole, sendSeq);
      while readyBytes != 0
        invariant Orderly(SchedState())
        invariant len == MESSAGE_HEADER_SIZE + |Payload(ps)| <= MESSAGE_MAX - MESSAGE_TRAILER_SIZE
        invariant whole == Prepend(ps, Pack(SchedState(), len))
        invariant buf[..start] == old(buf[..start])
        invariant buf[start + MESSAGE_HEADER_SIZE..start + len] == Payload(ps)
        invariant notifyQueue == old(notifyQueue) + NotesOf(ps, sendSeq)
        decreases MESSAGE_MAX - len
      {
        var i := FindUrgent(pendingQueues);
        PackStep(SchedState(), len);
        if len + |pendingQueues[i].ready[0].bytes| > MESSAGE_MAX - MESSAGE_TRAILER_SIZE {
          break;
        }
        ghost var packed := Packed(pendingQueues[i].id, pendingQueues[i].ready[0]);
        ghost var next := Pack(TakeFrom(SchedState(), i), len + |packed.msg.bytes|);
        var qm := TakeReady(i);
        MemCpyInto(buf, start, MESSAGE_HEADER_SIZE, len, qm.bytes);
        len := len + |qm.bytes|;
        PrependNext(ps, packed, next, sendSeq);
        ps := ps + [packed];
        if qm.notifyId != 0 {
          notifyQueue := notifyQueue + [Note(qm, sendSeq)];
        }
      }
      PackStep(SchedState(), len);
      PrependNone(ps, SchedState());
    }

    /** The end of build_and_send_command: the block is stored in the sent queue. */
    method StoreBlock(block: seq<Byte>, pending: nat, eventtime: real, ghost payload: seq<Byte>)
      requires |payload| <= MESSAGE_PAYLOAD_MAX && block == Framing.Block(sendSeq, payload)
      modifies `sentQueue, `retransmitTimer, `rttSampleSeq, `sendSeq, `needAckBytes
      ensures LinkState() == old(Built(LinkState(), line, payload, pending, eventtime))
    {
      hide BitTime, Framing.Block;
      var idletime := if eventtime > idleTime then eventtime else idleTime;
      idletime := idletime + BitTime(line, pending + |block|);
      if sentQueue == [] {
        retransmitTimer := At(idletime + rto);
      }
      if rttSampleSeq == 0 {
        rttSampleSeq := sendSeq;
      }
      sendSeq := sendSeq + 1;
      needAckBytes := needAckBytes + |block|;
      sentQueue := sentQueue + [InFlight(block, eventtime, idletime)];
    }

    /** The first part of build_and_send_command: a block of the most urgent messages, in the buffer. */
    method Assemble(buf: array<Byte>, start: nat) returns (len: nat, ghost ps: seq<Packed>)
      requires Orderly(SchedState()) && start + MESSAGE_MAX <= buf.Length
      modifies `pendingQueues, `readyBytes, `notifyQueue, buf
      ensures old(Pack(SchedState(), MESSAGE_HEADER_SIZE)) == Packing(SchedState(), ps)
      ensures |Payload(ps)| <= MESSAGE_PAYLOAD_MAX && len == |Payload(ps)| + MESSAGE_MIN
      ensures buf[..start] == old(buf[..start])
      ensures buf[start..start + len] == Framing.Block(sendSeq, Payload(ps))
      ensures notifyQueue == old(notifyQueue) + NotesOf(ps, sendSeq)
    {
      hide Orderly, Pack, Payload, NotesOf, SchedState, Framing.Block;
      var packed, ms := PackReady(buf, start);
      ps := ms;
      len := FillBlock(buf, start, packed, sendSeq, Payload(ps));
    }

    /** build_and_send_command: the block is put into the buffer from start on, and stored. */
    method BuildAndSendCommand(buf: array<Byte>, start: nat, eventtime: real) returns (len: nat)
      requires Regular(State()) && start + MESSAGE_MAX <= buf.Length
      modifies `pendingQueues, `readyBytes, `notifyQueue, buf,
               `sentQueue, `retransmitTimer, `rttSampleSeq, `sendSeq, `needAckBytes, `log
      ensures State() == old(Build(State(), line, start, eventtime))
      ensures |sentQueue| == |old(sentQueue)| + 1 && len == |sentQueue[|old(sentQueue)|].block| <= MESSAGE_MAX
      ensures buf[..start + len] == old(buf[..start]) + sentQueue[|old(sentQueue)|].block
    {
      hide Sound, Orderly, Pack, Payload, NotesOf, ShippedIn, Built, TraceBuilt, SchedState, Framing.Block;
      ghost var q := State();
      var n, ps := Assemble(buf, start);
      len := n;
      BuiltLast(LinkState(), line, Payload(ps), start, eventtime);
      StoreBlock(buf[start..start + len], start, eventtime, Payload(ps));
      log := log.(shipped := log.shipped + ShippedIn(ps, q.link.sendSeq),
                  trace := TraceBuilt(log.trace, q.link, sentQueue[|q.link.sent|].receiveTime));
      assert buf[..start + len] == buf[..start] + buf[start..start + len];
      BuildIs(q, line, start, eventtime, ps, State());
    }

    // Scheduling.

    /** The loop of check_send_command over the command queues. */
    method PromoteAll(ackClock: Word64, bgClock: Word64) returns (minStalledClock: Word64, minReadyClock: Word64)
      modifies `pendingQueues, `readyBytes, `upcomingBytes
      ensures SchedState() == old(Promoted(SchedState(), ackClock))
      ensures minStalledClock == MinStalled(pendingQueues) && minReadyClock == MinReady(pendingQueues, bgClock)
    {
      hide PromoteOne, ReadyLength;
      minStalledClock, minReadyClock := MAX_CLOCK, MAX_CLOCK;
      ghost var qs := pendingQueues;
      PromoteNone(qs, ackClock);
      for i := 0 to |pendingQueues|
        invariant |pendingQueues| == |qs| && pendingQueues[i..] == qs[i..]
        invariant pendingQueues[..i] == Promote(qs[..i], ackClock)
        invariant readyBytes == old(readyBytes) + (ReadyLength(pendingQueues[..i]) - ReadyLength(qs[..i]))
        invariant upcomingBytes == old(upcomingBytes) - (ReadyLength(pendingQueues[..i]) - ReadyLength(qs[..i]))
        invariant minStalledClock == MinStalled(pendingQueues[..i])
        invariant minReadyClock == MinReady(pendingQueues[..i], bgClock)
      {
        assert pendingQueues[i] == pendingQueues[i..][0] == qs[i];
        PromoteNext(pendingQueues, qs, i, ackClock);
        var cq, moved := PromoteQueue(pendingQueues[i], ackClock);
        if cq.upcoming != [] && cq.upcoming[0].minClock < minStalledClock {
          minStalledClock := cq.upcoming[0].minClock;
        }
        pendingQueues := pendingQueues[i := cq];
        readyBytes := readyBytes + moved;
        upcomingBytes := upcomingBytes - moved;
        if cq.ready != [] {
          var reqClock := cq.ready[0].reqClock;
          if reqClock == BACKGROUND_PRIORITY_CLOCK {
            reqClock := bgClock;
          }
          if reqClock < minReadyClock {
            minReadyClock := reqClock;
          }
        }
      }
      assert pendingQueues[..|qs|] == pendingQueues && qs[..|qs|] == qs;
    }

    /** The last part of check_send_command. */
    method ScheduleNext(idletime: real, ackClock: Word64, minStalledClock: Word64, minReadyClock: Word64)
        returns (wake: Timer)
      requires minStalledClock == MinStalled(pendingQueues)
      modifies `needKickClock
      ensures Decision(SchedState(), wake) == old(Schedule(SchedState(), ce, idletime, ackClock, minReadyClock))
    {
      hide MinStalled, Cut, U64;
      if readyBytes >= MESSAGE_PAYLOAD_MAX {
        return Now;
      }
      if ce.freq == 0.0 {
        if readyBytes != 0 {
          return Now;
        }
        needKickClock := MAX_CLOCK;
        return Never;
      }
      var reqclockDelta := U64(Cut(MIN_REQTIME_DELTA * ce.freq));
      if minReadyClock <= U64(ackClock + reqclockDelta) {
        return Now;
      }
      var wantclock := U64(minReadyClock - reqclockDelta);
      if minStalledClock < wantclock {
        wantclock := minStalledClock;
      }
      needKickClock := wantclock;
      wake := At(idletime + U64(wantclock - ackClock) as real / ce.freq);
    }

    /** check_send_command. */
    method CheckSendCommand(pending: nat, eventtime: real) returns (wake: Timer)
      modifies `pendingQueues, `readyBytes, `upcomingBytes, `needKickClock
      ensures Decision(SchedState(), wake) == old(Decide(State(), line, ce, pending, eventtime))
    {
      hide Promoted, Schedule, MinReady, MinStalled, BitTime, FromTime;
      if sendSeq - receiveSeq >= MAX_PENDING_BLOCKS {
        return Never;
      }
      if sendSeq > receiveSeq && receiveWindow != 0 {
        var needAck := needAckBytes + MESSAGE_MAX;
        if lastAckSeq < receiveSeq {
          needAck := needAck + lastAckBytes;
        }
        if needAck > receiveWindow {
          return Never;
        }
      }
      var idletime := if eventtime > idleTime then eventtime else idleTime;
      idletime := idletime + BitTime(line, pending + MESSAGE_MIN);
      var ackClock := FromTime(ce, idletime);
      var bgtime := if pending != 0 then idletime else idleTime;
      var bgoffset := MIN_REQTIME_DELTA + MIN_BACKGROUND_DELTA;
      var minStalledClock, minReadyClock := PromoteAll(ackClock, FromTime(ce, bgtime + bgoffset));
      wake := ScheduleNext(idletime, ackClock, minStalledClock, minReadyClock);
    }

    /** The flush in the loop of command_event. */
    method FlushBuffer(buf: array<Byte>, buflen: nat, eventtime: real)
      requires buflen <= buf.Length
      modifies `idleTime, `log
      ensures State() == old(Flushed(State(), line, buf[..buflen], eventtime))
    {
      hide BitTime, SchedState;
      if buflen != 0 {
        DoWrite(buf, buflen);
        var idletime := if eventtime > idleTime then eventtime else idleTime;
        idleTime := idletime + BitTime(line, buflen);
      }
    }

    /** The first half of a turn of command_event: the decision, and the flush when the buffer must go out. */
    method Prepare(buf: array<Byte>, buflen: nat, eventtime: real) returns (waketime: Timer, left: nat)
      requires buflen <= buf.Length == MESSAGE_MAX * MAX_PENDING_BLOCKS
      modifies `pendingQueues, `readyBytes, `upcomingBytes, `needKickClock, `idleTime, `log
      ensures waketime == old(Decide(State(), line, ce, buflen, eventtime)).wake
      ensures State() == old(Ready(State(), line, ce, buf[..buflen], eventtime))
      ensures waketime == Now ==> left <= buflen && buf[..left] == Carried(buf[..buflen])
    {
      hide Sound, Orderly, Decide, Flushed, LinkState, SchedState;
      ghost var q, bytes := State(), buf[..buflen];
      waketime := CheckSendCommand(buflen, eventtime);
      assert State() == q.(sched := Decide(q, line, ce, buflen, eventtime).sched);
      left := buflen;
      if waketime != Now || buflen + MESSAGE_MAX > buf.Length {
        FlushBuffer(buf, buflen, eventtime);
        left := 0;
      }
    }

    /** One turn of the loop of command_event. */
    method Turn(buf: array<Byte>, buflen: nat, eventtime: real) returns (waketime: Timer, len: nat)
      requires Regular(State()) && buflen <= buf.Length == MESSAGE_MAX * MAX_PENDING_BLOCKS
      modifies `pendingQueues, `readyBytes, `upcomingBytes, `needKickClock, `idleTime, `log, `notifyQueue,
               `sentQueue, `retransmitTimer, `rttSampleSeq, `sendSeq, `needAckBytes, buf
      ensures len <= buf.Length
      ensures waketime != Now ==>
                old(CommandLoop(State(), line, ce, buf[..buflen], eventtime))
                == Commanded(State().(command := waketime), waketime)
      ensures waketime == Now ==>
                && Regular(State()) && |sentQueue| == |old(sentQueue)| + 1 <= MAX_PENDING_BLOCKS
                && CommandLoop(State(), line, ce, buf[..len], eventtime)
                   == old(CommandLoop(State(), line, ce, buf[..buflen], eventtime))
    {
      hide Regular, CommandLoop, Decide, Ready, Carried, Build, LinkState, SchedState;
      ghost var q, bytes := State(), buf[..buflen];
      CommandStep(q, line, ce, bytes, eventtime);
      CarriedFits(bytes);
      SentOf(this);
      waketime, len := Prepare(buf, buflen, eventtime);
      SentOf(this);
      if waketime == Now {
        var built := BuildAndSendCommand(buf, len, eventtime);
        len := len + built;
        SentOf(this);
      } else {
        len := 0;
      }
    }

    /** command_event. */
    method CommandEvent(eventtime: real) returns (waketime: Timer)
      requires Regular(State())
      modifies `pendingQueues, `readyBytes, `upcomingBytes, `needKickClock, `idleTime, `log, `notifyQueue,
               `sentQueue, `retransmitTimer, `rttSampleSeq, `sendSeq, `needAckBytes, `commandTimer
      ensures Commanded(State(), waketime) == old(CommandLoop(State(), line, ce, [], eventtime))
      ensures commandTimer == waketime
    {
      hide Regular, CommandLoop, LinkState, SchedState;
      var buf := new Byte[MESSAGE_MAX * MAX_PENDING_BLOCKS](_ => 0);
      var buflen: nat := 0;
      assert buf[..0] == [];
      ghost var goal := CommandLoop(State(), line, ce, [], eventtime);
      waketime := Now;
      while waketime == Now
        invariant fresh(buf) && buf.Length == MESSAGE_MAX * MAX_PENDING_BLOCKS && buflen <= buf.Length
        invariant waketime == Now ==> Regular(State()) && CommandLoop(State(), line, ce, buf[..buflen], eventtime) == goal
        invariant waketime != Now ==> goal == Commanded(State().(command := waketime), waketime)
        decreases waketime == Now, MAX_PENDING_BLOCKS - |sentQueue|
      {
        waketime, buflen := Turn(buf, buflen, eventtime);
      }
      commandTimer := waketime;
    }
  }

  lemma NoBytes(sent: seq<InFlight>)
    ensures Bytes(sent[..0]) == 0 && sent[..0] == [] && sent[0..] == sent
  {
  }

  lemma NextBytes(sent: seq<InFlight>, k: nat)
    requires k < |sent|
    ensures Bytes(sent[..k + 1]) == Bytes(sent[..k]) + |sent[k].block|
    ensures sent[k..][0] == sent[k] && sent[k..][1..] == sent[k + 1..]
  {
    assert sent[..k + 1][..k] == sent[..k];
  }

  /** How far the nibble of a sequence byte lies beyond the window's start. */
  function SeqDelta(b: Byte, receiveSeq: nat): nat {
    (b - receiveSeq) % 0x10
  }

  lemma RseqIs(l: Link, b: Byte, rseq: int)
    requires rseq == l.receiveSeq + SeqDelta(b, l.receiveSeq)
    ensures rseq == AckSeq(l, b % 0x10) && l.receiveSeq <= rseq
  {
    SameDelta(b, l.receiveSeq);
  }

  lemma RefusedIs(start: Queue, line: Line, eventtime: real, arrival: real, block: seq<Byte>, r: Queue)
    requires MESSAGE_MIN <= |block| && Refused(start.link, AckSeq(start.link, block[1] % 0x10))
    requires r == start.(bytesInvalid := start.bytesInvalid + |block|)
    ensures r == SerialProtocol.HandleMessage(start, line, eventtime, arrival, block)
  {
    hide Refused, AckSeq;
  }

  /** The entry that a data message makes in the receive queue. */
  function DataOf(l: Link, line: Line, arrival: real, block: seq<Byte>): Received {
    Data(block, SentTime(l), arrival - BitTime(line, |block|))
  }

  /** The state after an acknowledgement is accepted, as against the one before. */
  predicate AfterAck(start: Queue, line: Line, eventtime: real, block: seq<Byte>, rseq: nat, q: Queue) {
    && MESSAGE_MIN <= |block| && rseq == AckSeq(start.link, block[1] % 0x10) && !Refused(start.link, rseq)
    && q == start.(link := Advanced(start.link, line, eventtime, rseq),
                   command := if rseq != start.link.receiveSeq then Now else start.command)
    && q.link.receiveSeq == rseq
  }

  /** The parts of handle_message, put together. */
  predicate HandledParts(start: Queue, line: Line, eventtime: real, arrival: real, block: seq<Byte>,
                         rseq: nat, advanced: Link, r: Queue)
  {
    var n := Woken(start.notes, WakeSeq(rseq, |block|));
    && MESSAGE_MIN <= |block| && rseq == AckSeq(start.link, block[1] % 0x10) && !Refused(start.link, rseq)
    && advanced == Advanced(start.link, line, eventtime, rseq)
    && r.link == (if |block| == MESSAGE_MIN then AckOrNak(advanced) else advanced)
    && r.sched == start.sched && r.bytesInvalid == start.bytesInvalid
    && r.command == (if rseq != start.link.receiveSeq then Now else start.command)
    && r.notes == start.notes[n..]
    && r.log == start.log.(fired := start.log.fired + start.notes[..n])
    && r.received == start.received + AckedAll(start.notes[..n], advanced.lastReceiveSentTime, eventtime)
         + (if |block| == MESSAGE_MIN then [] else [DataOf(r.link, line, arrival, block)])
  }

  lemma HandledIs(start: Queue, line: Line, eventtime: real, arrival: real, block: seq<Byte>,
                  rseq: nat, advanced: Link, r: Queue)
    requires HandledParts(start, line, eventtime, arrival, block, rseq, advanced, r)
    ensures MESSAGE_MIN <= |block|
    ensures r == SerialProtocol.HandleMessage(start, line, eventtime, arrival, block)
  {
    hide AckSeq, Refused, Advanced, BitTime, WakeSeq, Woken, AckedAll;
  }

  lemma ReleaseReaches(l: Link, rseq: nat)
    ensures Release(l, rseq).receiveSeq == rseq
  {
  }

  lemma AdvancedReaches(l: Link, line: Line, eventtime: real, rseq: nat)
    ensures Advanced(l, line, eventtime, rseq).receiveSeq == rseq
  {
    hide BitTime, Clamp;
  }

  lemma WokenIs(notes: seq<Note>, wakeSeq: nat, k: nat)
    requires k <= |notes|
    requires forall i :: 0 <= i < k ==> notes[i].seqno <= wakeSeq
    requires k < |notes| ==> wakeSeq < notes[k].seqno
    ensures Woken(notes, wakeSeq) == k
  {
  }

  /** The nibble alone decides the distance. */
  lemma SameDelta(b: Byte, receiveSeq: nat)
    ensures (b - receiveSeq) % 0x10 == (b % 0x10 - receiveSeq) % 0x10
  {
    var q := b / 0x10;
    assert b - receiveSeq == (b % 0x10 - receiveSeq) + q * 0x10;
    SameRemainder(b - receiveSeq, b % 0x10 - receiveSeq, q);
  }

  lemma SameRemainder(x: int, y: int, q: int)
    requires x == y + q * 0x10
    ensures x % 0x10 == y % 0x10
  {
  }

  // Buffers and lists.

  /** memcpy. */
  method MemCpy(buf: array<Byte>, at: nat, src: seq<Byte>)
    requires at + |src| <= buf.Length
    modifies buf
    ensures buf[..at] == old(buf[..at]) && buf[at..at + |src|] == src
    ensures buf[..at + |src|] == old(buf[..at]) + src
    ensures buf[at + |src|..] == old(buf[at + |src|..])
  {
    for i := 0 to |src|
      invariant forall k :: 0 <= k < i ==> buf[at + k] == src[k]
      invariant forall k :: 0 <= k < buf.Length && !(at <= k < at + i) ==> buf[k] == old(buf[k])
    {
      buf[at + i] := src[i];
    }
    assert buf[..at] == old(buf[..at]);
    assert buf[at..at + |src|] == src;
  }

  lemma NoBlocks(sent: seq<InFlight>)
    ensures Bytes(sent[..0]) == 0 && Concat(Blocks(sent[..0])) == []
  {
  }

  lemma BurstFits(l: Link)
    requires Sound(l)
    ensures 1 + Bytes(l.sent) <= MESSAGE_MAX * MAX_PENDING_BLOCKS + 1
  {
    if l.sent == [] {
    } else {
      BurstIsUnacked(l, false);
    }
  }

  lemma NextBlock(l: Link, i: nat)
    requires i < |l.sent|
    ensures Bytes(l.sent[..i + 1]) == Bytes(l.sent[..i]) + |l.sent[i].block| <= Bytes(l.sent)
    ensures [MESSAGE_SYNC] + Concat(Blocks(l.sent[..i + 1]))
         == [MESSAGE_SYNC] + Concat(Blocks(l.sent[..i])) + l.sent[i].block
    ensures Sound(l) ==> 0 < |l.sent[i].block|
  {
    hide Sound, Concat;
    var s := l.sent[..i + 1];
    assert s[..i] == l.sent[..i];
    BytesSplit(l.sent, i + 1);
    ConcatSnoc(Blocks(l.sent[..i]), l.sent[i].block);
    var c, b := Concat(Blocks(l.sent[..i])), l.sent[i].block;
    assert [MESSAGE_SYNC] + (c + b) == [MESSAGE_SYNC] + c + b;
    if Sound(l) {
      SentLength(l, i);
    }
  }

  lemma SentLength(l: Link, i: nat)
    requires Sound(l) && i < |l.sent|
    ensures 0 < |l.sent[i].block|
  {
    hide Carries;
    BlockLength(l.sent[i].block, (l.receiveSeq + i) % 0x10);
  }

  /** The raising of min_clock in serialqueue_send_batch. */
  method Raise(m: Msg) returns (r: Msg)
    ensures r == Raised(m)
  {
    r := m;
    if U64(m.minClock + 0x8000_0000) < m.reqClock && m.reqClock != BACKGROUND_PRIORITY_CLOCK {
      r := m.(minClock := U64(m.reqClock - 0x8000_0000));
    }
  }

  /** The first loop of serialqueue_send_batch. */
  method RaiseAll(msgs: seq<Msg>) returns (raised: seq<Msg>, len: nat)
    ensures raised == RaisedAll(msgs) && len == Length(raised)
  {
    hide Raised, Length;
    raised, len := [], 0;
    EmptyLength();
    for i := 0 to |msgs|
      invariant raised == RaisedAll(msgs)[..i]
      invariant len == Length(raised)
    {
      var qm := Raise(msgs[i]);
      LengthSnoc(raised, qm);
      raised := raised + [qm];
      len := len + |qm.bytes|;
    }
  }

  lemma LengthSnoc(ms: seq<Msg>, m: Msg)
    ensures Length(ms + [m]) == Length(ms) + |m.bytes|
  {
    LengthAppend(ms, [m]);
    assert [m][1..] == [];
  }

  lemma LengthOfNone(ms: seq<Msg>)
    ensures Length(ms) != 0 ==> ms != []
  {
  }

  /** list_join_tail, and the listing of a queue that was empty. */
  method JoinTail(qs: seq<CommandQueue>, id: nat, ms: seq<Msg>) returns (r: seq<CommandQueue>)
    ensures r == Joined(qs, id, ms)
  {
    hide Joined;
    var i := 0;
    assert qs[..0] == [] && qs[0..] == qs;
    while i < |qs| && qs[i].id != id
      invariant i <= |qs|
      invariant Joined(qs, id, ms) == qs[..i] + Joined(qs[i..], id, ms)
    {
      JoinedLater(qs, i, id, ms);
      i := i + 1;
    }
    if i == |qs| {
      JoinedLast(qs, id, ms);
      r := qs + [CommandQueue(id, [], ms)];
    } else {
      JoinedHere(qs, i, id, ms);
      r := qs[i := qs[i].(upcoming := qs[i].upcoming + ms)];
    }
  }

  lemma JoinedLater(qs: seq<CommandQueue>, i: nat, id: nat, ms: seq<Msg>)
    requires i < |qs| && qs[i].id != id
    ensures qs[..i] + Joined(qs[i..], id, ms) == qs[..i + 1] + Joined(qs[i + 1..], id, ms)
  {
    var rest := Joined(qs[i + 1..], id, ms);
    assert Joined(qs[i..], id, ms) == [qs[i]] + rest by {
      assert qs[i..][0] == qs[i] && qs[i..][1..] == qs[i + 1..];
    }
    hide Joined;
    assert qs[..i] + ([qs[i]] + rest) == qs[..i + 1] + rest;
  }

  lemma JoinedHere(qs: seq<CommandQueue>, i: nat, id: nat, ms: seq<Msg>)
    requires i < |qs| && qs[i].id == id
    ensures qs[..i] + Joined(qs[i..], id, ms) == qs[i := qs[i].(upcoming := qs[i].upcoming + ms)]
  {
    var q := qs[i].(upcoming := qs[i].upcoming + ms);
    assert Joined(qs[i..], id, ms) == [q] + qs[i + 1..] by {
      assert qs[i..][0] == qs[i] && qs[i..][1..] == qs[i + 1..];
    }
    hide Joined;
    assert qs[..i] + ([q] + qs[i + 1..]) == qs[i := q];
  }

  lemma JoinedLast(qs: seq<CommandQueue>, id: nat, ms: seq<Msg>)
    ensures qs[..|qs|] + Joined(qs[|qs|..], id, ms) == qs + [CommandQueue(id, [], ms)]
  {
    assert qs[..|qs|] == qs && qs[|qs|..] == [];
  }

  // Packing.

  /** The search of build_and_send_command for the ready head with the least deadline. */
  method FindUrgent(qs: seq<CommandQueue>) returns (i: nat)
    ensures i == MostUrgent(qs)
  {
    var minClock := MAX_CLOCK;
    var found, at := false, 0;
    assert qs[..0] == [];
    for k := 0 to |qs|
      invariant if found then at < k && MostUrgent(qs[..k]) == at && minClock == qs[at].ready[0].reqClock
                              && qs[at].ready != [] else MostUrgent(qs[..k]) == k && minClock == MAX_CLOCK
    {
      assert qs[..k + 1][..k] == qs[..k] && qs[..k + 1][k] == qs[k];
      if qs[k].ready != [] {
        if qs[k].ready[0].reqClock < minClock {
          minClock, found, at := qs[k].ready[0].reqClock, true, k;
        }
      }
    }
    assert qs[..|qs|] == qs;
    i := if found then at else |qs|;
  }

  function Prepend(ps: seq<Packed>, p: Packing): Packing {
    Packing(p.sched, ps + p.packed)
  }

  /** One turn of the packing loop. */
  lemma PackStep(s: Sched, len: nat)
    requires Orderly(s) && len <= MESSAGE_MAX - MESSAGE_TRAILER_SIZE
    ensures var i := MostUrgent(s.pending);
            if s.readyBytes == 0 then Pack(s, len) == Packing(s, [])
            else
              && i < |s.pending| && s.pending[i].ready != [] && 0 < |s.pending[i].ready[0].bytes|
              && Orderly(TakeFrom(s, i))
              && var m := s.pending[i].ready[0];
                 if len + |m.bytes| > MESSAGE_MAX - MESSAGE_TRAILER_SIZE then Pack(s, len) == Packing(s, [])
                 else Pack(s, len) == Prepend([Packed(s.pending[i].id, m)], Pack(TakeFrom(s, i), len + |m.bytes|))
  {
    hide Orderly, TakeFrom, MostUrgent;
    if s.readyBytes != 0 {
      SomethingUrgent(s);
      HeadOf(s, MostUrgent(s.pending));
      TakeFromKeeps(s, MostUrgent(s.pending));
    }
  }

  lemma PackNothing(p: Packing, seqno: nat)
    ensures Prepend([], p) == p && Payload([]) == [] && NotesOf([], seqno) == []
  {
    assert [] + p.packed == p.packed;
  }

  lemma PrependNone(ps: seq<Packed>, s: Sched)
    ensures Prepend(ps, Packing(s, [])) == Packing(s, ps)
  {
    assert ps + [] == ps;
  }

  lemma PrependNext(ps: seq<Packed>, p: Packed, rest: Packing, seqno: nat)
    ensures Prepend(ps, Prepend([p], rest)) == Prepend(ps + [p], rest)
    ensures Payload(ps + [p]) == Payload(ps) + p.msg.bytes
    ensures NotesOf(ps + [p], seqno) == NotesOf(ps, seqno) + (if p.msg.notifyId != 0 then [Note(p.msg, seqno)] else [])
  {
    assert ps + ([p] + rest.packed) == ps + [p] + rest.packed;
    PayloadSnoc(ps, p);
    assert (ps + [p])[..|ps + [p]| - 1] == ps;
  }

  /** memcpy behind what a block holds so far. */
  method MemCpyInto(buf: array<Byte>, start: nat, from: nat, len: nat, src: seq<Byte>)
    requires from <= len && start + len + |src| <= buf.Length
    modifies buf
    ensures buf[..start] == old(buf[..start])
    ensures buf[start + from..start + len + |src|] == old(buf[start + from..start + len]) + src
  {
    ghost var was := buf[..];
    MemCpy(buf, start + len, src);
    assert buf[..start + len] == was[..start + len];
    assert buf[..start] == buf[..start + len][..start] == was[..start];
    assert buf[start + from..start + len] == buf[..start + len][start + from..] == was[start + from..start + len];
    assert buf[start + from..start + len + |src|] == buf[start + from..start + len] + buf[start + len..start + len + |src|];
  }

  /** The header and the trailer of a block whose payload lies in the buffer. */
  method FillBlock(buf: array<Byte>, start: nat, packed: nat, seqno: nat, ghost payload: seq<Byte>) returns (len: nat)
    requires MESSAGE_HEADER_SIZE <= packed <= MESSAGE_MAX - MESSAGE_TRAILER_SIZE && start + MESSAGE_MAX <= buf.Length
    requires buf[start + MESSAGE_HEADER_SIZE..start + packed] == payload
    modifies buf
    ensures len == packed + MESSAGE_TRAILER_SIZE && |payload| == packed - MESSAGE_HEADER_SIZE
    ensures buf[..start] == old(buf[..start])
    ensures buf[start..start + len] == Framing.Block(seqno, payload)
  {
    hide Crc.Fold, Crc.High, Crc.Low, Framing.Block;
    BlockIs(seqno, payload);
    len := packed + MESSAGE_TRAILER_SIZE;
    WriteHeader(buf, start, packed, len, MESSAGE_DEST + seqno % 0x10);
    ghost var head, front := buf[start..start + packed], buf[..start + packed];
    var crc := Crc.Ccitt16(buf[start..start + packed], packed);
    assert head[..packed] == head;
    WriteTrailer(buf, start + packed, crc);
    assert buf[start..start + packed] == front[start..] == head && buf[..start] == front[..start];
    assert buf[start..start + len] == buf[start..start + packed] + buf[start + packed..start + len];
  }

  /** The length and the sequence byte before the payload. */
  method WriteHeader(buf: array<Byte>, start: nat, packed: nat, len: Byte, seqByte: Byte)
    requires MESSAGE_HEADER_SIZE <= packed && start + packed <= buf.Length
    modifies buf
    ensures buf[..start + packed][..start] == old(buf[..start])
    ensures buf[start..start + packed] == [len, seqByte] + old(buf[start + MESSAGE_HEADER_SIZE..start + packed])
  {
    ghost var was := buf[..];
    buf[start] := len;
    buf[start + 1] := seqByte;
    assert buf[start + MESSAGE_HEADER_SIZE..start + packed] == was[start + MESSAGE_HEADER_SIZE..start + packed];
    assert buf[start..start + packed] == [len, seqByte] + buf[start + MESSAGE_HEADER_SIZE..start + packed];
  }

  /** The code and the SYNC behind the payload. */
  method WriteTrailer(buf: array<Byte>, at: nat, crc: bv16)
    requires at + MESSAGE_TRAILER_SIZE <= buf.Length
    modifies buf
    ensures buf[..at] == old(buf[..at])
    ensures buf[at..at + MESSAGE_TRAILER_SIZE] == [Crc.High(crc), Crc.Low(crc), MESSAGE_SYNC]
  {
    hide Crc.High, Crc.Low;
    buf[at] := Crc.High(crc);
    buf[at + 1] := Crc.Low(crc);
    buf[at + 2] := MESSAGE_SYNC;
  }

  lemma BlockIs(seqno: nat, payload: seq<Byte>)
    requires |payload| <= MESSAGE_PAYLOAD_MAX
    ensures var head := [|payload| + MESSAGE_MIN, MESSAGE_DEST + seqno % 0x10] + payload;
            var crc := Crc.Fold(0xffff, head);
            Framing.Block(seqno, payload) == head + [Crc.High(crc), Crc.Low(crc), MESSAGE_SYNC]
  {
    hide Crc.Fold, Crc.High, Crc.Low;
  }

  lemma BuiltLast(l: Link, line: Line, payload: seq<Byte>, pending: nat, eventtime: real)
    requires |payload| <= MESSAGE_PAYLOAD_MAX
    ensures var b := Built(l, line, payload, pending, eventtime);
            && |b.sent| == |l.sent| + 1 && b.sent[|l.sent|].block == Framing.Block(l.sendSeq, payload)
  {
    hide BitTime, Framing.Block;
  }

  /** The parts of build_and_send_command, put together. */
  lemma BuildIs(q: Queue, line: Line, pending: nat, eventtime: real, ps: seq<Packed>, r: Queue)
    requires Regular(q) && |Payload(ps)| <= MESSAGE_PAYLOAD_MAX
    requires Pack(q.sched, MESSAGE_HEADER_SIZE) == Packing(r.sched, ps)
    requires r.link == Built(q.link, line, Payload(ps), pending, eventtime) && |r.link.sent| == |q.link.sent| + 1
    requires r == q.(link := r.link, sched := r.sched, notes := q.notes + NotesOf(ps, q.link.sendSeq),
                     log := q.log.(shipped := q.log.shipped + ShippedIn(ps, q.link.sendSeq),
                                   trace := TraceBuilt(q.log.trace, q.link, r.link.sent[|q.link.sent|].receiveTime)))
    ensures r == Build(q, line, pending, eventtime)
  {
    hide Sound, Orderly, Pack, Payload, NotesOf, ShippedIn, Built, TraceBuilt;
  }

  // Promoting.

  /** The inner loop of check_send_command: from one queue's upcoming list to its ready list. */
  method PromoteQueue(q: CommandQueue, ackClock: Word64) returns (cq: CommandQueue, moved: nat)
    ensures cq == PromoteOne(q, ackClock)
    ensures moved == Length(cq.ready) - Length(q.ready)
  {
    hide Length, Due;
    cq, moved := q, 0;
    ghost var n := 0;
    assert q.ready + q.upcoming[..0] == q.ready;
    while cq.upcoming != []
      invariant n <= |q.upcoming|
      invariant cq == CommandQueue(q.id, q.ready + q.upcoming[..n], q.upcoming[n..])
      invariant moved == Length(cq.ready) - Length(q.ready)
      invariant forall i :: 0 <= i < n ==> q.upcoming[i].minClock <= ackClock
      decreases |cq.upcoming|
    {
      var qm := cq.upcoming[0];
      if ackClock < qm.minClock {
        break;
      }
      LengthSnoc(cq.ready, qm);
      assert q.ready + q.upcoming[..n] + [qm] == q.ready + q.upcoming[..n + 1];
      cq := CommandQueue(q.id, cq.ready + [qm], cq.upcoming[1..]);
      moved := moved + |qm.bytes|;
      n := n + 1;
    }
    DueIs(q.upcoming, ackClock, n);
  }

  lemma DueIs(ms: seq<Msg>, ackClock: Word64, n: nat)
    requires n <= |ms|
    requires forall i :: 0 <= i < n ==> ms[i].minClock <= ackClock
    requires n < |ms| ==> ackClock < ms[n].minClock
    ensures Due(ms, ackClock) == n
  {
  }

  lemma PromoteNone(qs: seq<CommandQueue>, ackClock: Word64)
    ensures qs[..0] == [] == Promote(qs[..0], ackClock) && qs[0..] == qs
    ensures ReadyLength([]) == 0
  {
  }

  lemma PromoteNext(now: seq<CommandQueue>, qs: seq<CommandQueue>, i: nat, ackClock: Word64)
    requires i < |qs| == |now| && now[i..] == qs[i..] && now[..i] == Promote(qs[..i], ackClock)
    ensures var r := now[i := PromoteOne(qs[i], ackClock)];
            && r[..i + 1] == Promote(qs[..i + 1], ackClock) && r[i + 1..] == qs[i + 1..]
            && r[..i + 1][..i] == now[..i] && r[..i + 1][i] == PromoteOne(qs[i], ackClock)
            && ReadyLength(r[..i + 1]) - ReadyLength(qs[..i + 1])
               == ReadyLength(now[..i]) - ReadyLength(qs[..i])
                  + (Length(PromoteOne(qs[i], ackClock).ready) - Length(qs[i].ready))
  {
    hide PromoteOne, ReadyLength, Length;
    var r := now[i := PromoteOne(qs[i], ackClock)];
    assert r[..i + 1] == now[..i] + [PromoteOne(qs[i], ackClock)];
    assert qs[..i + 1] == qs[..i] + [qs[i]];
    forall k | i + 1 <= k < |qs|
      ensures r[k] == qs[k]
    {
      assert now[i..][k - i] == qs[i..][k - i];
    }
    SumsAppend(now[..i], [PromoteOne(qs[i], ackClock)]);
    SumsAppend(qs[..i], [qs[i]]);
    One(PromoteOne(qs[i], ackClock), 0);
    One(qs[i], 0);
  }

  /** A part of the state, for proofs that hide what it is made of. */
  lemma SentOf(q: SerialQueue)
    ensures q.State().link.sent == q.sentQueue
  {
  }

  lemma CarriedFits(buf: seq<Byte>)
    ensures |Carried(buf)| + MESSAGE_MAX <= MESSAGE_MAX * MAX_PENDING_BLOCKS
  {
  }
}
