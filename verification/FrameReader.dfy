/** The reading side as the serial queue runs it: a fixed buffer, shifted down as messages are taken off. */
module FrameReaders {
  import opened Framing
  import opened Wire
  import Crc

  /** memchr, as an offset; n when the byte does not occur. */
  method MemChr(buf: array<Byte>, c: Byte, n: nat) returns (i: nat)
    requires n <= buf.Length
    ensures i <= n && (i < n ==> buf[i] == c)
    ensures forall k :: 0 <= k < i ==> buf[k] != c
  {
    i := 0;
    while i < n && buf[i] != c
      invariant i <= n
      invariant forall k :: 0 <= k < i ==> buf[k] != c
    {
      i := i + 1;
    }
  }

  /** The numeric result of msgblock_check that stands for a decision. */
  function Code(c: Checked): int {
    match c
    case NeedMore => 0
    case Message(n) => n
    case Skip(n, _) => 0 - n
  }

  lemma SyncAtIs(buf: seq<Byte>, i: nat)
    requires i <= |buf|
    requires i < |buf| ==> buf[i] == MESSAGE_SYNC
    requires forall k :: 0 <= k < i ==> buf[k] != MESSAGE_SYNC
    ensures SyncAt(buf) == i
  {
  }

  /** The error exit of msgblock_check. */
  method SkipToSync(buf: array<Byte>, bufLen: nat) returns (len: int, needSync: bool)
    requires bufLen <= buf.Length
    ensures var c := Discard(buf[..bufLen]);
            c.Skip? && len == Code(c) && needSync == c.needSync
  {
    var next := MemChr(buf, MESSAGE_SYNC, bufLen);
    SyncAtIs(buf[..bufLen], next);
    if next < bufLen {
      needSync := false;
      len := -(next + 1);
    } else {
      needSync := true;
      len := 0 - bufLen;
    }
  }

  /** msgblock_check. */
  method MsgblockCheck(sync: bool, buf: array<Byte>, bufLen: nat) returns (len: int, needSync: bool)
    requires bufLen <= buf.Length
    ensures var c := Check(sync, buf[..bufLen]);
            len == Code(c) && needSync == if c.Skip? then c.needSync else sync
  {
    hide Discard, Crc.Fold, Crc.Bits, Crc.High, Crc.Low;
    needSync := sync;
    if bufLen < MESSAGE_MIN {
      return 0, needSync;
    }
    if needSync {
      len, needSync := SkipToSync(buf, bufLen);
      return;
    }
    var msglen := buf[0];
    if msglen < MESSAGE_MIN || msglen > MESSAGE_MAX {
      len, needSync := SkipToSync(buf, bufLen);
      return;
    }
    var msgseq := buf[1];
    if msgseq - msgseq % 0x10 != MESSAGE_DEST {
      len, needSync := SkipToSync(buf, bufLen);
      return;
    }
    if bufLen < msglen {
      return 0, needSync;
    }
    assert buf[..bufLen][..msglen] == buf[..msglen];
    if buf[msglen - 1] != MESSAGE_SYNC {
      len, needSync := SkipToSync(buf, bufLen);
      return;
    }
    var msgcrc := Crc.Word(buf[msglen - 3], buf[msglen - 2]);
    var crc := Crc.Ccitt16(buf[..msglen], msglen - MESSAGE_TRAILER_SIZE);
    assert buf[..msglen][..msglen - 3] == buf[..msglen - 3];
    Crc.WordMatches(buf[msglen - 3], buf[msglen - 2], crc);
    if crc != msgcrc {
      len, needSync := SkipToSync(buf, bufLen);
      return;
    }
    len := msglen;
  }

  /** What a reader comes to when its loop runs on. */
  function Finish(d: Drained): Drained {
    Then(d.messages, d.invalid, Drain(d.rest))
  }

  lemma FinishMessage(d: Drained, n: nat)
    requires Check(d.rest.needSync, d.rest.buf) == Message(n)
    ensures n <= |d.rest.buf|
    ensures Finish(d) == Finish(Drained(Input(false, d.rest.buf[n..]), d.messages + [d.rest.buf[..n]], d.invalid))
  {
    hide Then, Drain, Check;
    DrainStep(d.rest);
    ThenThen(d.messages, d.invalid, [d.rest.buf[..n]], 0, Drain(Input(false, d.rest.buf[n..])));
  }

  lemma FinishSkip(d: Drained, n: nat, lost: bool)
    requires Check(d.rest.needSync, d.rest.buf) == Skip(n, lost)
    ensures n <= |d.rest.buf|
    ensures Finish(d) == Finish(Drained(Input(lost, d.rest.buf[n..]), d.messages, d.invalid + n))
  {
    hide Then, Drain, Check;
    DrainStep(d.rest);
    ThenThen(d.messages, d.invalid, [], n, Drain(Input(lost, d.rest.buf[n..])));
    assert d.messages + [] == d.messages;
  }

  lemma FinishDone(d: Drained)
    requires Check(d.rest.needSync, d.rest.buf) == NeedMore
    ensures Finish(d) == d
  {
    hide Then, Drain, Check;
    DrainStep(d.rest);
    ThenNothing(d.messages, d.invalid, Drained(d.rest, [], 0));
  }

  /** The input fields of the serial queue.  The messages found are kept in a list, where the source hands each
    * one to handle_message. */
  class FrameReader {
    const buf: array<Byte>
    var inputPos: nat
    var needSync: bool
    var bytesInvalid: nat
    var messages: seq<seq<Byte>>

    ghost predicate Valid()
      reads this, buf
    {
      && buf.Length == 4096
      && inputPos < MESSAGE_MAX
      && Waiting(Input(needSync, buf[..inputPos]))
    }

    ghost function State(): Drained
      reads this, buf
      requires inputPos <= buf.Length
    {
      Drained(Input(needSync, buf[..inputPos]), messages, bytesInvalid)
    }

    constructor ()
      ensures Valid() && fresh(buf)
      ensures State() == Drained(Input(false, []), [], 0)
    {
      buf := new Byte[4096](_ => 0);
      inputPos, needSync, bytesInvalid, messages := 0, false, 0, [];
      new;
      assert buf[..0] == [];
    }

    /** Shifting the buffer down by len bytes. */
    method MemMove(len: nat)
      requires len <= inputPos <= buf.Length
      modifies buf, `inputPos
      ensures inputPos == old(inputPos) - len
      ensures buf[..inputPos] == old(buf[len..inputPos])
    {
      inputPos := inputPos - len;
      ghost var was := buf[..];
      var i := 0;
      while i < inputPos
        invariant i <= inputPos == old(inputPos) - len
        invariant forall k :: 0 <= k < i ==> buf[k] == was[len + k]
        invariant forall k :: i <= k < buf.Length ==> buf[k] == was[k]
      {
        buf[i] := buf[len + i];
        i := i + 1;
      }
      assert buf[..inputPos] == was[len..old(inputPos)];
    }

    /** The read call: new bytes are placed after those held back. */
    method Append(data: seq<Byte>)
      requires inputPos + |data| <= buf.Length
      modifies buf, `inputPos
      ensures inputPos == old(inputPos) + |data|
      ensures buf[..inputPos] == old(buf[..inputPos]) + data
    {
      ghost var was := buf[..];
      for i := 0 to |data|
        invariant inputPos == old(inputPos)
        invariant forall k :: 0 <= k < i ==> buf[inputPos + k] == data[k]
        invariant forall k :: 0 <= k < inputPos ==> buf[k] == was[k]
      {
        buf[inputPos + i] := data[i];
      }
      inputPos := inputPos + |data|;
      assert buf[..inputPos] == was[..old(inputPos)] + data;
    }

    method TakeMessage(len: nat)
      requires inputPos <= buf.Length && Check(needSync, buf[..inputPos]) == Message(len)
      modifies this, buf
      ensures inputPos == old(inputPos) - len && inputPos <= buf.Length
      ensures needSync == old(needSync) && 0 < len
      ensures Finish(State()) == old(Finish(State()))
    {
      hide Check, Finish;
      CheckBounds(needSync, buf[..inputPos]);
      ghost var d := State();
      FinishMessage(d, len);
      assert buf[..len] == d.rest.buf[..len] && buf[len..inputPos] == d.rest.buf[len..];
      messages := messages + [buf[..len]];
      MemMove(len);
      assert State() == Drained(Input(false, d.rest.buf[len..]), d.messages + [d.rest.buf[..len]], d.invalid);
    }

    method SkipBytes(len: nat, lost: bool)
      requires inputPos <= buf.Length && Check(needSync, buf[..inputPos]) == Skip(len, lost)
      modifies this, buf
      ensures inputPos == old(inputPos) - len && inputPos <= buf.Length
      ensures 0 < len
      ensures Finish(State()) == old(Finish(State()))
    {
      hide Check, Finish;
      CheckBounds(needSync, buf[..inputPos]);
      ghost var d := State();
      FinishSkip(d, len, lost);
      assert buf[len..inputPos] == d.rest.buf[len..];
      needSync := lost;
      bytesInvalid := bytesInvalid + len;
      MemMove(len);
      assert State() == Drained(Input(lost, d.rest.buf[len..]), d.messages, d.invalid + len);
    }

    /** input_event: whatever the read returned, the messages found are those the specification finds, and
      * fewer than 64 bytes stay in the buffer, so the next read always has room. */
    method InputEvent(data: seq<Byte>)
      requires Valid() && |data| <= buf.Length - inputPos
      modifies this, buf
      ensures Valid()
      ensures State() == Read(old(State()), data)
    {
      hide Check, Then, Drain;
      Append(data);
      var len, lost := 1, false;
      ghost var goal := Finish(State());
      while len != 0
        invariant inputPos <= buf.Length
        invariant Finish(State()) == goal
        invariant len == 0 ==> Check(needSync, buf[..inputPos]) == NeedMore
        decreases inputPos, len != 0
      {
        len, lost := MsgblockCheck(needSync, buf, inputPos);
        CheckBounds(needSync, buf[..inputPos]);
        if len > 0 {
          TakeMessage(len);
        } else if len < 0 {
          SkipBytes(0 - len, lost);
        }
      }
      CheckBounds(needSync, buf[..inputPos]);
      FinishDone(State());
    }
  }
}
