/** Messages over a non-blocking socket: a reader that can be interrupted anywhere inside a frame and a queue
    of messages that are sent in pieces (network/src/stream.rs). */
module Stream {
  import opened Prelude
  import opened Framing

  /** Where an interrupted read left off: inside the length of a long frame or inside the payload. */
  datatype ReadRetry = ReadBytes(result: seq<Byte>) | ReadLenOfLen(bytes: seq<Byte>, readSize: nat)

  /** The bytes of the current frame that have already been read. */
  function Partial(retry: Option<ReadRetry>): seq<Byte>
    requires retry.Some? && retry.value.ReadLenOfLen? ==> retry.value.readSize < |retry.value.bytes|
  {
    match retry
    case None => []
    case Some(ReadBytes(result)) => result
    case Some(ReadLenOfLen(bytes, readSize)) => bytes[..1 + readSize]
  }

  predicate GoodRetry(retry: Option<ReadRetry>) {
    match retry
    case None => true
    case Some(ReadBytes(result)) => HasHeader(result) && |result| < FrameLength(result)
    case Some(ReadLenOfLen(bytes, readSize)) =>
      bytes != [] && 0xf8 <= bytes[0] && |bytes| == HeaderLength(bytes[0]) && 1 + readSize < |bytes|
  }

  lemma RetryIsPartial(retry: Option<ReadRetry>)
    requires GoodRetry(retry)
    ensures IsPartial(Partial(retry))
  {
  }

  /** Frames with an empty payload are dropped by the reader. */
  function Delivered(frames: seq<seq<Byte>>): seq<seq<Byte>>
    requires AllFrames(frames)
  {
    if frames == [] then []
    else assert IsFrame(frames[|frames| - 1]);
         var init, last := frames[..|frames| - 1], frames[|frames| - 1];
         if PayloadLength(last) == 0 then Delivered(init) else Delivered(init) + [last]
  }

  /** When no message has an empty payload, the messages delivered are the frames read. */
  lemma {:induction false} AllDelivered(frames: seq<seq<Byte>>)
    requires AllFrames(frames) && forall i :: 0 <= i < |frames| ==> PayloadLength(frames[i]) > 0
    ensures Delivered(frames) == frames
  {
    if frames != [] {
      var init, last := frames[..|frames| - 1], frames[|frames| - 1];
      AllDelivered(init);
      assert frames == init + [last];
    }
  }

  lemma DeliveredPush(frames: seq<seq<Byte>>, f: seq<Byte>)
    requires AllFrames(frames) && IsFrame(f)
    ensures AllFrames(frames + [f])
    ensures Delivered(frames + [f]) == if PayloadLength(f) == 0 then Delivered(frames) else Delivered(frames) + [f]
  {
    assert (frames + [f])[..|frames|] == frames;
  }

  /** The length that a complete header announces, and the length of the header. */
  method ParseLen(bytes: seq<Byte>) returns (total: nat, header: nat)
    requires HasHeader(bytes)
    ensures total == PayloadLength(bytes) && header == HeaderLength(bytes[0])
  {
    if 0xf8 <= bytes[0] {
      total, header := ParseLongLen(bytes, bytes[0] - 0xf7);
    } else {
      total, header := bytes[0] - 0xc0, 1;
    }
  }

  method ParseLongLen(bytes: seq<Byte>, lenOfLen: nat) returns (total: nat, header: nat)
    requires 1 + lenOfLen <= |bytes|
    ensures total == BigEndian(bytes[1..1 + lenOfLen]) && header == 1 + lenOfLen
  {
    total := 0;
    for i := 1 to 1 + lenOfLen
      invariant total == BigEndian(bytes[1..i])
    {
      assert bytes[1..i + 1][..i - 1] == bytes[1..i];
      total := total * 256 + bytes[i];
    }
    header := 1 + lenOfLen;
  }

  function Smaller(a: nat, b: nat): nat { if a < b then a else b }

  /** What reading a header from these bytes gives: the header, if all of it is there; otherwise nothing is left. */
  ghost predicate HeaderRead(bytes: seq<Byte>, r: Option<seq<Byte>>, inbox: seq<Byte>, read: Option<ReadRetry>) {
    if bytes != [] && 0xc0 <= bytes[0] && HeaderLength(bytes[0]) <= |bytes|
    then r == Some(bytes[..HeaderLength(bytes[0])]) && inbox == bytes[HeaderLength(bytes[0])..]
    else r.None? && inbox == [] && GoodRetry(read) && Partial(read) == bytes
  }

  /** What reading a frame from these bytes gives: the frame, if all of it is there and it has a payload, and the bytes
      behind it; otherwise all bytes are kept. */
  ghost predicate FrameRead(bytes: seq<Byte>, r: Option<seq<Byte>>, inbox: seq<Byte>, read: Option<ReadRetry>) {
    if HasHeader(bytes) && FrameLength(bytes) <= |bytes|
    then && r == (if PayloadLength(bytes) == 0 then None else Some(bytes[..FrameLength(bytes)]))
         && inbox == bytes[FrameLength(bytes)..] && read.None?
    else r.None? && inbox == [] && GoodRetry(read) && Partial(read) == bytes
  }

  lemma HeaderDone(bytes: seq<Byte>, start: Option<seq<Byte>>, inbox: seq<Byte>, read: Option<ReadRetry>)
    requires HeaderRead(bytes, start, inbox, read)
    ensures if start.Some? then start.value + inbox == bytes else FrameRead(bytes, None, inbox, read)
  {
  }

  class TryStream {
    /** The socket: bytes that have arrived and bytes that have been handed over for sending. */
    var inbox: seq<Byte>
    var sent: seq<Byte>
    var closed: bool
    var read: Option<ReadRetry>
    var write: seq<seq<Byte>>

    /** Everything taken from the socket so far, and the frames it was cut into. */
    ghost var consumed: seq<Byte>
    ghost var frames: seq<seq<Byte>>

    /** How often the socket gave less than it had, or took less than it was offered. */
    ghost var stalls: nat

    constructor ()
      ensures Valid() && inbox == sent == consumed == [] && write == frames == [] && !closed && read.None?
    {
      inbox, sent, closed, read, write := [], [], false, None, [];
      consumed, frames, stalls := [], [], 0;
    }

    ghost predicate Valid()
      reads this
    {
      && GoodRetry(read) && AllFrames(frames)
      && consumed == Concat(frames) + Partial(read)
    }

    // ----- socket -----

    /** Takes between one and `length` bytes from the socket, or none when it would block. Only between two
        frames may the socket have reached its end. */
    method TryRead(length: nat, mayEnd: bool) returns (r: Option<seq<Byte>>)
      requires length > 0
      modifies this`inbox, this`consumed, this`stalls
      ensures r.None? ==> inbox == old(inbox) && consumed == old(consumed)
      ensures r.Some? ==> old(inbox) == r.value + inbox && consumed == old(consumed) + r.value
      ensures r.Some? ==> |r.value| <= length && (r.value == [] ==> mayEnd)
      ensures old(inbox) == [] ==> r == None || r == Some([])
      ensures stalls == if (if r.Some? then |r.value| else 0) < Smaller(length, |old(inbox)|) then old(stalls) + 1 else old(stalls)
    {
      var blocked, ended := *, *;
      if blocked || (inbox == [] && !mayEnd) {
        stalls := if inbox == [] then stalls else stalls + 1;
        return None;
      }
      if inbox == [] || (mayEnd && ended) {
        stalls := if inbox == [] then stalls else stalls + 1;
        return Some([]);
      }
      var n :| 1 <= n <= length && n <= |inbox|;
      r := Some(inbox[..n]);
      stalls := if n < Smaller(length, |inbox|) then stalls + 1 else stalls;
      inbox, consumed := inbox[n..], consumed + inbox[..n];
    }

    /** Hands some of the bytes to the socket, or none when it would block. */
    method TryWrite(bytes: seq<Byte>) returns (r: Option<nat>)
      modifies this`sent, this`stalls
      ensures r.None? ==> sent == old(sent)
      ensures r.Some? ==> r.value <= |bytes| && sent == old(sent) + bytes[..r.value]
      ensures stalls == if r.None? || r.value < |bytes| then old(stalls) + 1 else old(stalls)
    {
      var blocked := *;
      if blocked {
        stalls := stalls + 1;
        return None;
      }
      var n: nat :| n <= |bytes|;
      sent := sent + bytes[..n];
      stalls := if n < |bytes| then stalls + 1 else stalls;
      r := Some(n);
    }

    // ----- reading -----

    /** Reads the length of a long frame. If the socket does not stall, all of the header that has arrived is read. */
    method ReadLengthOfLength(bytes: seq<Byte>, readSize: nat) returns (r: Option<seq<Byte>>)
      requires read.None? && GoodRetry(Some(ReadLenOfLen(bytes, readSize)))
      requires AllFrames(frames) && consumed == Concat(frames) + bytes[..1 + readSize]
      modifies this`inbox, this`consumed, this`read, this`stalls
      ensures consumed + inbox == old(consumed + inbox)
      ensures r.None? ==> Valid()
      ensures r.Some? ==> read.None? && HasHeader(r.value) && |r.value| == HeaderLength(r.value[0])
      ensures r.Some? ==> consumed == Concat(frames) + r.value
      ensures stalls >= old(stalls)
      ensures stalls == old(stalls) ==> HeaderRead(bytes[..1 + readSize] + old(inbox), r, inbox, read)
    {
      var lenOfLen := bytes[0] - 0xf7;
      var bytes', readSize' := bytes, readSize;
      var got := TryRead(lenOfLen - readSize, false);
      if got.Some? {
        bytes' := bytes[..1 + readSize] + got.value + bytes[1 + readSize + |got.value|..];
        readSize' := readSize + |got.value|;
        assert bytes'[..1 + readSize'] == bytes[..1 + readSize] + got.value;
      }
      assert bytes'[..1 + readSize'] + inbox == bytes[..1 + readSize] + old(inbox);
      if lenOfLen == readSize' {
        assert bytes'[..1 + readSize'] == bytes';
        return Some(bytes');
      }
      read := Some(ReadLenOfLen(bytes', readSize'));
      return None;
    }

    /** Reads the header of the next frame. If the socket does not stall, all of it that has arrived is read. */
    method ReadLen() returns (r: Option<seq<Byte>>)
      requires read.None? && Valid() && !closed
      modifies this`inbox, this`consumed, this`read, this`closed, this`stalls
      ensures consumed + inbox == old(consumed + inbox)
      ensures r.None? && !closed ==> Valid()
      ensures closed ==> r.None? && exists b: Byte :: b < 0xc0 && consumed == Concat(frames) + [b]
      ensures r.Some? ==> !closed && read.None? && HasHeader(r.value) && |r.value| == HeaderLength(r.value[0])
      ensures r.Some? ==> consumed == Concat(frames) + r.value
      ensures stalls >= old(stalls)
      ensures stalls == old(stalls) ==>
                && (closed <==> old(inbox) != [] && old(inbox)[0] < 0xc0)
                && (!closed ==> HeaderRead(old(inbox), r, inbox, read))
    {
      hide Concat, BigEndian;
      var got := TryRead(1, true);
      if got.None? || got.value == [] {
        return None;
      }
      var bytes := got.value;
      assert bytes == [bytes[0]] && old(inbox)[0] == bytes[0];
      if 0xf8 <= bytes[0] {
        var rest := seq(bytes[0] - 0xf7, _ => 0);
        assert (bytes + rest)[..1] == bytes;
        r := ReadLengthOfLength(bytes + rest, 0);
        return;
      }
      if 0xc0 <= bytes[0] {
        assert old(inbox)[..1] == bytes;
        return Some(bytes);
      }
      closed := true;
      return None;
    }

    /** Reads the rest of a frame whose header is there. If the socket does not stall, all of it that has arrived is
        read. */
    method ReadPayload(start: seq<Byte>) returns (r: Option<seq<Byte>>)
      requires read.None? && AllFrames(frames) && HasHeader(start) && |start| <= FrameLength(start)
      requires consumed == Concat(frames) + start
      modifies this`inbox, this`consumed, this`read, this`frames, this`stalls
      ensures Valid() && consumed + inbox == old(consumed + inbox)
      ensures r.Some? ==> IsFrame(r.value) && frames == old(frames) + [r.value] && PayloadLength(r.value) > 0
      ensures r.None? ==> frames == old(frames) || exists f :: IsFrame(f) && PayloadLength(f) == 0 && frames == old(frames) + [f]
      ensures stalls >= old(stalls)
      ensures stalls == old(stalls) ==> FrameRead(start + old(inbox), r, inbox, read)
    {
      hide Concat;
      var result := start;
      var total, header := ParseLen(result);
      SameLength(start, start + inbox);
      if total == 0 {
        assert (start + inbox)[..|start|] == start && (start + inbox)[|start|..] == inbox;
        EndFrame(result);
        return None;
      }
      var remaining := total + header - |result|;
      while remaining != 0
        invariant read.None? && start <= result && HasHeader(result) && FrameLength(result) == FrameLength(start)
        invariant remaining == FrameLength(result) - |result| >= 0
        invariant consumed == Concat(frames) + result && consumed + inbox == old(consumed + inbox)
        invariant frames == old(frames) && result + inbox == start + old(inbox) && stalls >= old(stalls)
        decreases remaining
      {
        var got := TryRead(if remaining < 1024 then remaining else 1024, false);
        if got.None? {
          read := Some(ReadBytes(result));
          assert inbox == [] ==> result + inbox == result;
          return None;
        }
        assert result + got.value + inbox == start + old(inbox);
        SameLength(result, result + got.value);
        result := result + got.value;
        remaining := remaining - |got.value|;
      }
      SameLength(start, result);
      assert (result + inbox)[..|result|] == result && (result + inbox)[|result|..] == inbox;
      EndFrame(result);
      return Some(result);
    }

    /** Notes that the bytes since the last frame are a frame. */
    ghost method EndFrame(f: seq<Byte>)
      requires read.None? && AllFrames(frames) && IsFrame(f) && consumed == Concat(frames) + f
      modifies this`frames
      ensures Valid() && frames == old(frames) + [f]
    {
      ConcatPush(frames, f);
      frames := frames + [f];
    }

    /** Takes up an interrupted read, or reads the header of the next frame. */
    method ReadStart() returns (start: Option<seq<Byte>>)
      requires Valid() && !closed
      modifies this`inbox, this`consumed, this`read, this`closed, this`stalls
      ensures consumed + inbox == old(consumed + inbox)
      ensures start.None? && !closed ==> Valid()
      ensures closed ==> start.None? && exists b: Byte :: b < 0xc0 && consumed == Concat(frames) + [b]
      ensures start.Some? ==> !closed && read.None? && HasHeader(start.value) && |start.value| <= FrameLength(start.value)
      ensures start.Some? ==> consumed == Concat(frames) + start.value
      ensures stalls >= old(stalls)
      ensures stalls == old(stalls) ==>
                var bytes := old(Partial(read) + inbox);
                && (closed <==> bytes != [] && bytes[0] < 0xc0)
                && (start.Some? ==> start.value + inbox == bytes)
                && (start.None? && !closed ==> FrameRead(bytes, None, inbox, read))
    {
      hide Concat, BigEndian, HeaderRead, FrameRead, PayloadLength;
      var retry := read;
      read := None;
      ghost var bytes := Partial(retry) + inbox;
      match retry {
        case None =>
          assert Concat(frames) + [] == Concat(frames);
          assert bytes == inbox;
          start := ReadLen();
        case Some(ReadBytes(result)) =>
          start := Some(result);
        case Some(ReadLenOfLen(bytes, readSize)) =>
          start := ReadLengthOfLength(bytes, readSize);
      }
      if stalls == old(stalls) && !closed && HeaderRead(bytes, start, inbox, read) {
        HeaderDone(bytes, start, inbox, read);
      }
    }

    /** The next message, if all of it has arrived. If the socket does not stall, it is the frame that the bytes at hand
        start with, if that is complete; if it is not, all of them are kept for the next call. */
    method ReadNext() returns (r: Option<seq<Byte>>)
      requires Valid() && !closed
      modifies this`inbox, this`consumed, this`read, this`frames, this`closed, this`stalls
      ensures consumed + inbox == old(consumed + inbox)
      ensures !closed ==> Valid()
      ensures !closed ==> Delivered(frames) == old(Delivered(frames)) + if r.Some? then [r.value] else []
      ensures closed ==> r.None? && frames == old(frames) &&
                         exists b: Byte :: b < 0xc0 && consumed == Concat(frames) + [b]
      ensures stalls >= old(stalls)
      ensures stalls == old(stalls) ==>
                var bytes := old(Partial(read) + inbox);
                && (closed <==> bytes != [] && bytes[0] < 0xc0)
                && (!closed ==> FrameRead(bytes, r, inbox, read))
    {
      hide Concat, BigEndian, FrameRead, Partial, GoodRetry;
      var start := ReadStart();
      if start.None? {
        return None;
      }
      r := ReadPayload(start.value);
      if frames != old(frames) {
        DeliveredPush(old(frames), frames[|old(frames)|]);
      }
    }

    // ----- writing -----

    method WriteBytes(bytes: seq<Byte>)
      modifies this`write
      ensures sent + Concat(write) == old(sent + Concat(write)) + bytes
    {
      ConcatPush(write, bytes);
      write := write + [bytes];
    }

    /** Sends the first message, or as much of it as the socket takes. */
    method WriteFirst() returns (done: bool)
      requires write != []
      modifies this`write, this`sent, this`stalls
      ensures sent + Concat(write) == old(sent + Concat(write)) && old(sent) <= sent
      ensures done ==> write == old(write)[1..]
      ensures stalls >= old(stalls) && (done <==> stalls == old(stalls))
    {
      var job := write[0];
      write := write[1..];
      var r := TryWrite(job);
      match r {
        case Some(n) =>
          if n == |job| {
            assert job[..n] == job;
            return true;
          }
          assert job == job[..n] + job[n..];
          write := [job[n..]] + write;
          assert write[1..] == old(write)[1..];
          return false;
        case None =>
          write := [job] + write;
          assert write == old(write);
          return false;
      }
    }

    /** Sends what is queued. If the socket does not stall, nothing is left. */
    method Flush()
      modifies this`write, this`sent, this`stalls
      ensures sent + Concat(write) == old(sent + Concat(write)) && old(sent) <= sent
      ensures stalls >= old(stalls) && (stalls == old(stalls) ==> write == [])
    {
      while write != []
        invariant sent + Concat(write) == old(sent + Concat(write)) && old(sent) <= sent && stalls >= old(stalls)
        decreases |write|
      {
        var done := WriteFirst();
        if !done {
          break;
        }
      }
    }
  }

  // ----- both ends -----

  ghost predicate NonEmpty(messages: seq<seq<Byte>>) {
    AllFrames(messages) && forall i :: 0 <= i < |messages| ==> PayloadLength(messages[i]) > 0
  }

  /** The two ends after `n` messages have been queued: the bytes sent and still queued are these messages, and
      the receiver has seen a beginning of the bytes sent. */
  ghost predicate Linked(sender: TryStream, receiver: TryStream, messages: seq<seq<Byte>>, n: nat)
    reads sender, receiver
  {
    && n <= |messages| && receiver.Valid() && !receiver.closed
    && sender.sent + Concat(sender.write) == Concat(messages[..n])
    && receiver.consumed + receiver.inbox <= sender.sent
  }

  /** All frames that were read have been delivered. */
  ghost predicate Keeps(receiver: TryStream, delivered: seq<seq<Byte>>)
    reads receiver`frames
  {
    AllFrames(receiver.frames) && delivered == receiver.frames == Delivered(receiver.frames)
  }

  /** What the receiver has read is a beginning of what was written. */
  lemma ReadIsPrefix(frames: seq<seq<Byte>>, partial: seq<Byte>, inbox: seq<Byte>, sent: seq<Byte>, queued: seq<Byte>,
                     messages: seq<seq<Byte>>, n: nat)
    requires AllFrames(frames) && NonEmpty(messages) && n <= |messages|
    requires Concat(frames) + partial + inbox <= sent && sent + queued == Concat(messages[..n])
    ensures frames <= messages[..n] && Delivered(frames) == frames
  {
    assert Concat(frames) <= Concat(frames) + partial + inbox;
    CutsFirstFrames(frames, messages[..n], sent);
    assert forall i :: 0 <= i < |frames| ==> frames[i] == messages[i];
    AllDelivered(frames);
  }

  /** A reader of well-formed messages never closes its socket. */
  lemma NeverClosed(frames: seq<seq<Byte>>, b: Byte, inbox: seq<Byte>, sent: seq<Byte>, queued: seq<Byte>,
                    messages: seq<seq<Byte>>, n: nat)
    requires AllFrames(frames) && NonEmpty(messages) && n <= |messages|
    requires Concat(frames) + [b] + inbox <= sent && sent + queued == Concat(messages[..n])
    ensures 0xc0 <= b
  {
    assert Concat(frames) + [b] <= Concat(frames) + [b] + inbox;
    assert Concat(frames) + [b] <= Concat(messages[..n]);
    NextByte(frames, b, messages[..n]);
  }

  /** The sender queues its next message. */
  method QueueStep(sender: TryStream, receiver: TryStream, messages: seq<seq<Byte>>, n: nat)
    requires sender != receiver && Linked(sender, receiver, messages, n) && n < |messages|
    modifies sender
    ensures Linked(sender, receiver, messages, n + 1) && sender.stalls == old(sender.stalls)
  {
    assert messages[..n + 1] == messages[..n] + [messages[n]];
    ConcatPush(messages[..n], messages[n]);
    sender.WriteBytes(messages[n]);
  }

  method FlushStep(sender: TryStream, receiver: TryStream, ghost messages: seq<seq<Byte>>, ghost n: nat)
    requires sender != receiver && Linked(sender, receiver, messages, n)
    modifies sender
    ensures Linked(sender, receiver, messages, n)
    ensures sender.stalls >= old(sender.stalls) && (sender.stalls == old(sender.stalls) ==> sender.write == [])
  {
    sender.Flush();
  }

  /** Some of the bytes on the way arrive. */
  method Arrive(sender: TryStream, receiver: TryStream, arrived: nat, ghost messages: seq<seq<Byte>>, ghost n: nat)
      returns (arrived': nat)
    requires sender != receiver && Linked(sender, receiver, messages, n)
    requires arrived == |receiver.consumed| + |receiver.inbox|
    modifies receiver`inbox
    ensures Linked(sender, receiver, messages, n)
    ensures arrived' == |receiver.consumed| + |receiver.inbox|
  {
    hide Concat;
    arrived' :| arrived <= arrived' <= |sender.sent|;
    assert (receiver.consumed + receiver.inbox) + sender.sent[arrived..arrived'] == sender.sent[..arrived'];
    receiver.inbox := receiver.inbox + sender.sent[arrived..arrived'];
    assert receiver.consumed + receiver.inbox == sender.sent[..arrived'];
  }

  /** The receiver looks for a message. */
  method ReadStep(sender: TryStream, receiver: TryStream, ghost messages: seq<seq<Byte>>, ghost n: nat,
                  delivered: seq<seq<Byte>>)
      returns (delivered': seq<seq<Byte>>)
    requires sender != receiver && NonEmpty(messages) && Linked(sender, receiver, messages, n)
    requires Keeps(receiver, delivered)
    modifies receiver
    ensures Linked(sender, receiver, messages, n) && Keeps(receiver, delivered')
    ensures receiver.consumed + receiver.inbox == old(receiver.consumed + receiver.inbox)
    ensures receiver.stalls >= old(receiver.stalls)
    ensures receiver.stalls == old(receiver.stalls) ==>
              (|delivered'| > |delivered| && old(receiver.inbox) != []) || (delivered' == delivered && receiver.inbox == [])
  {
    hide Concat;
    RetryIsPartial(receiver.read);
    assert Partial(receiver.read) + [] == Partial(receiver.read);
    var r := receiver.ReadNext();
    if receiver.closed {
      ghost var b: Byte :| b < 0xc0 && receiver.consumed == Concat(receiver.frames) + [b];
      NeverClosed(receiver.frames, b, receiver.inbox, sender.sent, Concat(sender.write), messages, n);
      assert false;
    }
    delivered' := if r.Some? then delivered + [r.value] else delivered;
    ReadIsPrefix(receiver.frames, Partial(receiver.read), receiver.inbox, sender.sent, Concat(sender.write), messages, n);
  }

  /** A conversation of any length in which queueing, sending, arrival and reading happen in any order and in
      pieces of any size. What has been delivered is a beginning of the messages queued so far; it is all of them once
      the sender has nothing left to send, all that was sent has arrived, and the receiver has read what has arrived. */
  method Converse(messages: seq<seq<Byte>>, steps: nat)
      returns (sender: TryStream, receiver: TryStream, queued: nat, arrived: nat, delivered: seq<seq<Byte>>)
    requires NonEmpty(messages)
    ensures fresh(sender) && fresh(receiver) && queued <= |messages| && arrived <= |sender.sent|
    ensures sender.sent + Concat(sender.write) == Concat(messages[..queued])
    ensures receiver.consumed + receiver.inbox == sender.sent[..arrived]
    ensures delivered <= messages[..queued]
    ensures sender.write == [] && arrived == |sender.sent| && receiver.inbox == [] ==> delivered == messages[..queued]
    ensures sender != receiver && Linked(sender, receiver, messages, queued) && Keeps(receiver, delivered)
  {
    hide Keeps, NonEmpty, Linked, TryStream.Valid;
    sender := new TryStream();
    receiver := new TryStream();
    queued, arrived, delivered := 0, 0, [];
    LinkedStart(sender, receiver, messages);
    for i := 0 to steps
      invariant fresh(sender) && fresh(receiver) && sender != receiver
      invariant Linked(sender, receiver, messages, queued) && arrived == |receiver.consumed| + |receiver.inbox|
      invariant Keeps(receiver, delivered)
    {
      var queue, flush, arrive := *, *, *;
      if queue && queued < |messages| {
        QueueStep(sender, receiver, messages, queued);
        queued := queued + 1;
      } else if flush {
        FlushStep(sender, receiver, messages, queued);
      } else if arrive {
        arrived := Arrive(sender, receiver, arrived, messages, queued);
      } else {
        delivered := ReadStep(sender, receiver, messages, queued, delivered);
      }
    }
    LinkedPrefix(sender, receiver, messages, queued, arrived, delivered);
  }

  /** The end of a conversation: the sender queues the rest and sends, all of it arrives, and the receiver reads once per
      message. If neither socket stalls, all messages have been delivered. */
  method Finish(sender: TryStream, receiver: TryStream, messages: seq<seq<Byte>>, queued: nat, arrived: nat,
                delivered: seq<seq<Byte>>)
      returns (delivered': seq<seq<Byte>>)
    requires NonEmpty(messages) && sender != receiver && Linked(sender, receiver, messages, queued) && Keeps(receiver, delivered)
    requires arrived == |receiver.consumed| + |receiver.inbox|
    modifies sender, receiver
    ensures delivered' <= messages
    ensures sender.stalls == old(sender.stalls) && receiver.stalls == old(receiver.stalls) ==> delivered' == messages
  {
    hide Keeps, NonEmpty, Linked, TryStream.Valid, Concat;
    LinkedPrefix(sender, receiver, messages, queued, arrived, delivered);
    for n := queued to |messages|
      invariant Linked(sender, receiver, messages, n) && sender.stalls == old(sender.stalls)
      modifies sender
    {
      QueueStep(sender, receiver, messages, n);
    }
    FlushStep(sender, receiver, messages, |messages|);
    ArriveAll(sender, receiver, arrived, messages);
    delivered' := delivered;
    for k := 0 to |messages|
      invariant Linked(sender, receiver, messages, |messages|) && Keeps(receiver, delivered')
      invariant |receiver.consumed| + |receiver.inbox| == |sender.sent| && receiver.stalls >= old(receiver.stalls)
      invariant receiver.stalls == old(receiver.stalls) ==> |delivered'| >= k || receiver.inbox == []
      modifies receiver
    {
      ghost var before := |receiver.consumed| + |receiver.inbox|;
      delivered' := ReadStep(sender, receiver, messages, |messages|, delivered');
      assert |receiver.consumed| + |receiver.inbox| == |receiver.consumed + receiver.inbox| == before;
    }
    LinkedPrefix(sender, receiver, messages, |messages|, |sender.sent|, delivered');
    assert messages[..|messages|] == messages;
  }

  /** Everything that was sent arrives. */
  method ArriveAll(sender: TryStream, receiver: TryStream, arrived: nat, ghost messages: seq<seq<Byte>>)
    requires sender != receiver && Linked(sender, receiver, messages, |messages|)
    requires arrived == |receiver.consumed| + |receiver.inbox|
    modifies receiver`inbox
    ensures Linked(sender, receiver, messages, |messages|) && |receiver.consumed| + |receiver.inbox| == |sender.sent|
  {
    hide Concat;
    assert (receiver.consumed + receiver.inbox) + sender.sent[arrived..] == sender.sent;
    receiver.inbox := receiver.inbox + sender.sent[arrived..];
    assert receiver.consumed + receiver.inbox == sender.sent;
  }

  lemma LinkedStart(sender: TryStream, receiver: TryStream, messages: seq<seq<Byte>>)
    requires sender.sent == receiver.inbox == receiver.consumed == [] && sender.write == receiver.frames == []
    requires receiver.Valid() && !receiver.closed
    ensures Linked(sender, receiver, messages, 0) && Keeps(receiver, [])
  {
    assert messages[..0] == [];
  }

  /** What was read is a beginning of the queued messages, and all of them when nothing is on the way. */
  lemma LinkedPrefix(sender: TryStream, receiver: TryStream, messages: seq<seq<Byte>>, n: nat, arrived: nat, delivered: seq<seq<Byte>>)
    requires NonEmpty(messages) && Linked(sender, receiver, messages, n) && Keeps(receiver, delivered)
    requires arrived == |receiver.consumed| + |receiver.inbox|
    ensures n <= |messages| && arrived <= |sender.sent| && receiver.consumed + receiver.inbox == sender.sent[..arrived]
    ensures sender.sent + Concat(sender.write) == Concat(messages[..n])
    ensures delivered <= messages[..n]
    ensures sender.write == [] && arrived == |sender.sent| && receiver.inbox == [] ==> delivered == messages[..n]
  {
    hide Concat;
    ReadIsPrefix(receiver.frames, Partial(receiver.read), receiver.inbox, sender.sent, Concat(sender.write), messages, n);
    if sender.write == [] && arrived == |sender.sent| && receiver.inbox == [] {
      RetryIsPartial(receiver.read);
      NothingQueued(sender.sent);
      CutsAllFrames(receiver.frames, Partial(receiver.read), messages[..n]);
    }
  }

  lemma NothingQueued(sent: seq<Byte>)
    ensures sent + Concat([]) == sent
  {
  }
}
