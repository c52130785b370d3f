/**
  stream_buffer.c on a byte array: the copies in one or two parts, the two counts, and
  the send and receive calls of stream buffers and of message buffers.
*/
module StreamBuffers {
  import opened Bytes
  import opened ItemRings
  import opened MessageFraming
  import SP = StreamProtocol

  /** n bytes of a ring, from a place on. */
  ghost function Window(b: seq<byte>, at: nat, n: nat): (r: seq<byte>)
    requires at < |b| && n <= |b|
    ensures |r| == n
    ensures forall i :: 0 <= i < n ==> r[i] == b[Around(at + i, |b|)]
  {
    seq(n, i requires 0 <= i < n => b[Around(at + i, |b|)])
  }

  /** How far place j is from place at, around the ring. */
  function Distance(at: nat, j: nat, len: nat): (r: nat)
    requires at < len && j < len
    ensures r < len && Around(at + r, len) == j
  {
    if j >= at then j - at else j + len - at
  }

  /** data has been written from a place on, and nothing else has changed. */
  ghost predicate Wrote(was: seq<byte>, now: seq<byte>, at: nat, data: seq<byte>) {
    && at < |was| == |now| && |data| <= |was|
    && (forall i :: 0 <= i < |data| ==> now[Around(at + i, |was|)] == data[i])
    && (forall j :: 0 <= j < |was| && |data| <= Distance(at, j, |was|) ==> now[j] == was[j])
  }

  /** A place in a window is at least as far from the end of the window as the window leaves room. */
  lemma DistanceFromEnd(at: nat, used: nat, i: nat, len: nat)
    requires at < len && i < used <= len
    ensures Distance(Around(at + used, len), Around(at + i, len), len) >= len - used
  {
  }

  /** What is written behind a window does not touch it. */
  lemma WroteElsewhere(was: seq<byte>, now: seq<byte>, tail: nat, used: nat, data: seq<byte>)
    requires tail < |was| && used + |data| <= |was|
    requires Wrote(was, now, Around(tail + used, |was|), data)
    ensures Window(now, tail, used) == Window(was, tail, used)
  {
    hide Around, Distance, Window;
    forall i | 0 <= i < used ensures Window(now, tail, used)[i] == Window(was, tail, used)[i] {
      DistanceFromEnd(tail, used, i, |was|);
    }
  }

  /** Writing behind a window makes it longer by what was written. */
  lemma WroteBehind(was: seq<byte>, now: seq<byte>, tail: nat, used: nat, data: seq<byte>)
    requires tail < |was| && used + |data| <= |was|
    requires Wrote(was, now, Around(tail + used, |was|), data)
    ensures Window(now, tail, used + |data|) == Window(was, tail, used) + data
  {
    WroteElsewhere(was, now, tail, used, data);
    WindowSplit(now, tail, used + |data|, used);
    hide Around, Distance, Window;
    var all := Window(now, tail, used + |data|);
    forall i | 0 <= i < |data| ensures all[used + i] == data[i] {
      SP.PlacesGoOn(tail, |was|, used, i);
    }
    assert all == all[..used] + all[used..];
  }

  /** Writing on from where a first write ended is one longer write. */
  lemma WroteTwice(was: seq<byte>, middle: seq<byte>, now: seq<byte>, at: nat, a: seq<byte>, b: seq<byte>)
    requires at < |was| && |a| + |b| <= |was| && Wrote(was, middle, at, a)
    requires Wrote(middle, now, Around(at + |a|, |was|), b)
    ensures Wrote(was, now, at, a + b)
  {
    hide Around, Distance, Wrote;
    TwiceWritten(was, middle, now, at, a, b);
    TwiceUntouched(was, middle, now, at, a, b);
    hide *;
    IsWrote(was, now, at, a + b);
  }

  lemma IsWrote(was: seq<byte>, now: seq<byte>, at: nat, data: seq<byte>)
    requires at < |was| == |now| && |data| <= |was|
    requires forall i :: 0 <= i < |data| ==> now[Around(at + i, |was|)] == data[i]
    requires forall j :: 0 <= j < |was| && |data| <= Distance(at, j, |was|) ==> now[j] == was[j]
    ensures Wrote(was, now, at, data)
  {
  }

  lemma TwiceWritten(was: seq<byte>, middle: seq<byte>, now: seq<byte>, at: nat, a: seq<byte>, b: seq<byte>)
    requires at < |was| && |a| + |b| <= |was| && Wrote(was, middle, at, a)
    requires Wrote(middle, now, Around(at + |a|, |was|), b)
    ensures |now| == |was| && forall i :: 0 <= i < |a + b| ==> now[Around(at + i, |was|)] == (a + b)[i]
  {
    hide Around, Distance;
    var len := |was|;
    forall i | 0 <= i < |a + b| ensures now[Around(at + i, len)] == (a + b)[i] {
      if i < |a| {
        DistanceFromEnd(at, |a|, i, len);
      } else {
        SP.PlacesGoOn(at, len, |a|, i - |a|);
      }
    }
  }

  lemma TwiceUntouched(was: seq<byte>, middle: seq<byte>, now: seq<byte>, at: nat, a: seq<byte>, b: seq<byte>)
    requires at < |was| && |a| + |b| <= |was| && Wrote(was, middle, at, a)
    requires Wrote(middle, now, Around(at + |a|, |was|), b)
    ensures |now| == |was| && forall j :: 0 <= j < |was| && |a + b| <= Distance(at, j, |was|) ==> now[j] == was[j]
  {
    hide Around, Distance;
    forall j | 0 <= j < |was| && |a + b| <= Distance(at, j, |was|) ensures now[j] == was[j] {
      DistanceOn(at, |a|, j, |was|);
    }
  }

  lemma DistanceOn(at: nat, n: nat, j: nat, len: nat)
    requires at < len && j < len && n <= Distance(at, j, len)
    ensures Distance(Around(at + n, len), j, len) == Distance(at, j, len) - n
  {
  }

  lemma WindowSplit(b: seq<byte>, at: nat, n: nat, k: nat)
    requires at < |b| && k <= n <= |b|
    ensures Window(b, at, n)[..k] == Window(b, at, k)
    ensures Window(b, at, n)[k..] == Window(b, Around(at + k, |b|), n - k)
  {
    var rest := Window(b, at, n)[k..];
    assert forall i :: 0 <= i < n - k ==> rest[i] == b[Around(at + (k + i), |b|)];
  }

  lemma WindowInside(b: seq<byte>, at: nat, n: nat, k: nat, m: nat)
    requires at < |b| && k + m <= n <= |b|
    ensures Window(b, Around(at + k, |b|), m) == Window(b, at, n)[k..k + m]
  {
    var part := Window(b, at, n)[k..k + m];
    assert forall i :: 0 <= i < m ==> part[i] == b[Around(at + (k + i), |b|)];
  }

  /** What a receiver finds at the front of a message buffer. */
  lemma FirstMessage(b: seq<byte>)
    requires Framed(b) && b != []
    ensures |b| > PREFIX
    ensures var n := FromBytes(b[..PREFIX]);
            && 0 < n && PREFIX + n <= |b| && Framed(b[PREFIX + n..])
            && Messages(b) == [b[PREFIX..PREFIX + n]] + Messages(b[PREFIX + n..])
  {
    assert FromBytes(b[..PREFIX]) == FromBytes(b);
  }

  class StreamBuffer {
    const buffer: array<byte>
    const isMessageBuffer: bool
    var head: nat
    var tail: nat

    ghost predicate Valid()
      reads this
    {
      1 < buffer.Length && head < buffer.Length && tail < buffer.Length
    }

    /** The bytes that have been sent and not received. */
    ghost function Contents(): seq<byte>
      reads this, buffer
      requires Valid()
    {
      Window(buffer[..], tail, SP.Used(head, tail, buffer.Length))
    }

    /** The storage holds one byte more than the size asked for. */
    constructor (size: nat, messages: bool)
      requires 0 < size
      ensures Valid() && fresh(buffer) && Contents() == [] && isMessageBuffer == messages
      ensures buffer.Length == size + 1
    {
      buffer := new byte[size + 1];
      isMessageBuffer := messages;
      head, tail := 0, 0;
    }

    /** prvBytesInBuffer */
    method BytesInBuffer() returns (count: nat)
      requires Valid()
      ensures count == |Contents()|
    {
      count := buffer.Length + head;
      count := count - tail;
      if count >= buffer.Length {
        count := count - buffer.Length;
      }
    }

    /** xStreamBufferSpacesAvailable, when nobody moves the tail meanwhile. */
    method SpacesAvailable() returns (space: nat)
      requires Valid()
      ensures space + |Contents()| == buffer.Length - 1
    {
      space := buffer.Length + tail;
      space := space - head;
      space := space - 1;
      if space >= buffer.Length {
        space := space - buffer.Length;
      }
    }

    /** A copy up to the end of the ring, and the rest from its start, is a write around the ring. */
    static lemma CopiedIsWrote(was: seq<byte>, now: seq<byte>, at: nat, data: seq<byte>, first: nat)
      requires at < |was| == |now| && |data| <= |was|
      requires first == if |was| - at < |data| then |was| - at else |data|
      requires forall j :: 0 <= j < |was| ==>
                 now[j] == if at <= j < at + first then data[j - at]
                           else if j < |data| - first then data[first + j] else was[j]
      ensures Wrote(was, now, at, data)
    {
    }

    /** prvWriteBytesToBuffer */
    method WriteBytes(data: seq<byte>, at: nat) returns (next: nat)
      requires 0 < |data| <= buffer.Length && at < buffer.Length
      modifies buffer
      ensures Wrote(old(buffer[..]), buffer[..], at, data)
      ensures next == Around(at + |data|, buffer.Length)
    {
      hide Wrote, Distance;
      var len := buffer.Length;
      var first := if len - at < |data| then len - at else |data|;
      forall i | 0 <= i < first {
        buffer[at + i] := data[i];
      }
      if |data| > first {
        forall i | 0 <= i < |data| - first {
          buffer[i] := data[first + i];
        }
      }
      CopiedIsWrote(old(buffer[..]), buffer[..], at, data, first);
      next := at + |data|;
      if next >= len {
        next := next - len;
      }
    }

    /** prvReadBytesFromBuffer */
    method ReadBytes(count: nat, at: nat) returns (data: seq<byte>, next: nat)
      requires 0 < count <= buffer.Length && at < buffer.Length
      ensures data == Window(buffer[..], at, count)
      ensures next == Around(at + count, buffer.Length)
    {
      var len := buffer.Length;
      var first := if len - at < count then len - at else count;
      data := buffer[at..at + first];
      if count > first {
        data := data + buffer[..count - first];
      }
      next := at + count;
      if next >= len {
        next := next - len;
      }
    }

    /** What a write behind the contents does to them once the head has moved over it. */
    static lemma HeadMoves(was: seq<byte>, now: seq<byte>, tail: nat, head: nat, next: nat, data: seq<byte>)
      requires tail < |was| && head < |was| && Wrote(was, now, head, data)
      requires SP.Used(head, tail, |was|) + |data| < |was| && next == Around(head + |data|, |was|)
      ensures SP.Used(next, tail, |was|) == SP.Used(head, tail, |was|) + |data|
      ensures Window(now, tail, SP.Used(next, tail, |was|)) == Window(was, tail, SP.Used(head, tail, |was|)) + data
    {
      SP.UsedAndSpaces(head, tail, |was|);
      WroteBehind(was, now, tail, SP.Used(head, tail, |was|), data);
    }

    /** A message of length n, behind its prefix, or nothing if it does not fit. */
    static function MessageSent(contents: seq<byte>, len: nat, data: seq<byte>): seq<byte>
      requires |data| <= MAX_LENGTH
    {
      if data == [] || |contents| + |data| + PREFIX >= len then contents else contents + Frame(data)
    }

    /** As much of a stream as there is room for. */
    static function StreamSent(contents: seq<byte>, len: nat, data: seq<byte>): seq<byte>
      requires |contents| < len
    {
      var space := len - 1 - |contents|;
      contents + if |data| <= space then data else data[..space]
    }

    /** prvWriteMessageToBuffer, for a message buffer. */
    method WriteMessage(data: seq<byte>, space: nat) returns (sent: nat)
      requires Valid() && isMessageBuffer && |data| <= MAX_LENGTH
      requires space + |Contents()| == buffer.Length - 1
      modifies `head, buffer
      ensures Valid() && Contents() == MessageSent(old(Contents()), buffer.Length, data)
      ensures sent == if Contents() == old(Contents()) then 0 else |data|
    {
      hide Window, Wrote, SP.Used, ToBytes, Around;
      ghost var was, used := buffer[..], SP.Used(head, tail, buffer.Length);
      SP.HeadCounts(head, tail, buffer.Length, 0);
      sent := 0;
      if space >= |data| + PREFIX {
        var next := WriteBytes(ToBytes(|data|), head);
        ghost var middle := buffer[..];
        if data != [] {
          var after := WriteBytes(data, next);
          WroteTwice(was, middle, buffer[..], head, ToBytes(|data|), data);
          AfterBoth(head, |data|, buffer.Length);
          HeadMoves(was, buffer[..], tail, head, after, Frame(data));
          head := after;
          sent := |data|;
        } else {
          WroteElsewhere(was, middle, tail, used, ToBytes(|data|));
        }
      }
    }

    static lemma AfterBoth(at: nat, n: nat, len: nat)
      requires at < len && PREFIX + n < len
      ensures Around(Around(at + PREFIX, len) + n, len) == Around(at + (PREFIX + n), len)
    {
      SP.PlacesGoOn(at, len, PREFIX, n);
    }

    /** prvWriteMessageToBuffer, for a stream buffer. */
    method WriteStream(data: seq<byte>, space: nat) returns (sent: nat)
      requires Valid() && !isMessageBuffer
      requires space + |Contents()| == buffer.Length - 1
      modifies `head, buffer
      ensures Valid() && Contents() == StreamSent(old(Contents()), buffer.Length, data)
      ensures sent == |Contents()| - |old(Contents())|
    {
      ghost var was := buffer[..];
      sent := if |data| < space then |data| else space;
      if sent != 0 {
        var next := WriteBytes(data[..sent], head);
        HeadMoves(was, buffer[..], tail, head, next, data[..sent]);
        head := next;
      }
    }

    /** xStreamBufferSend without waiting, and xStreamBufferSendFromISR. */
    method Send(data: seq<byte>) returns (sent: nat)
      requires Valid() && (isMessageBuffer ==> |data| + PREFIX <= MAX_LENGTH)
      modifies `head, buffer
      ensures Valid()
      ensures Contents() == if isMessageBuffer then MessageSent(old(Contents()), buffer.Length, data)
                            else StreamSent(old(Contents()), buffer.Length, data)
      ensures sent == if Contents() == old(Contents()) then 0
                      else if isMessageBuffer then |data| else |Contents()| - |old(Contents())|
    {
      var space := SpacesAvailable();
      if isMessageBuffer {
        sent := WriteMessage(data, space);
      } else {
        sent := WriteStream(data, space);
      }
    }

    /** The tail moves on over the first n bytes of the contents. */
    lemma TailMoves(next: nat, n: nat)
      requires Valid() && n <= |Contents()| && next == Around(tail + n, buffer.Length)
      ensures SP.Used(head, next, buffer.Length) == |Contents()| - n
      ensures Window(buffer[..], next, SP.Used(head, next, buffer.Length)) == Contents()[n..]
    {
      SP.UsedAndSpaces(head, tail, buffer.Length);
      WindowSplit(buffer[..], tail, |Contents()|, n);
    }

    /** prvReadMessageFromBuffer, for a stream buffer. */
    method ReadStream(capacity: nat, available: nat) returns (data: seq<byte>)
      requires Valid() && available == |Contents()|
      modifies `tail
      ensures Valid()
      ensures data == old(Contents())[..if capacity < available then capacity else available]
      ensures Contents() == old(Contents())[|data|..]
    {
      var count := if capacity < available then capacity else available;
      data := [];
      if count != 0 {
        var next;
        data, next := ReadBytes(count, tail);
        WindowSplit(buffer[..], tail, available, count);
        TailMoves(next, count);
        tail := next;
      }
    }

    /** The length in front of the first message, and where the message begins. */
    method ReadLength() returns (length: nat, next: nat)
      requires Valid() && |Contents()| > PREFIX && Framed(Contents())
      ensures next == Around(tail + PREFIX, buffer.Length)
      ensures 0 < length && PREFIX + length <= |Contents()|
      ensures Framed(Contents()[PREFIX + length..])
      ensures Messages(Contents()) == [Contents()[PREFIX..PREFIX + length]] + Messages(Contents()[PREFIX + length..])
    {
      hide Window, Messages, Framed, FromBytes, SP.Used;
      ghost var all := Contents();
      FirstMessage(all);
      SP.UsedAndSpaces(head, tail, buffer.Length);
      var prefix;
      prefix, next := ReadBytes(PREFIX, tail);
      WindowSplit(buffer[..], tail, |all|, PREFIX);
      length := FromBytes(prefix);
    }

    /** The bytes behind the length, after which the tail moves over both. */
    method TakeBody(next: nat, count: nat) returns (data: seq<byte>)
      requires Valid() && 0 < count && PREFIX + count <= |Contents()| && next == Around(tail + PREFIX, buffer.Length)
      modifies `tail
      ensures Valid() && data == old(Contents())[PREFIX..PREFIX + count]
      ensures Contents() == old(Contents())[PREFIX + count..]
    {
      hide Window, SP.Used;
      SP.UsedAndSpaces(head, tail, buffer.Length);
      var after;
      data, after := ReadBytes(count, next);
      WindowInside(buffer[..], tail, |Contents()|, PREFIX, count);
      SP.PlacesGoOn(tail, buffer.Length, PREFIX, count);
      TailMoves(after, PREFIX + count);
      tail := after;
    }

    /** prvReadMessageFromBuffer, for a message buffer that holds something. */
    method ReadMessage(capacity: nat, available: nat) returns (data: seq<byte>)
      requires Valid() && available == |Contents()| > PREFIX && Framed(Contents())
      modifies `tail
      ensures Valid() && Framed(Contents())
      ensures var first := Messages(old(Contents()))[0];
              if |first| <= capacity
              then data == first && [first] + Messages(Contents()) == Messages(old(Contents()))
              else data == [] && Contents() == old(Contents())
    {
      hide Contents, Messages, Framed;
      var length, next := ReadLength();
      var rest := available - PREFIX;
      if length > capacity {
        length := 0;
      }
      var count := if length < rest then length else rest;
      data := [];
      if count != 0 {
        data := TakeBody(next, count);
      }
    }

    /** xStreamBufferReceive without waiting, on a message buffer. */
    method ReceiveMessage(capacity: nat) returns (data: seq<byte>)
      requires Valid() && isMessageBuffer && Framed(Contents())
      modifies `tail
      ensures Valid() && Framed(Contents())
      ensures var ms := Messages(old(Contents()));
              if ms != [] && |ms[0]| <= capacity
              then data == ms[0] && Messages(Contents()) == ms[1..]
              else data == [] && Contents() == old(Contents())
    {
      var available := BytesInBuffer();
      data := [];
      if available > PREFIX {
        data := ReadMessage(capacity, available);
      }
    }

    /** xStreamBufferReceive without waiting, on a stream buffer. */
    method ReceiveStream(capacity: nat) returns (data: seq<byte>)
      requires Valid() && !isMessageBuffer
      modifies `tail
      ensures Valid()
      ensures data + Contents() == old(Contents())
      ensures |data| == if capacity < |old(Contents())| then capacity else |old(Contents())|
    {
      var available := BytesInBuffer();
      data := [];
      if available > 0 {
        data := ReadStream(capacity, available);
      }
    }

    /** xStreamBufferNextMessageLengthBytes */
    method NextMessageLength() returns (length: nat)
      requires Valid() && (isMessageBuffer ==> Framed(Contents()))
      ensures if isMessageBuffer && Contents() != [] then length == |Messages(Contents())[0]| else length == 0
    {
      hide Framed, Messages, Window, SP.Used;
      length := 0;
      if isMessageBuffer {
        var available := BytesInBuffer();
        if available > PREFIX {
          var first, _ := ReadLength();
          length := first;
        } else {
          NoneIfShort(Contents());
        }
      }
    }
  }

  lemma NoneIfShort(b: seq<byte>)
    requires Framed(b) && |b| <= PREFIX
    ensures b == []
  {
  }

  /** A send to a message buffer appends the whole message, or nothing if it is empty or
      does not fit. */
  lemma SendAppendsOneMessage(contents: seq<byte>, len: nat, data: seq<byte>)
    requires Framed(contents) && |data| <= MAX_LENGTH
    ensures var after := StreamBuffer.MessageSent(contents, len, data);
            && Framed(after)
            && Messages(after) == if data != [] && |contents| + |data| + PREFIX < len
                                  then Messages(contents) + [data] else Messages(contents)
  {
    if data != [] {
      FrameBehind(contents, data);
    }
  }

  /** A send to a stream buffer appends the beginning of the data, all of it or as much as fills
      the buffer up. */
  lemma StreamTakesWhatFits(contents: seq<byte>, len: nat, data: seq<byte>)
    requires |contents| < len
    ensures var after := StreamBuffer.StreamSent(contents, len, data);
            && contents <= after && |after| < len
            && after[|contents|..] <= data
            && (|after| == len - 1 || after[|contents|..] == data)
  {
  }
}
