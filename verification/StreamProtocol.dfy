/**
  One writer and one reader share the byte ring of stream_buffer.c without a lock. Every
  read of the other side's index, every byte copied and every index published is a step
  of its own, and the two sides interleave freely. Each side works with what it last read
  of the other's index, and publishes its own index only after its copies.
*/
module StreamProtocol {
  import opened Bytes
  import opened ItemRings

  datatype Writer =
    | WriterIdle
    | Looking(original: nat)                          // xTail has been read once
    | Comparing(original: nat, space: nat)            // and read again for the subtraction
    | Sized(space: nat)
    | Writing(space: nat, data: seq<byte>, k: nat)    // k bytes of data are in the ring

  datatype Reader =
    | ReaderIdle
    | Reading(avail: nat, out: seq<byte>)             // what has been copied out so far

  datatype State = State(
    buf: seq<byte>, head: nat, tail: nat,
    writer: Writer, reader: Reader,
    accepted: seq<byte>,      // everything published by the writer
    delivered: seq<byte>)     // everything published as consumed by the reader

  /** prvBytesInBuffer */
  function Used(head: nat, tail: nat, len: nat): nat
    requires head < len && tail < len
  {
    var count := len + head - tail;
    if count >= len then count - len else count
  }

  /** The subtraction of xStreamBufferSpacesAvailable. */
  function Spaces(head: nat, tail: nat, len: nat): nat
    requires head < len && tail < len
  {
    var space := len + tail - head - 1;
    if space >= len then space - len else space
  }

  datatype Step =
    | LookAtTail               // writer: the first read of the loop
    | Subtract                 // writer: the second read
    | Compare                  // writer: the third read, which may repeat the loop
    | Begin(data: seq<byte>)   // writer: a length within the space it has seen
    | WriteByte
    | PublishHead
    | DropWrite                // writer: nothing to publish, as for a message of no bytes
    | LookAtHead               // reader
    | ReadByte
    | PublishTail
    | DropRead                 // reader: leave the bytes, as for a buffer that is too small

  ghost predicate Enabled(s: State, step: Step) {
    match step
    case LookAtTail => s.writer.WriterIdle? || s.writer.Sized?
    case Subtract => s.writer.Looking?
    case Compare => s.writer.Comparing?
    case Begin(data) => s.writer.Sized? && |data| <= s.writer.space
    case WriteByte => s.writer.Writing? && s.writer.k < |s.writer.data|
    case PublishHead => s.writer.Writing? && s.writer.k == |s.writer.data|
    case DropWrite => s.writer.Writing? || s.writer.Sized?
    case LookAtHead => s.reader.ReaderIdle?
    case ReadByte => s.reader.Reading? && |s.reader.out| < s.reader.avail
    case PublishTail => s.reader.Reading?
    case DropRead => s.reader.Reading?
  }

  ghost predicate Bounds(s: State) {
    && 0 < |s.buf| && s.head < |s.buf| && s.tail < |s.buf|
    && (s.writer.Writing? ==> s.writer.k <= |s.writer.data| <= s.writer.space < |s.buf|)
    && (s.reader.Reading? ==> |s.reader.out| <= s.reader.avail < |s.buf|)
  }

  function Next(s: State, step: Step): State
    requires Bounds(s) && Enabled(s, step)
  {
    var len := |s.buf|;
    match step
    case LookAtTail => s.(writer := Looking(s.tail))
    case Subtract => s.(writer := Comparing(s.writer.original, Spaces(s.head, s.tail, len)))
    case Compare =>
      if s.writer.original != s.tail then s.(writer := Looking(s.tail))
      else s.(writer := Sized(s.writer.space))
    case Begin(data) => s.(writer := Writing(s.writer.space, data, 0))
    case WriteByte =>
      s.(buf := s.buf[Around(s.head + s.writer.k, len) := s.writer.data[s.writer.k]],
         writer := s.writer.(k := s.writer.k + 1))
    case PublishHead =>
      s.(head := Around(s.head + |s.writer.data|, len), writer := WriterIdle,
         accepted := s.accepted + s.writer.data)
    case DropWrite => s.(writer := WriterIdle)
    case LookAtHead => s.(reader := Reading(Used(s.head, s.tail, len), []))
    case ReadByte =>
      s.(reader := s.reader.(out := s.reader.out + [s.buf[Around(s.tail + |s.reader.out|, len)]]))
    case PublishTail =>
      s.(tail := Around(s.tail + |s.reader.out|, len), reader := ReaderIdle,
         delivered := s.delivered + s.reader.out)
    case DropRead => s.(reader := ReaderIdle)
  }

  /** The published bytes that have not been consumed. */
  ghost function Pending(s: State): (r: seq<byte>)
    requires Bounds(s)
    ensures |r| == Used(s.head, s.tail, |s.buf|)
    ensures forall i :: 0 <= i < |r| ==> r[i] == s.buf[Around(s.tail + i, |s.buf|)]
  {
    seq(Used(s.head, s.tail, |s.buf|),
        i requires 0 <= i < Used(s.head, s.tail, |s.buf|) => s.buf[Around(s.tail + i, |s.buf|)])
  }

  /** What the writer last computed never exceeds the space there is. */
  ghost predicate WriterSound(s: State)
    requires Bounds(s)
  {
    && (s.writer.Comparing? || s.writer.Sized? || s.writer.Writing? ==>
          s.writer.space <= Spaces(s.head, s.tail, |s.buf|))
    && (s.writer.Looking? || s.writer.Comparing? ==>
          s.writer.original < |s.buf| && Spaces(s.head, s.writer.original, |s.buf|) <= Spaces(s.head, s.tail, |s.buf|))
    && (s.writer.Comparing? ==> Spaces(s.head, s.writer.original, |s.buf|) <= s.writer.space)
    && (s.writer.Writing? ==>
          forall i :: 0 <= i < s.writer.k ==> s.buf[Around(s.head + i, |s.buf|)] == s.writer.data[i])
  }

  /** What the reader last computed never exceeds the bytes there are. */
  ghost predicate ReaderSound(s: State)
    requires Bounds(s)
  {
    s.reader.Reading? ==> s.reader.avail <= |Pending(s)| && s.reader.out <= Pending(s)
  }

  ghost predicate Inv(s: State) {
    && Bounds(s)
    && WriterSound(s) && ReaderSound(s)
    && s.accepted == s.delivered + Pending(s)
  }

  /** The two counts always add up to one less than the length of the ring. */
  lemma UsedAndSpaces(head: nat, tail: nat, len: nat)
    requires head < len && tail < len
    ensures Used(head, tail, len) + Spaces(head, tail, len) == len - 1
    ensures head == Around(tail + Used(head, tail, len), len)
  {
  }

  /** No byte the writer may touch is one the reader may touch. */
  lemma SidesAreApart(s: State, i: nat, j: nat)
    requires Inv(s) && s.writer.Writing? && i < s.writer.space
    requires j < Used(s.head, s.tail, |s.buf|)
    ensures Around(s.head + i, |s.buf|) != Around(s.tail + j, |s.buf|)
  {
    hide Used, Spaces, Around, Pending;
    PlacesApart(s.head, s.tail, |s.buf|, i, j);
  }

  lemma WriteByteKeeps(s: State)
    requires Inv(s) && Enabled(s, WriteByte)
    ensures Inv(Next(s, WriteByte)) && Pending(Next(s, WriteByte)) == Pending(s)
  {
    hide Spaces, Used, Pending, Around;
    var t := Next(s, WriteByte);
    WriteTouches(s, t, s.writer.k, s.writer.data[s.writer.k]);
    WriteStays(s.buf, s.head, s.writer.data, s.writer.k);
  }

  /** The byte written is behind everything pending. */
  lemma WriteTouches(s: State, t: State, k: nat, x: byte)
    requires Bounds(s) && Bounds(t) && t.head == s.head && t.tail == s.tail && k < Spaces(s.head, s.tail, |s.buf|)
    requires k < |s.buf| && t.buf == s.buf[Around(s.head + k, |s.buf|) := x]
    ensures Pending(t) == Pending(s)
  {
    hide Spaces, Used, Pending, Around;
    var p, q := Pending(s), Pending(t);
    forall i | 0 <= i < |p| ensures q[i] == p[i] {
      PlacesApart(s.head, s.tail, |s.buf|, k, i);
    }
  }

  /** And behind what has been written before. */
  lemma WriteStays(buf: seq<byte>, head: nat, data: seq<byte>, k: nat)
    requires head < |buf| && k < |data| <= |buf|
    requires forall i :: 0 <= i < k ==> buf[Around(head + i, |buf|)] == data[i]
    ensures var now := buf[Around(head + k, |buf|) := data[k]];
            forall i :: 0 <= i < k + 1 ==> now[Around(head + i, |buf|)] == data[i]
  {
    hide Around;
    var now := buf[Around(head + k, |buf|) := data[k]];
    forall i | 0 <= i < k + 1 ensures now[Around(head + i, |buf|)] == data[i] {
      if i < k {
        PlacesDiffer(head, |buf|, i, k);
      }
    }
  }

  /** Free place i, counted from the head, is not used place j, counted from the tail. */
  lemma PlacesApart(head: nat, tail: nat, len: nat, i: nat, j: nat)
    requires head < len && tail < len && i < Spaces(head, tail, len) && j < Used(head, tail, len)
    ensures Around(head + i, len) != Around(tail + j, len)
  {
  }

  lemma PlacesDiffer(at: nat, len: nat, i: nat, j: nat)
    requires at < len && i < j < len
    ensures Around(at + i, len) != Around(at + j, len)
  {
  }

  /** Going on from a place further round is going on from the start. */
  lemma PlacesGoOn(at: nat, len: nat, n: nat, i: nat)
    requires at < len && n + i < len
    ensures Around(at + (n + i), len) == Around(Around(at + n, len) + i, len)
  {
  }

  lemma PublishHeadKeeps(s: State)
    requires Inv(s) && Enabled(s, PublishHead)
    ensures Inv(Next(s, PublishHead)) && Pending(Next(s, PublishHead)) == Pending(s) + s.writer.data
  {
    hide Used, Spaces, Around, Pending;
    var t, d := Next(s, PublishHead), s.writer.data;
    HeadMoves(s, t, d);
    assert s.accepted + d == s.delivered + (Pending(s) + d);
  }

  /** Moving the head over n bytes that have been written appends them to what is pending. */
  lemma HeadMoves(s: State, t: State, d: seq<byte>)
    requires Bounds(s) && Bounds(t) && |d| <= Spaces(s.head, s.tail, |s.buf|)
    requires t.buf == s.buf && t.tail == s.tail && t.head == Around(s.head + |d|, |s.buf|)
    requires forall i :: 0 <= i < |d| ==> s.buf[Around(s.head + i, |s.buf|)] == d[i]
    ensures Pending(t) == Pending(s) + d
    ensures Spaces(t.head, t.tail, |t.buf|) == Spaces(s.head, s.tail, |s.buf|) - |d|
  {
    hide Used, Spaces, Pending, Around;
    var p, q := Pending(s), Pending(t);
    HeadCounts(s.head, s.tail, |s.buf|, |d|);
    forall i | 0 <= i < |q| ensures q[i] == (p + d)[i] {
      if i >= |p| {
        PlacesGoOn(s.tail, |s.buf|, |p|, i - |p|);
      }
    }
  }

  /** What the head of a ring does to the counts when it moves n places on. */
  lemma HeadCounts(head: nat, tail: nat, len: nat, n: nat)
    requires head < len && tail < len && n <= Spaces(head, tail, len)
    ensures Used(Around(head + n, len), tail, len) == Used(head, tail, len) + n < len
    ensures Spaces(Around(head + n, len), tail, len) == Spaces(head, tail, len) - n
    ensures head == Around(tail + Used(head, tail, len), len)
  {
  }

  /** And its tail. */
  lemma TailCounts(head: nat, tail: nat, len: nat, n: nat)
    requires head < len && tail < len && n <= Used(head, tail, len)
    ensures Used(head, Around(tail + n, len), len) == Used(head, tail, len) - n
    ensures Spaces(head, Around(tail + n, len), len) == Spaces(head, tail, len) + n
    ensures Used(head, tail, len) < len
  {
  }

  lemma ReadByteKeeps(s: State)
    requires Inv(s) && Enabled(s, ReadByte)
    ensures Inv(Next(s, ReadByte))
  {
    hide Pending, Used, Around;
    SamePending(s, Next(s, ReadByte));
  }

  /** Moving the tail n bytes on drops the first n pending bytes. */
  lemma TailMoves(s: State, t: State, n: nat)
    requires Bounds(s) && Bounds(t) && n <= Used(s.head, s.tail, |s.buf|)
    requires t.buf == s.buf && t.head == s.head && t.tail == Around(s.tail + n, |s.buf|)
    ensures Pending(t) == Pending(s)[n..]
    ensures Spaces(t.head, t.tail, |t.buf|) == Spaces(s.head, s.tail, |s.buf|) + n
  {
    hide Used, Spaces, Pending, Around;
    TailCounts(s.head, s.tail, |s.buf|, n);
    forall i | 0 <= i < |Pending(t)| ensures Pending(t)[i] == Pending(s)[n + i] {
      PlacesGoOn(s.tail, |s.buf|, n, i);
    }
  }

  lemma PublishTailKeeps(s: State)
    requires Inv(s) && Enabled(s, PublishTail)
    ensures Inv(Next(s, PublishTail)) && Pending(Next(s, PublishTail)) == Pending(s)[|s.reader.out|..]
  {
    hide Pending, Spaces, Used;
    var n := |s.reader.out|;
    TailMoves(s, Next(s, PublishTail), n);
    assert Pending(s) == s.reader.out + Pending(s)[n..];
  }

  lemma NextKeeps(s: State, step: Step)
    requires Inv(s) && Enabled(s, step)
    ensures Inv(Next(s, step))
  {
    if step.WriteByte? || step.PublishHead? || step.ReadByte? || step.PublishTail? {
      MovingKeeps(s, step);
    } else {
      LookingKeeps(s, step);
    }
  }

  /** The steps that move a byte or an index. */
  lemma MovingKeeps(s: State, step: Step)
    requires Inv(s) && Enabled(s, step) && (step.WriteByte? || step.PublishHead? || step.ReadByte? || step.PublishTail?)
    ensures Inv(Next(s, step))
  {
    hide Inv, Enabled;
    match step
    case WriteByte => WriteByteKeeps(s);
    case PublishHead => PublishHeadKeeps(s);
    case ReadByte => ReadByteKeeps(s);
    case PublishTail => PublishTailKeeps(s);
  }

  /** The steps of one side that leave the ring alone. */
  lemma LookingKeeps(s: State, step: Step)
    requires Inv(s) && Enabled(s, step) && !step.WriteByte? && !step.PublishHead? && !step.ReadByte? && !step.PublishTail?
    ensures Inv(Next(s, step))
  {
    hide Pending, Around, Spaces, Used;
    UsedAndSpaces(s.head, s.tail, |s.buf|);
    SamePending(s, Next(s, step));
  }

  lemma SamePending(s: State, t: State)
    requires Bounds(s) && Bounds(t) && t.buf == s.buf && t.head == s.head && t.tail == s.tail
    ensures Pending(t) == Pending(s)
  {
  }

  ghost predicate Possible(s: State, steps: seq<Step>)
    decreases |steps|
  {
    steps == [] ||
    (Bounds(s) && Enabled(s, steps[0]) && Possible(Next(s, steps[0]), steps[1..]))
  }

  ghost function Run(s: State, steps: seq<Step>): State
    requires Possible(s, steps)
    decreases |steps|
  {
    if steps == [] then s else Run(Next(s, steps[0]), steps[1..])
  }

  ghost predicate Initial(s: State) {
    && 0 < |s.buf| && s.head == 0 && s.tail == 0
    && s.writer == WriterIdle && s.reader == ReaderIdle
    && s.accepted == [] && s.delivered == []
  }

  lemma {:induction false} RunKeeps(s: State, steps: seq<Step>)
    requires Inv(s) && Possible(s, steps)
    ensures Inv(Run(s, steps))
    decreases |steps|
  {
    if steps != [] {
      NextKeeps(s, steps[0]);
      RunKeeps(Next(s, steps[0]), steps[1..]);
    }
  }

  /** Over every interleaving the bytes read are a prefix of the bytes accepted, the rest of
      them is in the ring, and a stale index only ever under-reports space or data. */
  lemma NothingIsLostOrMadeUp(s: State, steps: seq<Step>)
    requires Initial(s) && Possible(s, steps)
    ensures var t := Run(s, steps);
            && Inv(t)
            && t.delivered <= t.accepted
            && t.accepted == t.delivered + Pending(t)
            && (t.writer.Sized? ==> t.writer.space <= Spaces(t.head, t.tail, |t.buf|))
            && (t.reader.Reading? ==> t.reader.avail <= Used(t.head, t.tail, |t.buf|))
  {
    RunKeeps(s, steps);
  }

  // ---- A side that nobody interrupts gets through ----

  function Repeat(step: Step, n: nat): (r: seq<Step>)
    ensures |r| == n
    decreases n
  {
    if n == 0 then [] else [step] + Repeat(step, n - 1)
  }

  function SendSteps(data: seq<byte>): seq<Step> {
    [LookAtTail, Subtract, Compare, Begin(data)] + Repeat(WriteByte, |data|) + [PublishHead]
  }

  function ReceiveSteps(n: nat): seq<Step> {
    [LookAtHead] + Repeat(ReadByte, n) + [PublishTail]
  }

  /** The bytes that are left to write are written, and then all are published. */
  lemma {:induction false} WritesTheRest(s: State)
    requires Inv(s) && s.writer.Writing?
    ensures var d := s.writer.data; var steps := Repeat(WriteByte, |d| - s.writer.k) + [PublishHead];
            && Possible(s, steps)
            && var t := Run(s, steps);
               && Inv(t) && Pending(t) == Pending(s) + d && t.accepted == s.accepted + d && t.delivered == s.delivered
               && t.writer == WriterIdle && t.reader == s.reader && t.tail == s.tail && |t.buf| == |s.buf|
    decreases |s.writer.data| - s.writer.k
  {
    hide Inv, Pending, Spaces, Used, Around, Next;
    InvBounds(s);
    var d, k := s.writer.data, s.writer.k;
    var steps := Repeat(WriteByte, |d| - k) + [PublishHead];
    NextFrame(s);
    if k < |d| {
      WriteByteKeeps(s);
      var t := Next(s, WriteByte);
      WritesTheRest(t);
      assert steps[0] == WriteByte && steps[1..] == Repeat(WriteByte, |d| - k - 1) + [PublishHead];
    } else {
      PublishHeadKeeps(s);
      var t := Next(s, PublishHead);
      assert steps == [PublishHead] && steps[1..] == [];
      assert Possible(t, []) && Run(t, []) == t;
    }
  }

  lemma InvBounds(s: State)
    requires Inv(s)
    ensures Bounds(s)
  {
  }

  lemma NextFrame(s: State)
    requires Bounds(s) && s.writer.Writing?
    ensures s.writer.k < |s.writer.data| ==>
              var t := Next(s, WriteByte);
              && t.writer == s.writer.(k := s.writer.k + 1) && t.reader == s.reader && t.tail == s.tail
              && t.accepted == s.accepted && t.delivered == s.delivered && |t.buf| == |s.buf|
    ensures s.writer.k == |s.writer.data| ==>
              var t := Next(s, PublishHead);
              && t.writer == WriterIdle && t.reader == s.reader && t.tail == s.tail
              && t.accepted == s.accepted + s.writer.data && t.delivered == s.delivered && |t.buf| == |s.buf|
  {
    hide Around;
  }

  /** A send whose data fit, with nothing between its steps, appends the data. */
  lemma SendGetsThrough(s: State, data: seq<byte>)
    requires Inv(s) && s.writer == WriterIdle && |data| <= Spaces(s.head, s.tail, |s.buf|)
    ensures Possible(s, SendSteps(data))
    ensures var t := Run(s, SendSteps(data));
            && Inv(t) && Pending(t) == Pending(s) + data && t.accepted == s.accepted + data && t.delivered == s.delivered
            && t.writer == WriterIdle && t.reader == s.reader
  {
    hide Inv, Pending, Spaces, Used, Around, Next, Possible, Run, Repeat;
    LooksAndBegins(s, data);
    var s1 := Next(s, LookAtTail);
    var s2 := Next(s1, Subtract);
    var s3 := Next(s2, Compare);
    var s4 := Next(s3, Begin(data));
    WritesTheRest(s4);
    var rest := Repeat(WriteByte, |data|) + [PublishHead];
    OneFirst(s3, Begin(data), rest);
    OneFirst(s2, Compare, [Begin(data)] + rest);
    OneFirst(s1, Subtract, [Compare] + ([Begin(data)] + rest));
    OneFirst(s, LookAtTail, [Subtract] + ([Compare] + ([Begin(data)] + rest)));
    assert SendSteps(data) == [LookAtTail] + ([Subtract] + ([Compare] + ([Begin(data)] + rest)));
  }

  lemma OneFirst(s: State, step: Step, rest: seq<Step>)
    requires Bounds(s) && Enabled(s, step) && Possible(Next(s, step), rest)
    ensures Possible(s, [step] + rest) && Run(s, [step] + rest) == Run(Next(s, step), rest)
  {
    hide Next, Bounds, Enabled;
    assert ([step] + rest)[1..] == rest;
  }

  /** The three looks find the space there is, and the data fit. */
  lemma LooksAndBegins(s: State, data: seq<byte>)
    requires Inv(s) && s.writer == WriterIdle && |data| <= Spaces(s.head, s.tail, |s.buf|)
    ensures Bounds(s) && Enabled(s, LookAtTail)
    ensures var s1 := Next(s, LookAtTail); Bounds(s1) && Enabled(s1, Subtract)
    ensures var s2 := Next(Next(s, LookAtTail), Subtract); Bounds(s2) && Enabled(s2, Compare)
    ensures var s3 := Next(Next(Next(s, LookAtTail), Subtract), Compare); Bounds(s3) && Enabled(s3, Begin(data))
    ensures var s4 := Next(Next(Next(Next(s, LookAtTail), Subtract), Compare), Begin(data));
            && s4 == s.(writer := Writing(Spaces(s.head, s.tail, |s.buf|), data, 0)) && Inv(s4) && Pending(s4) == Pending(s)
  {
    hide Pending, Used, Around;
    UsedAndSpaces(s.head, s.tail, |s.buf|);
    SamePending(s, s.(writer := Writing(Spaces(s.head, s.tail, |s.buf|), data, 0)));
  }

  lemma {:induction false} ReadsTheRest(s: State, n: nat)
    requires Inv(s) && s.reader.Reading? && |s.reader.out| + n <= s.reader.avail
    ensures Possible(s, Repeat(ReadByte, n) + [PublishTail])
    ensures var t := Run(s, Repeat(ReadByte, n) + [PublishTail]); var m := |s.reader.out| + n;
            && Inv(t) && m <= |Pending(s)| && Pending(t) == Pending(s)[m..] && t.delivered == s.delivered + Pending(s)[..m]
            && t.accepted == s.accepted && t.writer == s.writer && t.reader == ReaderIdle
    decreases n
  {
    hide Inv, Pending, Spaces, Used, Around, Next;
    InvBounds(s);
    ReaderFrame(s);
    var steps := Repeat(ReadByte, n) + [PublishTail];
    if n > 0 {
      ReadByteKeeps(s);
      var t := Next(s, ReadByte);
      SamePending(s, t);
      ReadsTheRest(t, n - 1);
      assert steps[0] == ReadByte && steps[1..] == Repeat(ReadByte, n - 1) + [PublishTail];
    } else {
      PublishTailKeeps(s);
      var t := Next(s, PublishTail);
      assert steps == [PublishTail] && steps[1..] == [];
      assert Possible(t, []) && Run(t, []) == t;
    }
  }

  lemma ReaderFrame(s: State)
    requires Inv(s) && s.reader.Reading?
    ensures |s.reader.out| <= |Pending(s)| && s.reader.out == Pending(s)[..|s.reader.out|]
    ensures s.reader.avail <= |Pending(s)|
    ensures |s.reader.out| < s.reader.avail ==>
              var t := Next(s, ReadByte);
              && t == s.(reader := t.reader) && t.reader.Reading? && t.reader.avail == s.reader.avail
              && |t.reader.out| == |s.reader.out| + 1
    ensures var t := Next(s, PublishTail);
            && t.reader == ReaderIdle && t.writer == s.writer && t.accepted == s.accepted
            && t.delivered == s.delivered + s.reader.out
  {
    hide Around, Pending, Spaces, Used;
  }

  /** A receive of bytes that are there, with nothing between its steps, takes the first of them. */
  lemma ReceiveGetsThrough(s: State, n: nat)
    requires Inv(s) && s.reader == ReaderIdle && n <= Used(s.head, s.tail, |s.buf|)
    ensures Possible(s, ReceiveSteps(n))
    ensures var t := Run(s, ReceiveSteps(n));
            && Inv(t) && n <= |Pending(s)| && Pending(t) == Pending(s)[n..] && t.delivered == s.delivered + Pending(s)[..n]
            && t.accepted == s.accepted && t.writer == s.writer && t.reader == ReaderIdle
  {
    hide Pending, Spaces, Used, Around, WriterSound, ReaderSound;
    var t := Next(s, LookAtHead);
    NextKeeps(s, LookAtHead);
    hide Inv;
    SamePending(s, t);
    ReadsTheRest(t, n);
    assert ReceiveSteps(n)[1..] == Repeat(ReadByte, n) + [PublishTail];
  }

  /** The comparison at the end of the loop ends it exactly if the tail is where it was read at
      first, and then the space found is the space there is: the reader cannot have come round. */
  lemma CompareFindsTheSpace(s: State)
    requires Inv(s) && Enabled(s, Compare)
    ensures var t := Next(s, Compare);
            && (t.writer.Sized? <==> Spaces(s.head, s.writer.original, |s.buf|) == Spaces(s.head, s.tail, |s.buf|))
            && (t.writer.Sized? ==> t.writer.space == Spaces(t.head, t.tail, |t.buf|))
            && (!t.writer.Sized? ==> t.writer == Looking(t.tail))
  {
    hide Pending, ReaderSound, Used;
  }

  /** A side that gives up may begin again, and has changed nothing for the other. */
  lemma DroppingStartsOver(s: State)
    requires Inv(s)
    ensures Enabled(s, DropWrite) ==>
              var t := Next(s, DropWrite); Enabled(t, LookAtTail) && t == s.(writer := t.writer) && Inv(t)
    ensures Enabled(s, DropRead) ==>
              var t := Next(s, DropRead); Enabled(t, LookAtHead) && t == s.(reader := t.reader) && Inv(t)
  {
    if Enabled(s, DropWrite) {
      NextKeeps(s, DropWrite);
    }
    if Enabled(s, DropRead) {
      NextKeeps(s, DropRead);
    }
  }
}
