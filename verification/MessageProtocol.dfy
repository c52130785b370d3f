/**
  Message buffers under the interleaving of module StreamProtocol: the writer publishes whole
  messages, the reader consumes whole messages, and neither ever sees half of one.
*/
module MessageProtocol {
  import opened Bytes
  import opened MessageFraming
  import opened StreamProtocol

  /** A message that is not empty, behind its length. */
  predicate IsFrame(b: seq<byte>) {
    |b| > PREFIX && EndOfFirst(b) == |b|
  }

  lemma FrameIsFrame(m: seq<byte>)
    requires Sendable(m)
    ensures IsFrame(Frame(m))
  {
    LengthRoundTrip(|m|, m);
  }

  lemma FrameHoldsOne(b: seq<byte>)
    requires IsFrame(b)
    ensures Framed(b) && Messages(b) == [b[PREFIX..]]
  {
    assert b[|b|..] == [] && b[PREFIX..|b|] == b[PREFIX..];
    assert Messages(b[|b|..]) == [];
  }

  lemma {:induction false} FramedJoined(a: seq<byte>, b: seq<byte>)
    requires Framed(a) && Framed(b)
    ensures Framed(a + b) && Messages(a + b) == Messages(a) + Messages(b)
    decreases |a|
  {
    hide FromBytes;
    if a == [] {
      assert a + b == b;
    } else {
      var n := EndOfFirst(a);
      BehindFirst(a, b);
      FramedJoined(a[n..], b);
    }
  }

  /** The length depends on the first four bytes only. */
  lemma SameLength(b: seq<byte>, f: seq<byte>)
    requires |f| >= PREFIX && f <= b
    ensures FromBytes(b) == FromBytes(f)
  {
    assert b[0] == f[0] && b[1] == f[1] && b[2] == f[2] && b[3] == f[3];
  }

  /** A frame at the front of framed bytes is their first message. */
  lemma FirstFrame(b: seq<byte>, f: seq<byte>)
    requires Framed(b) && IsFrame(f) && f <= b
    ensures Framed(b[|f|..]) && Messages(b) == [f[PREFIX..]] + Messages(b[|f|..])
  {
    hide FromBytes;
    SameLength(b, f);
    assert b[PREFIX..|f|] == f[PREFIX..];
  }

  /** Framed bytes of which the first four are known hold the whole first message. */
  lemma WholeFirst(b: seq<byte>, f: seq<byte>)
    requires Framed(b) && f <= b
    ensures b != [] ==> |b| > PREFIX
    ensures |f| >= PREFIX ==> EndOfFirst(f) <= |b|
  {
    hide FromBytes;
    if |f| >= PREFIX {
      SameLength(b, f);
    }
  }

  /** What prvWriteMessageToBuffer and prvReadMessageFromBuffer keep to: the writer publishes a
      length and that many bytes, and the reader publishes only when it has copied as many
      bytes as the length it has read says. Either may leave off without publishing. */
  ghost predicate Polite(s: State, step: Step) {
    && (step.PublishHead? && s.writer.Writing? ==> IsFrame(s.writer.data))
    && (step.PublishTail? && s.reader.Reading? ==> IsFrame(s.reader.out))
  }

  ghost predicate InMessages(s: State)
    requires Bounds(s)
  {
    && Framed(Pending(s)) && Framed(s.accepted) && Framed(s.delivered)
    && (s.reader.Reading? && s.reader.avail <= |Pending(s)| ==> Framed(Pending(s)[..s.reader.avail]))
    && Messages(s.accepted) == Messages(s.delivered) + Messages(Pending(s))
  }

  lemma SameMessages(s: State, t: State)
    requires Bounds(s) && Bounds(t) && InMessages(s) && Pending(t) == Pending(s)
    requires t.accepted == s.accepted && t.delivered == s.delivered
    requires t.reader.Reading? ==> (s.reader.Reading? && t.reader.avail == s.reader.avail) || t.reader.avail == |Pending(s)|
    ensures InMessages(t)
  {
    hide Pending, Framed, Messages, IsFrame;
    assert Pending(s)[..|Pending(s)|] == Pending(s);
  }

  lemma PublishHeadMessages(s: State)
    requires Inv(s) && Enabled(s, PublishHead) && Polite(s, PublishHead) && InMessages(s)
    ensures Inv(Next(s, PublishHead)) && InMessages(Next(s, PublishHead))
  {
    hide Pending, Framed, Messages, IsFrame, WriterSound, Used, Spaces;
    PublishHeadKeeps(s);
    var t := Next(s, PublishHead);
    FrameHoldsOne(s.writer.data);
    FramedJoined(Pending(s), s.writer.data);
    FramedJoined(s.accepted, s.writer.data);
    if s.reader.Reading? {
      assert Pending(t)[..s.reader.avail] == Pending(s)[..s.reader.avail];
    }
  }

  lemma PublishTailMessages(s: State)
    requires Inv(s) && Enabled(s, PublishTail) && Polite(s, PublishTail) && InMessages(s)
    ensures Inv(Next(s, PublishTail)) && InMessages(Next(s, PublishTail))
  {
    hide Pending, Framed, Messages, IsFrame, WriterSound, Used, Spaces;
    PublishTailKeeps(s);
    FrameHoldsOne(s.reader.out);
    FirstFrame(Pending(s), s.reader.out);
    FramedJoined(s.delivered, s.reader.out);
  }

  lemma NextMessages(s: State, step: Step)
    requires Inv(s) && Enabled(s, step) && Polite(s, step) && InMessages(s)
    ensures Inv(Next(s, step)) && InMessages(Next(s, step))
  {
    hide Pending, Framed, Messages, IsFrame, InMessages, Spaces;
    NextKeeps(s, step);
    var t := Next(s, step);
    match step
    case PublishHead => PublishHeadMessages(s);
    case PublishTail => PublishTailMessages(s);
    case WriteByte =>
      WriteByteKeeps(s);
      SameMessages(s, t);
    case _ =>
      SamePending(s, t);
      SameMessages(s, t);
  }

  ghost predicate AllPolite(s: State, steps: seq<Step>)
    requires Possible(s, steps)
    decreases |steps|
  {
    steps == [] || (Polite(s, steps[0]) && AllPolite(Next(s, steps[0]), steps[1..]))
  }

  lemma {:induction false} RunMessages(s: State, steps: seq<Step>)
    requires Inv(s) && InMessages(s) && Possible(s, steps) && AllPolite(s, steps)
    ensures Inv(Run(s, steps)) && InMessages(Run(s, steps))
    decreases |steps|
  {
    hide Inv, InMessages, Next, Enabled, Polite;
    if steps != [] {
      NextMessages(s, steps[0]);
      RunMessages(Next(s, steps[0]), steps[1..]);
    }
  }

  /** Over every interleaving, byte by byte, of a writer and a reader of messages: what is in the
      buffer is always whole messages; the messages consumed are the first of those sent, in
      order, and the rest are in the buffer; and when the reader finds anything, it finds
      the length and all of the first message, however far the writer is with the next. */
  lemma MessagesStayWhole(s: State, steps: seq<Step>)
    requires Initial(s) && Possible(s, steps) && AllPolite(s, steps)
    ensures var t := Run(s, steps);
            && Inv(t) && Framed(Pending(t)) && Framed(t.delivered) && Framed(t.accepted)
            && Messages(t.accepted) == Messages(t.delivered) + Messages(Pending(t))
            && Messages(t.delivered) <= Messages(t.accepted)
            && (t.reader.Reading? && t.reader.avail > 0 ==> t.reader.avail > PREFIX)
            && (t.reader.Reading? && |t.reader.out| >= PREFIX ==> EndOfFirst(t.reader.out) <= t.reader.avail)
            && (t.reader.Reading? && IsFrame(t.reader.out) ==>
                  Messages(Pending(t)) != [] && t.reader.out[PREFIX..] == Messages(Pending(t))[0])
  {
    hide Framed, Messages, Next, Enabled, Polite, WriterSound, FromBytes;
    InitiallyNone(s);
    RunMessages(s, steps);
    var t := Run(s, steps);
    if t.reader.Reading? {
      WholeFirst(Pending(t)[..t.reader.avail], t.reader.out);
      if IsFrame(t.reader.out) {
        FirstFrame(Pending(t), t.reader.out);
      }
    }
  }

  lemma InitiallyNone(s: State)
    requires Initial(s)
    ensures Inv(s) && InMessages(s)
  {
    assert |Pending(s)| == 0;
    assert Pending(s) == [];
  }
}
