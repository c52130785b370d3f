/**
  The layout of a message buffer: whole messages end to end, each behind its length in
  four bytes, least significant first.
*/
module MessageFraming {
  import opened Bytes

  const PREFIX: nat := 4      // sbBYTES_TO_STORE_MESSAGE_LENGTH
  const MAX_LENGTH: nat := 0xFFFF_FFFF

  function ToBytes(n: nat): (b: seq<byte>)
    requires n <= MAX_LENGTH
    ensures |b| == PREFIX
  {
    var n1 := n / 256;
    var n2 := n1 / 256;
    [(n % 256) as byte, (n1 % 256) as byte, (n2 % 256) as byte, (n2 / 256) as byte]
  }

  function FromBytes(b: seq<byte>): (n: nat)
    requires |b| >= PREFIX
    ensures n <= MAX_LENGTH
  {
    b[0] as nat + 256 * (b[1] as nat + 256 * (b[2] as nat + 256 * b[3] as nat))
  }

  lemma Digit(low: nat, high: nat)
    requires low < 256
    ensures (low + 256 * high) % 256 == low && (low + 256 * high) / 256 == high
  {
  }

  lemma LengthRoundTrip(n: nat, rest: seq<byte>)
    requires n <= MAX_LENGTH
    ensures FromBytes(ToBytes(n) + rest) == n
  {
    var n1 := n / 256;
    var n2 := n1 / 256;
    var b := ToBytes(n) + rest;
    assert b[0] as nat == n % 256 && b[1] as nat == n1 % 256 && b[2] as nat == n2 % 256 && b[3] as nat == n2 / 256;
    assert b[2] as nat + 256 * b[3] as nat == n2;
    assert b[1] as nat + 256 * n2 == n1;
  }

  lemma BytesRoundTrip(b: seq<byte>)
    requires |b| == PREFIX
    ensures ToBytes(FromBytes(b)) == b
  {
    var n2 := b[2] as nat + 256 * b[3] as nat;
    var n1 := b[1] as nat + 256 * n2;
    Digit(b[2] as nat, b[3] as nat);
    Digit(b[1] as nat, n2);
    Digit(b[0] as nat, n1);
  }

  predicate Sendable(m: seq<byte>) {
    0 < |m| <= MAX_LENGTH
  }

  predicate AllSendable(ms: seq<seq<byte>>) {
    forall i :: 0 <= i < |ms| ==> Sendable(ms[i])
  }

  function Frame(m: seq<byte>): seq<byte>
    requires |m| <= MAX_LENGTH
  {
    ToBytes(|m|) + m
  }

  function Encode(ms: seq<seq<byte>>): seq<byte>
    requires AllSendable(ms)
  {
    if ms == [] then [] else Frame(ms[0]) + Encode(ms[1..])
  }

  /** Where the first message ends. */
  function EndOfFirst(b: seq<byte>): nat
    requires |b| >= PREFIX
  {
    PREFIX + FromBytes(b)
  }

  /** The bytes are whole messages that are not empty. */
  predicate Framed(b: seq<byte>)
    decreases |b|
  {
    b == [] || (|b| > PREFIX && PREFIX < EndOfFirst(b) <= |b| && Framed(b[EndOfFirst(b)..]))
  }

  function Messages(b: seq<byte>): (ms: seq<seq<byte>>)
    requires Framed(b)
    ensures AllSendable(ms)
    decreases |b|
  {
    if b == [] then [] else [b[PREFIX..EndOfFirst(b)]] + Messages(b[EndOfFirst(b)..])
  }

  /** A frame in front of framed bytes is one more message in front. */
  lemma FrameInFront(m: seq<byte>, b: seq<byte>)
    requires Sendable(m) && Framed(b)
    ensures Framed(Frame(m) + b) && Messages(Frame(m) + b) == [m] + Messages(b)
  {
    var all := Frame(m) + b;
    assert all == ToBytes(|m|) + (m + b);
    LengthRoundTrip(|m|, m + b);
    assert all[PREFIX..EndOfFirst(all)] == m;
    assert all[EndOfFirst(all)..] == b;
  }

  /** A frame behind framed bytes is one more message behind. */
  lemma {:induction false} FrameBehind(b: seq<byte>, m: seq<byte>)
    requires Sendable(m) && Framed(b)
    ensures Framed(b + Frame(m)) && Messages(b + Frame(m)) == Messages(b) + [m]
    decreases |b|
  {
    hide FromBytes, Frame;
    if b == [] {
      FrameInFront(m, []);
      assert Frame(m) + [] == b + Frame(m);
      assert Messages(b) == [];
    } else {
      var n := EndOfFirst(b);
      FrameBehind(b[n..], m);
      BehindFirst(b, Frame(m));
    }
  }

  lemma BehindFirst(b: seq<byte>, c: seq<byte>)
    requires |b| >= PREFIX && EndOfFirst(b) <= |b|
    ensures EndOfFirst(b + c) == EndOfFirst(b)
    ensures (b + c)[PREFIX..EndOfFirst(b)] == b[PREFIX..EndOfFirst(b)]
    ensures (b + c)[EndOfFirst(b)..] == b[EndOfFirst(b)..] + c
  {
  }

  /** Decoding gives back the messages that were encoded. */
  lemma {:induction false} DecodeEncoded(ms: seq<seq<byte>>)
    requires AllSendable(ms)
    ensures Framed(Encode(ms)) && Messages(Encode(ms)) == ms
    decreases |ms|
  {
    if ms != [] {
      DecodeEncoded(ms[1..]);
      FrameInFront(ms[0], Encode(ms[1..]));
    }
  }

  /** And encoding the messages gives back the bytes, so the layout is unique. */
  lemma {:induction false} EncodeDecoded(b: seq<byte>)
    requires Framed(b)
    ensures Encode(Messages(b)) == b
    decreases |b|
  {
    if b != [] {
      var n := EndOfFirst(b);
      EncodeDecoded(b[n..]);
      assert |b[PREFIX..n]| == FromBytes(b);
      BytesRoundTrip(b[..PREFIX]);
      assert FromBytes(b[..PREFIX]) == FromBytes(b);
      assert b == b[..PREFIX] + b[PREFIX..n] + b[n..];
      assert Messages(b)[1..] == Messages(b[n..]);
    }
  }
}
