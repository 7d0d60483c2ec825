/**
  The control client's WebSocket frames (sections 5.2, 5.3 and 5.5 of RFC 6455): what it writes, what it
  reads back, and its receive loop over a socket that may deliver the bytes in any chunks.
 */
module WebSocketFrames {
  import opened Common

  // The bit operations the client uses, as arithmetic on byte values.

  /** `0x80 | b` */
  function SetHighBit(b: byte): byte {
    128 + b % 128
  }

  /** `b & 0x80` */
  predicate HighBit(b: byte) {
    b >= 128
  }

  /** `b & 0x7F` */
  function Low7(b: byte): byte {
    b % 128
  }

  /** `b & 0x0F` */
  function Low4(b: byte): byte {
    b % 16
  }

  function Pow2(k: nat): (p: nat)
    ensures p > 0
  {
    if k == 0 then 1 else 2 * Pow2(k - 1)
  }

  /** Exclusive or of the low `k` bits. */
  function XorBits(a: nat, b: nat, k: nat): (r: nat)
    ensures r < Pow2(k)
    decreases k
  {
    if k == 0 then 0 else 2 * XorBits(a / 2, b / 2, k - 1) + (if a % 2 != b % 2 then 1 else 0)
  }

  function Xor(a: byte, b: byte): byte {
    assert Pow2(8) == 256 by { assert Pow2(4) == 16; }
    XorBits(a, b, 8)
  }

  lemma {:induction false} XorBitsTwice(a: nat, b: nat, k: nat)
    requires a < Pow2(k)
    ensures XorBits(XorBits(a, b, k), b, k) == a
    decreases k
  {
    if k > 0 {
      var x := XorBits(a, b, k);
      assert x / 2 == XorBits(a / 2, b / 2, k - 1);
      XorBitsTwice(a / 2, b / 2, k - 1);
    }
  }

  lemma XorTwice(a: byte, b: byte)
    ensures Xor(Xor(a, b), b) == a
  {
    assert Pow2(8) == 256 by { assert Pow2(4) == 16; }
    XorBitsTwice(a, b, 8);
  }

  function Bit(x: nat, k: nat): nat
    decreases k
  {
    if k == 0 then x % 2 else Bit(x / 2, k - 1)
  }

  lemma {:induction false} XorBitsMean(a: nat, b: nat, n: nat, k: nat)
    requires k < n
    ensures Bit(XorBits(a, b, n), k) == if Bit(a, k) != Bit(b, k) then 1 else 0
    decreases n
  {
    var x := XorBits(a, b, n);
    assert x / 2 == XorBits(a / 2, b / 2, n - 1);
    if k > 0 {
      XorBitsMean(a / 2, b / 2, n - 1, k - 1);
    }
  }

  /** Each bit of the result is set exactly where the two differ. */
  lemma XorMeans(a: byte, b: byte, k: nat)
    requires k < 8
    ensures Bit(Xor(a, b), k) == if Bit(a, k) != Bit(b, k) then 1 else 0
  {
    XorBitsMean(a, b, 8, k);
  }

  const TEXT: byte := 1
  const CLOSE: byte := 8
  const PING: byte := 9
  const PONG: byte := 10

  datatype Frame = Frame(opcode: byte, payload: seq<byte>)

  // ----- Lengths in network byte order -----

  function Pow256(k: nat): (p: nat)
    ensures p > 0
  {
    if k == 0 then 1 else 256 * Pow256(k - 1)
  }

  function ToBytes(n: nat, k: nat): (b: seq<byte>)
    ensures |b| == k
    decreases k
  {
    if k == 0 then [] else ToBytes(n / 256, k - 1) + [n % 256]
  }

  function FromBytes(b: seq<byte>): nat
    decreases |b|
  {
    if b == [] then 0 else FromBytes(b[..|b| - 1]) * 256 + b[|b| - 1]
  }

  lemma {:induction false} LengthRoundTrip(n: nat, k: nat)
    requires n < Pow256(k)
    ensures FromBytes(ToBytes(n, k)) == n
    decreases k
  {
    if k > 0 {
      var b := ToBytes(n, k);
      assert b[..k - 1] == ToBytes(n / 256, k - 1);
      assert n / 256 < Pow256(k - 1);
      LengthRoundTrip(n / 256, k - 1);
    }
  }

  lemma LengthLimits()
    ensures Pow256(2) == 0x1_0000 && Pow256(8) == 0x1_0000_0000_0000_0000
  {
  }

  // ----- Masking -----

  function Masked(payload: seq<byte>, mask: seq<byte>): seq<byte>
    requires |mask| == 4
  {
    seq(|payload|, i requires 0 <= i < |payload| => Xor(payload[i], mask[i % 4]))
  }

  lemma MaskTwice(payload: seq<byte>, mask: seq<byte>)
    requires |mask| == 4
    ensures Masked(Masked(payload, mask), mask) == payload
  {
    forall i | 0 <= i < |payload| ensures Masked(Masked(payload, mask), mask)[i] == payload[i] {
      XorTwice(payload[i], mask[i % 4]);
    }
  }

  // ----- Writing -----

  const MAX_LENGTH: nat := 0x1_0000_0000_0000_0000

  /** The length field of the second header byte and the extended length after it. */
  function LengthCode(n: nat): byte
    requires n < MAX_LENGTH
  {
    if n < 126 then n else if n <= 0xFFFF then 126 else 127
  }

  function ExtendedLength(n: nat): seq<byte>
    requires n < MAX_LENGTH
  {
    if n < 126 then [] else if n <= 0xFFFF then ToBytes(n, 2) else ToBytes(n, 8)
  }

  /** A frame on the wire; servers send without a mask, this client always with one. */
  function Encode(f: Frame, mask: Option<seq<byte>>): seq<byte>
    requires f.opcode < 16 && |f.payload| < MAX_LENGTH && (mask.Some? ==> |mask.value| == 4)
  {
    [SetHighBit(f.opcode), WithMaskBit(LengthCode(|f.payload|), mask)]
    + ExtendedLength(|f.payload|) + MaskBytes(mask) + Body(f.payload, mask)
  }

  function WithMaskBit(code: byte, mask: Option<seq<byte>>): byte {
    if mask.Some? then SetHighBit(code) else code
  }

  function MaskBytes(mask: Option<seq<byte>>): seq<byte> {
    if mask.Some? then mask.value else []
  }

  function Body(payload: seq<byte>, mask: Option<seq<byte>>): seq<byte>
    requires mask.Some? ==> |mask.value| == 4
  {
    if mask.Some? then Masked(payload, mask.value) else payload
  }

  // ----- Reading -----

  /** How many bytes hold the extended length announced by the second header byte. */
  function ExtendedSize(second: byte): nat {
    if Low7(second) == 126 then 2 else if Low7(second) == 127 then 8 else 0
  }

  function MaskSize(second: byte): nat {
    if HighBit(second) then 4 else 0
  }

  function PayloadLength(second: byte, extended: seq<byte>): nat {
    if Low7(second) == 126 || Low7(second) == 127 then FromBytes(extended) else Low7(second)
  }

  datatype Parse = Closed | Parsed(frame: Frame, rest: seq<byte>)

  /** One frame off the front of a stream, or nothing while the stream is too short. */
  function ParseFrame(stream: seq<byte>): (p: Parse)
    ensures p.Parsed? ==> |p.rest| < |stream| && p.frame.opcode < 16 && |p.frame.payload| < MAX_LENGTH
  {
    if |stream| < 2 then Closed
    else
      var second := stream[1];
      var bodyAt := 2 + ExtendedSize(second) + MaskSize(second);
      if |stream| < bodyAt then Closed
      else
        var length := PayloadLength(second, stream[2..2 + ExtendedSize(second)]);
        PayloadBound(second, stream[2..2 + ExtendedSize(second)]);
        if |stream| < bodyAt + length then Closed
        else
          var body := stream[bodyAt..bodyAt + length];
          var payload := if MaskSize(second) == 4 then Masked(body, stream[bodyAt - 4..bodyAt]) else body;
          Parsed(Frame(Low4(stream[0]), payload), stream[bodyAt + length..])
  }

  lemma PayloadBound(second: byte, extended: seq<byte>)
    requires |extended| == ExtendedSize(second)
    ensures PayloadLength(second, extended) < MAX_LENGTH
  {
    FromBytesBound(extended);
    LengthLimits();
  }

  lemma {:induction false} FromBytesBound(b: seq<byte>)
    ensures FromBytes(b) < Pow256(|b|)
    decreases |b|
  {
    if b != [] {
      FromBytesBound(b[..|b| - 1]);
    }
  }

  lemma CodeRoundTrip(n: nat)
    requires n < MAX_LENGTH
    ensures LengthCode(n) < 128
    ensures n < 126 ==> LengthCode(n) == n && LengthCode(n) != 126 && LengthCode(n) != 127
    ensures n >= 126 ==> FromBytes(ExtendedLength(n)) == n
  {
    if n < 126 {
    } else if n <= 0xFFFF {
      LengthLimits();
      LengthRoundTrip(n, 2);
    } else {
      LengthLimits();
      LengthRoundTrip(n, 8);
    }
  }

  /** The receiver parses back exactly what was encoded and consumes exactly that frame. */
  lemma FrameRoundTrip(f: Frame, mask: Option<seq<byte>>, rest: seq<byte>)
    requires f.opcode < 16 && |f.payload| < MAX_LENGTH && (mask.Some? ==> |mask.value| == 4)
    ensures ParseFrame(Encode(f, mask) + rest) == Parsed(f, rest)
  {
    var n := |f.payload|;
    var first, second := SetHighBit(f.opcode), WithMaskBit(LengthCode(n), mask);
    HeaderRoundTrip(f.opcode, n, mask);
    ParseParts(first, second, ExtendedLength(n), MaskBytes(mask), Body(f.payload, mask), rest);
    if mask.Some? {
      MaskTwice(f.payload, mask.value);
    }
  }

  lemma HeaderRoundTrip(opcode: byte, n: nat, mask: Option<seq<byte>>)
    requires opcode < 16 && n < MAX_LENGTH && (mask.Some? ==> |mask.value| == 4)
    ensures var second := WithMaskBit(LengthCode(n), mask);
            && Low4(SetHighBit(opcode)) == opcode
            && ExtendedSize(second) == |ExtendedLength(n)|
            && MaskSize(second) == |MaskBytes(mask)|
            && PayloadLength(second, ExtendedLength(n)) == n
  {
    hide ToBytes, FromBytes;
    CodeRoundTrip(n);
  }

  /** Parsing a stream put together from the parts its own second byte announces. */
  lemma ParseParts(first: byte, second: byte, ext: seq<byte>, mask: seq<byte>, body: seq<byte>, rest: seq<byte>)
    requires |ext| == ExtendedSize(second) && |mask| == MaskSize(second) && |body| == PayloadLength(second, ext)
    ensures ParseFrame([first, second] + ext + mask + body + rest) ==
            Parsed(Frame(Low4(first), if |mask| == 4 then Masked(body, mask) else body), rest)
  {
    hide Masked, PayloadLength, Low4, FromBytes;
    var stream := [first, second] + ext + mask + body + rest;
    var at := 2 + |ext| + |mask|;
    assert stream == [first, second] + ext + (mask + body + rest);
    Middle([first, second], ext, mask + body + rest);
    assert stream == ([first, second] + ext) + mask + (body + rest);
    Middle([first, second] + ext, mask, body + rest);
    assert stream == ([first, second] + ext + mask) + body + rest;
    Middle([first, second] + ext + mask, body, rest);
  }

  lemma Middle(a: seq<byte>, b: seq<byte>, c: seq<byte>)
    ensures (a + b + c)[|a|..|a| + |b|] == b
    ensures (a + b + c)[|a| + |b|..] == c
  {
  }

  lemma ShortStream(stream: seq<byte>)
    ensures |stream| < 2 ==> ParseFrame(stream) == Closed
  {
  }

  /** What a parse yields, field by field. */
  lemma FrameFields(stream: seq<byte>)
    requires |stream| >= 2
    ensures var second := stream[1];
            var bodyAt := 2 + ExtendedSize(second) + MaskSize(second);
            if |stream| < bodyAt then ParseFrame(stream) == Closed
            else
              var length := PayloadLength(second, stream[2..2 + ExtendedSize(second)]);
              if |stream| < bodyAt + length then ParseFrame(stream) == Closed
              else
                var body := stream[bodyAt..bodyAt + length];
                ParseFrame(stream) ==
                Parsed(Frame(Low4(stream[0]), if HighBit(second) then Masked(body, stream[bodyAt - 4..bodyAt]) else body), stream[bodyAt + length..])
  {
  }

  /** Where a masked frame's parts stand on the wire, `at` being the place of the mask. */
  predicate LaidOut(w: seq<byte>, f: Frame, mask: seq<byte>, at: nat)
    requires |mask| == 4
  {
    && |w| == at + 4 + |f.payload| && w[at..at + 4] == mask
    && forall i :: 0 <= i < |f.payload| ==> w[at + 4 + i] == Xor(f.payload[i], mask[i % 4])
  }

  /** What the client puts on the wire, byte by byte (section 5.2 of RFC 6455). */
  lemma WireMeans(f: Frame, mask: seq<byte>)
    requires f.opcode < 16 && |f.payload| < MAX_LENGTH && |mask| == 4
    ensures var w, n := Encode(f, Some(mask)), |f.payload|;
            && |w| >= 6 && w[0] == 0x80 + f.opcode
            && (n < 126 ==> w[1] == 0x80 + n && LaidOut(w, f, mask, 2))
            && (126 <= n <= 0xFFFF ==> w[1] == 0xFE && w[2] as int * 256 + w[3] == n && LaidOut(w, f, mask, 4))
            && (n > 0xFFFF ==> w[1] == 0xFF && |w| >= 14 && BigEndian(w[2..10]) == n && LaidOut(w, f, mask, 10))
  {
    var n := |f.payload|;
    var w, ext := Encode(f, Some(mask)), ExtendedLength(n);
    EncodeParts(f, mask);
    Parts(SetHighBit(f.opcode), SetHighBit(LengthCode(n)), ext, f, mask);
    CodeRoundTrip(n);
    hide Encode, LaidOut, Masked, ToBytes;
    if 126 <= n <= 0xFFFF {
      assert |ext| == 2;
      TwoBytes(ext);
      assert w[2..4] == ext;
      assert w[2] == w[2..4][0] && w[3] == w[2..4][1];
    } else if n > 0xFFFF {
      assert |ext| == 8;
      EightBytes(ext);
    }
  }

  lemma EncodeParts(f: Frame, mask: seq<byte>)
    requires f.opcode < 16 && |f.payload| < MAX_LENGTH && |mask| == 4
    ensures Encode(f, Some(mask)) ==
            [SetHighBit(f.opcode), SetHighBit(LengthCode(|f.payload|))] + ExtendedLength(|f.payload|) + mask + Masked(f.payload, mask)
  {
  }

  lemma Parts(first: byte, second: byte, ext: seq<byte>, f: Frame, mask: seq<byte>)
    requires |mask| == 4
    ensures var w := [first, second] + ext + mask + Masked(f.payload, mask);
            w[0] == first && w[1] == second && w[2..2 + |ext|] == ext && LaidOut(w, f, mask, 2 + |ext|)
  {
    hide Xor;
    var body := Masked(f.payload, mask);
    var w := [first, second] + ext + mask + body;
    assert w == [first, second] + ext + (mask + body);
    Middle([first, second], ext, mask + body);
    Middle([first, second] + ext, mask, body);
    forall i | 0 <= i < |f.payload| ensures w[2 + |ext| + 4 + i] == Xor(f.payload[i], mask[i % 4]) {
      assert w[2 + |ext| + 4 + i] == body[i];
    }
  }

  /** Eight bytes read with the most significant one first. */
  function BigEndian(b: seq<byte>): nat
    requires |b| == 8
  {
    ((((((b[0] as int * 256 + b[1]) * 256 + b[2]) * 256 + b[3]) * 256 + b[4]) * 256 + b[5]) * 256 + b[6]) * 256 + b[7]
  }

  lemma TwoBytes(b: seq<byte>)
    requires |b| == 2
    ensures FromBytes(b) == b[0] as int * 256 + b[1]
  {
    assert FromBytes(b[..1]) == b[0] by {
      assert b[..1][..0] == [];
    }
  }

  lemma EightBytes(b: seq<byte>)
    requires |b| == 8
    ensures FromBytes(b) == BigEndian(b)
  {
    assert FromBytes(b[..0]) == 0;
    hide FromBytes;
    Unroll(b, 1);
    var x2 := b[0] as int * 256 + b[1];
    Unroll(b, 2);
    assert FromBytes(b[..2]) == x2;
    var x3 := x2 * 256 + b[2];
    Unroll(b, 3);
    assert FromBytes(b[..3]) == x3;
    var x4 := x3 * 256 + b[3];
    Unroll(b, 4);
    assert FromBytes(b[..4]) == x4;
    var x5 := x4 * 256 + b[4];
    Unroll(b, 5);
    assert FromBytes(b[..5]) == x5;
    var x6 := x5 * 256 + b[5];
    Unroll(b, 6);
    assert FromBytes(b[..6]) == x6;
    var x7 := x6 * 256 + b[6];
    Unroll(b, 7);
    assert FromBytes(b[..7]) == x7;
    Unroll(b, 8);
    assert b[..8] == b;
  }

  lemma Unroll(b: seq<byte>, k: nat)
    requires 0 < k <= |b|
    ensures FromBytes(b[..k]) == FromBytes(b[..k - 1]) * 256 + b[k - 1]
  {
    assert b[..k][..k - 1] == b[..k - 1];
  }

  // ----- The receive loop -----

  /** `TimedOut` is what a receive raises when the socket stays silent for too long; the specification of a stream never has it. */
  datatype Reply = Text(payload: seq<byte>) | ConnectionClosed | TimedOut

  /** What a receive does with a stream: its result, the ping payloads to echo, and the bytes left. */
  datatype Received = Received(reply: Reply, pongs: seq<seq<byte>>, rest: seq<byte>)

  function Receive(stream: seq<byte>): (r: Received)
    ensures forall i :: 0 <= i < |r.pongs| ==> |r.pongs[i]| < MAX_LENGTH
    ensures |r.rest| <= |stream| && !r.reply.TimedOut? && (r.reply.Text? ==> |r.rest| < |stream|)
    decreases |stream|
  {
    match ParseFrame(stream)
    case Closed => Received(ConnectionClosed, [], [])
    case Parsed(f, rest) =>
      if f.opcode == CLOSE then Received(ConnectionClosed, [], rest)
      else if f.opcode == TEXT then Received(Text(f.payload), [], rest)
      else
        var later := Receive(rest);
        if f.opcode == PING then later.(pongs := [f.payload] + later.pongs) else later
  }

  /** A frame as some peer put it on the wire. */
  datatype Sent = Sent(frame: Frame, mask: Option<seq<byte>>)

  predicate Sendable(s: Sent) {
    s.frame.opcode < 16 && |s.frame.payload| < MAX_LENGTH && (s.mask.Some? ==> |s.mask.value| == 4)
  }

  predicate AllSendable(ss: seq<Sent>) {
    forall i :: 0 <= i < |ss| ==> Sendable(ss[i])
  }

  function Wire(ss: seq<Sent>): seq<byte>
    requires AllSendable(ss)
    decreases |ss|
  {
    if ss == [] then [] else Encode(ss[0].frame, ss[0].mask) + Wire(ss[1..])
  }

  function PingPayloads(ss: seq<Sent>): (ps: seq<seq<byte>>)
    requires AllSendable(ss)
    ensures forall i :: 0 <= i < |ps| ==> |ps[i]| < MAX_LENGTH
    decreases |ss|
  {
    if ss == [] then []
    else (if ss[0].frame.opcode == PING then [ss[0].frame.payload] else []) + PingPayloads(ss[1..])
  }

  predicate Skippable(ss: seq<Sent>) {
    forall i :: 0 <= i < |ss| ==> ss[i].frame.opcode != TEXT && ss[i].frame.opcode != CLOSE
  }

  /** Frames without text or close only add their pings' echoes to what the rest of the stream brings. */
  lemma {:induction false} ReceivePasses(before: seq<Sent>, tail: seq<byte>)
    requires AllSendable(before) && Skippable(before)
    ensures Receive(Wire(before) + tail) == After(PingPayloads(before), Receive(tail))
    decreases |before|
  {
    hide ParseFrame, Encode;
    if before == [] {
      assert Wire(before) + tail == tail;
      AfterNothing(Receive(tail));
    } else {
      var s, later := before[0], Wire(before[1..]) + tail;
      assert Wire(before) + tail == Encode(s.frame, s.mask) + later;
      FrameRoundTrip(s.frame, s.mask, later);
      ReceivePasses(before[1..], tail);
      AfterConcat(if s.frame.opcode == PING then [s.frame.payload] else [], PingPayloads(before[1..]), Receive(tail));
      AfterNothing(Receive(later));
    }
  }

  /**
    For any frames without text or close, then a text frame, then any bytes: the text's payload is returned,
    the payload of each earlier ping is echoed in order, and exactly the frames up to the text are consumed.
   */
  lemma ReceiveReturnsFirstText(before: seq<Sent>, text: Sent, rest: seq<byte>)
    requires AllSendable(before) && Skippable(before) && Sendable(text) && text.frame.opcode == TEXT
    ensures Receive(Wire(before) + (Encode(text.frame, text.mask) + rest)) ==
            Received(Text(text.frame.payload), PingPayloads(before), rest)
  {
    hide ParseFrame, Encode;
    ReceivePasses(before, Encode(text.frame, text.mask) + rest);
    FrameRoundTrip(text.frame, text.mask, rest);
    assert PingPayloads(before) + [] == PingPayloads(before);
  }

  /** A close frame met first ends the connection after the same echoes. */
  lemma ReceiveStopsAtClose(before: seq<Sent>, close: Sent, rest: seq<byte>)
    requires AllSendable(before) && Skippable(before) && Sendable(close) && close.frame.opcode == CLOSE
    ensures Receive(Wire(before) + (Encode(close.frame, close.mask) + rest)) ==
            Received(ConnectionClosed, PingPayloads(before), rest)
  {
    hide ParseFrame, Encode;
    ReceivePasses(before, Encode(close.frame, close.mask) + rest);
    FrameRoundTrip(close.frame, close.mask, rest);
    assert PingPayloads(before) + [] == PingPayloads(before);
  }

  /** The pong frames a client sends for some ping payloads, with the masks it draws. */
  function Pongs(payloads: seq<seq<byte>>, masks: nat -> seq<byte>, drawn: nat): seq<byte>
    requires forall i :: |masks(i)| == 4
    requires forall i :: 0 <= i < |payloads| ==> |payloads[i]| < MAX_LENGTH
    decreases |payloads|
  {
    if payloads == [] then []
    else Encode(Frame(PONG, payloads[0]), Some(masks(drawn))) + Pongs(payloads[1..], masks, drawn + 1)
  }

  /** A receive that has already echoed some pings. */
  function After(echoed: seq<seq<byte>>, r: Received): Received {
    r.(pongs := echoed + r.pongs)
  }

  lemma AfterNothing(r: Received)
    ensures After([], r) == r
  {
  }

  lemma AfterConcat(xs: seq<seq<byte>>, ys: seq<seq<byte>>, r: Received)
    ensures After(xs, After(ys, r)) == After(xs + ys, r)
  {
    assert xs + (ys + r.pongs) == xs + ys + r.pongs;
  }

  /** What a receive does with a frame, by its opcode (sections 5.2 and 5.5 of RFC 6455). */
  lemma OpcodesMean(f: Frame, mask: Option<seq<byte>>, rest: seq<byte>)
    requires f.opcode < 16 && |f.payload| < MAX_LENGTH && (mask.Some? ==> |mask.value| == 4)
    ensures Receive(Encode(f, mask) + rest) ==
            if f.opcode == 1 then Received(Text(f.payload), [], rest)
            else if f.opcode == 8 then Received(ConnectionClosed, [], rest)
            else if f.opcode == 9 then After([f.payload], Receive(rest))
            else Receive(rest)
  {
    hide ParseFrame, Encode;
    FrameRoundTrip(f, mask, rest);
  }

  /** A ping is answered with a masked frame of opcode ten. */
  lemma PongMeans(payload: seq<byte>, masks: nat -> seq<byte>, drawn: nat)
    requires (forall i :: |masks(i)| == 4) && |payload| < MAX_LENGTH
    ensures Pongs([payload], masks, drawn) == Encode(Frame(10, payload), Some(masks(drawn)))
  {
    hide Encode;
    assert [payload][1..] == [];
    assert Encode(Frame(PONG, payload), Some(masks(drawn))) + [] == Encode(Frame(PONG, payload), Some(masks(drawn)));
  }

  /** How many bytes reading the front frame takes; one more than there are if it never becomes complete. */
  function FrameSize(stream: seq<byte>): (n: nat)
    ensures n > 0
  {
    match ParseFrame(stream)
    case Closed => |stream| + 1
    case Parsed(_, rest) => |stream| - |rest|
  }

  lemma ParsedRest(stream: seq<byte>)
    requires ParseFrame(stream).Parsed?
    ensures 2 <= FrameSize(stream) <= |stream| && ParseFrame(stream).rest == stream[FrameSize(stream)..]
  {
    ShortStream(stream);
    FrameFields(stream);
  }
}
