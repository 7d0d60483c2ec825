/**
  The control client at work: a socket that cuts the stream into any chunks and may fall silent past its
  timeout anywhere, the frame reader, the receive loop, and the search for a wanted reply.
 */
module ControlSocket {
  import opened Common
  import opened WebSocketFrames

  // ===== What is to come on the line =====

  /**
    The bytes still to be received, and where the line falls silent: `silences[0]` bytes come before the
    first silence, `silences[1]` more before the second, and so on.
   */
  datatype Line = Line(bytes: seq<byte>, silences: seq<nat>)

  /** A silence falls before `n` more bytes have come, and before the end of the stream. */
  predicate Interrupted(l: Line, n: nat) {
    l.silences != [] && l.silences[0] < n && l.silences[0] <= |l.bytes|
  }

  /** No silence among the next `n` bytes; one right after them does not count. */
  predicate Clear(l: Line, n: nat) {
    n <= |l.bytes| && (l.silences == [] || n <= l.silences[0])
  }

  function Drop(l: Line, n: nat): Line
    requires Clear(l, n)
  {
    Line(l.bytes[n..], if l.silences == [] then [] else [l.silences[0] - n] + l.silences[1..])
  }

  /** Everything up to and including the first silence is gone. */
  function Lapse(l: Line): Line
    requires l.silences != [] && l.silences[0] <= |l.bytes|
  {
    Line(l.bytes[l.silences[0]..], l.silences[1..])
  }

  lemma {:induction false} DropTwice(l: Line, a: nat, b: nat)
    requires Clear(l, a) && Clear(Drop(l, a), b)
    ensures Clear(l, a + b) && Drop(Drop(l, a), b) == Drop(l, a + b)
  {
  }

  lemma {:induction false} DropFacts(l: Line, a: nat, n: nat)
    requires Clear(l, a)
    ensures Interrupted(Drop(l, a), n) <==> Interrupted(l, a + n)
    ensures l.silences != [] && l.silences[0] <= |l.bytes| ==> Drop(l, a).silences != [] && Lapse(Drop(l, a)) == Lapse(l)
    ensures !Interrupted(l, a + n) && a + n <= |l.bytes| ==> Clear(Drop(l, a), n)
  {
  }

  // ===== One receive =====

  datatype Heard = Heard(reply: Reply, pongs: seq<seq<byte>>, line: Line)

  function Echoing(ps: seq<seq<byte>>, h: Heard): Heard {
    h.(pongs := ps + h.pongs)
  }

  /** What a receive does on a line: whole frames one by one, until a text, a close, the end, or a silence inside a frame's time. */
  function Receiving(l: Line): (h: Heard)
    ensures forall i :: 0 <= i < |h.pongs| ==> |h.pongs[i]| < MAX_LENGTH
    ensures |h.line.bytes| <= |l.bytes|
    decreases |l.bytes|
  {
    var size := FrameSize(l.bytes);
    if Interrupted(l, size) then Heard(TimedOut, [], Lapse(l))
    else
      match ParseFrame(l.bytes)
      case Closed => Heard(ConnectionClosed, [], Drop(l, |l.bytes|))
      case Parsed(f, rest) =>
        ParsedRest(l.bytes);
        if f.opcode == CLOSE then Heard(ConnectionClosed, [], Drop(l, size))
        else if f.opcode == TEXT then Heard(Text(f.payload), [], Drop(l, size))
        else
          var later := Receiving(Drop(l, size));
          if f.opcode == PING then Echoing([f.payload], later) else later
  }

  /** How many bytes an uninterrupted receive reads; one more than there are if it only stops at the end of the stream. */
  function Span(bytes: seq<byte>): (n: nat)
    ensures n > 0
    decreases |bytes|
  {
    match ParseFrame(bytes)
    case Closed => |bytes| + 1
    case Parsed(f, rest) => FrameSize(bytes) + if f.opcode == TEXT || f.opcode == CLOSE then 0 else Span(rest)
  }

  /** The sizes of some whole frames at the front add up to `k`. */
  predicate FrameEnds(bytes: seq<byte>, k: nat)
    decreases |bytes|
  {
    k == 0 || (ParseFrame(bytes).Parsed? && FrameSize(bytes) <= k && FrameEnds(ParseFrame(bytes).rest, k - FrameSize(bytes)))
  }

  /** `x` is what is left of `stream` after some whole frames. */
  ghost predicate Boundary(stream: seq<byte>, x: seq<byte>)
    decreases |stream|
  {
    x == stream || (ParseFrame(stream).Parsed? && Boundary(ParseFrame(stream).rest, x))
  }

  // ===== What silences do to a receive =====

  /** What a receive on a line has to do with a receive of its bytes. */
  ghost predicate Means(l: Line, h: Heard, r: Received, span: nat) {
    && |r.rest| <= |l.bytes|
    && (h.reply.TimedOut? <==> Interrupted(l, span))
    && (h.reply.TimedOut? ==> h.line == Lapse(l))
    && (!h.reply.TimedOut? ==>
         && h.reply == r.reply && h.pongs == r.pongs && h.line.bytes == r.rest
         && Clear(l, |l.bytes| - |r.rest|) && h.line == Drop(l, |l.bytes| - |r.rest|))
  }

  /**
    A receive times out exactly when a silence falls before the bytes an uninterrupted one would read, and is
    then left right behind that silence; otherwise reply, echoes and bytes left are those of the stream.
   */
  lemma {:induction false} ReceivingMeans(l: Line)
    ensures Means(l, Receiving(l), Receive(l.bytes), Span(l.bytes))
    decreases |l.bytes|
  {
    hide ParseFrame, Means, Receiving, Receive, Span, Clear, Drop;
    if Passes(l) {
      var size, next := FrameSize(l.bytes), PassedBy(l);
      var ps := if ParseFrame(l.bytes).frame.opcode == PING then [ParseFrame(l.bytes).frame.payload] else [];
      PassUnfolds(l);
      ReceivingMeans(next);
      MeansLater(l, size, ps, Receiving(next), Receive(next.bytes), Span(next.bytes));
    } else {
      MeansAtOnce(l);
    }
  }

  /** The front frame comes whole and ends nothing. */
  predicate Passes(l: Line) {
    var p := ParseFrame(l.bytes);
    p.Parsed? && !Interrupted(l, FrameSize(l.bytes)) && p.frame.opcode != TEXT && p.frame.opcode != CLOSE
  }

  function PassedBy(l: Line): Line
    requires Passes(l)
  {
    Drop(l, FrameSize(l.bytes))
  }

  lemma {:induction false} PassUnfolds(l: Line)
    requires Passes(l)
    ensures var f, next := ParseFrame(l.bytes).frame, PassedBy(l);
            var ps := if f.opcode == PING then [f.payload] else [];
            && Clear(l, FrameSize(l.bytes)) && next == Drop(l, FrameSize(l.bytes)) && |next.bytes| < |l.bytes|
            && Receiving(l) == Echoing(ps, Receiving(next))
            && Receive(l.bytes) == After(ps, Receive(next.bytes))
            && Span(l.bytes) == FrameSize(l.bytes) + Span(next.bytes)
  {
    hide ParseFrame;
    ParsedRest(l.bytes);
    EchoingNothing(Receiving(PassedBy(l)));
    AfterNothing(Receive(PassedBy(l).bytes));
  }

  lemma {:induction false} MeansAtOnce(l: Line)
    requires !Passes(l)
    ensures Means(l, Receiving(l), Receive(l.bytes), Span(l.bytes))
  {
    SpanBounds(l.bytes);
    if Interrupted(l, FrameSize(l.bytes)) {
      hide ParseFrame, Receive, Span, Drop;
    } else {
      LastFrame(l);
    }
  }

  /** What ends a receive of a stream at once: the end of the stream, a close, or a text. */
  lemma {:induction false} EndsAtOnce(bytes: seq<byte>)
    ensures ParseFrame(bytes).Closed? ==> Receive(bytes) == Received(ConnectionClosed, [], []) && Span(bytes) == |bytes| + 1
    ensures ParseFrame(bytes).Parsed? ==>
              var f, rest := ParseFrame(bytes).frame, ParseFrame(bytes).rest;
              && (f.opcode == CLOSE ==> Receive(bytes) == Received(ConnectionClosed, [], rest) && Span(bytes) == FrameSize(bytes))
              && (f.opcode == TEXT ==> Receive(bytes) == Received(Text(f.payload), [], rest) && Span(bytes) == FrameSize(bytes))
  {
    hide ParseFrame;
  }

  /** The same for a receive on a line that no silence interrupts. */
  lemma {:induction false} EndsAtOnceOnLine(l: Line)
    requires !Interrupted(l, FrameSize(l.bytes))
    ensures ParseFrame(l.bytes).Closed? ==>
              Clear(l, |l.bytes|) && Receiving(l) == Heard(ConnectionClosed, [], Drop(l, |l.bytes|))
    ensures ParseFrame(l.bytes).Parsed? ==>
              var f, size := ParseFrame(l.bytes).frame, FrameSize(l.bytes);
              && Clear(l, size)
              && (f.opcode == CLOSE ==> Receiving(l) == Heard(ConnectionClosed, [], Drop(l, size)))
              && (f.opcode == TEXT ==> Receiving(l) == Heard(Text(f.payload), [], Drop(l, size)))
  {
    hide ParseFrame, Drop;
    if ParseFrame(l.bytes).Parsed? {
      ParsedRest(l.bytes);
    }
  }

  /** A frame that ends the receive, or the end of the stream. */
  lemma {:induction false} LastFrame(l: Line)
    requires !Passes(l) && !Interrupted(l, FrameSize(l.bytes))
    ensures Means(l, Receiving(l), Receive(l.bytes), Span(l.bytes))
  {
    hide ParseFrame, Receive, Receiving, Span, Drop, Interrupted, Clear;
    EndsAtOnce(l.bytes);
    EndsAtOnceOnLine(l);
    if ParseFrame(l.bytes).Parsed? {
      DropBytes(l, FrameSize(l.bytes));
      RestAfter(l.bytes);
    } else {
      DropBytes(l, |l.bytes|);
    }
  }

  lemma {:induction false} RestAfter(bytes: seq<byte>)
    requires ParseFrame(bytes).Parsed?
    ensures var size, rest := FrameSize(bytes), ParseFrame(bytes).rest;
            size <= |bytes| && rest == bytes[size..] && |rest| == |bytes| - size
  {
    hide ParseFrame;
    ParsedRest(bytes);
  }

  lemma {:induction false} DropBytes(l: Line, n: nat)
    requires Clear(l, n)
    ensures Drop(l, n).bytes == l.bytes[n..] && (n == |l.bytes| ==> Drop(l, n).bytes == [])
  {
  }

  lemma {:induction false} MeansLater(l: Line, size: nat, ps: seq<seq<byte>>, h: Heard, r: Received, span: nat)
    requires Clear(l, size) && Means(Drop(l, size), h, r, span)
    ensures Means(l, Echoing(ps, h), After(ps, r), size + span)
  {
    DropFacts(l, size, span);
    if !h.reply.TimedOut? {
      DropTwice(l, size, |l.bytes| - size - |r.rest|);
    }
  }

  lemma {:induction false} SpanBounds(bytes: seq<byte>)
    ensures FrameSize(bytes) <= Span(bytes) <= |bytes| + 1
    ensures Receive(bytes).reply.Text? ==> Span(bytes) == |bytes| - |Receive(bytes).rest| && FrameEnds(bytes, Span(bytes))
    ensures Receive(bytes).reply.Text? ==> Receive(bytes).rest == bytes[Span(bytes)..]
    decreases |bytes|
  {
    hide ParseFrame;
    if ParseFrame(bytes).Parsed? {
      ParsedRest(bytes);
      var rest := ParseFrame(bytes).rest;
      SpanBounds(rest);
      assert FrameEnds(rest, 0);
    }
  }

  lemma {:induction false} BoundaryIsFrameEnd(bytes: seq<byte>, k: nat)
    requires k <= |bytes|
    ensures Boundary(bytes, bytes[k..]) <==> FrameEnds(bytes, k)
    decreases |bytes|
  {
    hide ParseFrame;
    if k > 0 && ParseFrame(bytes).Parsed? {
      ParsedRest(bytes);
      var size, rest := FrameSize(bytes), ParseFrame(bytes).rest;
      if size <= k {
        assert bytes[k..] == rest[k - size..];
        BoundaryIsFrameEnd(rest, k - size);
      } else if Boundary(rest, bytes[k..]) {
        BoundaryShrinks(rest, bytes[k..]);
        assert false;
      }
    }
  }

  lemma {:induction false} BoundaryShrinks(stream: seq<byte>, x: seq<byte>)
    requires Boundary(stream, x)
    ensures |x| <= |stream|
    decreases |stream|
  {
    hide ParseFrame;
    if x != stream {
      BoundaryShrinks(ParseFrame(stream).rest, x);
    }
  }

  /** After a silence between two frames a receive goes on as if it had never stopped. */
  lemma {:induction false} Resumes(l: Line)
    requires Interrupted(l, Span(l.bytes)) && FrameEnds(l.bytes, l.silences[0])
    ensures var left := l.bytes[l.silences[0]..];
            && Receive(l.bytes) == After(Receiving(l).pongs, Receive(left))
            && Span(left) == Span(l.bytes) - l.silences[0]
    decreases |l.bytes|
  {
    hide ParseFrame;
    var k := l.silences[0];
    if k == 0 {
      AfterNothing(Receive(l.bytes));
    } else {
      ParsedRest(l.bytes);
      var size, f, rest := FrameSize(l.bytes), ParseFrame(l.bytes).frame, ParseFrame(l.bytes).rest;
      var next := Drop(l, size);
      DropFacts(l, size, Span(rest));
      Resumes(next);
      assert rest[k - size..] == l.bytes[k..];
      AfterConcat([f.payload], Receiving(next).pongs, Receive(l.bytes[k..]));
    }
  }

  /**
    A receive that a silence interrupts leaves the socket between two frames if and only if the silence falls
    between two frames; and then the next receive completes this one.
   */
  lemma {:induction false} TimeoutKeepsSyncIff(l: Line)
    requires Interrupted(l, Span(l.bytes))
    ensures var h := Receiving(l);
            && h.reply == TimedOut
            && (Boundary(l.bytes, h.line.bytes) <==> FrameEnds(l.bytes, l.silences[0]))
            && (FrameEnds(l.bytes, l.silences[0]) ==> Receive(l.bytes) == After(h.pongs, Receive(h.line.bytes)))
  {
    hide ParseFrame, Receiving, Receive, Span, FrameEnds, Boundary;
    ReceivingMeans(l);
    BoundaryIsFrameEnd(l.bytes, l.silences[0]);
    if FrameEnds(l.bytes, l.silences[0]) {
      Resumes(l);
    }
  }

  /** The failing input: the reply `{}`, and a silence between its header and its payload. */
  lemma {:induction false} TimeoutLosesReply()
    ensures var l := Line([0x81, 2, 0x7B, 0x7D], [2]);
            var h := Receiving(l);
            && Receive(l.bytes).reply == Text([0x7B, 0x7D])
            && h.reply == TimedOut && Receiving(h.line).reply == ConnectionClosed
  {
    var l := Line([0x81, 2, 0x7B, 0x7D], [2]);
    assert ParseFrame(l.bytes) == Parsed(Frame(TEXT, [0x7B, 0x7D]), []);
    assert l.bytes[2..] == [0x7B, 0x7D];
    assert ParseFrame([0x7B, 0x7D]) == Closed;
  }

  // ===== The search for a wanted reply =====

  datatype Found = Accepted(value: seq<byte>) | HungUp | OutOfTime

  /** How a search ended, the replies it looked at, the pings it echoed, and the line ahead. */
  datatype Search = Search(found: Found, observed: seq<seq<byte>>, pongs: seq<seq<byte>>, line: Line)

  function Preceded(observed: seq<seq<byte>>, pongs: seq<seq<byte>>, s: Search): Search {
    s.(observed := observed + s.observed, pongs := pongs + s.pongs)
  }

  /** Receives until a reply is accepted, at most `tries` times; a timeout only uses up a try. */
  function Until(l: Line, accept: seq<byte> -> bool, tries: nat): (s: Search)
    ensures forall i :: 0 <= i < |s.pongs| ==> |s.pongs[i]| < MAX_LENGTH
    decreases tries
  {
    if tries == 0 then Search(OutOfTime, [], [], l)
    else
      var h := Receiving(l);
      match h.reply
      case TimedOut => Preceded([], h.pongs, Until(h.line, accept, tries - 1))
      case ConnectionClosed => Search(HungUp, [], h.pongs, h.line)
      case Text(v) =>
        if accept(v) then Search(Accepted(v), [v], h.pongs, h.line)
        else Preceded([v], h.pongs, Until(h.line, accept, tries - 1))
  }

  /** The same on a stream without silences and without haste. */
  datatype Hunt = Hunt(found: Found, observed: seq<seq<byte>>, pongs: seq<seq<byte>>, rest: seq<byte>)

  function Hunting(bytes: seq<byte>, accept: seq<byte> -> bool): Hunt
    decreases |bytes|
  {
    var r := Receive(bytes);
    match r.reply
    case ConnectionClosed => Hunt(HungUp, [], r.pongs, r.rest)
    case Text(v) =>
      if accept(v) then Hunt(Accepted(v), [v], r.pongs, r.rest)
      else
        var later := Hunting(r.rest, accept);
        later.(observed := [v] + later.observed, pongs := r.pongs + later.pongs)
  }

  /** How many bytes that reads. */
  function Horizon(bytes: seq<byte>, accept: seq<byte> -> bool): nat
    decreases |bytes|
  {
    var r := Receive(bytes);
    Span(bytes) + if r.reply.Text? && !accept(r.reply.payload) then Horizon(r.rest, accept) else 0
  }

  /** Every silence within the next `h` bytes falls between two frames. */
  predicate OnBoundaries(l: Line, h: nat)
    decreases |l.silences|
  {
    || l.silences == []
    || l.silences[0] >= h
    || (l.silences[0] <= |l.bytes| && FrameEnds(l.bytes, l.silences[0]) && OnBoundaries(Lapse(l), h - l.silences[0]))
  }

  /** Every timeout of the search leaves the socket between two frames. */
  ghost predicate StaysInStep(l: Line, accept: seq<byte> -> bool, tries: nat)
    decreases tries
  {
    || tries == 0
    || var h := Receiving(l);
       match h.reply
       case TimedOut => Boundary(l.bytes, h.line.bytes) && StaysInStep(h.line, accept, tries - 1)
       case ConnectionClosed => true
       case Text(v) => accept(v) || StaysInStep(h.line, accept, tries - 1)
  }

  lemma {:induction false} FrameEndsShift(bytes: seq<byte>, n: nat, k: nat)
    requires FrameEnds(bytes, n) && n <= k && n <= |bytes|
    ensures FrameEnds(bytes, k) <==> FrameEnds(bytes[n..], k - n)
    decreases |bytes|
  {
    hide ParseFrame;
    if n == 0 {
      assert bytes[0..] == bytes;
    } else {
      ParsedRest(bytes);
      var size, rest := FrameSize(bytes), ParseFrame(bytes).rest;
      assert rest[n - size..] == bytes[n..];
      FrameEndsShift(rest, n - size, k - size);
    }
  }

  lemma {:induction false} OnBoundariesDrop(l: Line, n: nat, h: nat)
    requires Clear(l, n) && FrameEnds(l.bytes, n) && n <= h <= |l.bytes| + 1
    ensures OnBoundaries(l, h) <==> OnBoundaries(Drop(l, n), h - n)
  {
    hide FrameEnds;
    if l.silences != [] && l.silences[0] < h {
      DropFacts(l, n, 0);
      FrameEndsShift(l.bytes, n, l.silences[0]);
    }
  }

  lemma {:induction false} HorizonBound(bytes: seq<byte>, accept: seq<byte> -> bool)
    ensures Span(bytes) <= Horizon(bytes, accept) <= |bytes| + 1
    decreases |bytes|
  {
    hide ParseFrame, Span, FrameEnds;
    SpanBounds(bytes);
    var r := Receive(bytes);
    if r.reply.Text? {
      HorizonBound(r.rest, accept);
    }
  }

  /**
    Given enough tries, the search stays in step if and only if every silence before the wanted reply falls
    between two frames; and then it finds, looks at, echoes and leaves exactly what an undisturbed search would.
   */
  lemma {:induction false} SearchInStepIff(l: Line, accept: seq<byte> -> bool, tries: nat)
    requires tries > |l.silences| + |Hunting(l.bytes, accept).observed|
    ensures StaysInStep(l, accept, tries) <==> OnBoundaries(l, Horizon(l.bytes, accept))
    ensures OnBoundaries(l, Horizon(l.bytes, accept)) ==>
              var s, q := Until(l, accept, tries), Hunting(l.bytes, accept);
              s.found == q.found && s.observed == q.observed && s.pongs == q.pongs && s.line.bytes == q.rest
    decreases tries
  {
    hide ParseFrame, Receiving, Receive, Span, FrameEnds, Boundary, Interrupted;
    var h, r := Receiving(l), Receive(l.bytes);
    ReceivingMeans(l);
    HorizonBound(l.bytes, accept);
    match h.reply {
      case TimedOut => SilenceInSearch(l, accept, tries);
      case ConnectionClosed => QuietToTheEnd(l, Span(l.bytes));
      case Text(v) =>
        SpanBounds(l.bytes);
        if accept(v) {
          QuietToTheEnd(l, Span(l.bytes));
        } else {
          HorizonBound(h.line.bytes, accept);
          OnBoundariesDrop(l, Span(l.bytes), Horizon(l.bytes, accept));
          assert |h.line.silences| == |l.silences|;
          SearchInStepIff(h.line, accept, tries - 1);
        }
    }
  }

  lemma {:induction false} QuietToTheEnd(l: Line, n: nat)
    requires !Interrupted(l, n) && n <= |l.bytes| + 1
    ensures OnBoundaries(l, n)
  {
  }

  /** The step of the search that a silence takes. */
  lemma {:induction false} SilenceInSearch(l: Line, accept: seq<byte> -> bool, tries: nat)
    requires tries > |l.silences| + |Hunting(l.bytes, accept).observed| && Receiving(l).reply.TimedOut?
    ensures StaysInStep(l, accept, tries) <==> OnBoundaries(l, Horizon(l.bytes, accept))
    ensures OnBoundaries(l, Horizon(l.bytes, accept)) ==>
              var s, q := Until(l, accept, tries), Hunting(l.bytes, accept);
              s.found == q.found && s.observed == q.observed && s.pongs == q.pongs && s.line.bytes == q.rest
    decreases tries, 0
  {
    hide ParseFrame, Receiving, Receive, Span, FrameEnds, Boundary, Hunting, Horizon;
    var h := Receiving(l);
    ReceivingMeans(l);
    TimeoutKeepsSyncIff(l);
    HorizonBound(l.bytes, accept);
    if FrameEnds(l.bytes, l.silences[0]) {
      ResumedHunt(l, accept);
      SearchInStepIff(h.line, accept, tries - 1);
    }
  }

  lemma {:induction false} ResumedHunt(l: Line, accept: seq<byte> -> bool)
    requires Interrupted(l, Span(l.bytes)) && FrameEnds(l.bytes, l.silences[0])
    ensures var left := l.bytes[l.silences[0]..];
            var q, q' := Hunting(l.bytes, accept), Hunting(left, accept);
            && q == q'.(pongs := Receiving(l).pongs + q'.pongs)
            && Horizon(left, accept) == Horizon(l.bytes, accept) - l.silences[0]
  {
    hide ParseFrame, Receiving, Receive, Span, FrameEnds;
    Resumes(l);
    var left := l.bytes[l.silences[0]..];
    var ps, r := Receiving(l).pongs, Receive(left);
    if r.reply.Text? && !accept(r.reply.payload) {
      assert ps + (r.pongs + Hunting(r.rest, accept).pongs) == ps + r.pongs + Hunting(r.rest, accept).pongs;
    }
  }

  /** However the silences fall, each try uses up a silence or some bytes, so a search with more tries than these ends. */
  lemma {:induction false} SearchEnds(l: Line, accept: seq<byte> -> bool, tries: nat)
    requires tries > |l.silences| + |l.bytes|
    ensures Until(l, accept, tries).found != OutOfTime
    decreases tries
  {
    hide ParseFrame, Receiving, Receive, Span;
    ReceivingMeans(l);
    var h := Receiving(l);
    if h.reply.TimedOut? || (h.reply.Text? && !accept(h.reply.payload)) {
      SearchEnds(h.line, accept, tries - 1);
    }
  }

  // ===== The client =====

  datatype Bytes = Bytes(bytes: seq<byte>) | Ended | Late

  datatype NextFrame = Got(frame: Frame) | Gone | Overdue

  class ControlWebSocket {
    /** Bytes the peer sends and this side has not received yet, and where the line falls silent. */
    var incoming: seq<byte>
    var silences: seq<nat>
    /** How many bytes each coming receive is willing to deliver: any way of cutting the stream into chunks. */
    var cuts: seq<nat>
    var outgoing: seq<byte>
    var drawn: nat
    const masks: nat -> seq<byte>

    ghost predicate Valid()
      reads this
    {
      forall i :: |masks(i)| == 4
    }

    function Ahead(): Line
      reads this
    {
      Line(incoming, silences)
    }

    constructor (line: Line, cuts: seq<nat>, masks: nat -> seq<byte>)
      requires forall i :: |masks(i)| == 4
      ensures Valid() && Ahead() == line && this.cuts == cuts && outgoing == [] && drawn == 0 && this.masks == masks
    {
      this.incoming, this.silences, this.cuts, this.masks := line.bytes, line.silences, cuts, masks;
      outgoing, drawn := [], 0;
    }

    /** Times out exactly in a silence; otherwise delivers between one and `limit` bytes, and none only at the end of the stream. */
    method Recv(limit: nat) returns (chunk: Option<seq<byte>>)
      requires limit > 0
      modifies this`incoming, this`silences, this`cuts
      ensures chunk.None? <==> Interrupted(old(Ahead()), 1)
      ensures chunk.None? ==> Ahead() == Lapse(old(Ahead()))
      ensures chunk.Some? ==>
                var n := |chunk.value|;
                && n <= limit && Clear(old(Ahead()), n) && chunk.value == old(incoming)[..n] && Ahead() == Drop(old(Ahead()), n)
                && (n == 0 <==> old(incoming) == [])
    {
      if silences != [] && silences[0] == 0 {
        silences := silences[1..];
        return None;
      }
      var size := limit;
      if cuts != [] {
        size := if cuts[0] == 0 then 1 else if cuts[0] < limit then cuts[0] else limit;
        cuts := cuts[1..];
      }
      if |incoming| < size {
        size := |incoming|;
      }
      if silences != [] {
        if silences[0] < size {
          size := silences[0];
        }
        silences := [silences[0] - size] + silences[1..];
      }
      chunk := Some(incoming[..size]);
      incoming := incoming[size..];
    }

    /**
      The next `length` bytes however they are cut. Times out exactly when a silence falls before them, and
      fails exactly when the stream ends first; either way what was read is thrown away.
     */
    method ReadExact(length: nat) returns (out: Bytes)
      modifies this`incoming, this`silences, this`cuts
      ensures out.Late? <==> Interrupted(old(Ahead()), length)
      ensures out.Late? ==> Ahead() == Lapse(old(Ahead()))
      ensures !out.Late? ==> (out.Bytes? <==> length <= |old(incoming)|)
      ensures out.Bytes? ==> out.bytes == old(incoming)[..length] && Clear(old(Ahead()), length) && Ahead() == Drop(old(Ahead()), length)
      ensures out.Ended? ==> Clear(old(Ahead()), |old(incoming)|) && Ahead() == Drop(old(Ahead()), |old(incoming)|)
    {
      hide Interrupted, Lapse;
      ghost var before := Ahead();
      var chunks: seq<byte> := [];
      DropNothing(before);
      while |chunks| < length
        invariant |chunks| <= length && Clear(before, |chunks|)
        invariant chunks == before.bytes[..|chunks|] && Ahead() == Drop(before, |chunks|)
        decreases length - |chunks|
      {
        DropFacts(before, |chunks|, 1);
        var chunk := Recv(length - |chunks|);
        if chunk.None? {
          InterruptedBy(before, |chunks| + 1, length);
          return Late;
        }
        DropTwice(before, |chunks|, |chunk.value|);
        if chunk.value == [] {
          EndsFirst(before, |chunks|, length);
          return Ended;
        }
        Suffix(before.bytes, |chunks|, |chunk.value|);
        chunks := chunks + chunk.value;
      }
      NotInterrupted(before, length);
      out := Bytes(chunks);
    }

    method SendFrame(opcode: byte, payload: seq<byte>)
      requires Valid() && opcode < 16 && |payload| < MAX_LENGTH
      modifies this`outgoing, this`drawn
      ensures outgoing == old(outgoing) + Encode(Frame(opcode, payload), Some(masks(old(drawn))))
      ensures drawn == old(drawn) + 1
    {
      var mask := masks(drawn);
      drawn := drawn + 1;
      var length := |payload|;
      var header: seq<byte>;
      if length < 126 {
        header := [SetHighBit(opcode), SetHighBit(length)];
      } else if length <= 0xFFFF {
        header := [SetHighBit(opcode), SetHighBit(126)] + ToBytes(length, 2);
      } else {
        header := [SetHighBit(opcode), SetHighBit(127)] + ToBytes(length, 8);
      }
      var masked: seq<byte> := [];
      for index := 0 to length
        invariant masked == Masked(payload[..index], mask)
        invariant drawn == old(drawn) + 1 && outgoing == old(outgoing)
      {
        masked := masked + [Xor(payload[index], mask[index % 4])];
      }
      assert payload[..length] == payload;
      outgoing := outgoing + (header + mask + masked);
    }

    /** One frame, read field by field. Overdue exactly when a silence falls before the whole frame has come. */
    method ReadFrame() returns (next: NextFrame)
      modifies this`incoming, this`silences, this`cuts
      ensures FrameOutcome(old(Ahead()), next, Ahead())
    {
      hide ParseFrame, FrameOutcome, FieldOf, Interrupted, Lapse, PayloadLength, ExtendedSize, FromBytes, Low7;
      ghost var l := Ahead();
      HeaderFields(l.bytes);
      var header := ReadExact(2);
      if !header.Bytes? {
        DropNothing(l);
        ShortOutcome(l, 0, 2, header, Ahead());
        return if header.Late? then Overdue else Gone;
      }
      var first, second := header.bytes[0], header.bytes[1];
      LengthField(second);
      var length: nat := Low7(second);
      if length == 126 || length == 127 {
        var size := if length == 126 then 2 else 8;
        var extended := ReadExact(size);
        if !extended.Bytes? {
          ShortOutcome(l, 2, size, extended, Ahead());
          return if extended.Late? then Overdue else Gone;
        }
        Suffix(l.bytes, 2, size);
        DropTwice(l, 2, size);
        length := FromBytes(extended.bytes);
      }
      next := ReadBody(first, second, length, l);
    }

    /** The rest of a frame whose header and length have been read. */
    method ReadBody(first: byte, second: byte, length: nat, ghost l: Line) returns (next: NextFrame)
      requires |l.bytes| >= 2 && first == l.bytes[0] && second == l.bytes[1]
      requires Clear(l, 2 + ExtendedSize(second)) && Ahead() == Drop(l, 2 + ExtendedSize(second))
      requires length == PayloadLength(second, l.bytes[2..2 + ExtendedSize(second)])
      modifies this`incoming, this`silences, this`cuts
      ensures FrameOutcome(l, next, Ahead())
    {
      hide ParseFrame, FrameOutcome, FieldOf, Interrupted, Lapse, Masked, PayloadLength, ExtendedSize, MaskSize, Low4;
      MaskSizes(second);
      BodyFields(l.bytes);
      ghost var stream := l.bytes;
      ghost var maskAt := 2 + ExtendedSize(second);
      ghost var bodyAt := maskAt + MaskSize(second);
      var mask: seq<byte> := [];
      if HighBit(second) {
        DropFacts(l, maskAt, 4);
        var four := ReadExact(4);
        if !four.Bytes? {
          ShortOutcome(l, maskAt, 4, four, Ahead());
          return if four.Late? then Overdue else Gone;
        }
        mask := four.bytes;
        Suffix(stream, maskAt, 4);
        DropTwice(l, maskAt, 4);
      }
      DropFacts(l, bodyAt, length);
      var body := ReadExact(length);
      if !body.Bytes? {
        ShortOutcome(l, bodyAt, length, body, Ahead());
        return if body.Late? then Overdue else Gone;
      }
      Suffix(stream, bodyAt, length);
      DropTwice(l, bodyAt, length);
      WholeOutcome(l, length, Ahead());
      return Got(Frame(Low4(first), if HighBit(second) then Masked(body.bytes, mask) else body.bytes));
    }

    /** Reads frames until a text frame: echoes pings, stops at a close, ignores everything else, gives up in a silence. */
    method ReceiveJson() returns (reply: Reply, ghost echoed: seq<seq<byte>>)
      requires Valid()
      modifies this
      ensures Heard(reply, echoed, Ahead()) == Receiving(old(Ahead()))
      ensures (forall i :: 0 <= i < |echoed| ==> |echoed[i]| < MAX_LENGTH) && drawn == old(drawn) + |echoed|
      ensures outgoing == old(outgoing) + Pongs(echoed, masks, old(drawn))
    {
      hide ParseFrame, Encode, Receiving, FrameOutcome, Echoing;
      ghost var l := Ahead();
      echoed := [];
      EchoingNothing(Receiving(l));
      assert outgoing + [] == outgoing;
      while true
        invariant Receiving(l) == Echoing(echoed, Receiving(Ahead()))
        invariant forall i :: 0 <= i < |echoed| ==> |echoed[i]| < MAX_LENGTH
        invariant outgoing == old(outgoing) + Pongs(echoed, masks, old(drawn)) && drawn == old(drawn) + |echoed|
        decreases |incoming|
      {
        ghost var here := Ahead();
        var next := ReadFrame();
        ReceivingUnfolds(echoed, here, next, Ahead());
        if next.Overdue? {
          return TimedOut, echoed;
        }
        if next.Gone? || next.frame.opcode == CLOSE {
          return ConnectionClosed, echoed;
        }
        if next.frame.opcode == TEXT {
          return Text(next.frame.payload), echoed;
        }
        if next.frame.opcode == PING {
          PongsSnoc(echoed, next.frame.payload, masks, old(drawn));
          SendFrame(PONG, next.frame.payload);
          echoed := echoed + [next.frame.payload];
        }
      }
    }

    /** Receives again and again until a reply is accepted or `tries` receives are used up; a timeout is passed over. */
    method ReceiveUntil(accept: seq<byte> -> bool, tries: nat) returns (found: Found, observed: seq<seq<byte>>, ghost echoed: seq<seq<byte>>)
      requires Valid()
      modifies this
      ensures Search(found, observed, echoed, Ahead()) == Until(old(Ahead()), accept, tries)
      ensures (forall i :: 0 <= i < |echoed| ==> |echoed[i]| < MAX_LENGTH) && drawn == old(drawn) + |echoed|
      ensures outgoing == old(outgoing) + Pongs(echoed, masks, old(drawn))
    {
      hide Encode, Receiving, Pongs, Until, Preceded;
      ghost var l := Ahead();
      observed, echoed := [], [];
      NoPongs(masks, drawn);
      assert outgoing + [] == outgoing;
      PrecededByNothing(Until(l, accept, tries));
      for n := 0 to tries
        invariant forall i :: 0 <= i < |echoed| ==> |echoed[i]| < MAX_LENGTH
        invariant Valid() && drawn == old(drawn) + |echoed|
        invariant outgoing == old(outgoing) + Pongs(echoed, masks, old(drawn))
        invariant Until(l, accept, tries) == Preceded(observed, echoed, Until(Ahead(), accept, tries - n))
      {
        UntilUnfolds(observed, echoed, Ahead(), accept, tries - n);
        var reply;
        ghost var more;
        reply, more := ReceiveJson();
        PongsConcat(echoed, more, masks, old(drawn));
        assert outgoing == old(outgoing) + Pongs(echoed + more, masks, old(drawn));
        echoed := echoed + more;
        match reply {
          case TimedOut =>
          case ConnectionClosed =>
            return HungUp, observed, echoed;
          case Text(v) =>
            observed := observed + [v];
            if accept(v) {
              return Accepted(v), observed, echoed;
            }
        }
      }
      UntilOver(observed, echoed, Ahead(), accept);
      return OutOfTime, observed, echoed;
    }
  }

  /** What reading one frame does to a line. */
  ghost predicate FrameOutcome(l: Line, next: NextFrame, left: Line) {
    var size := FrameSize(l.bytes);
    if Interrupted(l, size) then next.Overdue? && left == Lapse(l)
    else
      match ParseFrame(l.bytes)
      case Closed => next.Gone? && Clear(l, |l.bytes|) && left == Drop(l, |l.bytes|)
      case Parsed(f, _) => next == Got(f) && Clear(l, size) && left == Drop(l, size)
  }

  /** One turn of the receive loop, seen from the start of the call. */
  lemma {:induction false} ReceivingUnfolds(ps: seq<seq<byte>>, l: Line, next: NextFrame, left: Line)
    requires FrameOutcome(l, next, left)
    ensures Echoing(ps, Receiving(l)) ==
            match next
            case Overdue => Heard(TimedOut, ps, left)
            case Gone => Heard(ConnectionClosed, ps, left)
            case Got(f) =>
              if f.opcode == CLOSE then Heard(ConnectionClosed, ps, left)
              else if f.opcode == TEXT then Heard(Text(f.payload), ps, left)
              else Echoing(if f.opcode == PING then ps + [f.payload] else ps, Receiving(left))
    ensures next.Got? ==> |left.bytes| < |l.bytes| && |next.frame.payload| < MAX_LENGTH
  {
    hide ParseFrame;
    assert ps + [] == ps;
    if next.Got? {
      ParsedRest(l.bytes);
      var later := Receiving(left).pongs;
      assert ps + ([next.frame.payload] + later) == ps + [next.frame.payload] + later;
    }
  }

  /** How many bytes the reader has asked for by the end of the field at `at`, if the stream reaches that far. */
  ghost predicate FieldOf(stream: seq<byte>, at: nat, length: nat) {
    || (at == 0 && length == 2)
    || (|stream| >= 2 && at == 2 && length == ExtendedSize(stream[1]))
    || (|stream| >= 2 && at == 2 + ExtendedSize(stream[1]) && length == MaskSize(stream[1]))
    || (|stream| >= 2 && at == 2 + ExtendedSize(stream[1]) + MaskSize(stream[1]) <= |stream|
        && length == PayloadLength(stream[1], stream[2..2 + ExtendedSize(stream[1])]))
  }

  lemma {:induction false} BodyFields(stream: seq<byte>)
    requires |stream| >= 2
    ensures var at := 2 + ExtendedSize(stream[1]);
            && FieldOf(stream, at, MaskSize(stream[1]))
            && (at + MaskSize(stream[1]) <= |stream| ==>
                 FieldOf(stream, at + MaskSize(stream[1]), PayloadLength(stream[1], stream[2..at])))
  {
    hide PayloadLength;
  }

  lemma {:induction false} InterruptedBy(l: Line, a: nat, n: nat)
    requires Interrupted(l, a) && a <= n
    ensures Interrupted(l, n)
  {
  }

  lemma {:induction false} NotInterrupted(l: Line, n: nat)
    requires Clear(l, n)
    ensures !Interrupted(l, n)
  {
  }

  lemma {:induction false} EndsFirst(l: Line, a: nat, n: nat)
    requires Clear(l, a) && a == |l.bytes| && !Interrupted(l, a + 1)
    ensures !Interrupted(l, n)
  {
  }

  lemma {:induction false} HeaderFields(stream: seq<byte>)
    ensures FieldOf(stream, 0, 2)
    ensures |stream| >= 2 ==> FieldOf(stream, 2, ExtendedSize(stream[1]))
  {
  }

  lemma {:induction false} LengthField(second: byte)
    ensures Low7(second) == 126 ==> ExtendedSize(second) == 2
    ensures Low7(second) == 127 ==> ExtendedSize(second) == 8
    ensures Low7(second) != 126 && Low7(second) != 127 ==> ExtendedSize(second) == 0
    ensures forall ext: seq<byte> :: PayloadLength(second, ext) == if Low7(second) == 126 || Low7(second) == 127 then FromBytes(ext) else Low7(second)
  {
  }

  lemma {:induction false} DropNothing(l: Line)
    ensures Clear(l, 0) && Drop(l, 0) == l
  {
    assert l.bytes[0..] == l.bytes;
  }

  /** A field is part of the front frame: within it if it is complete, and not there at all only if the frame is not. */
  lemma {:induction false} FieldWithin(stream: seq<byte>, at: nat, length: nat)
    requires at <= |stream| && FieldOf(stream, at, length)
    ensures ParseFrame(stream).Parsed? ==> at + length <= FrameSize(stream) <= |stream|
  {
    hide PayloadLength, Masked;
    ShortStream(stream);
    if |stream| >= 2 {
      FrameFields(stream);
    }
  }

  /** A field that did not come whole decides the frame. */
  lemma {:induction false} ShortOutcome(l: Line, at: nat, length: nat, out: Bytes, left: Line)
    requires Clear(l, at) && FieldOf(l.bytes, at, length) && !out.Bytes?
    requires out.Late? <==> Interrupted(Drop(l, at), length)
    requires out.Late? ==> left == Lapse(Drop(l, at))
    requires out.Ended? ==> |l.bytes| - at < length && Clear(Drop(l, at), |l.bytes| - at) && left == Drop(Drop(l, at), |l.bytes| - at)
    ensures FrameOutcome(l, if out.Late? then Overdue else Gone, left)
  {
    hide ParseFrame, FieldOf;
    FieldWithin(l.bytes, at, length);
    DropFacts(l, at, length);
    if out.Ended? {
      DropTwice(l, at, |l.bytes| - at);
    }
  }

  /** A frame all of whose fields came. */
  lemma {:induction false} WholeOutcome(l: Line, length: nat, left: Line)
    requires |l.bytes| >= 2
    requires var second := l.bytes[1];
             var bodyAt := 2 + ExtendedSize(second) + MaskSize(second);
             && Clear(l, bodyAt + length) && left == Drop(l, bodyAt + length)
             && length == PayloadLength(second, l.bytes[2..2 + ExtendedSize(second)])
    ensures var second := l.bytes[1];
            var bodyAt := 2 + ExtendedSize(second) + MaskSize(second);
            var body := l.bytes[bodyAt..bodyAt + length];
            FrameOutcome(l, Got(Frame(Low4(l.bytes[0]), if HighBit(second) then Masked(body, l.bytes[bodyAt - 4..bodyAt]) else body)), left)
  {
    hide ParseFrame, PayloadLength, ExtendedSize, MaskSize, Masked, Low4;
    FrameFields(l.bytes);
    MaskSizes(l.bytes[1]);
    NotInterrupted(l, FrameSize(l.bytes));
  }

  lemma {:induction false} MaskSizes(second: byte)
    ensures MaskSize(second) == if HighBit(second) then 4 else 0
  {
  }

  lemma {:induction false} Suffix(s: seq<byte>, a: nat, b: nat)
    requires a + b <= |s|
    ensures s[a..][b..] == s[a + b..] && s[a..][..b] == s[a..a + b]
  {
  }

  lemma {:induction false} NoPongs(masks: nat -> seq<byte>, drawn: nat)
    requires forall i :: |masks(i)| == 4
    ensures Pongs([], masks, drawn) == []
  {
  }

  lemma {:induction false} PrecededByNothing(s: Search)
    ensures Preceded([], [], s) == s
  {
  }

  /** One try of the search, seen from its start. */
  lemma {:induction false} UntilUnfolds(observed: seq<seq<byte>>, echoed: seq<seq<byte>>, l: Line, accept: seq<byte> -> bool, tries: nat)
    requires tries > 0
    ensures var h := Receiving(l);
            var later := Until(h.line, accept, tries - 1);
            Preceded(observed, echoed, Until(l, accept, tries)) ==
            match h.reply
            case TimedOut => Preceded(observed, echoed + h.pongs, later)
            case ConnectionClosed => Search(HungUp, observed, echoed + h.pongs, h.line)
            case Text(v) =>
              if accept(v) then Search(Accepted(v), observed + [v], echoed + h.pongs, h.line)
              else Preceded(observed + [v], echoed + h.pongs, later)
  {
    hide Receiving;
    var h := Receiving(l);
    var later := Until(h.line, accept, tries - 1);
    assert echoed + (h.pongs + later.pongs) == echoed + h.pongs + later.pongs;
    assert observed + [] == observed && [] + later.observed == later.observed;
    if h.reply.Text? {
      assert observed + ([h.reply.payload] + later.observed) == observed + [h.reply.payload] + later.observed;
    }
  }

  lemma {:induction false} UntilOver(observed: seq<seq<byte>>, echoed: seq<seq<byte>>, l: Line, accept: seq<byte> -> bool)
    ensures Preceded(observed, echoed, Until(l, accept, 0)) == Search(OutOfTime, observed, echoed, l)
  {
    assert observed + [] == observed && echoed + [] == echoed;
  }

  lemma {:induction false} EchoingNothing(h: Heard)
    ensures Echoing([], h) == h
  {
  }

  lemma {:induction false} PongsConcat(xs: seq<seq<byte>>, ys: seq<seq<byte>>, masks: nat -> seq<byte>, drawn: nat)
    requires forall i :: |masks(i)| == 4
    requires forall i :: 0 <= i < |xs| ==> |xs[i]| < MAX_LENGTH
    requires forall i :: 0 <= i < |ys| ==> |ys[i]| < MAX_LENGTH
    ensures Pongs(xs + ys, masks, drawn) == Pongs(xs, masks, drawn) + Pongs(ys, masks, drawn + |xs|)
    decreases |xs|
  {
    hide Encode;
    if xs == [] {
      assert [] + ys == ys;
    } else {
      assert (xs + ys)[1..] == xs[1..] + ys;
      PongsConcat(xs[1..], ys, masks, drawn + 1);
    }
  }

  lemma {:induction false} PongsSnoc(ps: seq<seq<byte>>, p: seq<byte>, masks: nat -> seq<byte>, drawn: nat)
    requires forall i :: |masks(i)| == 4
    requires (forall i :: 0 <= i < |ps| ==> |ps[i]| < MAX_LENGTH) && |p| < MAX_LENGTH
    ensures Pongs(ps + [p], masks, drawn) == Pongs(ps, masks, drawn) + Encode(Frame(PONG, p), Some(masks(drawn + |ps|)))
  {
    hide Encode;
    PongsConcat(ps, [p], masks, drawn);
    assert [p][1..] == [];
    assert Pongs([p], masks, drawn + |ps|) == Encode(Frame(PONG, p), Some(masks(drawn + |ps|))) + [];
  }

  /**
    The whole of it: any frames without text or close, then a text frame, then anything; any cutting into
    chunks; and no silence before the text has come. The text is returned, each ping before it is echoed in
    order and nothing else is sent, and what follows the text is left on the line.
   */
  method ReceiveFirstText(socket: ControlWebSocket, ghost before: seq<Sent>, ghost text: Sent, ghost rest: seq<byte>) returns (reply: Reply)
    requires socket.Valid() && AllSendable(before) && Skippable(before) && Sendable(text) && text.frame.opcode == TEXT
    requires socket.incoming == Wire(before) + (Encode(text.frame, text.mask) + rest)
    requires socket.silences == [] || socket.silences[0] >= |Wire(before)| + |Encode(text.frame, text.mask)|
    modifies socket
    ensures reply == Text(text.frame.payload) && socket.incoming == rest
    ensures socket.outgoing == old(socket.outgoing) + Pongs(PingPayloads(before), socket.masks, old(socket.drawn))
  {
    hide Encode, Wire, Receiving, Receive;
    ReceiveReturnsFirstText(before, text, rest);
    SpanBounds(socket.incoming);
    ReceivingMeans(socket.Ahead());
    ghost var echoed;
    reply, echoed := socket.ReceiveJson();
  }
}
