/**
  The incremental scan of a Codex rollout for client-side compactions. Each visit reads only the bytes
  appended since the last one, keeps an unfinished last line, and folds the complete lines into events.
 */
module RolloutScan {
  import opened Common

  const NEWLINE: byte := 10
  const INITIAL_TAIL_BYTES: nat := 8 * 1024 * 1024

  /** A line's `type` and its payload's `type`, as far as the scanner tells them apart. */
  datatype LineKind = Compacted | OtherLine
  datatype PayloadKind = TokenCount | ContextCompacted | OtherPayload

  /** What the scanner reads out of one JSON line. */
  datatype Record = Record(
    timestampMs: Option<int>,
    kind: LineKind,
    payloadKind: PayloadKind,
    totalTokens: Option<nat>,
    message: Option<string>)

  /** JSON decoding of one line: None for text that is not JSON. */
  type Decoder = seq<byte> -> Option<Record>

  datatype Event = Event(
    createdAt: int,
    eventId: int,
    threadId: Option<string>,
    threadLabel: Option<string>,
    tokensBefore: Option<nat>,
    tokensAfter: Option<nat>,
    replacementText: Option<string>)

  /** The part of a scan that parsing updates. */
  datatype Parsed = Parsed(lastTokens: Option<nat>, pending: Option<nat>, events: seq<Event>)

  /** The thread a rollout belongs to, as its path and the session index name it. */
  datatype Thread = Thread(id: Option<string>, threadLabel: Option<string>)

  const EMPTY: Parsed := Parsed(None, None, [])

  /** Integer division as Rust performs it, rounding toward zero. */
  function TruncDiv(x: int, y: int): (q: int)
    requires y > 0
    ensures x >= 0 ==> 0 <= q && q * y <= x < q * y + y
    ensures x <= 0 ==> q <= 0 && q * y - y < x <= q * y
  {
    if x >= 0 then x / y else -((-x) / y)
  }

  function Abs(x: int): (r: int)
    ensures r >= 0 && (r == x || r == -x)
  {
    if x < 0 then -x else x
  }

  // ----- One record -----

  predicate IsTokenCount(r: Option<Record>) {
    r.Some? && r.value.payloadKind == TokenCount
  }

  /** The positive token count a record reports, if it reports one. */
  function PositiveTokens(r: Option<Record>): Option<nat> {
    if IsTokenCount(r) && r.value.totalTokens.Some? && r.value.totalTokens.value > 0 then r.value.totalTokens else None
  }

  /** A timestamped compaction marker, in either of the two shapes Codex has used. */
  predicate IsMarker(r: Option<Record>) {
    && r.Some?
    && !IsTokenCount(r)
    && (r.value.kind == Compacted || r.value.payloadKind == ContextCompacted)
    && r.value.timestampMs.Some?
  }

  function Seconds(r: Option<Record>): int
    requires IsMarker(r)
  {
    TruncDiv(r.value.timestampMs.value, 1000)
  }

  function Text(r: Option<Record>): Option<string> {
    if r.Some? && r.value.message.Some? && !IsBlank(r.value.message.value) then r.value.message else None
  }

  /**
    What a line says to the scanner. A token count reports its total if that is positive. A compaction marker is
    any other timestamped line of either shape; it counts by whole seconds toward zero, and its summary is
    its message unless that is all white space. Text that is not JSON says nothing.
   */
  lemma RecordMeans(r: Record)
    ensures PositiveTokens(None) == None && !IsMarker(None) && Text(None) == None
    ensures PositiveTokens(Some(r)) ==
            match r.totalTokens
            case Some(n) => if r.payloadKind == TokenCount && n > 0 then Some(n) else None
            case None => None
    ensures IsMarker(Some(r)) <==>
            r.timestampMs != None && r.payloadKind != TokenCount && (r.kind == Compacted || r.payloadKind == ContextCompacted)
    ensures IsMarker(Some(r)) ==>
              var ms, s := r.timestampMs.value, Seconds(Some(r));
              if ms >= 0 then 1000 * s <= ms < 1000 * s + 1000 else 1000 * s - 1000 < ms <= 1000 * s
    ensures Text(Some(r)) ==
            match r.message
            case Some(m) => if exists i :: 0 <= i < |m| && !IsSpace(m[i]) then Some(m) else None
            case None => None
  {
  }

  /** One line folded into the scan. */
  function Step(p: Parsed, r: Option<Record>, t: Thread): Parsed {
    if PositiveTokens(r).Some? then
      var tokens := PositiveTokens(r);
      var events := if p.pending.Some? && p.pending.value < |p.events|
                    then p.events[p.pending.value := p.events[p.pending.value].(tokensAfter := tokens)] else p.events;
      Parsed(tokens, None, events)
    else if !IsMarker(r) then p
    else if p.events != [] && Abs(Seconds(r) - p.events[|p.events| - 1].createdAt) <= 2 then
      var last := p.events[|p.events| - 1];
      if last.replacementText.None?
      then p.(events := p.events[|p.events| - 1 := last.(replacementText := Text(r))]) else p
    else
      Parsed(p.lastTokens, Some(|p.events|),
             p.events + [Event(Seconds(r), r.value.timestampMs.value, t.id, t.threadLabel, p.lastTokens, None, Text(r))])
  }

  function Fold(p: Parsed, rs: seq<Option<Record>>, t: Thread): Parsed
    decreases |rs|
  {
    if rs == [] then p else Step(Fold(p, rs[..|rs| - 1], t), rs[|rs| - 1], t)
  }

  lemma {:induction false} FoldConcat(p: Parsed, xs: seq<Option<Record>>, ys: seq<Option<Record>>, t: Thread)
    ensures Fold(p, xs + ys, t) == Fold(Fold(p, xs, t), ys, t)
    decreases |ys|
  {
    if ys == [] {
      assert xs + ys == xs;
    } else {
      assert (xs + ys)[..|xs + ys| - 1] == xs + ys[..|ys| - 1];
      FoldConcat(p, xs, ys[..|ys| - 1], t);
    }
  }

  // ----- Lines of a byte string -----

  /** The lines ended by a newline so far, and the unfinished one. */
  datatype Chopped = Chopped(lines: seq<seq<byte>>, tail: seq<byte>)

  const NOTHING: Chopped := Chopped([], [])

  /** Reading bytes one at a time. */
  function Chop(c: Chopped, bytes: seq<byte>): Chopped
    decreases |bytes|
  {
    if bytes == [] then c
    else
      var before := Chop(c, bytes[..|bytes| - 1]);
      var b := bytes[|bytes| - 1];
      if b == NEWLINE then Chopped(before.lines + [before.tail], []) else before.(tail := before.tail + [b])
  }

  /** The bytes a chopped reading came from. */
  function Joined(lines: seq<seq<byte>>): seq<byte>
    decreases |lines|
  {
    if lines == [] then [] else Joined(lines[..|lines| - 1]) + lines[|lines| - 1] + [NEWLINE]
  }

  predicate NoNewline(bytes: seq<byte>) {
    forall i :: 0 <= i < |bytes| ==> bytes[i] != NEWLINE
  }

  lemma {:induction false} ChopConcat(c: Chopped, a: seq<byte>, b: seq<byte>)
    ensures Chop(c, a + b) == Chop(Chop(c, a), b)
    decreases |b|
  {
    if b == [] {
      assert a + b == a;
    } else {
      assert (a + b)[..|a + b| - 1] == a + b[..|b| - 1];
      ChopConcat(c, a, b[..|b| - 1]);
    }
  }

  /** Earlier lines only accumulate in front. */
  lemma {:induction false} ChopFrame(lines: seq<seq<byte>>, tail: seq<byte>, b: seq<byte>)
    ensures var c := Chop(Chopped([], tail), b);
            Chop(Chopped(lines, tail), b) == Chopped(lines + c.lines, c.tail)
    decreases |b|
  {
    if b != [] {
      ChopFrame(lines, tail, b[..|b| - 1]);
    }
  }

  lemma {:induction false} ChopUnfinished(c: Chopped, b: seq<byte>)
    requires NoNewline(b)
    ensures Chop(c, b) == c.(tail := c.tail + b)
    decreases |b|
  {
    if b != [] {
      ChopUnfinished(c, b[..|b| - 1]);
      assert c.tail + b == c.tail + b[..|b| - 1] + [b[|b| - 1]];
    }
  }

  /** Nothing is lost: the lines, each with its newline, and then the tail are the bytes read. */
  lemma {:induction false} ChopKeepsBytes(b: seq<byte>)
    ensures var c := Chop(NOTHING, b);
            Joined(c.lines) + c.tail == b && NoNewline(c.tail) && (forall i :: 0 <= i < |c.lines| ==> NoNewline(c.lines[i]))
    decreases |b|
  {
    if b != [] {
      var front := b[..|b| - 1];
      ChopKeepsBytes(front);
      var c, d := Chop(NOTHING, b), Chop(NOTHING, front);
      if b[|b| - 1] == NEWLINE {
        assert c.lines[..|c.lines| - 1] == d.lines;
      }
    }
  }

  /** The records of the non-empty lines. */
  function Decoded(lines: seq<seq<byte>>, decode: Decoder): seq<Option<Record>>
    decreases |lines|
  {
    if lines == [] then []
    else
      var front := Decoded(lines[..|lines| - 1], decode);
      var line := lines[|lines| - 1];
      if line == [] then front else front + [decode(line)]
  }

  lemma {:induction false} DecodedConcat(xs: seq<seq<byte>>, ys: seq<seq<byte>>, decode: Decoder)
    ensures Decoded(xs + ys, decode) == Decoded(xs, decode) + Decoded(ys, decode)
    decreases |ys|
  {
    if ys == [] {
      assert xs + ys == xs;
    } else {
      assert (xs + ys)[..|xs + ys| - 1] == xs + ys[..|ys| - 1];
      DecodedConcat(xs, ys[..|ys| - 1], decode);
    }
  }

  // ----- The whole-file parse, and the state an incremental scan must be in -----

  datatype Scan = Scan(length: nat, trailing: seq<byte>, parsed: Parsed)

  const FRESH: Scan := Scan(0, [], EMPTY)

  /** One parse, byte by byte, of everything from `base` to the end of the file. */
  function FullScan(file: seq<byte>, base: nat, decode: Decoder, t: Thread): Scan
    requires base <= |file|
  {
    var c := Chop(NOTHING, file[base..]);
    Scan(|file|, c.tail, Fold(EMPTY, Decoded(c.lines, decode), t))
  }

  function FirstNewline(bytes: seq<byte>): (n: nat)
    ensures n <= |bytes| && NoNewline(bytes[..n])
    ensures n < |bytes| ==> bytes[n] == NEWLINE
  {
    if bytes == [] || bytes[0] == NEWLINE then 0 else 1 + FirstNewline(bytes[1..])
  }

  /** Where a scan first seeing this file starts: its beginning, or just after a newline in the last 8 MiB. */
  function BaseOf(file: seq<byte>): (base: nat)
    ensures base <= |file|
    ensures |file| <= 8_388_608 ==> base == 0
    ensures |file| > 8_388_608 ==>
              && |file| - 8_388_608 < base
              && (base == |file| || file[base - 1] == 10)
              && forall i :: |file| - 8_388_608 <= i < base - 1 ==> file[i] != 10
  {
    if |file| <= INITIAL_TAIL_BYTES then 0
    else
      var start := |file| - INITIAL_TAIL_BYTES;
      var n := FirstNewline(file[start..]);
      if n == INITIAL_TAIL_BYTES then |file| else start + n + 1
  }

  /** A bounded first read starts at a line boundary exactly when the file fits or its tail has a newline. */
  lemma BaseIsLineStartIff(file: seq<byte>)
    ensures var base := BaseOf(file);
            (base == 0 || file[base - 1] == NEWLINE)
            <==> |file| <= INITIAL_TAIL_BYTES || !NoNewline(file[|file| - INITIAL_TAIL_BYTES..])
  {
  }

  /** Such a file exists: one byte over the limit, no newline, and the scan starts after a byte that ends no line. */
  lemma LongLineIsCut()
    ensures var file: seq<byte> := seq(INITIAL_TAIL_BYTES + 1, _ => 0);
            BaseOf(file) == |file| && file[BaseOf(file) - 1] != NEWLINE
  {
    var file: seq<byte> := seq(INITIAL_TAIL_BYTES + 1, _ => 0);
    var n := FirstNewline(file[1..]);
  }

  // ----- One visit -----

  /** Appended bytes join the unfinished line; the complete lines are folded and the rest is kept. */
  function Absorb(s: Scan, length: nat, appended: seq<byte>, decode: Decoder, t: Thread): Scan {
    var c := Chop(NOTHING, s.trailing + appended);
    Scan(length, c.tail, Fold(s.parsed, Decoded(c.lines, decode), t))
  }

  /** A visit: a shrunk file starts over, a first read is bounded to the tail, a later one reads what was appended. */
  function Visited(s: Scan, file: seq<byte>, decode: Decoder, t: Thread): Scan {
    var s := if |file| < s.length then FRESH else s;
    if s.length == 0 then
      if file == [] then s else Absorb(s, |file|, file[BaseOf(file)..], decode, t)
    else if |file| == s.length then s
    else Absorb(s, |file|, file[s.length..], decode, t)
  }

  lemma FullScanExtends(file: seq<byte>, more: seq<byte>, base: nat, decode: Decoder, t: Thread)
    requires base <= |file|
    ensures FullScan(file + more, base, decode, t) == Absorb(FullScan(file, base, decode, t), |file| + |more|, more, decode, t)
  {
    var rest := file[base..];
    assert (file + more)[base..] == rest + more;
    var c := Chop(NOTHING, rest);
    var d := Chop(Chopped([], c.tail), more);
    ChopConcat(NOTHING, rest, more);
    ChopFrame(c.lines, c.tail, more);
    ChopKeepsBytes(rest);
    ChopUnfinished(NOTHING, c.tail);
    assert [] + c.tail == c.tail;
    ChopConcat(NOTHING, c.tail, more);
    DecodedConcat(c.lines, d.lines, decode);
    FoldConcat(EMPTY, Decoded(c.lines, decode), Decoded(d.lines, decode), t);
  }

  // ===== Incremental scan refines the full parse =====

  /** Successive contents of an append-only file. */
  predicate AppendOnly(files: seq<seq<byte>>) {
    forall i :: 0 < i < |files| ==> files[i - 1] <= files[i]
  }

  function Visits(files: seq<seq<byte>>, decode: Decoder, t: Thread): Scan
    decreases |files|
  {
    if files == [] then FRESH else Visited(Visits(files[..|files| - 1], decode, t), files[|files| - 1], decode, t)
  }

  /** The content at the visit before visit `i`. */
  function Before(files: seq<seq<byte>>, i: nat): seq<byte>
    requires i < |files|
  {
    if i == 0 then [] else files[i - 1]
  }

  /** Where the first non-empty visit started reading. */
  function ScanBase(files: seq<seq<byte>>): nat
    decreases |files|
  {
    if files == [] then 0
    else if Before(files, |files| - 1) == [] then BaseOf(files[|files| - 1])
    else ScanBase(files[..|files| - 1])
  }

  lemma VisitKeepsSync(previous: seq<byte>, file: seq<byte>, base: nat, decode: Decoder, t: Thread)
    requires previous <= file && base <= |previous|
    ensures Visited(FullScan(previous, base, decode, t), file, decode, t) ==
            FullScan(file, if previous == [] then BaseOf(file) else base, decode, t)
  {
    if previous == [] {
      assert FullScan(previous, base, decode, t) == FRESH;
      assert [] + file[BaseOf(file)..] == file[BaseOf(file)..];
    } else {
      FullScanExtends(previous, file[|previous|..], base, decode, t);
      assert previous + file[|previous|..] == file;
      if |file| == |previous| {
        assert file == previous;
      }
    }
  }

  /** A file that has shrunk is read as if for the first time; one that has not grown is left alone. */
  lemma ShrunkFileStartsOver(s: Scan, file: seq<byte>, decode: Decoder, t: Thread)
    ensures |file| < s.length ==> Visited(s, file, decode, t) == FullScan(file, BaseOf(file), decode, t)
    ensures |file| == s.length > 0 ==> Visited(s, file, decode, t) == s
  {
    if |file| < s.length {
      VisitKeepsSync([], file, 0, decode, t);
      NothingScanned(decode, t);
      assert Visited(s, file, decode, t) == Visited(FRESH, file, decode, t);
    }
  }

  /**
    Whatever byte boundaries the visits fall on, the scan is in the state of one parse of the whole file
    from where the first visit started.
   */
  lemma {:induction false} VisitsRefineFullParse(files: seq<seq<byte>>, decode: Decoder, t: Thread)
    requires files != [] && AppendOnly(files)
    ensures var last := files[|files| - 1];
            var base := ScanBase(files);
            base <= |last| && Visits(files, decode, t) == FullScan(last, base, decode, t)
    decreases |files|
  {
    hide Visited, FullScan, BaseOf;
    var last := files[|files| - 1];
    var earlier := files[..|files| - 1];
    if earlier == [] {
      NothingScanned(decode, t);
      VisitKeepsSync([], last, 0, decode, t);
      assert Visits(earlier, decode, t) == FRESH;
      assert Before(files, 0) == [];
    } else {
      assert AppendOnly(earlier);
      VisitsRefineFullParse(earlier, decode, t);
      assert earlier[|earlier| - 1] == Before(files, |files| - 1) <= last;
      VisitKeepsSync(earlier[|earlier| - 1], last, ScanBase(earlier), decode, t);
    }
  }

  lemma NothingScanned(decode: Decoder, t: Thread)
    ensures FullScan([], 0, decode, t) == FRESH
  {
  }

  /** The consumed lines followed by `trailing` are exactly the bytes read. */
  lemma VisitsKeepBytes(files: seq<seq<byte>>, decode: Decoder, t: Thread)
    requires files != [] && AppendOnly(files)
    ensures var last := files[|files| - 1];
            var base := ScanBase(files);
            && base <= |last|
            && Joined(Chop(NOTHING, last[base..]).lines) + Visits(files, decode, t).trailing == last[base..]
            && NoNewline(Visits(files, decode, t).trailing)
  {
    VisitsRefineFullParse(files, decode, t);
    ChopKeepsBytes(files[|files| - 1][ScanBase(files)..]);
  }

  /** The file was at most 8 MiB when first seen with content. */
  predicate SeenSmall(files: seq<seq<byte>>) {
    forall i :: 0 <= i < |files| && Before(files, i) == [] ==> |files[i]| <= INITIAL_TAIL_BYTES
  }

  /** For such rollouts the scan is the parse of the whole file. */
  lemma SmallRolloutsAreParsedWhole(files: seq<seq<byte>>, decode: Decoder, t: Thread)
    requires files != [] && AppendOnly(files) && SeenSmall(files)
    ensures Visits(files, decode, t) == FullScan(files[|files| - 1], 0, decode, t)
  {
    VisitsRefineFullParse(files, decode, t);
    SmallBaseIsZero(files);
  }

  lemma {:induction false} SmallBaseIsZero(files: seq<seq<byte>>)
    requires SeenSmall(files)
    ensures ScanBase(files) == 0
    decreases |files|
  {
    if files != [] {
      var earlier := files[..|files| - 1];
      forall i | 0 <= i < |earlier| && Before(earlier, i) == [] ensures |earlier[i]| <= INITIAL_TAIL_BYTES {
        assert Before(files, i) == Before(earlier, i);
      }
      SmallBaseIsZero(earlier);
    }
  }
}
