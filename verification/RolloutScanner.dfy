/** The scanner as it runs: one object per rollout, whose fields each visit updates. */
module RolloutScanner {
  import opened Common
  import opened RolloutScan

  class Scanner {
    var length: nat
    var trailing: seq<byte>
    var lastTokens: Option<nat>
    var pendingEvent: Option<nat>
    var events: seq<Event>
    const decode: Decoder
    const thread: Thread

    function View(): Scan
      reads this
    {
      Scan(length, trailing, Parsed(lastTokens, pendingEvent, events))
    }

    predicate Valid()
      reads this
    {
      NoNewline(trailing)
    }

    constructor (decode: Decoder, thread: Thread)
      ensures View() == FRESH && Valid() && this.decode == decode && this.thread == thread
    {
      this.decode, this.thread := decode, thread;
      length, trailing, lastTokens, pendingEvent, events := 0, [], None, None, [];
    }

    /** One decoded line. */
    method Observe(r: Option<Record>)
      modifies this`lastTokens, this`pendingEvent, this`events
      ensures View().parsed == Step(old(View()).parsed, r, thread)
    {
      if r.None? {
        return;
      }
      var value := r.value;
      if value.payloadKind == TokenCount {
        if value.totalTokens.Some? && value.totalTokens.value > 0 {
          if pendingEvent.Some? {
            var index := pendingEvent.value;
            pendingEvent := None;
            if index < |events| {
              events := events[index := events[index].(tokensAfter := value.totalTokens)];
            }
          }
          lastTokens := value.totalTokens;
        }
        return;
      }
      if value.kind != Compacted && value.payloadKind != ContextCompacted {
        return;
      }
      if value.timestampMs.None? {
        return;
      }
      var seconds := TruncDiv(value.timestampMs.value, 1000);
      var text := if value.message.Some? && !IsBlank(value.message.value) then value.message else None;
      if events != [] && Abs(seconds - events[|events| - 1].createdAt) <= 2 {
        var last := |events| - 1;
        if events[last].replacementText.None? {
          events := events[last := events[last].(replacementText := text)];
        }
        return;
      }
      events := events + [Event(seconds, value.timestampMs.value, thread.id, thread.threadLabel, lastTokens, None, text)];
      pendingEvent := Some(|events| - 1);
    }

    /** Splits complete lines and folds each non-empty one. */
    method ParseCompactionLines(bytes: seq<byte>)
      requires bytes != [] && bytes[|bytes| - 1] == NEWLINE
      modifies this`lastTokens, this`pendingEvent, this`events
      ensures View().parsed == Fold(old(View()).parsed, Decoded(Chop(NOTHING, bytes).lines, decode), thread)
    {
      hide Chop, Decoded, Fold, Step;
      ghost var before := View().parsed;
      var start := 0;
      assert bytes[..0] == [];
      NoLines(before, decode, thread);
      while start < |bytes|
        invariant 0 <= start <= |bytes|
        invariant Chop(NOTHING, bytes[..start]).tail == []
        invariant View().parsed == Fold(before, Decoded(Chop(NOTHING, bytes[..start]).lines, decode), thread)
      {
        var end := NextNewline(bytes, start);
        var line := bytes[start..end];
        NextLine(bytes, start, end, before, decode, thread);
        if line != [] {
          Observe(decode(line));
        }
        start := end + 1;
      }
      assert bytes[..start] == bytes;
    }

    static method NextNewline(bytes: seq<byte>, start: nat) returns (end: nat)
      requires start < |bytes| && bytes[|bytes| - 1] == NEWLINE
      ensures start <= end < |bytes| && bytes[end] == NEWLINE && NoNewline(bytes[start..end])
    {
      end := start;
      while bytes[end] != NEWLINE
        invariant start <= end < |bytes|
        invariant forall i :: start <= i < end ==> bytes[i] != NEWLINE
        decreases |bytes| - end
      {
        end := end + 1;
      }
    }

    method Visit(file: seq<byte>)
      requires Valid()
      modifies this
      ensures Valid() && View() == Visited(old(View()), file, decode, thread)
    {
      if |file| < length {
        length, trailing, lastTokens, pendingEvent, events := 0, [], None, None, [];
      }
      ghost var s := View();
      var firstRead := length == 0;
      var start := if firstRead then (if |file| <= INITIAL_TAIL_BYTES then 0 else |file| - INITIAL_TAIL_BYTES) else length;
      if |file| == start {
        return;
      }
      var appended := file[start..];
      length := |file|;
      if firstRead && start > 0 {
        var newline := FirstNewline(appended);
        if newline == |appended| {
          assert s.trailing + [] == s.trailing;
          ChopUnfinished(NOTHING, s.trailing);
          assert file[BaseOf(file)..] == [];
          return;
        }
        appended := appended[newline + 1..];
      }
      assert firstRead ==> appended == file[BaseOf(file)..];
      Take(appended);
    }

    /** Buffers appended bytes and hands over what is now complete. */
    method Take(appended: seq<byte>)
      requires Valid()
      modifies this`trailing, this`lastTokens, this`pendingEvent, this`events
      ensures Valid() && View() == Absorb(old(View()), length, appended, decode, thread)
    {
      trailing := trailing + appended;
      ghost var buffer := trailing;
      var completeLen := |trailing|;
      while completeLen > 0 && trailing[completeLen - 1] != NEWLINE
        invariant 0 <= completeLen <= |trailing|
        invariant NoNewline(trailing[completeLen..])
      {
        completeLen := completeLen - 1;
      }
      SplitAtLastNewline(buffer, completeLen);
      if completeLen == 0 {
        return;
      }
      var complete := trailing[..completeLen];
      trailing := trailing[completeLen..];
      ParseCompactionLines(complete);
    }
  }

  lemma NoLines(before: Parsed, decode: Decoder, t: Thread)
    ensures Chop(NOTHING, []) == NOTHING && Fold(before, Decoded(NOTHING.lines, decode), t) == before
  {
  }

  /** Reading one more line: the next record extends the fold. */
  lemma NextLine(bytes: seq<byte>, start: nat, end: nat, before: Parsed, decode: Decoder, t: Thread)
    requires start <= end < |bytes| && bytes[end] == NEWLINE && NoNewline(bytes[start..end])
    requires Chop(NOTHING, bytes[..start]).tail == []
    ensures var c, c' := Chop(NOTHING, bytes[..start]), Chop(NOTHING, bytes[..end + 1]);
            var line := bytes[start..end];
            && c'.tail == []
            && Fold(before, Decoded(c'.lines, decode), t) ==
               if line == [] then Fold(before, Decoded(c.lines, decode), t)
               else Step(Fold(before, Decoded(c.lines, decode), t), decode(line), t)
  {
    var c := Chop(NOTHING, bytes[..start]);
    ChopLine(bytes, start, end);
    OneMore(c.lines, bytes[start..end], before, decode, t);
  }

  lemma ChopLine(bytes: seq<byte>, start: nat, end: nat)
    requires start <= end < |bytes| && bytes[end] == NEWLINE && NoNewline(bytes[start..end])
    requires Chop(NOTHING, bytes[..start]).tail == []
    ensures Chop(NOTHING, bytes[..end + 1]) == Chopped(Chop(NOTHING, bytes[..start]).lines + [bytes[start..end]], [])
  {
    var line := bytes[start..end];
    assert bytes[..end + 1] == bytes[..start] + (line + [NEWLINE]);
    ChopConcat(NOTHING, bytes[..start], line + [NEWLINE]);
    var c := Chop(NOTHING, bytes[..start]);
    ChopUnfinished(c, line);
    assert (line + [NEWLINE])[..|line|] == line;
    assert [] + line == line;
  }

  lemma OneMore(lines: seq<seq<byte>>, line: seq<byte>, before: Parsed, decode: Decoder, t: Thread)
    ensures var front := Decoded(lines, decode);
            var all := Decoded(lines + [line], decode);
            && all == (if line == [] then front else front + [decode(line)])
            && Fold(before, all, t) == if line == [] then Fold(before, front, t) else Step(Fold(before, front, t), decode(line), t)
  {
  }

  lemma SplitAtLastNewline(buffer: seq<byte>, n: nat)
    requires n <= |buffer| && NoNewline(buffer[n..]) && (n > 0 ==> buffer[n - 1] == NEWLINE)
    ensures Chop(NOTHING, buffer) == Chopped(Chop(NOTHING, buffer[..n]).lines, buffer[n..])
  {
    assert buffer == buffer[..n] + buffer[n..];
    ChopConcat(NOTHING, buffer[..n], buffer[n..]);
    ChopUnfinished(Chop(NOTHING, buffer[..n]), buffer[n..]);
    assert [] + buffer[n..] == buffer[n..];
  }
}
