/** What the compaction events of a rollout mean, independently of the scan that collects them. */
module CompactionEvents {
  import opened Common
  import opened RolloutScan

  /** The first positive token count of a stretch of records. */
  function FirstPositive(rs: seq<Option<Record>>): Option<nat>
    decreases |rs|
  {
    if rs == [] then None else OrElse(FirstPositive(rs[..|rs| - 1]), PositiveTokens(rs[|rs| - 1]))
  }

  /** The last positive token count of a stretch of records. */
  function LastPositive(rs: seq<Option<Record>>): Option<nat>
    decreases |rs|
  {
    if rs == [] then None else OrElse(PositiveTokens(rs[|rs| - 1]), LastPositive(rs[..|rs| - 1]))
  }

  lemma {:induction false} FirstPositiveIsFirst(rs: seq<Option<Record>>)
    ensures var r := FirstPositive(rs);
            && (r.None? <==> forall i :: 0 <= i < |rs| ==> PositiveTokens(rs[i]).None?)
            && (r.Some? ==> exists i :: 0 <= i < |rs| && PositiveTokens(rs[i]) == r && forall j :: 0 <= j < i ==> PositiveTokens(rs[j]).None?)
    decreases |rs|
  {
    if rs != [] {
      FirstPositiveIsFirst(rs[..|rs| - 1]);
      assert rs == rs[..|rs| - 1] + [rs[|rs| - 1]];
    }
  }

  lemma {:induction false} LastPositiveIsLast(rs: seq<Option<Record>>)
    ensures var r := LastPositive(rs);
            && (r.None? <==> forall i :: 0 <= i < |rs| ==> PositiveTokens(rs[i]).None?)
            && (r.Some? ==> exists i :: 0 <= i < |rs| && PositiveTokens(rs[i]) == r && forall j :: i < j < |rs| ==> PositiveTokens(rs[j]).None?)
    decreases |rs|
  {
    if rs != [] {
      LastPositiveIsLast(rs[..|rs| - 1]);
      assert rs == rs[..|rs| - 1] + [rs[|rs| - 1]];
    }
  }

  /** The part of a rollout one event speaks for: what came before its marker, the marker, and what followed up to the next event. */
  datatype Stretch = Stretch(before: seq<Option<Record>>, marker: Option<Record>, after: seq<Option<Record>>)

  /** The first non-blank summary among a stretch's marker and the further markers after it. */
  function FirstText(marker: Option<Record>, after: seq<Option<Record>>): Option<string>
    decreases |after|
  {
    if after == [] then Text(marker)
    else
      var r := after[|after| - 1];
      OrElse(FirstText(marker, after[..|after| - 1]), if IsMarker(r) then Text(r) else None)
  }

  /** A marker starts an event when it is more than two seconds away from the marker that started the last one. */
  predicate StartsEvent(ss: seq<Stretch>, r: Option<Record>) {
    && IsMarker(r)
    && (ss == [] || (IsMarker(ss[|ss| - 1].marker) ==> Abs(Seconds(r) - Seconds(ss[|ss| - 1].marker)) > 2))
  }

  function Extend(ss: seq<Stretch>, front: seq<Option<Record>>, r: Option<Record>): seq<Stretch> {
    if StartsEvent(ss, r) then ss + [Stretch(front, r, [])]
    else if ss == [] then ss
    else ss[|ss| - 1 := ss[|ss| - 1].(after := ss[|ss| - 1].after + [r])]
  }

  /** The stretches of a rollout, in order. */
  function Stretches(rs: seq<Option<Record>>): seq<Stretch>
    decreases |rs|
  {
    if rs == [] then []
    else Extend(Stretches(rs[..|rs| - 1]), rs[..|rs| - 1], rs[|rs| - 1])
  }

  /** What an event must report about its stretch. */
  ghost predicate Describes(e: Event, s: Stretch, t: Thread) {
    && IsMarker(s.marker)
    && e == Event(Seconds(s.marker), s.marker.value.timestampMs.value, t.id, t.threadLabel,
                  LastPositive(s.before), FirstPositive(s.after), FirstText(s.marker, s.after))
  }

  ghost predicate Attributed(p: Parsed, rs: seq<Option<Record>>, t: Thread) {
    var ss := Stretches(rs);
    && |p.events| == |ss|
    && (forall j :: 0 <= j < |ss| ==> Describes(p.events[j], ss[j], t))
    && p.lastTokens == LastPositive(rs)
    && p.pending == if ss != [] && FirstPositive(ss[|ss| - 1].after).None? then Some(|ss| - 1) else None
  }

  predicate Spaced(es: seq<Event>) {
    forall j :: 0 < j < |es| ==> es[j].createdAt > es[j - 1].createdAt + 2 || es[j].createdAt < es[j - 1].createdAt - 2
  }

  /** Where stretch `j` must end: where the next one begins, or at the end of the rollout. */
  function NextBefore(ss: seq<Stretch>, j: nat, rs: seq<Option<Record>>): seq<Option<Record>> {
    if j < |ss| then ss[j].before else rs
  }

  function Whole(s: Stretch): seq<Option<Record>> {
    s.before + [s.marker] + s.after
  }

  predicate NoMarker(rs: seq<Option<Record>>) {
    forall i :: 0 <= i < |rs| ==> !IsMarker(rs[i])
  }

  /** Stretches are consecutive pieces of the rollout that reach its end, and no marker precedes the first. */
  ghost predicate Covers(ss: seq<Stretch>, rs: seq<Option<Record>>) {
    && (forall j :: 0 <= j < |ss| ==> Whole(ss[j]) == NextBefore(ss, j + 1, rs))
    && NoMarker(NextBefore(ss, 0, rs))
  }

  lemma {:induction false} StretchesCover(rs: seq<Option<Record>>)
    ensures Covers(Stretches(rs), rs)
    decreases |rs|
  {
    if rs != [] {
      var front, r := rs[..|rs| - 1], rs[|rs| - 1];
      StretchesCover(front);
      assert front + [r] == rs;
      ExtendCovers(Stretches(front), front, r);
    }
  }

  lemma {:induction false} NotStarting(ss: seq<Stretch>, r: Option<Record>)
    ensures ss == [] && !StartsEvent(ss, r) ==> !IsMarker(r)
  {
  }

  lemma {:induction false} ExtendCovers(ss: seq<Stretch>, front: seq<Option<Record>>, r: Option<Record>)
    requires Covers(ss, front)
    ensures Covers(Extend(ss, front, r), front + [r])
  {
    hide StartsEvent, IsMarker;
    var es := Extend(ss, front, r);
    assert ss == [] && !StartsEvent(ss, r) ==> NoMarker(front + [r]) by {
      NotStarting(ss, r);
    }
    forall j | 0 <= j < |es| ensures Whole(es[j]) == NextBefore(es, j + 1, front + [r]) {
      if j < |ss| {
        assert Whole(ss[j]) == NextBefore(ss, j + 1, front);
        if j + 1 == |ss| && !StartsEvent(ss, r) {
          var s := ss[j];
          assert s.before + [s.marker] + (s.after + [r]) == Whole(s) + [r];
        }
      }
    }
  }

  /**
    For every sequence of records: there is one event per stretch, in order; each carries the last positive
    count before its marker, the first positive count after it and before the next event, and the first
    summary of its stretch; the pending index is the last event exactly while it still waits for a count;
    and adjacent events are more than two seconds apart.
   */
  lemma {:induction false} FoldAttributes(rs: seq<Option<Record>>, t: Thread)
    ensures Attributed(Fold(EMPTY, rs, t), rs, t)
    ensures Spaced(Fold(EMPTY, rs, t).events)
    decreases |rs|
  {
    hide Attributed, Spaced, Step;
    if rs == [] {
      NothingAttributed(t);
    } else {
      var front, r := rs[..|rs| - 1], rs[|rs| - 1];
      FoldAttributes(front, t);
      StepAttributes(Fold(EMPTY, front, t), front, r, t);
      assert front + [r] == rs;
    }
  }

  lemma {:induction false} NothingAttributed(t: Thread)
    ensures Attributed(EMPTY, [], t) && Spaced([])
  {
  }

  lemma {:induction false} PositiveSnoc(xs: seq<Option<Record>>, r: Option<Record>)
    ensures FirstPositive(xs + [r]) == OrElse(FirstPositive(xs), PositiveTokens(r))
    ensures LastPositive(xs + [r]) == OrElse(PositiveTokens(r), LastPositive(xs))
  {
  }

  lemma {:induction false} TextSnoc(marker: Option<Record>, xs: seq<Option<Record>>, r: Option<Record>)
    ensures FirstText(marker, xs + [r]) == OrElse(FirstText(marker, xs), if IsMarker(r) then Text(r) else None)
  {
  }

  lemma {:induction false} StretchesSnoc(front: seq<Option<Record>>, r: Option<Record>)
    ensures Stretches(front + [r]) == Extend(Stretches(front), front, r)
  {
  }

  lemma {:induction false} StepAttributes(p: Parsed, front: seq<Option<Record>>, r: Option<Record>, t: Thread)
    requires Attributed(p, front, t) && Spaced(p.events)
    ensures Attributed(Step(p, r, t), front + [r], t) && Spaced(Step(p, r, t).events)
  {
    hide Step, Describes, StartsEvent, FirstPositive, LastPositive, PositiveTokens, Stretches, Spaced;
    StretchesSnoc(front, r);
    PositiveSnoc(front, r);
    if StartsEvent(Stretches(front), r) {
      StartStep(p, Stretches(front), front, r, t);
    } else if Stretches(front) != [] {
      GrowStep(p, Stretches(front), front, r, t);
    } else {
      IdleStep(p, front, r, t);
    }
  }

  /** Before the first event only token counts matter. */
  lemma {:induction false} IdleStep(p: Parsed, front: seq<Option<Record>>, r: Option<Record>, t: Thread)
    requires p.events == [] && p.pending.None? && !StartsEvent([], r) && p.lastTokens == LastPositive(front)
    ensures Step(p, r, t) == Parsed(OrElse(PositiveTokens(r), p.lastTokens), None, []) && Spaced(Step(p, r, t).events)
  {
  }

  lemma {:induction false} StartStep(p: Parsed, ss: seq<Stretch>, front: seq<Option<Record>>, r: Option<Record>, t: Thread)
    requires |p.events| == |ss| && (forall j :: 0 <= j < |ss| ==> Describes(p.events[j], ss[j], t))
    requires StartsEvent(ss, r) && p.lastTokens == LastPositive(front) && Spaced(p.events)
    ensures var p', ss' := Step(p, r, t), Extend(ss, front, r);
            && |p'.events| == |ss'| == |ss| + 1 && p'.pending == Some(|ss|)
            && p'.lastTokens == OrElse(PositiveTokens(r), p.lastTokens)
            && (forall j :: 0 <= j < |ss'| ==> Describes(p'.events[j], ss'[j], t))
            && FirstPositive(ss'[|ss|].after).None? && Spaced(p'.events)
  {
    if ss != [] {
      assert Describes(p.events[|ss| - 1], ss[|ss| - 1], t);
    }
    var e := Event(Seconds(r), r.value.timestampMs.value, t.id, t.threadLabel, p.lastTokens, None, Text(r));
    assert Step(p, r, t) == Parsed(p.lastTokens, Some(|ss|), p.events + [e]);
    assert Describes(e, Stretch(front, r, []), t);
  }

  lemma {:induction false} GrowStep(p: Parsed, ss: seq<Stretch>, front: seq<Option<Record>>, r: Option<Record>, t: Thread)
    requires |p.events| == |ss| && (forall j :: 0 <= j < |ss| ==> Describes(p.events[j], ss[j], t))
    requires ss != [] && !StartsEvent(ss, r) && Spaced(p.events)
    requires p.pending == if FirstPositive(ss[|ss| - 1].after).None? then Some(|ss| - 1) else None
    ensures var p', ss' := Step(p, r, t), Extend(ss, front, r);
            && |p'.events| == |ss'| == |ss| && Spaced(p'.events)
            && p'.lastTokens == OrElse(PositiveTokens(r), p.lastTokens)
            && (forall j :: 0 <= j < |ss'| ==> Describes(p'.events[j], ss'[j], t))
            && p'.pending == if FirstPositive(ss'[|ss| - 1].after).None? then Some(|ss| - 1) else None
  {
    hide Step, StartsEvent, FirstPositive, LastPositive, FirstText, PositiveTokens;
    LastStretchGrows(p, ss, r, t);
    var p', ss' := Step(p, r, t), Extend(ss, front, r);
    forall j | 0 <= j < |ss| - 1 ensures p'.events[j] == p.events[j] && Describes(p'.events[j], ss'[j], t) {
      assert p'.events[j] == p'.events[..|ss| - 1][j];
      assert Describes(p.events[j], ss[j], t);
    }
    assert p'.events[|ss| - 1].createdAt == p.events[|ss| - 1].createdAt;
  }

  /** A record that starts no event can only complete the last one. */
  lemma {:induction false} LastStretchGrows(p: Parsed, ss: seq<Stretch>, r: Option<Record>, t: Thread)
    requires ss != [] && |p.events| == |ss| && Describes(p.events[|ss| - 1], ss[|ss| - 1], t) && !StartsEvent(ss, r)
    requires p.pending == if FirstPositive(ss[|ss| - 1].after).None? then Some(|ss| - 1) else None
    ensures var last := ss[|ss| - 1].(after := ss[|ss| - 1].after + [r]);
            var p' := Step(p, r, t);
            && |p'.events| == |ss| && p'.events[..|ss| - 1] == p.events[..|ss| - 1]
            && p'.lastTokens == OrElse(PositiveTokens(r), p.lastTokens)
            && Describes(p'.events[|ss| - 1], last, t)
            && p'.pending == if FirstPositive(last.after).None? then Some(|ss| - 1) else None
  {
    hide FirstPositive, LastPositive, FirstText, TruncDiv, IsBlank;
    var last := ss[|ss| - 1];
    PositiveSnoc(last.after, r);
    TextSnoc(last.marker, last.after, r);
  }

  /** So for an append-only rollout the events reported after any visits are attributed over the whole file. */
  lemma {:induction false} VisitsAttribute(files: seq<seq<byte>>, decode: Decoder, t: Thread)
    requires files != [] && AppendOnly(files) && SeenSmall(files)
    ensures Attributed(Visits(files, decode, t).parsed, Decoded(Chop(NOTHING, files[|files| - 1]).lines, decode), t)
  {
    SmallRolloutsAreParsedWhole(files, decode, t);
    var last := files[|files| - 1];
    assert last[0..] == last;
    FoldAttributes(Decoded(Chop(NOTHING, last).lines, decode), t);
  }
}
