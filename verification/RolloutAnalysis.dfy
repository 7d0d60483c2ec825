/** The one-pass rollout analyser: its streak and replay counters, and what they count. */
module RolloutAnalysis {
  import opened Common

  datatype Model = Model(id: string)

  /** A tool call's name and the digest of its canonical arguments. */
  datatype CallKey = CallKey(name: string, digest: string)

  /** A call id; the analyser ignores the empty one. */
  datatype CallId = NoId | Id(text: string)

  datatype Item =
    | TurnContext(model: Option<Model>)
    | CompactedItem
    | ToolCall(id: CallId, key: CallKey)
    | Other

  datatype Counters = Counters(threads: nat, turns: nat, compactions: nat, toolCalls: nat, replays: nat, streaks: nat)

  const ZERO := Counters(0, 0, 0, 0, 0, 0)

  type Evidence = map<Model, Counters>

  predicate IsVellum(m: Model) {
    "vlm-" <= m.id
  }

  /** A row of the evidence table; a missing row reads as zero. */
  function RowOf(e: Evidence, m: Model): Counters {
    if m in e then e[m] else ZERO
  }

  // ----- What the counters are meant to count -----

  /** A stretch of a rollout under one model, with the tool calls that count for it. */
  datatype Turn = Turn(model: Model, ids: seq<CallId>, keys: seq<CallKey>)

  function Chosen(current: Model, candidate: Option<Model>): Model {
    if candidate.Some? && IsVellum(candidate.value) then candidate.value else current
  }

  function ExtendTurns(ts: seq<Turn>, item: Item): seq<Turn>
    requires ts != []
  {
    var last := ts[|ts| - 1];
    match item
    case TurnContext(candidate) => ts + [Turn(Chosen(last.model, candidate), [], [])]
    case ToolCall(id, key) =>
      if IsVellum(last.model) then ts[|ts| - 1 := last.(ids := last.ids + [id], keys := last.keys + [key])] else ts
    case _ => ts
  }

  /** The turns of a rollout: one before the first turn context, then one per turn context. */
  function Turns(initial: Model, items: seq<Item>): (ts: seq<Turn>)
    ensures ts != []
    decreases |items|
  {
    if items == [] then [Turn(initial, [], [])] else ExtendTurns(Turns(initial, items[..|items| - 1]), items[|items| - 1])
  }

  // ----- The turns, read from the front -----

  /** The model in force after some items: the last one a turn context named that is Vellum's, else the first. */
  function ModelAfter(model: Model, items: seq<Item>): Model
    decreases |items|
  {
    if items == [] then model else ModelAfter(NextModel(model, items[0]), items[1..])
  }

  function NextModel(model: Model, item: Item): Model {
    match item
    case TurnContext(Some(m)) => if |m.id| >= 4 && m.id[..4] == "vlm-" then m else model
    case _ => model
  }

  /** The calls that count, cut at every turn context: those made while a Vellum model is in force. */
  function Segments(model: Model, items: seq<Item>): (ss: seq<seq<(CallId, CallKey)>>)
    ensures ss != []
    decreases |items|
  {
    if items == [] then [[]]
    else
      match items[0]
      case TurnContext(_) => [[]] + Segments(NextModel(model, items[0]), items[1..])
      case ToolCall(id, key) =>
        var later := Segments(model, items[1..]);
        if |model.id| >= 4 && model.id[..4] == "vlm-" then [[(id, key)] + later[0]] + later[1..] else later
      case _ => Segments(model, items[1..])
  }

  /** The calls of a turn. */
  function CallsOf(t: Turn): seq<(CallId, CallKey)>
    requires |t.ids| == |t.keys|
  {
    seq(|t.ids|, i requires 0 <= i < |t.ids| => (t.ids[i], t.keys[i]))
  }

  lemma {:induction false} ModelAfterSnoc(model: Model, items: seq<Item>, item: Item)
    ensures ModelAfter(model, items + [item]) == NextModel(ModelAfter(model, items), item)
    decreases |items|
  {
    if items == [] {
      assert (items + [item])[1..] == [];
    } else {
      assert (items + [item])[1..] == items[1..] + [item];
      ModelAfterSnoc(NextModel(model, items[0]), items[1..], item);
    }
  }

  /** One more item at the end: a new segment, a call in the last one, or nothing. */
  function ExtendSegments(ss: seq<seq<(CallId, CallKey)>>, model: Model, item: Item): seq<seq<(CallId, CallKey)>>
    requires ss != []
  {
    match item
    case TurnContext(_) => ss + [[]]
    case ToolCall(id, key) => if IsVellum(model) then ss[|ss| - 1 := ss[|ss| - 1] + [(id, key)]] else ss
    case _ => ss
  }

  lemma {:induction false} SegmentsSnoc(model: Model, items: seq<Item>, item: Item)
    ensures Segments(model, items + [item]) == ExtendSegments(Segments(model, items), ModelAfter(model, items), item)
    decreases |items|
  {
    VellumMeans(ModelAfter(model, items));
    if items == [] {
      assert (items + [item])[1..] == [];
      assert (items + [item])[0] == item;
      OneItem(model, items + [item]);
    } else {
      assert (items + [item])[1..] == items[1..] + [item];
      var next := NextModel(model, items[0]);
      SegmentsSnoc(next, items[1..], item);
      SegmentsTail(model, items, item, Segments(next, items[1..]));
    }
  }

  lemma OneItem(model: Model, items: seq<Item>)
    requires |items| == 1
    ensures Segments(model, items) == ExtendSegments([[]], model, items[0])
  {
    VellumMeans(model);
    var empty: seq<Item> := [];
    assert items[1..] == empty;
    assert forall m :: Segments(m, empty) == [[]];
    if items[0].ToolCall? {
      var call := (items[0].id, items[0].key);
      var none: seq<(CallId, CallKey)> := [];
      assert [call] + none == [call] && none + [call] == [call];
    }
  }

  /** What stands in front of the later segments does not depend on what is added behind. */
  lemma SegmentsTail(model: Model, items: seq<Item>, item: Item, later: seq<seq<(CallId, CallKey)>>)
    requires items != [] && later != [] && later == Segments(NextModel(model, items[0]), items[1..])
    requires Segments(NextModel(model, items[0]), items[1..] + [item]) == ExtendSegments(later, ModelAfter(model, items), item)
    ensures Segments(model, items + [item]) == ExtendSegments(Segments(model, items), ModelAfter(model, items), item)
  {
    assert (items + [item])[1..] == items[1..] + [item] && (items + [item])[0] == items[0];
    var more := ExtendSegments(later, ModelAfter(model, items), item);
    match items[0] {
      case TurnContext(_) => assert [[]] + more == ExtendSegments([[]] + later, ModelAfter(model, items), item);
      case ToolCall(id, key) =>
        if |model.id| >= 4 && model.id[..4] == "vlm-" {
          PrefixedExtend((id, key), later, ModelAfter(model, items), item);
        }
      case _ =>
    }
  }

  lemma PrefixedExtend(call: (CallId, CallKey), later: seq<seq<(CallId, CallKey)>>, model: Model, item: Item)
    requires later != []
    ensures var more := ExtendSegments(later, model, item);
            more != [] && [[call] + more[0]] + more[1..] == ExtendSegments([[call] + later[0]] + later[1..], model, item)
  {
    var more := ExtendSegments(later, model, item);
    var all := [[call] + later[0]] + later[1..];
    if item.ToolCall? && IsVellum(model) && |later| == 1 {
      assert [call] + (later[0] + [(item.id, item.key)]) == [call] + later[0] + [(item.id, item.key)];
    }
  }

  lemma VellumMeans(m: Model)
    ensures IsVellum(m) <==> |m.id| >= 4 && m.id[..4] == "vlm-"
  {
    assert |"vlm-"| == 4;
  }

  /** The turns of a rollout are its segments, and the last turn's model is the one in force. */
  lemma {:induction false} TurnsMean(initial: Model, items: seq<Item>)
    ensures var ts, ss := Turns(initial, items), Segments(initial, items);
            && |ts| == |ss| && ts[|ts| - 1].model == ModelAfter(initial, items)
            && forall i :: 0 <= i < |ts| ==> |ts[i].ids| == |ts[i].keys| && CallsOf(ts[i]) == ss[i]
    decreases |items|
  {
    if items != [] {
      var front, last := items[..|items| - 1], items[|items| - 1];
      assert front + [last] == items;
      TurnsMean(initial, front);
      ModelAfterSnoc(initial, front, last);
      SegmentsSnoc(initial, front, last);
      hide Segments;
      TurnsStep(Turns(initial, front), Segments(initial, front), ModelAfter(initial, front), last);
    }
  }

  lemma TurnsStep(ts: seq<Turn>, ss: seq<seq<(CallId, CallKey)>>, model: Model, item: Item)
    requires ts != [] && |ts| == |ss| && ts[|ts| - 1].model == model
    requires forall i :: 0 <= i < |ts| ==> |ts[i].ids| == |ts[i].keys| && CallsOf(ts[i]) == ss[i]
    ensures var ts', ss' := ExtendTurns(ts, item), ExtendSegments(ss, model, item);
            && |ts'| == |ss'| && ts'[|ts'| - 1].model == NextModel(model, item)
            && forall i :: 0 <= i < |ts'| ==> |ts'[i].ids| == |ts'[i].keys| && CallsOf(ts'[i]) == ss'[i]
  {
    match item {
      case TurnContext(c) =>
        if c.Some? {
          VellumMeans(c.value);
        }
      case ToolCall(id, key) =>
        var last := ts[|ts| - 1];
        assert CallsOf(last.(ids := last.ids + [id], keys := last.keys + [key])) == CallsOf(last) + [(id, key)];
      case _ =>
    }
  }

  /** `[lo, hi)` is a maximal run of at least three equal keys. */
  predicate IsMaximalRun(ks: seq<CallKey>, lo: nat, hi: nat) {
    && lo + 3 <= hi <= |ks|
    && (forall i :: lo <= i < hi ==> ks[i] == ks[lo])
    && (lo == 0 || ks[lo - 1] != ks[lo])
    && (hi == |ks| || ks[hi] != ks[lo])
  }

  ghost function MaximalRuns(ks: seq<CallKey>): set<(nat, nat)> {
    set lo: nat, hi: nat | 0 <= lo <= |ks| && 0 <= hi <= |ks| && IsMaximalRun(ks, lo, hi) :: (lo, hi)
  }

  ghost function RunsInTurns(ts: seq<Turn>): nat
    decreases |ts|
  {
    if ts == [] then 0 else RunsInTurns(ts[..|ts| - 1]) + |MaximalRuns(ts[|ts| - 1].keys)|
  }

  function IdsOf(ts: seq<Turn>): seq<CallId>
    decreases |ts|
  {
    if ts == [] then [] else IdsOf(ts[..|ts| - 1]) + ts[|ts| - 1].ids
  }

  /** How many of the calls carry an id. */
  function Identified(ids: seq<CallId>): nat
    decreases |ids|
  {
    if ids == [] then 0 else Identified(ids[..|ids| - 1]) + (if ids[|ids| - 1].Id? then 1 else 0)
  }

  function Distinct(ids: seq<CallId>): set<CallId> {
    set id | id in ids && id.Id?
  }

  // ----- Runs, by where they start -----

  predicate StartsRun(ks: seq<CallKey>, s: nat) {
    s + 2 < |ks| && ks[s] == ks[s + 1] && ks[s] == ks[s + 2] && (s == 0 || ks[s - 1] != ks[s])
  }

  ghost function RunStarts(ks: seq<CallKey>): set<nat> {
    set s: nat | 0 <= s <= |ks| && StartsRun(ks, s)
  }

  /** Where the run starting at `s` ends. */
  function RunEnd(ks: seq<CallKey>, s: nat, hi: nat): (e: nat)
    requires s < hi <= |ks| && forall i :: s <= i < hi ==> ks[i] == ks[s]
    ensures hi <= e <= |ks| && (forall i :: s <= i < e ==> ks[i] == ks[s]) && (e == |ks| || ks[e] != ks[s])
    decreases |ks| - hi
  {
    if hi < |ks| && ks[hi] == ks[s] then RunEnd(ks, s, hi + 1) else hi
  }

  lemma {:induction false} SameSize<A(!new), B(!new)>(xs: set<A>, ys: set<B>, f: A -> B, g: B -> A)
    requires forall x :: x in xs ==> f(x) in ys && g(f(x)) == x
    requires forall y :: y in ys ==> g(y) in xs && f(g(y)) == y
    ensures |xs| == |ys|
    decreases xs
  {
    if xs == {} {
      assert ys == {};
    } else {
      var x :| x in xs;
      SameSize(xs - {x}, ys - {f(x)}, f, g);
    }
  }

  /** A maximal run is determined by its start. */
  lemma RunsAreStarts(ks: seq<CallKey>)
    ensures |MaximalRuns(ks)| == |RunStarts(ks)|
  {
    var f := (r: (nat, nat)) => r.0;
    var g := (s: nat) => (s, if StartsRun(ks, s) then RunEnd(ks, s, s + 1) else 0);
    forall r | r in MaximalRuns(ks) ensures f(r) in RunStarts(ks) && g(f(r)) == r {
      assert IsMaximalRun(ks, r.0, r.1);
      assert StartsRun(ks, r.0);
      var e := RunEnd(ks, r.0, r.0 + 1);
    }
    forall s | s in RunStarts(ks) ensures g(s) in MaximalRuns(ks) && f(g(s)) == s {
      var e := RunEnd(ks, s, s + 1);
      assert e >= s + 3 by {
        assert e == |ks| || ks[e] != ks[s];
      }
      assert IsMaximalRun(ks, s, e);
    }
    SameSize(MaximalRuns(ks), RunStarts(ks), f, g);
  }

  /** How many times the last key repeats at the end: the analyser's `streak`. */
  function TrailingRun(ks: seq<CallKey>): nat
    decreases |ks|
  {
    if ks == [] then 0
    else if |ks| >= 2 && ks[|ks| - 1] == ks[|ks| - 2] then TrailingRun(ks[..|ks| - 1]) + 1 else 1
  }

  lemma TrailingRunSnoc(ks: seq<CallKey>, k: CallKey)
    ensures TrailingRun(ks + [k]) == if ks != [] && ks[|ks| - 1] == k then TrailingRun(ks) + 1 else 1
  {
  }

  lemma TrailingThree(ks: seq<CallKey>)
    ensures TrailingRun(ks) == 3 <==> |ks| >= 3 && StartsRun(ks, |ks| - 3)
  {
    var n := |ks|;
    hide TrailingRun;
    if n == 0 {
      NoTrailingRun();
    } else {
      TrailingRunLast(ks);
    }
    if n >= 2 {
      TrailingRunLast(ks[..n - 1]);
    }
    if n >= 3 {
      TrailingRunLast(ks[..n - 2]);
      assert ks[..n - 1][..n - 2] == ks[..n - 2];
    }
    if n >= 4 {
      TrailingRunLast(ks[..n - 3]);
      assert ks[..n - 2][..n - 3] == ks[..n - 3];
    }
  }

  lemma NoTrailingRun()
    ensures TrailingRun([]) == 0
  {
  }

  /** The trailing run is one unless the last two keys agree, and then one more than before. */
  lemma TrailingRunLast(ks: seq<CallKey>)
    requires ks != []
    ensures var n := |ks|;
            && TrailingRun(ks) >= 1
            && TrailingRun(ks) == (if n >= 2 && ks[n - 1] == ks[n - 2] then TrailingRun(ks[..n - 1]) + 1 else 1)
  {
  }

  /** One more call opens a new long run exactly when the streak reaches three. */
  lemma RunStartsSnoc(ks: seq<CallKey>, k: CallKey)
    ensures |RunStarts(ks + [k])| == |RunStarts(ks)| + if TrailingRun(ks + [k]) == 3 then 1 else 0
  {
    var all := ks + [k];
    TrailingThree(all);
    forall s: nat | s + 2 < |ks| ensures StartsRun(all, s) <==> StartsRun(ks, s) {}
    if TrailingRun(all) == 3 {
      assert RunStarts(all) == RunStarts(ks) + {|ks| - 2};
    } else {
      assert RunStarts(all) == RunStarts(ks);
    }
  }

  // ----- Totals over the evidence table -----

  ghost function Total(e: Evidence, f: Counters -> nat): nat
    decreases e.Keys
  {
    if e == map[] then 0
    else
      var m :| m in e;
      f(e[m]) + Total(e - {m}, f)
  }

  lemma {:induction false} TotalSplits(e: Evidence, f: Counters -> nat, m: Model)
    requires m in e
    ensures Total(e, f) == f(e[m]) + Total(e - {m}, f)
    decreases e.Keys
  {
    var x :| x in e && Total(e, f) == f(e[x]) + Total(e - {x}, f);
    if x != m {
      assert (e - {x})[m] == e[m] && (e - {m})[x] == e[x];
      TotalSplits(e - {x}, f, m);
      TotalSplits(e - {m}, f, x);
      assert e - {x} - {m} == e - {m} - {x};
    }
  }

  lemma TotalUpdate(e: Evidence, f: Counters -> nat, m: Model, row: Counters)
    requires f(ZERO) == 0
    ensures Total(e[m := row], f) == Total(e, f) - f(RowOf(e, m)) + f(row)
  {
    TotalSplits(e[m := row], f, m);
    if m in e {
      TotalSplits(e, f, m);
      assert e[m := row] - {m} == e - {m};
    } else {
      assert e[m := row] - {m} == e;
    }
  }

  // ----- The pass -----

  class Analyser {
    var rows: Evidence

    constructor ()
      ensures rows == map[]
    {
      rows := map[];
    }

    method Bump(m: Model, row: Counters)
      modifies this
      ensures rows == old(rows)[m := row]
      ensures Total(rows, Streaks) == Total(old(rows), Streaks) - Streaks(RowOf(old(rows), m)) + Streaks(row)
      ensures Total(rows, Replays) == Total(old(rows), Replays) - Replays(RowOf(old(rows), m)) + Replays(row)
    {
      TotalUpdate(rows, Streaks, m, row);
      TotalUpdate(rows, Replays, m, row);
      rows := rows[m := row];
    }

    /** Counts one call on a Vellum model. */
    method CountCall(model: Model, id: CallId, key: CallKey, seenIds: set<CallId>, previous: Option<CallKey>, streak: nat, ghost ts: seq<Turn>)
      returns (seenIds': set<CallId>, streak': nat)
      requires IsVellum(model) && Tracks(model, seenIds, previous, streak, ts)
      modifies this
      ensures var ts' := ExtendTurns(ts, ToolCall(id, key));
              && Tracks(model, seenIds', Some(key), streak', ts')
              && StreakTotal() - RunsInTurns(ts') == old(StreakTotal()) - RunsInTurns(ts)
              && ReplayTotal() - ExpectedReplays(ts') == old(ReplayTotal()) - ExpectedReplays(ts)
    {
      hide RunsInTurns, IdsOf, ExpectedReplays, Distinct, TrailingRun, IsVellum, Total;
      CallRuns(ts, id, key);
      TrailingRunSnoc(ts[|ts| - 1].keys, key);
      CallIds(ts, id, key);
      var row := RowOf(rows, model).(toolCalls := RowOf(rows, model).toolCalls + 1);
      seenIds' := seenIds;
      if id.Id? && id in seenIds {
        row := row.(replays := row.replays + 1);
      }
      if id.Id? {
        seenIds' := seenIds + {id};
      }
      streak' := if previous == Some(key) then streak + 1 else 1;
      if streak' == 3 {
        row := row.(streaks := row.streaks + 1);
      }
      Bump(model, row);
    }

    ghost function StreakTotal(): int
      reads this
    {
      Total(rows, Streaks)
    }

    ghost function ReplayTotal(): int
      reads this
    {
      Total(rows, Replays)
    }

    /**
      One pass over a rollout. It adds, over all models together, one streak for every maximal run of at
      least three equal consecutive calls within a turn on a Vellum model, and one replay for every call
      on such a model whose id was already used.
     */
    method AnalyzeRollout(initial: Model, items: seq<Item>)
      modifies this
      ensures StreakTotal() == old(StreakTotal()) + RunsInTurns(Turns(initial, items))
      ensures ReplayTotal() == old(ReplayTotal()) + ExpectedReplays(Turns(initial, items))
    {
      var model := initial;
      var seenIds: set<CallId> := {};
      var previous: Option<CallKey> := None;
      var streak: nat := 0;
      Bump(model, RowOf(rows, model).(threads := RowOf(rows, model).threads + 1));
      InitialTurns(initial);
      for i := 0 to |items|
        invariant Tracks(model, seenIds, previous, streak, Turns(initial, items[..i]))
        invariant StreakTotal() == old(StreakTotal()) + RunsInTurns(Turns(initial, items[..i]))
        invariant ReplayTotal() == old(ReplayTotal()) + ExpectedReplays(Turns(initial, items[..i]))
      {
        ghost var ts := Turns(initial, items[..i]);
        assert items[..i + 1][..i] == items[..i];
        assert Turns(initial, items[..i + 1]) == ExtendTurns(ts, items[i]);
        match items[i] {
          case TurnContext(candidate) =>
            if candidate.Some? && IsVellum(candidate.value) {
              model := candidate.value;
            }
            NewTurn(ts, model);
            Bump(model, RowOf(rows, model).(turns := RowOf(rows, model).turns + 1));
            previous, streak := None, 0;
          case CompactedItem =>
            if IsVellum(model) {
              Bump(model, RowOf(rows, model).(compactions := RowOf(rows, model).compactions + 1));
            }
          case ToolCall(id, key) =>
            if IsVellum(model) {
              seenIds, streak := CountCall(model, id, key, seenIds, previous, streak, ts);
              previous := Some(key);
            }
          case Other =>
        }
      }
      assert items[..|items|] == items;
    }
  }

  /** Calls carrying an id, less the distinct ids they carry. */
  ghost function ExpectedReplays(ts: seq<Turn>): int {
    Identified(IdsOf(ts)) - |Distinct(IdsOf(ts))|
  }

  function Streaks(c: Counters): nat {
    c.streaks
  }

  function Replays(c: Counters): nat {
    c.replays
  }

  /** The loop's variables describe the turns met so far. */
  ghost predicate Tracks(model: Model, seenIds: set<CallId>, previous: Option<CallKey>, streak: nat, ts: seq<Turn>) {
    && ts != []
    && var last := ts[|ts| - 1];
    && model == last.model
    && seenIds == Distinct(IdsOf(ts))
    && streak == TrailingRun(last.keys)
    && previous == (if last.keys == [] then None else Some(last.keys[|last.keys| - 1]))
  }

  lemma InitialTurns(initial: Model)
    ensures Tracks(initial, {}, None, 0, [Turn(initial, [], [])])
    ensures RunsInTurns([Turn(initial, [], [])]) == 0 && IdsOf([Turn(initial, [], [])]) == []
  {
  }

  lemma NewTurn(ts: seq<Turn>, model: Model)
    ensures var ts' := ts + [Turn(model, [], [])];
            RunsInTurns(ts') == RunsInTurns(ts) && IdsOf(ts') == IdsOf(ts)
  {
  }

  /** One more call in the last turn: the runs of all turns. */
  lemma CallRuns(ts: seq<Turn>, id: CallId, key: CallKey)
    requires ts != []
    ensures var last := ts[|ts| - 1];
            var ts' := ts[|ts| - 1 := last.(ids := last.ids + [id], keys := last.keys + [key])];
            RunsInTurns(ts') == RunsInTurns(ts) + (if TrailingRun(last.keys + [key]) == 3 then 1 else 0)
  {
    var last := ts[|ts| - 1];
    var ts' := ts[|ts| - 1 := last.(ids := last.ids + [id], keys := last.keys + [key])];
    assert ts'[..|ts| - 1] == ts[..|ts| - 1];
    RunStartsSnoc(last.keys, key);
    RunsAreStarts(last.keys);
    RunsAreStarts(last.keys + [key]);
  }

  /** One more call in the last turn: the ids of all turns. */
  lemma CallIds(ts: seq<Turn>, id: CallId, key: CallKey)
    requires ts != []
    ensures var last := ts[|ts| - 1];
            var ts' := ts[|ts| - 1 := last.(ids := last.ids + [id], keys := last.keys + [key])];
            && ExpectedReplays(ts') == ExpectedReplays(ts) + (if id.Id? && id in Distinct(IdsOf(ts)) then 1 else 0)
            && Distinct(IdsOf(ts')) == Distinct(IdsOf(ts)) + (if id.Id? then {id} else {})
  {
    var last := ts[|ts| - 1];
    var ts' := ts[|ts| - 1 := last.(ids := last.ids + [id], keys := last.keys + [key])];
    assert ts'[..|ts| - 1] == ts[..|ts| - 1];
    assert IdsOf(ts[..|ts| - 1]) + (last.ids + [id]) == IdsOf(ts) + [id];
    assert IdsOf(ts') == IdsOf(ts) + [id];
    IdsSnoc(IdsOf(ts), id);
  }

  lemma IdsSnoc(ids: seq<CallId>, id: CallId)
    ensures Identified(ids + [id]) == Identified(ids) + (if id.Id? then 1 else 0)
    ensures Distinct(ids + [id]) == Distinct(ids) + (if id.Id? then {id} else {})
    ensures |Distinct(ids + [id])| == |Distinct(ids)| + if id.Id? && id !in Distinct(ids) then 1 else 0
  {
  }
}
