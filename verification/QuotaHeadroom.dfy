/** How much of an account's quota the pool may still spend, over the reals. */
module QuotaHeadroom {
  import opened Common

  datatype Unit = Week | Hour | OtherUnit

  datatype Window = Window(unit: Unit, amount: Option<nat>, usedPercent: real, resetAt: Option<nat>)

  datatype SkipReason = WeeklyResetPending | WeeklyFloor | FiveHourResetPending | FiveHourReserve

  datatype Observation = Observation(
    usable: bool,
    skipReason: Option<SkipReason>,
    headroom: real,
    weeklyUsed: real,
    weeklyHeadroom: real,
    weeklyResetAt: Option<nat>,
    fiveHourUsed: Option<real>,
    fiveHourResetAt: Option<nat>)

  const FIVE_HOUR_ROUTING_RESERVE_PERCENT := 5.0

  predicate IsWeekly(w: Window) {
    w.unit == Week
  }

  predicate IsFiveHour(w: Window) {
    w.unit == Hour && w.amount == Some(5)
  }

  function FindWeekly(ws: seq<Window>): (r: Option<Window>)
    ensures r.Some? ==> r.value in ws && IsWeekly(r.value)
    ensures r.None? ==> forall w :: w in ws ==> !IsWeekly(w)
  {
    if ws == [] then None else if IsWeekly(ws[0]) then Some(ws[0]) else FindWeekly(ws[1..])
  }

  function FindFiveHour(ws: seq<Window>): (r: Option<Window>)
    ensures r.Some? ==> r.value in ws && IsFiveHour(r.value)
    ensures r.None? ==> forall w :: w in ws ==> !IsFiveHour(w)
  {
    if ws == [] then None else if IsFiveHour(ws[0]) then Some(ws[0]) else FindFiveHour(ws[1..])
  }

  function Max(x: real, y: real): real {
    if x >= y then x else y
  }

  function Min(x: real, y: real): real {
    if x <= y then x else y
  }

  function Clamp(x: real): (r: real)
    ensures 0.0 <= r <= 100.0
    ensures 0.0 <= x <= 100.0 ==> r == x
  {
    Max(0.0, Min(100.0, x))
  }

  /** Weekly percentage points above the member's floor. */
  function Burnable(weeklyUsed: real, floor: nat): real {
    Max(100.0 - Clamp(weeklyUsed) - floor as real, 0.0)
  }

  function WeeklyShare(weeklyUsed: real, floor: nat): real {
    Burnable(weeklyUsed, floor) / Max(100.0 - floor as real, 1.0) * 100.0
  }

  function FiveHourShare(fiveHour: Option<real>): real {
    if fiveHour.None? then 100.0
    else
      Max(100.0 - Clamp(fiveHour.value) - FIVE_HOUR_ROUTING_RESERVE_PERCENT, 0.0)
      / (100.0 - FIVE_HOUR_ROUTING_RESERVE_PERCENT) * 100.0
  }

  function Headroom(weeklyUsed: real, fiveHour: Option<real>, floor: nat): real {
    Min(WeeklyShare(weeklyUsed, floor), FiveHourShare(fiveHour))
  }

  predicate Elapsed(resetAt: Option<nat>, now: nat) {
    resetAt.Some? && resetAt.value <= now
  }

  function SkipReasonFor(weekly: Window, fiveHour: Option<Window>, floor: nat, now: nat): Option<SkipReason> {
    if Burnable(weekly.usedPercent, floor) <= 0.0 then
      Some(if Elapsed(weekly.resetAt, now) then WeeklyResetPending else WeeklyFloor)
    else if fiveHour.Some? && 100.0 - Clamp(fiveHour.value.usedPercent) <= FIVE_HOUR_ROUTING_RESERVE_PERCENT then
      Some(if Elapsed(fiveHour.value.resetAt, now) then FiveHourResetPending else FiveHourReserve)
    else None
  }

  function Used(w: Option<Window>): Option<real> {
    if w.Some? then Some(w.value.usedPercent) else None
  }

  /** `quota_pool_observation_at`: none without a weekly window. */
  function Observe(windows: seq<Window>, floor: nat, now: nat): Option<Observation> {
    var weekly := FindWeekly(windows);
    if weekly.None? then None
    else
      var five := FindFiveHour(windows);
      var reason := SkipReasonFor(weekly.value, five, floor, now);
      Some(Observation(
             reason.None?, reason,
             Headroom(weekly.value.usedPercent, Used(five), floor),
             Clamp(weekly.value.usedPercent),
             Burnable(weekly.value.usedPercent, floor),
             weekly.value.resetAt,
             if five.Some? then Some(Clamp(five.value.usedPercent)) else None,
             if five.Some? then five.value.resetAt else None))
  }

  // ----- Arithmetic of shares -----

  lemma WeeklyShareBounds(used: real, floor: nat)
    ensures 0.0 <= WeeklyShare(used, floor) <= 100.0
    ensures WeeklyShare(used, floor) > 0.0 <==> Burnable(used, floor) > 0.0
  {
    var b, d := Burnable(used, floor), Max(100.0 - floor as real, 1.0);
    assert 0.0 <= b <= d;
    RatioBounds(b, d);
  }

  lemma RatioBounds(b: real, d: real)
    requires 0.0 <= b <= d && d > 0.0
    ensures 0.0 <= b / d <= 1.0
    ensures b / d > 0.0 <==> b > 0.0
  {
    assert b / d * d == b;
  }

  /** Comparing two fractions by cross-multiplication. */
  lemma RatioLeq(b: real, d: real, b': real, d': real)
    requires d > 0.0 && d' > 0.0 && b * d' <= b' * d
    ensures b / d <= b' / d'
  {
    var q, q' := b / d, b' / d';
    assert q * d == b && q' * d' == b';
    assert q * (d * d') <= q' * (d * d');
    if q > q' {
      Scale(q, q', d * d');
    }
  }

  lemma Scale(x: real, y: real, k: real)
    requires k > 0.0
    ensures x > y ==> x * k > y * k
    ensures x <= y ==> x * k <= y * k
  {
  }

  lemma WeeklyShareFalls(used: real, used': real, floor: nat, floor': nat)
    requires used <= used' && floor <= floor'
    ensures WeeklyShare(used', floor') <= WeeklyShare(used, floor)
    ensures Burnable(used', floor') <= Burnable(used, floor)
  {
    var b, d := Burnable(used, floor), Max(100.0 - floor as real, 1.0);
    var b', d' := Burnable(used', floor'), Max(100.0 - floor' as real, 1.0);
    if b' == 0.0 {
      WeeklyShareBounds(used, floor);
    } else {
      CrossLeq(Clamp(used), Clamp(used'), d, d');
      RatioLeq(b', d', b, d);
    }
  }

  lemma CrossLeq(u: real, u': real, d: real, d': real)
    requires 0.0 <= u <= u' && 0.0 < d' <= d
    ensures (d' - u') * d <= (d - u) * d'
  {
    Scale(u, u', d');
    if u' > 0.0 {
      Scale(d', d, u');
    }
    assert u * d' <= u' * d;
    assert (d' - u') * d == d' * d - u' * d;
    assert (d - u) * d' == d * d' - u * d';
  }

  lemma FiveHourShareFalls(five: Option<real>, five': Option<real>)
    requires five.Some? ==> five'.Some? && five.value <= five'.value
    ensures 0.0 <= FiveHourShare(five') <= FiveHourShare(five) <= 100.0
    ensures five.Some? ==> (FiveHourShare(five) > 0.0 <==> 100.0 - Clamp(five.value) > FIVE_HOUR_ROUTING_RESERVE_PERCENT)
  {
  }

  // ===== Headroom =====

  /** Headroom is a percentage, and it is positive exactly when the observation says the account is usable. */
  lemma HeadroomMeansUsable(windows: seq<Window>, floor: nat, now: nat)
    requires Observe(windows, floor, now).Some?
    ensures var o := Observe(windows, floor, now).value;
            && 0.0 <= o.headroom <= 100.0
            && (o.headroom > 0.0 <==> o.usable)
            && (o.usable <==> o.skipReason.None?)
  {
    var weekly, five := FindWeekly(windows).value, FindFiveHour(windows);
    WeeklyShareBounds(weekly.usedPercent, floor);
    FiveHourShareFalls(Used(five), Used(five));
  }

  /** More weekly use, more five-hour use or a higher floor never raises headroom nor makes an unusable account usable. */
  lemma HeadroomIsMonotone(windows: seq<Window>, windows': seq<Window>, floor: nat, floor': nat, now: nat, now': nat)
    requires Observe(windows, floor, now).Some? && Observe(windows', floor', now').Some?
    requires floor <= floor'
    requires FindWeekly(windows).value.usedPercent <= FindWeekly(windows').value.usedPercent
    requires FindFiveHour(windows).Some? ==>
               FindFiveHour(windows').Some? && FindFiveHour(windows).value.usedPercent <= FindFiveHour(windows').value.usedPercent
    ensures Observe(windows', floor', now').value.headroom <= Observe(windows, floor, now).value.headroom
    ensures Observe(windows', floor', now').value.usable ==> Observe(windows, floor, now).value.usable
  {
    WeeklyShareFalls(FindWeekly(windows).value.usedPercent, FindWeekly(windows').value.usedPercent, floor, floor');
    FiveHourShareFalls(Used(FindFiveHour(windows)), Used(FindFiveHour(windows')));
    HeadroomMeansUsable(windows, floor, now);
    HeadroomMeansUsable(windows', floor', now');
  }

  // ===== What an observation says =====

  predicate FirstWeekly(ws: seq<Window>, i: nat) {
    i < |ws| && ws[i].unit == Week && forall k :: 0 <= k < i ==> ws[k].unit != Week
  }

  predicate FirstFiveHour(ws: seq<Window>, i: nat) {
    && i < |ws| && ws[i].unit == Hour && ws[i].amount == Some(5)
    && forall k :: 0 <= k < i ==> !(ws[k].unit == Hour && ws[k].amount == Some(5))
  }

  /** Percentage points left of a window. */
  function Left(used: real): real {
    if used < 0.0 then 100.0 else if used > 100.0 then 0.0 else 100.0 - used
  }

  predicate Passed(w: Window, now: nat) {
    match w.resetAt
    case Some(reset) => reset <= now
    case None => false
  }

  lemma {:induction false} FindsFirst(ws: seq<Window>, i: nat)
    ensures FirstWeekly(ws, i) ==> FindWeekly(ws) == Some(ws[i])
    ensures FirstFiveHour(ws, i) ==> FindFiveHour(ws) == Some(ws[i])
    decreases i
  {
    if i > 0 && i < |ws| {
      FindsFirst(ws[1..], i - 1);
    }
  }

  /** There is an observation exactly when there is a weekly window. */
  lemma ObservedIff(ws: seq<Window>, floor: nat, now: nat)
    ensures Observe(ws, floor, now).Some? <==> exists i :: 0 <= i < |ws| && ws[i].unit == Week
  {
    if i :| 0 <= i < |ws| && ws[i].unit == Week {
      assert ws[i] in ws;
    }
    if FindWeekly(ws).Some? {
      assert FindWeekly(ws).value in ws;
    }
  }

  /**
    The observation in plain terms. The account is usable exactly when the weekly window leaves more than the
    floor and the five-hour window, if there is one, more than five points; the first of the two that fails
    names the reason; and headroom is the smaller of the two spendable shares, in percent.
   */
  lemma ObservationMeans(ws: seq<Window>, floor: nat, now: nat, i: nat, five: Option<nat>)
    requires FirstWeekly(ws, i) && (five.Some? ==> FirstFiveHour(ws, five.value))
    requires five.None? ==> forall k :: 0 <= k < |ws| ==> !(ws[k].unit == Hour && ws[k].amount == Some(5))
    ensures Observe(ws, floor, now).Some?
    ensures var o := Observe(ws, floor, now).value;
            var weekly := Left(ws[i].usedPercent);
            var gated := weekly <= floor as real;
            var reserved := five.Some? && Left(ws[five.value].usedPercent) <= 5.0;
            && (o.usable <==> !gated && !reserved)
            && o.skipReason == (
                 if gated then Some(if Passed(ws[i], now) then WeeklyResetPending else WeeklyFloor)
                 else if reserved then Some(if Passed(ws[five.value], now) then FiveHourResetPending else FiveHourReserve)
                 else None)
            && o.weeklyUsed == 100.0 - weekly && o.weeklyResetAt == ws[i].resetAt
            && o.weeklyHeadroom == (if gated then 0.0 else weekly - floor as real)
            && o.fiveHourUsed == (if five.Some? then Some(100.0 - Left(ws[five.value].usedPercent)) else None)
            && o.fiveHourResetAt == (if five.Some? then ws[five.value].resetAt else None)
    ensures var o := Observe(ws, floor, now).value;
            o.headroom == if o.usable then SpendableShare(Left(ws[i].usedPercent), floor, if five.Some? then Some(Left(ws[five.value].usedPercent)) else None) else 0.0
  {
    FindsFirst(ws, i);
    if five.Some? {
      FindsFirst(ws, five.value);
    } else {
      assert FindFiveHour(ws).None?;
    }
    HeadroomMeansUsable(ws, floor, now);
    hide FindWeekly, FindFiveHour, Headroom, SpendableShare;
    if Observe(ws, floor, now).value.usable {
      HeadroomMeans(ws[i].usedPercent, floor, if five.Some? then Some(ws[five.value].usedPercent) else None);
    }
  }

  lemma HeadroomMeans(weekly: real, floor: nat, five: Option<real>)
    requires floor as real < Left(weekly) && (five.Some? ==> Left(five.value) > 5.0)
    ensures Headroom(weekly, five, floor) == SpendableShare(Left(weekly), floor, if five.Some? then Some(Left(five.value)) else None)
  {
    WeeklyShareMeans(weekly, floor);
    WeeklyShareBounds(weekly, floor);
    if five.Some? {
      FiveHourShareMeans(five.value);
    } else {
      assert FiveHourShare(five) == 100.0;
    }
    hide WeeklyShare, FiveHourShare;
  }

  lemma WeeklyShareMeans(used: real, floor: nat)
    requires floor as real < Left(used)
    ensures WeeklyShare(used, floor) == (Left(used) - floor as real) / (100.0 - floor as real) * 100.0
  {
    assert Burnable(used, floor) == Left(used) - floor as real;
    assert floor <= 99;
    assert Max(100.0 - floor as real, 1.0) == 100.0 - floor as real;
  }

  lemma FiveHourShareMeans(used: real)
    requires Left(used) > 5.0
    ensures FiveHourShare(Some(used)) == (Left(used) - 5.0) / 95.0 * 100.0
  {
  }

  /** The smaller of the spendable parts of both windows, in percent. */
  function SpendableShare(weekly: real, floor: nat, five: Option<real>): real
    requires weekly <= 100.0 && floor as real < weekly
  {
    var share := (weekly - floor as real) / (100.0 - floor as real) * 100.0;
    if five.None? then share
    else
      var other := (five.value - 5.0) / 95.0 * 100.0;
      if other < share then other else share
  }
}
