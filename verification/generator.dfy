/** `generateItinerary`: one day per whole unit of trip length, three slots
    per day picked at random from fixed candidate pools (or from fixed
    catalog positions when a pool is empty), day totals summed, and a
    uniform rescale of the day totals when the sum misses the budget by more
    than 5%. Randomness and the clock are inputs: each day reads one `Draw`. */
module Generator {
  import opened Schema
  import opened JsMath
  import opened Seqs
  import opened Catalog

  /** The three `Math.random()` values and the `Date.now()` reading
      (milliseconds since the epoch) that one iteration of the day loop uses. */
  datatype Draw = Draw(morning: real, afternoon: real, evening: real, clock: int)

  predicate DrawValid(d: Draw)
  {
    0.0 <= d.morning < 1.0 && 0.0 <= d.afternoon < 1.0 && 0.0 <= d.evening < 1.0
  }

  predicate DrawsValid(draws: seq<Draw>)
  {
    forall i :: 0 <= i < |draws| ==> DrawValid(draws[i])
  }

  const MsPerDay: int := 24 * 60 * 60 * 1000

  /** Number of days the loop `for (dayNum = 1; dayNum <= tripLength; dayNum++)` runs. */
  function NumDays(req: TripRequest): (n: nat)
    requires TripRequestValid(req)
    ensures 1 <= n <= 30
    ensures n as real <= req.tripLength < n as real + 1.0
  {
    req.tripLength.Floor
  }

  /** `budget / tripLength`, with the trip length as given (it may be fractional). */
  function DailyBudget(req: TripRequest): (r: real)
    requires TripRequestValid(req)
    ensures r > 0.0 && r * req.tripLength == req.budget
  {
    req.budget / req.tripLength
  }

  // ---------------------------------------------------------------- pools

  predicate InMorningPool(a: Activity, daily: real)
  {
    (a.subcategory == "beach" || a.subcategory == "hiking" || a.subcategory == "tours") && a.cost <= daily * 0.4
  }

  predicate InAfternoonPool(a: Activity, daily: real)
  {
    (a.subcategory == "cultural" || a.subcategory == "water_sports" || a.subcategory == "historical") && a.cost <= daily * 0.4
  }

  /** The cost cap binds all three alternatives: the disjunction is parenthesised. */
  predicate InEveningPool(a: Activity, daily: real)
  {
    (a.category == Dining || a.subcategory == "nightlife" || a.subcategory == "cruise") && a.cost <= daily * 0.6
  }

  function MorningPool(catalog: seq<Activity>, daily: real): (r: seq<Activity>)
    ensures forall a :: a in r <==> a in catalog && InMorningPool(a, daily)
    ensures IsSubsequence(r, catalog)
  {
    FilterIsSubsequence(catalog, a => InMorningPool(a, daily));
    Filter(catalog, a => InMorningPool(a, daily))
  }

  function AfternoonPool(catalog: seq<Activity>, daily: real): (r: seq<Activity>)
    ensures forall a :: a in r <==> a in catalog && InAfternoonPool(a, daily)
    ensures IsSubsequence(r, catalog)
  {
    FilterIsSubsequence(catalog, a => InAfternoonPool(a, daily));
    Filter(catalog, a => InAfternoonPool(a, daily))
  }

  function EveningPool(catalog: seq<Activity>, daily: real): (r: seq<Activity>)
    ensures forall a :: a in r <==> a in catalog && InEveningPool(a, daily)
    ensures forall a :: a in r ==> a.cost <= daily * 0.6
    ensures IsSubsequence(r, catalog)
  {
    FilterIsSubsequence(catalog, a => InEveningPool(a, daily));
    Filter(catalog, a => InEveningPool(a, daily))
  }

  // ---------------------------------------------------------------- picks

  /** `Math.floor(draw * n)`: a valid index whenever the pool is non-empty. */
  function PickIndex(draw: real, n: nat): (k: int)
    requires 0.0 <= draw < 1.0
    ensures n > 0 ==> 0 <= k < n
    ensures n == 0 ==> k == 0
  {
    assert 0.0 <= draw * n as real <= n as real;
    assert n > 0 ==> draw * n as real < n as real;
    (draw * n as real).Floor
  }

  /** `pool[Math.floor(draw * pool.length)] || fallback`: indexing an empty
      pool gives `undefined`, so the fallback is taken exactly then. */
  function Pick(pool: seq<Activity>, draw: real, fallback: Activity): (r: Activity)
    requires 0.0 <= draw < 1.0
    ensures |pool| > 0 ==> r in pool
    ensures |pool| == 0 ==> r == fallback
  {
    if |pool| > 0 then pool[PickIndex(draw, |pool|)] else fallback
  }

  /** Every pool member can be picked: the draw `k / n` selects position `k`. */
  lemma PickReachesEveryMember(pool: seq<Activity>, k: nat, fallback: Activity)
    requires k < |pool|
    ensures 0.0 <= k as real / |pool| as real < 1.0
    ensures Pick(pool, k as real / |pool| as real, fallback) == pool[k]
  {
    var n := |pool| as real;
    assert k as real / n * n == k as real;
    assert (k as real).Floor == k;
    assert PickIndex(k as real / n, |pool|) == k;
  }

  // ---------------------------------------------------------------- days

  /** The UTC calendar day of `clock + (dayNum - 1)` days. */
  function DayDate(clock: int, dayNum: int): (r: int)
    ensures r * MsPerDay <= clock + (dayNum - 1) * MsPerDay < (r + 1) * MsPerDay
  {
    (clock + (dayNum - 1) * MsPerDay) / MsPerDay
  }

  /** Under one clock reading, day `dayNum` falls `dayNum - 1` calendar days
      after day 1. */
  lemma DayDatesConsecutive(clock: int, dayNum: int)
    ensures DayDate(clock, dayNum) == DayDate(clock, 1) + (dayNum - 1)
  {
    var q, m := clock / MsPerDay, clock % MsPerDay;
    assert clock == q * MsPerDay + m && 0 <= m < MsPerDay;
    assert clock + (dayNum - 1) * MsPerDay == (q + dayNum - 1) * MsPerDay + m;
    DivUnique(clock + (dayNum - 1) * MsPerDay, q + dayNum - 1, m);
  }

  lemma DivUnique(x: int, q: int, m: int)
    requires x == q * MsPerDay + m && 0 <= m < MsPerDay
    ensures x / MsPerDay == q
  {
  }

  function SlotCostSum(s: Slots): real
  {
    s.morning.cost + s.afternoon.cost + s.evening.cost
  }

  function SlotDurationSum(s: Slots): real
  {
    s.morning.duration + s.afternoon.duration + s.evening.duration
  }

  /** Day `dayNum`, before any rescale. */
  function MakeDay(catalog: seq<Activity>, daily: real, dayNum: int, d: Draw): (r: Day)
    requires |catalog| >= 3 && DrawValid(d)
    ensures r.dayNumber == dayNum && r.date == DayDate(d.clock, dayNum)
    ensures r.totalCost == SlotCostSum(r.activities) && r.totalDuration == SlotDurationSum(r.activities)
    ensures |MorningPool(catalog, daily)| > 0 ==> r.activities.morning in MorningPool(catalog, daily)
    ensures |MorningPool(catalog, daily)| == 0 ==> r.activities.morning == catalog[0]
    ensures |AfternoonPool(catalog, daily)| > 0 ==> r.activities.afternoon in AfternoonPool(catalog, daily)
    ensures |AfternoonPool(catalog, daily)| == 0 ==> r.activities.afternoon == catalog[1]
    ensures |EveningPool(catalog, daily)| > 0 ==> r.activities.evening in EveningPool(catalog, daily)
    ensures |EveningPool(catalog, daily)| == 0 ==> r.activities.evening == catalog[2]
  {
    var slots := Slots(
      Pick(MorningPool(catalog, daily), d.morning, catalog[0]),
      Pick(AfternoonPool(catalog, daily), d.afternoon, catalog[1]),
      Pick(EveningPool(catalog, daily), d.evening, catalog[2]));
    Day(dayNum, DayDate(d.clock, dayNum), slots, SlotCostSum(slots), SlotDurationSum(slots))
  }

  /** The days as built by the loop, before the rescale. */
  function PlanDays(catalog: seq<Activity>, daily: real, draws: seq<Draw>): (r: seq<Day>)
    requires |catalog| >= 3 && DrawsValid(draws)
    ensures |r| == |draws|
    ensures forall i :: 0 <= i < |r| ==> r[i] == MakeDay(catalog, daily, i + 1, draws[i])
  {
    seq(|draws|, i requires 0 <= i < |draws| => MakeDay(catalog, daily, i + 1, draws[i]))
  }

  function DayTotals(days: seq<Day>): (r: seq<real>)
    ensures |r| == |days| && forall i :: 0 <= i < |days| ==> r[i] == days[i].totalCost
  {
    seq(|days|, i requires 0 <= i < |days| => days[i].totalCost)
  }

  /** `days.reduce((sum, day) => sum + day.totalCost, 0)`. */
  function TotalCost(days: seq<Day>): real
  {
    Sum(DayTotals(days))
  }

  // ---------------------------------------------------------------- rescale

  lemma QuotientBound(x: real, b: real)
    requires b > 0.0
    ensures x / b <= 0.05 <==> x <= 0.05 * b
  {
    var q := x / b;
    assert x == q * b;
    if q <= 0.05 {
      assert q * b <= 0.05 * b;
    } else {
      assert q * b > 0.05 * b;
    }
  }

  /** `Math.abs(total - budget) / budget > 0.05`. */
  predicate NeedsRescale(total: real, budget: real): (r: bool)
    requires budget > 0.0
    ensures r <==> total < 0.95 * budget || total > 1.05 * budget
  {
    QuotientBound(Abs(total - budget), budget);
    Abs(total - budget) / budget > 0.05
  }

  /** `Math.round(total * scaleFactor)`. */
  function ScaledTotal(total: real, factor: real): real
  {
    Round(total * factor) as real
  }

  lemma ScaledTotalClose(total: real, factor: real, exact: real)
    requires exact == factor * total
    ensures -0.5 <= ScaledTotal(total, factor) - exact <= 0.5
  {
    var y := total * factor;
    RoundBounds(y);
  }

  /** One day after the rescale; the activities are left as they are. */
  function ScaleDay(d: Day, factor: real): (r: Day)
    ensures r.dayNumber == d.dayNumber && r.date == d.date && r.activities == d.activities
    ensures r.totalDuration == d.totalDuration
    ensures d.totalCost * factor - 0.5 < r.totalCost <= d.totalCost * factor + 0.5
    ensures r.totalCost == r.totalCost.Floor as real
  {
    d.(totalCost := ScaledTotal(d.totalCost, factor))
  }

  function ScaleAll(days: seq<Day>, factor: real): (r: seq<Day>)
    ensures |r| == |days| && forall i :: 0 <= i < |days| ==> r[i] == ScaleDay(days[i], factor)
  {
    seq(|days|, i requires 0 <= i < |days| => ScaleDay(days[i], factor))
  }

  /** The variance correction. A zero pre-scale total leaves the days as they
      are: the source divides by it (see `RescaledTotalsAsWritten`). */
  function Rescale(days: seq<Day>, budget: real): (r: seq<Day>)
    requires budget > 0.0
    ensures |r| == |days|
    ensures forall i :: 0 <= i < |days| ==>
      r[i].dayNumber == days[i].dayNumber && r[i].date == days[i].date
      && r[i].activities == days[i].activities && r[i].totalDuration == days[i].totalDuration
    ensures !NeedsRescale(TotalCost(days), budget) || TotalCost(days) == 0.0 ==> r == days
    ensures NeedsRescale(TotalCost(days), budget) && TotalCost(days) != 0.0 ==>
      forall i :: 0 <= i < |days| ==>
        var x := days[i].totalCost * (budget / TotalCost(days));
        x - 0.5 < r[i].totalCost <= x + 0.5 && r[i].totalCost == r[i].totalCost.Floor as real
  {
    var total := TotalCost(days);
    if !NeedsRescale(total, budget) || total == 0.0 then days
    else ScaleAll(days, budget / total)
  }

  /** The day totals the source computes, as JavaScript numbers. With a zero
      pre-scale total the variance is 1, so the rescale runs with the scale
      factor `budget / 0 = Infinity`: a zero day total becomes NaN and any
      other one an infinity of its sign. */
  function RescaledTotalsAsWritten(totals: seq<real>, budget: real): (r: seq<JsNumber>)
    requires budget > 0.0
    ensures |r| == |totals|
    ensures !NeedsRescale(Sum(totals), budget) ==> forall i :: 0 <= i < |totals| ==> r[i] == Finite(totals[i])
    ensures NeedsRescale(Sum(totals), budget) && Sum(totals) == 0.0 ==> forall i :: 0 <= i < |totals| ==>
      r[i] == (if totals[i] == 0.0 then NaN else if totals[i] > 0.0 then PosInf else NegInf)
    ensures NeedsRescale(Sum(totals), budget) && Sum(totals) != 0.0 ==> forall i :: 0 <= i < |totals| ==>
      var x := totals[i] * (budget / Sum(totals));
      r[i].Finite? && x - 0.5 < r[i].value <= x + 0.5 && r[i].value == r[i].value.Floor as real
  {
    var total := Sum(totals);
    if !NeedsRescale(total, budget) then seq(|totals|, i requires 0 <= i < |totals| => Finite(totals[i]))
    else if total == 0.0 then seq(|totals|, i requires 0 <= i < |totals| => TimesInfinity(totals[i]))
    else seq(|totals|, i requires 0 <= i < |totals| => Finite(ScaledTotal(totals[i], budget / total)))
  }

  lemma {:induction false} JsSumFinite(xs: seq<real>)
    ensures JsSum(seq(|xs|, i requires 0 <= i < |xs| => Finite(xs[i]))) == Finite(Sum(xs))
  {
    if |xs| > 0 {
      var n := |xs| - 1;
      JsSumFinite(xs[..n]);
      assert seq(|xs|, i requires 0 <= i < |xs| => Finite(xs[i]))[..n]
        == seq(n, i requires 0 <= i < n => Finite(xs[..n][i]));
    }
  }

  /** Whenever the pre-scale total is not zero the source's day totals are
      the finite values `Rescale` computes. */
  lemma AsWrittenAgreesOnNonZeroTotal(days: seq<Day>, budget: real)
    requires budget > 0.0
    requires TotalCost(days) != 0.0
    ensures forall i :: 0 <= i < |days| ==>
      RescaledTotalsAsWritten(DayTotals(days), budget)[i] == Finite(Rescale(days, budget)[i].totalCost)
  {
    var total := TotalCost(days);
    var totals := DayTotals(days);
    assert Sum(totals) == total;
    var asWritten := RescaledTotalsAsWritten(totals, budget);
    var rescaled := Rescale(days, budget);
    var needs := NeedsRescale(total, budget);
    if needs {
      var f := budget / total;
      var scaled := seq(|totals|, i requires 0 <= i < |totals| => Finite(ScaledTotal(totals[i], f)));
      assert asWritten == scaled;
      assert rescaled == ScaleAll(days, f);
      forall i | 0 <= i < |days| ensures asWritten[i] == Finite(rescaled[i].totalCost) {
        assert scaled[i] == Finite(ScaledTotal(totals[i], f));
        assert rescaled[i] == ScaleDay(days[i], f);
      }
    } else {
      assert asWritten == seq(|totals|, i requires 0 <= i < |totals| => Finite(totals[i]));
      assert rescaled == days;
    }
  }

  /** With a zero pre-scale total the source's itinerary total is NaN: every
      day total is NaN when all are zero, and otherwise both infinities occur. */
  lemma ZeroTotalGivesNaN(totals: seq<real>, budget: real)
    requires budget > 0.0 && |totals| > 0
    requires Sum(totals) == 0.0
    ensures JsSum(RescaledTotalsAsWritten(totals, budget)) == NaN
  {
    assert NeedsRescale(Sum(totals), budget);
    var r := RescaledTotalsAsWritten(totals, budget);
    assert forall i :: 0 <= i < |totals| ==> r[i] == TimesInfinity(totals[i]);
    JsSumShape(r);
    if k :| 0 <= k < |totals| && totals[k] != 0.0 {
      ZeroSumSigns(totals, k);
      var p :| 0 <= p < |totals| && totals[p] > 0.0;
      var q :| 0 <= q < |totals| && totals[q] < 0.0;
      assert r[p].PosInf? && r[q].NegInf?;
    } else {
      assert r[0].NaN?;
    }
  }

  /** The source's itinerary total, as a JavaScript number: the corrected
      total whenever the pre-scale total is non-zero, and NaN when it is zero. */
  lemma SourceTotal(days: seq<Day>, budget: real)
    requires budget > 0.0 && |days| > 0
    ensures var source := JsSum(RescaledTotalsAsWritten(DayTotals(days), budget));
      && (TotalCost(days) != 0.0 ==> source == Finite(TotalCost(Rescale(days, budget))))
      && (TotalCost(days) == 0.0 ==> source == NaN)
  {
    var totals := DayTotals(days);
    if TotalCost(days) != 0.0 {
      AsWrittenAgreesOnNonZeroTotal(days, budget);
      var corrected := DayTotals(Rescale(days, budget));
      assert RescaledTotalsAsWritten(totals, budget) == seq(|corrected|, i requires 0 <= i < |corrected| => Finite(corrected[i]));
      JsSumFinite(corrected);
    } else {
      ZeroTotalGivesNaN(totals, budget);
    }
  }

  function ScaledTotals(totals: seq<real>, factor: real): (r: seq<real>)
    ensures |r| == |totals| && forall i :: 0 <= i < |totals| ==> r[i] == ScaledTotal(totals[i], factor)
  {
    seq(|totals|, i requires 0 <= i < |totals| => ScaledTotal(totals[i], factor))
  }

  lemma RoundedTermClose(totals: seq<real>, factor: real, i: nat)
    requires i < |totals|
    ensures -0.5 <= ScaledTotals(totals, factor)[i] - Scale(totals, factor)[i] <= 0.5
  {
    var t := totals[i];
    var e := Scale(totals, factor)[i];
    var r := ScaledTotals(totals, factor)[i];
    assert e == factor * t;
    assert r == ScaledTotal(t, factor);
    ScaledTotalClose(t, factor, e);
  }

  /** Rounding each term moves a sum by at most half a unit per term. */
  lemma ScaledSumClose(totals: seq<real>, factor: real)
    ensures -(|totals| as real / 2.0) <= Sum(ScaledTotals(totals, factor)) - Sum(Scale(totals, factor)) <= |totals| as real / 2.0
  {
    var rounded := ScaledTotals(totals, factor);
    var exact := Scale(totals, factor);
    forall i | 0 <= i < |totals| ensures -0.5 <= rounded[i] - exact[i] <= 0.5 {
      RoundedTermClose(totals, factor, i);
    }
    SumsWithinHalf(rounded, exact);
  }

  /** After a rescale with a positive pre-scale total the sum of the day
      totals lies within half a unit per day of the budget. */
  lemma RescaledTotalNearBudget(days: seq<Day>, budget: real)
    requires budget > 0.0
    requires TotalCost(days) > 0.0 && NeedsRescale(TotalCost(days), budget)
    ensures Abs(TotalCost(Rescale(days, budget)) - budget) <= |days| as real / 2.0
  {
    var total := TotalCost(days);
    var f := budget / total;
    var rescaled := Rescale(days, budget);
    assert rescaled == ScaleAll(days, f);
    assert DayTotals(rescaled) == ScaledTotals(DayTotals(days), f);
    ScaledSumClose(DayTotals(days), f);
    SumScale(DayTotals(days), f);
    assert f * total == budget;
    assert Sum(Scale(DayTotals(days), f)) == budget;
  }

  // ---------------------------------------------------------------- generation

  predicate Inputs(catalog: seq<Activity>, req: TripRequest, draws: seq<Draw>)
  {
    |catalog| >= 3 && TripRequestValid(req) && |draws| == NumDays(req) && DrawsValid(draws)
  }

  /** The days before the rescale. */
  function PlannedDays(catalog: seq<Activity>, req: TripRequest, draws: seq<Draw>): seq<Day>
    requires Inputs(catalog, req, draws)
  {
    PlanDays(catalog, DailyBudget(req), draws)
  }

  /** The generation algorithm over a given catalog. */
  function Build(catalog: seq<Activity>, req: TripRequest, id: string, createdAt: string, draws: seq<Draw>): (r: Itinerary)
    requires Inputs(catalog, req, draws)
    ensures |r.days| == NumDays(req)
    ensures forall i :: 0 <= i < |r.days| ==> r.days[i].dayNumber == i + 1
    ensures r.totalCost == TotalCost(r.days)
    ensures r.id == id && r.createdAt == createdAt
    ensures r.destination == req.destination && r.partySize == req.partySize
  {
    var days := Rescale(PlannedDays(catalog, req, draws), req.budget);
    Itinerary(id, days, TotalCost(days), req.destination, req.partySize, createdAt)
  }

  /** `generateItinerary`; `id` and `createdAt` are what the itinerary record
      is created with. */
  function Generate(req: TripRequest, id: string, createdAt: string, draws: seq<Draw>): (r: Itinerary)
    requires TripRequestValid(req)
    requires |draws| == NumDays(req) && DrawsValid(draws)
    ensures |r.days| == NumDays(req)
    ensures forall i :: 0 <= i < |r.days| ==> r.days[i].dayNumber == i + 1
    ensures r.totalCost == TotalCost(r.days)
    ensures r.id == id && r.createdAt == createdAt
    ensures r.destination == req.destination && r.partySize == req.partySize
  {
    Build(ActivitiesFor(req.destination), req, id, createdAt, draws)
  }

  /** Each slot of each generated day holds a member of its pool, or the
      fixed catalog position 0, 1 or 2 when that pool is empty. */
  lemma GeneratedSlots(catalog: seq<Activity>, req: TripRequest, id: string, createdAt: string, draws: seq<Draw>, i: nat)
    requires Inputs(catalog, req, draws)
    requires i < NumDays(req)
    ensures var s, daily := Build(catalog, req, id, createdAt, draws).days[i].activities, DailyBudget(req);
      && (|MorningPool(catalog, daily)| > 0 ==> s.morning in catalog && InMorningPool(s.morning, daily))
      && (|MorningPool(catalog, daily)| == 0 ==> s.morning == catalog[0])
      && (|AfternoonPool(catalog, daily)| > 0 ==> s.afternoon in catalog && InAfternoonPool(s.afternoon, daily))
      && (|AfternoonPool(catalog, daily)| == 0 ==> s.afternoon == catalog[1])
      && (|EveningPool(catalog, daily)| > 0 ==> s.evening in catalog && InEveningPool(s.evening, daily))
      && (|EveningPool(catalog, daily)| == 0 ==> s.evening == catalog[2])
  {
    var planned := PlannedDays(catalog, req, draws);
    assert planned[i] == MakeDay(catalog, DailyBudget(req), i + 1, draws[i]);
    assert Build(catalog, req, id, createdAt, draws).days[i].activities == planned[i].activities;
  }

  /** Durations are always the raw slot sums; costs are too unless the
      rescale ran. The rescale touches no activity. */
  lemma GeneratedDaySums(catalog: seq<Activity>, req: TripRequest, id: string, createdAt: string, draws: seq<Draw>, i: nat)
    requires Inputs(catalog, req, draws)
    requires i < NumDays(req)
    ensures var d := Build(catalog, req, id, createdAt, draws).days[i];
      && d.totalDuration == SlotDurationSum(d.activities)
      && d.activities == PlannedDays(catalog, req, draws)[i].activities
      && PlannedDays(catalog, req, draws)[i].totalCost == SlotCostSum(d.activities)
      && (!NeedsRescale(TotalCost(PlannedDays(catalog, req, draws)), req.budget) ==> d.totalCost == SlotCostSum(d.activities))
  {
    var planned := PlannedDays(catalog, req, draws);
    assert planned[i] == MakeDay(catalog, DailyBudget(req), i + 1, draws[i]);
  }

  /** The generated itinerary's total against the budget: untouched and
      within 5% when no rescale ran; within half a unit per day of the budget
      after a rescale of a positive total (so not always within 5%). */
  lemma GeneratedTotal(catalog: seq<Activity>, req: TripRequest, id: string, createdAt: string, draws: seq<Draw>)
    requires Inputs(catalog, req, draws)
    ensures var r, pre := Build(catalog, req, id, createdAt, draws), TotalCost(PlannedDays(catalog, req, draws));
      && (!NeedsRescale(pre, req.budget) ==> r.totalCost == pre && Abs(r.totalCost - req.budget) <= 0.05 * req.budget)
      && (NeedsRescale(pre, req.budget) && pre > 0.0 ==> Abs(r.totalCost - req.budget) <= NumDays(req) as real / 2.0)
      && (pre == 0.0 ==> r.totalCost == 0.0)
  {
    var planned := PlannedDays(catalog, req, draws);
    assert Build(catalog, req, id, createdAt, draws).days == Rescale(planned, req.budget);
    RescaledTotal(planned, req.budget);
  }

  lemma RescaledTotal(days: seq<Day>, budget: real)
    requires budget > 0.0
    ensures var t, pre := TotalCost(Rescale(days, budget)), TotalCost(days);
      && (!NeedsRescale(pre, budget) ==> t == pre && Abs(t - budget) <= 0.05 * budget)
      && (NeedsRescale(pre, budget) && pre > 0.0 ==> Abs(t - budget) <= |days| as real / 2.0)
      && (pre == 0.0 ==> t == 0.0)
  {
    var pre := TotalCost(days);
    if !NeedsRescale(pre, budget) {
      QuotientBound(Abs(pre - budget), budget);
    } else if pre > 0.0 {
      RescaledTotalNearBudget(days, budget);
    }
  }

  /** The total `generateItinerary` computes: NaN for a zero pre-scale
      total, and otherwise the total of the corrected build. */
  lemma GeneratedTotalAsWritten(catalog: seq<Activity>, req: TripRequest, id: string, createdAt: string, draws: seq<Draw>)
    requires Inputs(catalog, req, draws)
    ensures var planned := PlannedDays(catalog, req, draws);
      var source := JsSum(RescaledTotalsAsWritten(DayTotals(planned), req.budget));
      && (TotalCost(planned) != 0.0 ==> source == Finite(Build(catalog, req, id, createdAt, draws).totalCost))
      && (TotalCost(planned) == 0.0 ==> source == NaN)
  {
    var planned := PlannedDays(catalog, req, draws);
    assert Build(catalog, req, id, createdAt, draws).days == Rescale(planned, req.budget);
    SourceTotal(planned, req.budget);
  }

  /** Days built from schema-valid catalog entries pass `daySchema`. */
  lemma GeneratedValid(catalog: seq<Activity>, req: TripRequest, id: string, createdAt: string, draws: seq<Draw>)
    requires Inputs(catalog, req, draws)
    requires forall k :: 0 <= k < |catalog| ==> ActivityValid(catalog[k])
    ensures ItineraryValid(Build(catalog, req, id, createdAt, draws))
  {
    var r := Build(catalog, req, id, createdAt, draws);
    forall i | 0 <= i < |r.days| ensures DayValid(r.days[i]) {
      GeneratedSlots(catalog, req, id, createdAt, draws, i);
      var s := r.days[i].activities;
      assert s.morning in catalog && s.afternoon in catalog && s.evening in catalog;
    }
  }

  /** Every itinerary `generateItinerary` returns passes `itinerarySchema`. */
  lemma GenerateValid(req: TripRequest, id: string, createdAt: string, draws: seq<Draw>)
    requires TripRequestValid(req)
    requires |draws| == NumDays(req) && DrawsValid(draws)
    ensures ItineraryValid(Generate(req, id, createdAt, draws))
  {
    CatalogWellFormed(req.destination);
    GeneratedValid(ActivitiesFor(req.destination), req, id, createdAt, draws);
  }

  /** With one clock reading for the whole loop the dates are consecutive
      calendar days. */
  lemma GeneratedDates(catalog: seq<Activity>, req: TripRequest, id: string, createdAt: string, draws: seq<Draw>, clock: int)
    requires Inputs(catalog, req, draws)
    requires forall i :: 0 <= i < |draws| ==> draws[i].clock == clock
    ensures forall i :: 0 <= i < NumDays(req) ==> Build(catalog, req, id, createdAt, draws).days[i].date == DayDate(clock, 1) + i
  {
    var r := Build(catalog, req, id, createdAt, draws);
    forall i | 0 <= i < NumDays(req) ensures r.days[i].date == DayDate(clock, 1) + i {
      GeneratedDayDate(catalog, req, id, createdAt, draws, i);
      DayDatesConsecutive(clock, i + 1);
    }
  }

  /** Day `i + 1` is dated by the clock reading of its own loop iteration. */
  lemma GeneratedDayDate(catalog: seq<Activity>, req: TripRequest, id: string, createdAt: string, draws: seq<Draw>, i: nat)
    requires Inputs(catalog, req, draws)
    requires i < NumDays(req)
    ensures Build(catalog, req, id, createdAt, draws).days[i].date == DayDate(draws[i].clock, i + 1)
  {
    var planned := PlannedDays(catalog, req, draws);
    assert Build(catalog, req, id, createdAt, draws).days == Rescale(planned, req.budget);
    assert planned[i] == MakeDay(catalog, DailyBudget(req), i + 1, draws[i]);
  }
}
