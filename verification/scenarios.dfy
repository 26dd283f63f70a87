/** Concrete inputs worked through the model: the swap matcher on the Hawaii
    catalog, a Hawaii trip whose rescaled total misses the budget by 10%, a
    Tokyo trip whose pre-scale total is zero, and a destination containing a
    replacement pattern. Every statement holds for all random draws. */
module Scenarios {
  import opened Wrappers
  import opened Schema
  import opened JsMath
  import opened Seqs
  import opened Text
  import opened CatalogData
  import opened Catalog
  import opened Alternatives
  import opened Generator

  // ---------------------------------------------------------------- swap matcher

  /** A free activity has no alternatives, whatever the catalog holds. */
  lemma WaikikiHasNoAlternatives()
    ensures HawaiiCatalog[0].name == "Beach Day at Waikiki"
    ensures SwapAlternatives(HawaiiCatalog[0], "Hawaii") == []
  {
    ZeroReferenceNoAlternatives(HawaiiCatalog[0], "Hawaii");
  }

  /** The only entry within 10% cost and 15% duration of the Diamond Head
      hike is the Lyon Arboretum hike, which costs and lasts the same. */
  lemma DiamondHeadAlternatives()
    ensures HawaiiCatalog[1].name == "Diamond Head Hike" && HawaiiCatalog[10].name == "Lyon Arboretum Hike"
    ensures SwapAlternatives(HawaiiCatalog[1], "Hawaii") == [HawaiiCatalog[10]]
  {
    DiamondHeadMatches();
    CuratedLookups();
    assert SwapAlternatives(HawaiiCatalog[1], "Hawaii") == AlternativesIn(HawaiiCatalog, HawaiiCatalog[1]);
  }

  lemma DiamondHeadMatches()
    ensures HawaiiCatalog[1].name == "Diamond Head Hike" && HawaiiCatalog[10].name == "Lyon Arboretum Hike"
    ensures AlternativesIn(HawaiiCatalog, HawaiiCatalog[1]) == [HawaiiCatalog[10]]
  {
    var cur := HawaiiCatalog[1];
    HawaiiCostsAround5();
    forall i | 0 <= i < |HawaiiCatalog| && i != 10 ensures !Matches(cur, HawaiiCatalog[i]) {
      if i != 1 {
        OutsideCostBand(cur, HawaiiCatalog[i]);
      }
    }
    RelativeDiffBand(HawaiiCatalog[10].cost, cur.cost, 0.1);
    RelativeDiffBand(HawaiiCatalog[10].duration, cur.duration, 0.15);
    SingleAlternative(HawaiiCatalog, cur, 10);
  }

  lemma HawaiiCostsAround5()
    ensures |HawaiiCatalog| == 16
    ensures HawaiiCatalog[1].id != HawaiiCatalog[10].id
    ensures HawaiiCatalog[1].cost == 5.0 && HawaiiCatalog[1].duration == 2.5
    ensures HawaiiCatalog[10].cost == 5.0 && HawaiiCatalog[10].duration == 2.5
    ensures HawaiiCatalog[1].category == HawaiiCatalog[10].category
    ensures forall k :: 0 <= k < |HawaiiCatalog| && k != 1 && k != 10 ==>
      HawaiiCatalog[k].cost < 4.5 || HawaiiCatalog[k].cost > 5.5
  {
  }

  lemma OutsideCostBand(cur: Activity, a: Activity)
    requires cur.cost > 0.0
    requires a.cost < 0.9 * cur.cost || a.cost > 1.1 * cur.cost
    ensures !Matches(cur, a)
  {
    RelativeDiffBand(a.cost, cur.cost, 0.1);
  }

  // ---------------------------------------------------------------- day costs fixed by the catalog

  /** When every candidate of a slot's pool costs the same, and so does the
      slot's fallback unless some candidate exists, every generated day costs
      the sum of the three, whatever the draws. */
  lemma UniformDayCost(catalog: seq<Activity>, req: TripRequest, draws: seq<Draw>, i: nat, m: real, a: real, e: real)
    requires Inputs(catalog, req, draws) && i < NumDays(req)
    requires catalog[0].cost == m || exists k :: 0 <= k < |catalog| && InMorningPool(catalog[k], DailyBudget(req))
    requires catalog[1].cost == a || exists k :: 0 <= k < |catalog| && InAfternoonPool(catalog[k], DailyBudget(req))
    requires catalog[2].cost == e || exists k :: 0 <= k < |catalog| && InEveningPool(catalog[k], DailyBudget(req))
    requires forall k :: 0 <= k < |catalog| && InMorningPool(catalog[k], DailyBudget(req)) ==> catalog[k].cost == m
    requires forall k :: 0 <= k < |catalog| && InAfternoonPool(catalog[k], DailyBudget(req)) ==> catalog[k].cost == a
    requires forall k :: 0 <= k < |catalog| && InEveningPool(catalog[k], DailyBudget(req)) ==> catalog[k].cost == e
    ensures PlannedDays(catalog, req, draws)[i].totalCost == m + a + e
  {
    GeneratedSlots(catalog, req, "", "", draws, i);
    GeneratedDaySums(catalog, req, "", "", draws, i);
    var s := Build(catalog, req, "", "", draws).days[i].activities;
    assert s.morning.cost == m;
    assert s.afternoon.cost == a;
    assert s.evening.cost == e;
  }

  // ---------------------------------------------------------------- a Hawaii trip over budget

  /** $100 for 30 days in Hawaii: a daily budget of 10/3. */
  const HawaiiTrip := TripRequest(100.0, 30.0, 1.0, "Hawaii", [], [])

  /** Only the free beach day enters the morning pool; nothing enters the
      afternoon or evening pool, whose fallbacks are Diamond Head (5) and
      Hanauma Bay (25). */
  lemma HawaiiPools()
    ensures HawaiiCatalog[0].cost == 0.0 && HawaiiCatalog[1].cost == 5.0 && HawaiiCatalog[2].cost == 25.0
    ensures forall k :: 0 <= k < |HawaiiCatalog| && InMorningPool(HawaiiCatalog[k], 10.0 / 3.0) ==> HawaiiCatalog[k].cost == 0.0
    ensures forall k :: 0 <= k < |HawaiiCatalog| ==> !InAfternoonPool(HawaiiCatalog[k], 10.0 / 3.0)
    ensures forall k :: 0 <= k < |HawaiiCatalog| ==> !InEveningPool(HawaiiCatalog[k], 10.0 / 3.0)
  {
  }

  /** Every Hawaii day costs 30 before the rescale. */
  lemma HawaiiDayCosts30(draws: seq<Draw>, i: nat)
    requires |draws| == 30 && DrawsValid(draws) && i < 30
    ensures PlannedDays(HawaiiCatalog, HawaiiTrip, draws)[i].totalCost == 30.0
  {
    assert DailyBudget(HawaiiTrip) == 10.0 / 3.0;
    assert NumDays(HawaiiTrip) == 30;
    HawaiiPools();
    UniformDayCost(HawaiiCatalog, HawaiiTrip, draws, i, 0.0, 5.0, 25.0);
  }

  /** Thirty days of 30 against a budget of 100: the pre-scale total 900 is
      eight budgets too many, so every day is scaled by 1/9 and rounded from
      10/3 to 3. */
  lemma RescaleThirtyDays(planned: seq<Day>)
    requires |planned| == 30
    requires forall i :: 0 <= i < 30 ==> DayTotals(planned)[i] == 30.0
    ensures TotalCost(Rescale(planned, 100.0)) == 90.0
  {
    SumConstant(DayTotals(planned), 30.0);
    assert TotalCost(planned) == 900.0;
    assert NeedsRescale(900.0, 100.0) by {
      assert Abs(900.0 - 100.0) / 100.0 == 8.0;
    }
    var f := 100.0 / 900.0;
    var days := Rescale(planned, 100.0);
    assert days == ScaleAll(planned, f);
    assert ScaledTotal(30.0, f) == 3.0 by {
      assert 30.0 * f + 0.5 == 23.0 / 6.0;
    }
    forall i | 0 <= i < 30 ensures DayTotals(days)[i] == 3.0 {
      assert days[i] == ScaleDay(planned[i], f);
    }
    SumConstant(DayTotals(days), 3.0);
  }

  /** The trip comes to 90, 10% under the budget, for every draw: the
      rescale itself lands outside the 5% band its comment promises. */
  lemma HawaiiTotalMissesBudget(id: string, createdAt: string, draws: seq<Draw>)
    requires |draws| == 30 && DrawsValid(draws)
    ensures Generate(HawaiiTrip, id, createdAt, draws).totalCost == 90.0
    ensures NeedsRescale(Generate(HawaiiTrip, id, createdAt, draws).totalCost, HawaiiTrip.budget)
  {
    HawaiiBuildTotal(id, createdAt, draws);
    CuratedLookups();
    assert NeedsRescale(90.0, 100.0) by {
      assert Abs(90.0 - 100.0) / 100.0 == 0.1;
    }
  }

  lemma HawaiiBuildTotal(id: string, createdAt: string, draws: seq<Draw>)
    requires |draws| == 30 && DrawsValid(draws)
    ensures NumDays(HawaiiTrip) == 30
    ensures Build(HawaiiCatalog, HawaiiTrip, id, createdAt, draws).totalCost == 90.0
  {
    assert NumDays(HawaiiTrip) == 30;
    var planned := PlannedDays(HawaiiCatalog, HawaiiTrip, draws);
    forall i | 0 <= i < 30 ensures DayTotals(planned)[i] == 30.0 {
      HawaiiDayCosts30(draws, i);
    }
    RescaleThirtyDays(planned);
    assert Build(HawaiiCatalog, HawaiiTrip, id, createdAt, draws).days == Rescale(planned, 100.0);
  }

  // ---------------------------------------------------------------- a Tokyo trip with nothing to pay

  /** $500 for 7 days in Tokyo: a daily budget of 500/7. */
  const TokyoTrip := TripRequest(500.0, 7.0, 1.0, "Tokyo", [], [])

  /** Nothing enters the morning or evening pool, whose fallbacks Senso-ji
      Temple and the Shibuya Crossing walk are free; only the free temple
      enters the afternoon pool. */
  lemma TokyoPools()
    ensures TokyoCatalog[0].cost == 0.0 && TokyoCatalog[1].cost == 180.0 && TokyoCatalog[2].cost == 0.0
    ensures forall k :: 0 <= k < |TokyoCatalog| ==> !InMorningPool(TokyoCatalog[k], 500.0 / 7.0)
    ensures forall k :: 0 <= k < |TokyoCatalog| && InAfternoonPool(TokyoCatalog[k], 500.0 / 7.0) ==> TokyoCatalog[k].cost == 0.0
    ensures forall k :: 0 <= k < |TokyoCatalog| ==> !InEveningPool(TokyoCatalog[k], 500.0 / 7.0)
    ensures exists k :: 0 <= k < |TokyoCatalog| && InAfternoonPool(TokyoCatalog[k], 500.0 / 7.0)
  {
    assert InAfternoonPool(TokyoCatalog[0], 500.0 / 7.0);
  }

  /** Every Tokyo day is free. */
  lemma TokyoDayIsFree(draws: seq<Draw>, i: nat)
    requires |draws| == 7 && DrawsValid(draws) && i < 7
    ensures PlannedDays(TokyoCatalog, TokyoTrip, draws)[i].totalCost == 0.0
  {
    assert DailyBudget(TokyoTrip) == 500.0 / 7.0;
    assert NumDays(TokyoTrip) == 7;
    TokyoPools();
    UniformDayCost(TokyoCatalog, TokyoTrip, draws, i, 0.0, 0.0, 0.0);
  }

  /** The pre-scale day totals are all zero for every draw. */
  lemma TokyoTotalsZero(draws: seq<Draw>)
    requires |draws| == 7 && DrawsValid(draws)
    ensures var totals := DayTotals(PlannedDays(TokyoCatalog, TokyoTrip, draws));
      |totals| == 7 && (forall i :: 0 <= i < 7 ==> totals[i] == 0.0) && Sum(totals) == 0.0
  {
    assert NumDays(TokyoTrip) == 7;
    var totals := DayTotals(PlannedDays(TokyoCatalog, TokyoTrip, draws));
    forall i | 0 <= i < 7 ensures totals[i] == 0.0 {
      TokyoDayIsFree(draws, i);
    }
    SumConstant(totals, 0.0);
  }

  /** The pre-scale total is zero for every draw, so the source's rescale
      divides by zero and its itinerary total is NaN. */
  lemma TokyoTotalIsNaN(draws: seq<Draw>)
    requires |draws| == 7 && DrawsValid(draws)
    ensures var totals := DayTotals(PlannedDays(TokyoCatalog, TokyoTrip, draws));
      Sum(totals) == 0.0 && JsSum(RescaledTotalsAsWritten(totals, TokyoTrip.budget)) == NaN
  {
    var totals := DayTotals(PlannedDays(TokyoCatalog, TokyoTrip, draws));
    TokyoTotalsZero(draws);
    ZeroTotalGivesNaN(totals, 500.0);
  }

  /** The corrected rescale leaves the free days as they are. */
  lemma TokyoCorrectedTotal(id: string, createdAt: string, draws: seq<Draw>)
    requires |draws| == 7 && DrawsValid(draws)
    ensures Generate(TokyoTrip, id, createdAt, draws).totalCost == 0.0
  {
    TokyoBuildTotal(id, createdAt, draws);
    CuratedLookups();
  }

  lemma TokyoBuildTotal(id: string, createdAt: string, draws: seq<Draw>)
    requires |draws| == 7 && DrawsValid(draws)
    ensures NumDays(TokyoTrip) == 7
    ensures Build(TokyoCatalog, TokyoTrip, id, createdAt, draws).totalCost == 0.0
  {
    assert NumDays(TokyoTrip) == 7;
    var planned := PlannedDays(TokyoCatalog, TokyoTrip, draws);
    TokyoTotalsZero(draws);
    assert Build(TokyoCatalog, TokyoTrip, id, createdAt, draws).days == Rescale(planned, 500.0);
  }

  // ---------------------------------------------------------------- a destination with a replacement pattern

  /** The leftmost match in a generic description is "local" at position 7. */
  lemma BrowseLocalMatch()
    ensures FirstMatch("Browse local vendors and artisan shops") == Some(7)
  {
    var s := "Browse local vendors and artisan shops";
    LocalAt(s, 7);
    FirstMatchAfterPlainPrefix(s, 7);
  }

  /** A destination spelled `$&`: the source leaves the description of the
      generic market tour as it was, "local" included, while the literal
      replacement changes it. */
  lemma DollarDestination()
    ensures ReplaceFirstAsWritten("Browse local vendors and artisan shops", "$&") == "Browse local vendors and artisan shops"
    ensures ReplaceFirst("Browse local vendors and artisan shops", "$&") != "Browse local vendors and artisan shops"
  {
    BrowseLocalMatch();
    DollarAmpersandKeepsMatch("Browse local vendors and artisan shops");
  }

  // ---------------------------------------------------------------- requests and ids

  /** The form accepts a fractional trip length: 2.5 days plan two days,
      each with two fifths of the budget rather than a half. */
  lemma FractionalTripLength()
    ensures var r := ParseTripForm(TripFormInput(250.0, 2.5, 2.0, "Rome", ["walking"], ["local"]));
      && r.Success?
      && NumDays(r.value) == 2
      && DailyBudget(r.value) == 100.0
  {
    var f := TripFormInput(250.0, 2.5, 2.0, "Rome", ["walking"], ["local"]);
    assert TripFormValid(f) by {
      assert f.transportModes[0] in TransportModeNames;
      assert f.cuisinePreferences[0] in CuisineNames;
    }
    assert (2.5).Floor == 2;
  }

  /** Destinations that differ only in letter case share the localised ids,
      so an id does not tell "Rome" and "ROME" apart. */
  lemma CaseOnlyDestinationsShareIds(i: nat)
    requires i < 9
    ensures ActivitiesFor("Rome")[i].id == ActivitiesFor("ROME")[i].id
  {
    RomeNormalised();
    assert !HasCurated("Rome") && !HasCurated("ROME");
    assert ActivitiesFor("Rome") == Localise("Rome") && ActivitiesFor("ROME") == Localise("ROME");
  }

  lemma RomeNormalised()
    ensures Normalise("Rome") == "rome" && Normalise("ROME") == "rome"
  {
    assert Lower("Rome") == "rome" && Lower("ROME") == "rome";
    assert NoSpace("rome");
    CollapseSpaceFree("rome");
  }
}
