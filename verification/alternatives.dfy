/** `getSwapAlternatives` and the route that calls it: the catalog entries of
    the same category whose cost lies within 10% and whose duration lies
    within 15% of the current activity's, other than the current activity,
    at most five, in catalog order. */
module Alternatives {
  import opened Schema
  import opened JsMath
  import opened Seqs
  import opened Catalog
  import opened CatalogData

  const MaxAlternatives: nat := 5

  /** `Math.abs(x - ref) / ref <= tol` under JavaScript division: a zero
      `ref` gives NaN or Infinity, which fail the comparison, and a negative
      `ref` gives a non-positive quotient, which always passes it. */
  predicate RelativeDiffWithin(x: real, ref: real, tol: real): (r: bool)
    ensures ref == 0.0 ==> !r
    ensures ref < 0.0 && tol >= 0.0 ==> r
  {
    if ref > 0.0 then Abs(x - ref) / ref <= tol
    else if ref == 0.0 then false
    else tol >= 0.0
  }

  /** For a positive reference the relative test is the usual tolerance band. */
  lemma RelativeDiffBand(x: real, ref: real, tol: real)
    requires ref > 0.0
    ensures RelativeDiffWithin(x, ref, tol) <==> ref - tol * ref <= x <= ref + tol * ref
  {
    assert Abs(x - ref) / ref <= tol <==> Abs(x - ref) <= tol * ref;
  }

  /** The filter applied to each catalog entry `a`. */
  predicate Matches(cur: Activity, a: Activity): (r: bool)
    ensures r ==> a.id != cur.id && a.category == cur.category
    ensures cur.cost > 0.0 && cur.duration > 0.0 ==> (r <==>
      && a.id != cur.id && a.category == cur.category
      && cur.cost - 0.1 * cur.cost <= a.cost <= cur.cost + 0.1 * cur.cost
      && cur.duration - 0.15 * cur.duration <= a.duration <= cur.duration + 0.15 * cur.duration)
  {
    assert cur.cost > 0.0 && cur.duration > 0.0 ==>
      && (RelativeDiffWithin(a.cost, cur.cost, 0.1) <==> cur.cost - 0.1 * cur.cost <= a.cost <= cur.cost + 0.1 * cur.cost)
      && (RelativeDiffWithin(a.duration, cur.duration, 0.15) <==> cur.duration - 0.15 * cur.duration <= a.duration <= cur.duration + 0.15 * cur.duration)
    by {
      if cur.cost > 0.0 && cur.duration > 0.0 {
        RelativeDiffBand(a.cost, cur.cost, 0.1);
        RelativeDiffBand(a.duration, cur.duration, 0.15);
      }
    }
    && a.id != cur.id
    && a.category == cur.category
    && RelativeDiffWithin(a.cost, cur.cost, 0.1)
    && RelativeDiffWithin(a.duration, cur.duration, 0.15)
  }

  /** The filter as a function value. */
  function MatchesOf(cur: Activity): Activity -> bool
  {
    a => Matches(cur, a)
  }

  /** How many entries before position `k` pass the filter. */
  function MatchesBefore(catalog: seq<Activity>, cur: Activity, k: nat): nat
    requires k <= |catalog|
  {
    |Filter(catalog[..k], MatchesOf(cur))|
  }

  /** The alternatives to `cur` within `catalog`. */
  function AlternativesIn(catalog: seq<Activity>, cur: Activity): (r: seq<Activity>)
    ensures |r| <= MaxAlternatives
    ensures forall a :: a in r ==> a in catalog && Matches(cur, a)
    ensures |r| < MaxAlternatives ==> forall a :: a in catalog && Matches(cur, a) ==> a in r
    ensures forall k :: 0 <= k < |catalog| && Matches(cur, catalog[k]) && MatchesBefore(catalog, cur, k) < MaxAlternatives ==>
      catalog[k] in r
    ensures cur.cost > 0.0 && cur.duration > 0.0 ==> forall a :: a in r ==>
      && a.id != cur.id && a.category == cur.category
      && Abs(a.cost - cur.cost) <= 0.1 * cur.cost
      && Abs(a.duration - cur.duration) <= 0.15 * cur.duration
  {
    var matching := Filter(catalog, MatchesOf(cur));
    var r := Take(matching, MaxAlternatives);
    assert forall a :: a in r ==> a in matching;
    assert |r| < MaxAlternatives ==> r == matching;
    forall k | 0 <= k < |catalog| && Matches(cur, catalog[k]) && MatchesBefore(catalog, cur, k) < MaxAlternatives
      ensures catalog[k] in r
    {
      FilterPosition(catalog, MatchesOf(cur), k);
      assert r[MatchesBefore(catalog, cur, k)] == catalog[k];
    }
    forall a | a in r && cur.cost > 0.0 && cur.duration > 0.0
      ensures Abs(a.cost - cur.cost) <= 0.1 * cur.cost && Abs(a.duration - cur.duration) <= 0.15 * cur.duration
    {
      RelativeDiffBand(a.cost, cur.cost, 0.1);
      RelativeDiffBand(a.duration, cur.duration, 0.15);
    }
    r
  }

  /** `getSwapAlternatives(cur, dest)`. */
  function SwapAlternatives(cur: Activity, dest: string): (r: seq<Activity>)
    ensures |r| <= MaxAlternatives
    ensures forall a :: a in r ==> a in ActivitiesFor(dest) && Matches(cur, a)
    ensures |r| < MaxAlternatives ==> forall a :: a in ActivitiesFor(dest) && Matches(cur, a) ==> a in r
    ensures forall k :: 0 <= k < |ActivitiesFor(dest)| && Matches(cur, ActivitiesFor(dest)[k]) && MatchesBefore(ActivitiesFor(dest), cur, k) < MaxAlternatives ==>
      ActivitiesFor(dest)[k] in r
    ensures cur.cost > 0.0 && cur.duration > 0.0 ==> forall a :: a in r ==>
      && a.id != cur.id && a.category == cur.category
      && Abs(a.cost - cur.cost) <= 0.1 * cur.cost
      && Abs(a.duration - cur.duration) <= 0.15 * cur.duration
  {
    AlternativesIn(ActivitiesFor(dest), cur)
  }

  /** The alternatives keep catalog order: they are the first entries of the
      order-preserving filter, hence a subsequence of the catalog. */
  lemma AlternativesKeepOrder(cur: Activity, dest: string)
    ensures IsSubsequence(SwapAlternatives(cur, dest), ActivitiesFor(dest))
  {
    AlternativesInOrder(ActivitiesFor(dest), cur);
  }

  lemma AlternativesInOrder(catalog: seq<Activity>, cur: Activity)
    ensures IsSubsequence(AlternativesIn(catalog, cur), catalog)
  {
    var matching := Filter(catalog, MatchesOf(cur));
    FilterIsSubsequence(catalog, MatchesOf(cur));
    var r := AlternativesIn(catalog, cur);
    assert r == matching[..|r|];
    PrefixOfSubsequence(matching, catalog, |r|);
  }

  /** An entry that is the only one to pass the filter is the one alternative. */
  lemma SingleAlternative(catalog: seq<Activity>, cur: Activity, k: nat)
    requires k < |catalog| && Matches(cur, catalog[k])
    requires forall i :: 0 <= i < |catalog| && i != k ==> !Matches(cur, catalog[i])
    ensures AlternativesIn(catalog, cur) == [catalog[k]]
  {
    FilterUnique(catalog, MatchesOf(cur), k);
  }

  /** A free or instantaneous current activity has no alternatives: every
      relative difference is NaN or Infinity. */
  lemma ZeroReferenceNoAlternatives(cur: Activity, dest: string)
    requires cur.cost == 0.0 || cur.duration == 0.0
    ensures SwapAlternatives(cur, dest) == []
  {
    var catalog := ActivitiesFor(dest);
    FilterNoneAccepted(catalog, MatchesOf(cur));
  }

  /** A negative current cost switches the cost test off. */
  lemma NegativeCostIgnoresCost(cur: Activity, a: Activity)
    requires cur.cost < 0.0
    ensures Matches(cur, a) <==>
      a.id != cur.id && a.category == cur.category && RelativeDiffWithin(a.duration, cur.duration, 0.15)
  {
  }

  /** The `/api/trip/swap-alternatives` route always searches the Hawaii
      catalog, whatever the itinerary's destination. */
  function AlternativesRoute(req: SwapRequest): (r: seq<Activity>)
    ensures |r| <= MaxAlternatives
    ensures forall a :: a in r ==> a in HawaiiCatalog && Matches(req.currentActivity, a)
    ensures r == AlternativesIn(HawaiiCatalog, req.currentActivity)
    ensures |r| < MaxAlternatives ==> forall a :: a in HawaiiCatalog && Matches(req.currentActivity, a) ==> a in r
    ensures forall k :: 0 <= k < |HawaiiCatalog| && Matches(req.currentActivity, HawaiiCatalog[k]) && MatchesBefore(HawaiiCatalog, req.currentActivity, k) < MaxAlternatives ==>
      HawaiiCatalog[k] in r
  {
    assert HasCurated("Hawaii");
    SwapAlternatives(req.currentActivity, "Hawaii")
  }
}
