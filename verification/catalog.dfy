/** `getActivitiesForDestination`: an exact, case-sensitive lookup into the
    curated catalogs, and otherwise a copy of the generic catalog localised
    to the destination (id prefix, location, one phrase of the description). */
module Catalog {
  import opened Wrappers
  import opened Schema
  import opened Text
  import opened CatalogData

  /** The curated catalogs, looked up by destination name. */
  function Curated(dest: string): Option<seq<Activity>>
  {
    if dest == "Hawaii" then Some(HawaiiCatalog)
    else if dest == "Paris" then Some(ParisCatalog)
    else if dest == "Iceland" then Some(IcelandCatalog)
    else if dest == "Tokyo" then Some(TokyoCatalog)
    else if dest == "New York" then Some(NewYorkCatalog)
    else None
  }

  predicate IsPrefix(p: string, s: string)
  {
    |p| <= |s| && s[..|p|] == p
  }

  /** The location of a localised entry: the destination itself for
      "Various Locations", otherwise the destination, a space and the generic
      location (a missing location renders as "undefined" in the template). */
  function LocaliseLocation(location: Option<string>, dest: string): (r: string)
    ensures IsPrefix(dest, r)
    ensures location == Some("Various Locations") ==> r == dest
    ensures location.Some? && location.value != "Various Locations" ==> r == dest + " " + location.value
  {
    match location
    case Some(l) => if l == "Various Locations" then dest else dest + " " + l
    case None => dest + " undefined"
  }

  /** One generic entry localised to `dest`; every other field is kept. The
      description uses the literal replacement, which is what JavaScript's
      `replace` does for every destination without a `$`. */
  function LocaliseEntry(g: Activity, dest: string): (r: Activity)
    ensures r.name == g.name && r.cost == g.cost && r.duration == g.duration
    ensures r.category == g.category && r.subcategory == g.subcategory
    ensures r.rating == g.rating && r.imageUrl == g.imageUrl
    ensures IsPrefix(Normalise(dest) + "_", r.id) && r.id[|Normalise(dest)| + 1..] == g.id
    ensures r.location.Some? && IsPrefix(dest, r.location.value)
    ensures '$' !in dest ==> r.description == ReplaceFirstAsWritten(g.description, dest)
  {
    assert '$' !in dest ==> ReplaceFirst(g.description, dest) == ReplaceFirstAsWritten(g.description, dest) by {
      if '$' !in dest {
        ReplaceFirstAgrees(g.description, dest);
      }
    }
    g.(id := Normalise(dest) + "_" + g.id,
       description := ReplaceFirst(g.description, dest),
       location := Some(LocaliseLocation(g.location, dest)))
  }

  function Localise(dest: string): (r: seq<Activity>)
    ensures |r| == |GenericCatalog|
  {
    seq(|GenericCatalog|, i requires 0 <= i < |GenericCatalog| => LocaliseEntry(GenericCatalog[i], dest))
  }

  predicate HasCurated(dest: string)
  {
    Curated(dest).Some? && |Curated(dest).value| > 0
  }

  /** The catalog for `dest`. Never empty, and long enough for the
      generator's fallback positions 0, 1 and 2. */
  function ActivitiesFor(dest: string): (r: seq<Activity>)
    ensures |r| >= 6
    ensures HasCurated(dest) ==> r == Curated(dest).value
    ensures !HasCurated(dest) ==> |r| == 9
    ensures !HasCurated(dest) ==> forall i :: 0 <= i < |r| ==> IsPrefix(Normalise(dest) + "_", r[i].id)
    ensures !HasCurated(dest) ==> forall i :: 0 <= i < |r| ==> r[i].location.Some? && IsPrefix(dest, r[i].location.value)
  {
    if HasCurated(dest) then Curated(dest).value else Localise(dest)
  }

  /** Exactly the five names, spelled exactly, select a curated catalog. */
  lemma CuratedKeys(dest: string)
    ensures HasCurated(dest) <==> dest in {"Hawaii", "Paris", "Iceland", "Tokyo", "New York"}
  {
  }

  /** Each curated name selects its own catalog verbatim. */
  lemma CuratedLookups()
    ensures ActivitiesFor("Hawaii") == HawaiiCatalog && ActivitiesFor("Paris") == ParisCatalog
    ensures ActivitiesFor("Iceland") == IcelandCatalog && ActivitiesFor("Tokyo") == TokyoCatalog
    ensures ActivitiesFor("New York") == NewYorkCatalog
  {
  }

  /** A localised entry differs from its generic original only in id,
      description and location; the id is the normalised destination, `_`,
      and the generic id; the description has at most its leftmost
      "the area"/"local" replaced by the destination. */
  lemma FallbackEntry(dest: string, i: nat)
    requires !HasCurated(dest) && i < |GenericCatalog|
    ensures var a, g := ActivitiesFor(dest)[i], GenericCatalog[i];
      && a.id == Normalise(dest) + "_" + g.id
      && a.name == g.name && a.cost == g.cost && a.duration == g.duration
      && a.category == g.category && a.subcategory == g.subcategory
      && a.rating == g.rating && a.imageUrl == g.imageUrl
      && (FirstMatch(g.description).None? ==> a.description == g.description)
      && (FirstMatch(g.description).Some? ==>
            var k := FirstMatch(g.description).value;
            a.description == g.description[..k] + dest + g.description[k + MatchLength(g.description, k)..])
      && (g.location == Some("Various Locations") ==> a.location == Some(dest))
      && (g.location.Some? && g.location.value != "Various Locations" ==> a.location == Some(dest + " " + g.location.value))
    ensures '$' !in dest ==> ActivitiesFor(dest)[i].description == ReplaceFirstAsWritten(GenericCatalog[i].description, dest)
  {
    if '$' !in dest {
      ReplaceFirstAgrees(GenericCatalog[i].description, dest);
    }
  }

  /** Localising keeps distinct generic ids distinct. */
  lemma FallbackIdsDistinct(dest: string)
    requires !HasCurated(dest)
    ensures forall i, j :: 0 <= i < j < |ActivitiesFor(dest)| ==> ActivitiesFor(dest)[i].id != ActivitiesFor(dest)[j].id
  {
    LocalisedIdsDistinct(dest);
    assert ActivitiesFor(dest) == Localise(dest);
  }

  lemma {:induction false} LocalisedIdsDistinct(dest: string)
    ensures forall i, j :: 0 <= i < j < |Localise(dest)| ==> Localise(dest)[i].id != Localise(dest)[j].id
  {
    var r := Localise(dest);
    var p := Normalise(dest) + "_";
    GenericIdsDistinct();
    forall i, j | 0 <= i < j < |r| ensures r[i].id != r[j].id {
      var gi, gj := GenericCatalog[i].id, GenericCatalog[j].id;
      assert r[i].id == p + gi && r[j].id == p + gj;
      assert (p + gi)[|p|..] == gi;
      assert (p + gj)[|p|..] == gj;
    }
  }

  lemma GenericIdsDistinct()
    ensures forall i, j :: 0 <= i < j < |GenericCatalog| ==> GenericCatalog[i].id != GenericCatalog[j].id
  {
  }

  /** Every entry passes `activitySchema`, costs nothing negative and lasts
      a positive time. */
  predicate WellFormed(catalog: seq<Activity>)
  {
    forall i :: 0 <= i < |catalog| ==>
      ActivityValid(catalog[i]) && catalog[i].cost >= 0.0 && catalog[i].duration > 0.0
  }

  lemma HawaiiWellFormed()
    ensures WellFormed(HawaiiCatalog)
  {
  }

  lemma ParisWellFormed()
    ensures WellFormed(ParisCatalog)
  {
  }

  lemma IcelandWellFormed()
    ensures WellFormed(IcelandCatalog)
  {
  }

  lemma TokyoWellFormed()
    ensures WellFormed(TokyoCatalog)
  {
  }

  lemma NewYorkWellFormed()
    ensures WellFormed(NewYorkCatalog)
  {
  }

  lemma GenericWellFormed()
    ensures WellFormed(GenericCatalog)
  {
  }

  /** Every catalog, curated or localised, is well formed: localising
      touches none of the checked fields. */
  lemma CatalogWellFormed(dest: string)
    ensures WellFormed(ActivitiesFor(dest))
  {
    if HasCurated(dest) {
      CuratedWellFormed(dest);
    } else {
      LocalisedWellFormed(dest);
    }
  }

  lemma CuratedWellFormed(dest: string)
    requires HasCurated(dest)
    ensures WellFormed(Curated(dest).value)
  {
    HawaiiWellFormed();
    ParisWellFormed();
    IcelandWellFormed();
    TokyoWellFormed();
    NewYorkWellFormed();
  }

  lemma LocalisedWellFormed(dest: string)
    ensures WellFormed(Localise(dest))
  {
    GenericWellFormed();
    var r := Localise(dest);
    forall i | 0 <= i < |r| ensures ActivityValid(r[i]) && r[i].cost >= 0.0 && r[i].duration > 0.0 {
      assert r[i] == LocaliseEntry(GenericCatalog[i], dest);
    }
  }
}
