/** The Bhilai–Durg catalogue (src/lib/bhilai-places.ts): the fifteen places,
    the four category lists cut from them, and the nearest-first ordering. */
module BhilaiPlaces {
  import opened Js
  import opened Places
  import Sorting

  /** `bhilaiPlaces`, in declaration order. */
  const Catalogue: seq<Place> := seq(15, i requires 0 <= i < 15 => CatalogueEntry(i))

  /** The entry at position `i` of `bhilaiPlaces`. */
  function CatalogueEntry(i: nat): Place
    requires i < 15
  {
    match i
    case 0 => Place("deobaloda-mahadev-temple", "Deobaloda Mahadev Temple", Temple, 46, Some(Km(3)))
    case 1 => Place("maitri-bagh-zoo", "Maitri Bagh Zoo & Park", Nature, 44, Some(Km(5)))
    case 2 => Place("chandi-mandir-temple", "Chandi Mandir Temple", Temple, 45, Some(Km(8)))
    case 3 => Place("dholkal-ganesh-temple", "Dholkal Ganesh Temple", Temple, 47, Some(Km(12)))
    case 4 => Place("bambaleshwari-temple", "Bambaleshwari Temple", Temple, 48, Some(Km(40)))
    case 5 => Place("siyadevi-waterfall", "Siyadevi Waterfall & Temple", Nature, 46, Some(Km(30)))
    case 6 => Place("tandula-dam", "Tandula Dam", Nature, 43, Some(Km(60)))
    case 7 => Place("dhamdha-fort", "Dhamdha Fort & Ancient Temples", Historical, 44, Some(Km(35)))
    case 8 => Place("pasharwanath-tirth", "Pasharwanath Tirth", Temple, 47, Some(Km(20)))
    case 9 => Place("uwasaggharam-parshwa-teerth", "Uwasaggharam Parshwa Teerth", Temple, 45, Some(Km(15)))
    case 10 => Place("bhilai-civic-center", "Bhilai Civic Center", ArtCraft, 42, Some(Km(7)))
    case 11 => Place("ganga-maiya-temple", "Ganga Maiya Temple", Temple, 44, Some(Km(18)))
    case 12 => Place("rajiv-lochan-temple", "Shri Rajiv Lochan Mandir", Temple, 46, Some(Km(10)))
    case 13 => Place("kharkhara-dam", "Kharkhara Dam", Nature, 43, Some(Km(50)))
    case _ => Place("bhilai-steel-plant", "Bhilai Steel Plant", Event, 45, Some(Km(6)))
  }

  predicate IsTemple(p: Place) { p.category == Temple }
  predicate IsNature(p: Place) { p.category == Nature }
  predicate IsHistorical(p: Place) { p.category == Historical }
  /** Modern attractions: art and craft venues and event sites. */
  predicate IsAttraction(p: Place) { p.category == ArtCraft || p.category == Event }

  /** `bhilaiTemples`, the temple filter applied to `places` (the export
      applies it to the catalogue). */
  function Temples(places: seq<Place>): (r: seq<Place>)
    ensures forall i :: 0 <= i < |r| ==> r[i] in places && r[i].category == Temple
    ensures forall i :: 0 <= i < |places| && places[i].category == Temple ==> places[i] in r
  {
    Filter(places, IsTemple)
  }

  /** `bhilaiNature` */
  function NatureSpots(places: seq<Place>): (r: seq<Place>)
    ensures forall i :: 0 <= i < |r| ==> r[i] in places && r[i].category == Nature
    ensures forall i :: 0 <= i < |places| && places[i].category == Nature ==> places[i] in r
  {
    Filter(places, IsNature)
  }

  /** `bhilaiHistorical` */
  function HistoricalSites(places: seq<Place>): (r: seq<Place>)
    ensures forall i :: 0 <= i < |r| ==> r[i] in places && r[i].category == Historical
    ensures forall i :: 0 <= i < |places| && places[i].category == Historical ==> places[i] in r
  {
    Filter(places, IsHistorical)
  }

  /** `bhilaiAttractions` */
  function Attractions(places: seq<Place>): (r: seq<Place>)
    ensures forall i :: 0 <= i < |r| ==> r[i] in places && IsAttraction(r[i])
    ensures forall i :: 0 <= i < |places| && IsAttraction(places[i]) ==> places[i] in r
  {
    Filter(places, IsAttraction)
  }

  /** The catalogue only uses the five categories the four lists cover. */
  lemma CatalogueCategories()
    ensures forall i :: 0 <= i < |Catalogue| ==>
      IsTemple(Catalogue[i]) || IsNature(Catalogue[i]) || IsHistorical(Catalogue[i]) || IsAttraction(Catalogue[i])
  {
  }

  /** Every catalogue place is in exactly one of the four lists. */
  lemma CategoryListsPartition(p: Place)
    requires p in Catalogue
    ensures p in Temples(Catalogue) || p in NatureSpots(Catalogue) || p in HistoricalSites(Catalogue) || p in Attractions(Catalogue)
    ensures p in Temples(Catalogue) ==> p !in NatureSpots(Catalogue) && p !in HistoricalSites(Catalogue) && p !in Attractions(Catalogue)
    ensures p in NatureSpots(Catalogue) ==> p !in HistoricalSites(Catalogue) && p !in Attractions(Catalogue)
    ensures p in HistoricalSites(Catalogue) ==> p !in Attractions(Catalogue)
  {
    CatalogueCategories();
    var i :| 0 <= i < |Catalogue| && Catalogue[i] == p;
    assert IsTemple(p) || IsNature(p) || IsHistorical(p) || IsAttraction(p);
    ListMembership(Catalogue, p);
  }

  /** Membership in a list is exactly membership in the catalogue with the
      list's category. */
  lemma ListMembership(places: seq<Place>, p: Place)
    requires p in places
    ensures p in Temples(places) <==> p.category == Temple
    ensures p in NatureSpots(places) <==> p.category == Nature
    ensures p in HistoricalSites(places) <==> p.category == Historical
    ensures p in Attractions(places) <==> IsAttraction(p)
  {
    var i :| 0 <= i < |places| && places[i] == p;
    var t, n, h, a := Temples(places), NatureSpots(places), HistoricalSites(places), Attractions(places);
    assert p in t ==> p.category == Temple by {
      if p in t { var j :| 0 <= j < |t| && t[j] == p; }
    }
    assert p in n ==> p.category == Nature by {
      if p in n { var j :| 0 <= j < |n| && n[j] == p; }
    }
    assert p in h ==> p.category == Historical by {
      if p in h { var j :| 0 <= j < |h| && h[j] == p; }
    }
    assert p in a ==> IsAttraction(p) by {
      if p in a { var j :| 0 <= j < |a| && a[j] == p; }
    }
  }

  /** The sort key of a distance: `parseInt(distance.replace(/\D/g, "") || "0")`,
      the number its digits spell, with a missing distance or one without
      digits counting as 0. */
  function DistanceKey(distance: Option<string>): nat {
    if distance.None? then 0 else DigitsValue(DigitsOf(distance.value))
  }

  /** The key a place sorts by. */
  function PlaceDistance(p: Place): int {
    DistanceKey(p.distance)
  }

  /** The unit text has no digits, so it adds nothing to the key. */
  lemma UnitHasNoDigits()
    ensures DigitsOf(" km") == []
  {
    FilterNone(" km", IsDigit);
  }

  /** A distance of digits followed by " km" sorts by the digits' value. */
  lemma {:induction false} DigitsKm(ds: string)
    requires forall i :: 0 <= i < |ds| ==> IsDigit(ds[i])
    ensures DistanceKey(Some(ds + " km")) == DigitsValue(ds)
  {
    FilterConcat(ds, " km", IsDigit);
    FilterAll(ds, IsDigit);
    UnitHasNoDigits();
    assert DigitsOf(ds + " km") == ds;
  }

  /** A distance of `n` kilometres as the catalogue writes it: "3 km", "60 km". */
  function Km(n: nat): string {
    NatToString(n) + " km"
  }

  /** `Km` spells the distances exactly as the catalogue's string literals. */
  lemma KmSpelling()
    ensures Km(3) == "3 km" && Km(12) == "12 km" && Km(60) == "60 km"
  {
    assert NatToString(12) == NatToString(1) + "2";
    assert NatToString(60) == NatToString(6) + "0";
  }

  /** A whole number of kilometres written out sorts by that number. */
  lemma DistanceKeyOfKm(n: nat)
    ensures DistanceKey(Some(Km(n))) == n
  {
    DigitsKm(NatToString(n));
    NatToStringValue(n);
  }

  /** A missing distance, and one with no digit at all, count as 0. */
  lemma NoDigitsIsZero(d: string)
    requires forall i :: 0 <= i < |d| ==> !IsDigit(d[i])
    ensures DistanceKey(None) == 0 && DistanceKey(Some(d)) == 0
  {
    FilterNone(d, IsDigit);
    assert DigitsOf(d) == [];
  }

  /** The kilometres of each catalogue place, in catalogue order. */
  const CatalogueKm: seq<nat> := [3, 5, 8, 12, 40, 30, 60, 35, 20, 15, 7, 18, 10, 50, 6]

  /** The sort key of the catalogue entry at `i`. */
  lemma EntryKm(i: nat)
    requires i < 15
    ensures PlaceDistance(CatalogueEntry(i)) == CatalogueKm[i]
  {
    assert CatalogueEntry(i).distance == Some(Km(CatalogueKm[i]));
    DistanceKeyOfKm(CatalogueKm[i]);
  }

  /** Each catalogue place sorts by the kilometres in its distance. */
  lemma CatalogueDistances()
    ensures forall i :: 0 <= i < |Catalogue| ==> PlaceDistance(Catalogue[i]) == CatalogueKm[i]
  {
    forall i | 0 <= i < |Catalogue|
      ensures PlaceDistance(Catalogue[i]) == CatalogueKm[i]
    {
      EntryKm(i);
    }
  }

  /** `getBhilaiPlacesByDistance`: a stably sorted copy of `places`, nearest
      first (the export sorts a copy of the catalogue, which stays as it is). */
  function PlacesByDistance(places: seq<Place>): (r: seq<Place>)
    ensures multiset(r) == multiset(places) && |r| == |places|
    ensures forall i, j :: 0 <= i < j < |r| ==> PlaceDistance(r[i]) <= PlaceDistance(r[j])
  {
    Sorting.SortBy(places, PlaceDistance)
  }

  /** Where an element of `a` sits in a permutation `b` of it. */
  lemma IndexIn<T>(a: seq<T>, b: seq<T>, i: nat) returns (k: nat)
    requires multiset(a) == multiset(b) && i < |a|
    ensures k < |b| && b[k] == a[i]
  {
    assert a[i] in multiset(b);
    k :| 0 <= k < |b| && b[k] == a[i];
  }

  lemma KmAt(j: nat)
    requires j < |Catalogue|
    ensures PlaceDistance(Catalogue[j]) == CatalogueKm[j]
  {
    EntryKm(j);
  }

  /** Any ordering of the catalogue by distance starts with Deobaloda (3 km). */
  lemma NearestFirst(r: seq<Place>)
    requires multiset(r) == multiset(Catalogue)
    requires forall i, j :: 0 <= i < j < |r| ==> PlaceDistance(r[i]) <= PlaceDistance(r[j])
    ensures |r| > 0 && r[0] == Catalogue[0] && r[0].id == "deobaloda-mahadev-temple"
  {
    var k := IndexIn(Catalogue, r, 0);
    var j := IndexIn(r, Catalogue, 0);
    KmAt(j);
    KmAt(0);
    assert k == 0 || PlaceDistance(r[0]) <= PlaceDistance(r[k]);
    NearestKm(j);
  }

  lemma NearestKm(j: nat)
    requires j < |CatalogueKm| && CatalogueKm[j] <= CatalogueKm[0]
    ensures j == 0
  {
  }

  /** Any ordering of the catalogue by distance ends with Tandula Dam (60 km). */
  lemma FarthestLast(r: seq<Place>)
    requires multiset(r) == multiset(Catalogue)
    requires forall i, j :: 0 <= i < j < |r| ==> PlaceDistance(r[i]) <= PlaceDistance(r[j])
    ensures |r| > 0 && r[|r| - 1] == Catalogue[6] && r[|r| - 1].id == "tandula-dam"
  {
    var k := IndexIn(Catalogue, r, 6);
    var n := |r| - 1;
    var j := IndexIn(r, Catalogue, n);
    KmAt(j);
    KmAt(6);
    assert k == n || PlaceDistance(r[k]) <= PlaceDistance(r[n]);
    FarthestKm(j);
  }

  lemma FarthestKm(j: nat)
    requires j < |CatalogueKm| && CatalogueKm[j] >= CatalogueKm[6]
    ensures j == 6
  {
  }

  /** `getBhilaiPlacesByDistance()` on the shipped catalogue: Deobaloda first,
      Tandula Dam last. */
  lemma ShippedOrder()
    ensures PlacesByDistance(Catalogue)[0].id == "deobaloda-mahadev-temple"
    ensures PlacesByDistance(Catalogue)[|Catalogue| - 1].id == "tandula-dam"
  {
    NearestFirst(PlacesByDistance(Catalogue));
    FarthestLast(PlacesByDistance(Catalogue));
  }
}
