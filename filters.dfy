/** Category filtering, counting, display names and rating order
    (src/lib/filters.ts). */
module Filters {
  import opened Js
  import opened Places
  import Sorting

  /** The filter ids the category map knows, in declaration order. */
  const FilterIds: seq<string> := ["all", "temples", "tribal", "food", "nature", "historical", "trending"]

  /** `mapFilterToCategories`: the categories a filter id stands for; `"all"`
      and `"trending"` map to the empty list, an unknown id to null. */
  function MapFilterToCategories(filterId: string): (r: Option<seq<Category>>)
    ensures r.Some? <==> filterId in FilterIds
  {
    if filterId == "all" then Some([])
    else if filterId == "temples" then Some([Temple])
    else if filterId == "tribal" then Some([Tribal])
    else if filterId == "food" then Some([Food])
    else if filterId == "nature" then Some([Nature, Waterfalls])
    else if filterId == "historical" then Some([Historical, Heritage])
    else if filterId == "trending" then Some([])
    else None
  }

  /** Trending places: a rating of at least 4.5. */
  predicate IsTrending(p: Place) {
    p.rating >= 45
  }

  /** `filterPlacesByCategory` */
  function FilterPlacesByCategory(places: seq<Place>, filterId: string): (r: seq<Place>)
    ensures |r| <= |places|
  {
    if filterId == "all" then places
    else if filterId == "trending" then Filter(places, IsTrending)
    else
      var categories := MapFilterToCategories(filterId);
      if categories.None? || categories.value == [] then places
      else Filter(places, (p: Place) => p.category in categories.value)
  }

  /** Which places a filter id admits, stated id by id: the reference the
      filter is checked against. Unknown ids admit everything; this
      includes the names of `Object.prototype` members, for which the
      source's filter throws instead on a non-empty list. */
  predicate Admits(filterId: string, p: Place) {
    match filterId
    case "trending" => p.rating >= 45
    case "temples" => p.category == Temple
    case "tribal" => p.category == Tribal
    case "food" => p.category == Food
    case "nature" => p.category == Nature || p.category == Waterfalls
    case "historical" => p.category == Historical || p.category == Heritage
    case _ => true
  }

  /** Every filter is the order-preserving selection of the places it admits:
      "all" and unknown ids keep the list as it is, "trending" keeps ratings
      of 4.5 and up, and the category ids keep their categories, with
      "nature" taking in waterfalls and "historical" heritage sites. */
  lemma FilterIsSelection(places: seq<Place>, filterId: string)
    ensures FilterPlacesByCategory(places, filterId) == Filter(places, (p: Place) => Admits(filterId, p))
  {
    var admits := (p: Place) => Admits(filterId, p);
    if filterId !in FilterIds || filterId == "all" {
      FilterAll(places, admits);
    } else if filterId != "trending" {
      var cats := MapFilterToCategories(filterId).value;
      FilterSameTest(places, (p: Place) => p.category in cats, admits);
    } else {
      FilterSameTest(places, IsTrending, admits);
    }
  }

  /** Two tests that agree on every element select the same elements. */
  lemma {:induction false} FilterSameTest(places: seq<Place>, f: Place -> bool, g: Place -> bool)
    requires forall p :: f(p) == g(p)
    ensures Filter(places, f) == Filter(places, g)
    decreases |places|
  {
    if places != [] {
      FilterSameTest(places[1..], f, g);
    }
  }

  /** `getCategoryCount` */
  function GetCategoryCount(places: seq<Place>, filterId: string): (n: nat)
    ensures n <= |places|
    ensures filterId == "all" ==> n == |places|
  {
    |FilterPlacesByCategory(places, filterId)|
  }

  /** `hasFilterResults`: true exactly when some place passes the filter. */
  function HasFilterResults(places: seq<Place>, filterId: string): (b: bool)
    ensures b <==> exists i :: 0 <= i < |places| && Admits(filterId, places[i])
  {
    FilterIsSelection(places, filterId);
    var r := Filter(places, (p: Place) => Admits(filterId, p));
    assert r != [] ==> Admits(filterId, r[0]) && r[0] in places;
    GetCategoryCount(places, filterId) > 0
  }

  /** `getCategoryDisplayName`: the heading for a known filter id, and the id
      itself for any other. */
  function GetCategoryDisplayName(filterId: string): (r: string)
    ensures filterId !in FilterIds ==> r == filterId
    ensures filterId in FilterIds ==> r != [] && r != filterId
  {
    match filterId
    case "all" => "All Places"
    case "temples" => "Temples"
    case "tribal" => "Tribal Art & Culture"
    case "food" => "Food & Cuisine"
    case "nature" => "Nature & Waterfalls"
    case "historical" => "Historical Sites"
    case "trending" => "Trending Now"
    case _ => filterId
  }

  /** The comparator `(b.rating || 0) - (a.rating || 0)` orders by this key ascending. */
  function NegRating(p: Place): int {
    -(p.rating as int)
  }

  /** `sortPlacesByRating`: a stably sorted copy, highest rating first. */
  function SortPlacesByRating(places: seq<Place>): (r: seq<Place>)
    ensures multiset(r) == multiset(places)
    ensures forall i, j :: 0 <= i < j < |r| ==> r[i].rating >= r[j].rating
    ensures forall k :: Sorting.WithKey(r, NegRating, k) == Sorting.WithKey(places, NegRating, k)
  {
    var r := Sorting.SortBy(places, NegRating);
    assert forall k :: Sorting.WithKey(r, NegRating, k) == Sorting.WithKey(places, NegRating, k) by {
      forall k {
        Sorting.SortByStable(places, NegRating, k);
      }
    }
    assert forall i, j :: 0 <= i < j < |r| ==> NegRating(r[i]) <= NegRating(r[j]);
    r
  }

  /** Sorting a list already in rating order gives it back unchanged. */
  lemma SortByRatingKeepsOrdered(places: seq<Place>)
    requires forall i, j :: 0 <= i < j < |places| ==> places[i].rating >= places[j].rating
    ensures SortPlacesByRating(places) == places
  {
    Sorting.SortBySorted(places, NegRating);
  }
}
