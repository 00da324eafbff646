/** The chunked "Nearby Tours" feed of
    src/components/home/ChunkedNearbyFeed.tsx: a category filter over a
    fixed list and "load more" pagination in chunks of two. The two timers
    of the component are separate steps (`FinishInitialLoad`,
    `FinishLoadMore`), each reading the state current when it fires. */
module NearbyFeed {
  import opened Js

  /** A feed card; image, rating, location, distance and description are
      display-only and not modelled. */
  datatype NearbyItem = NearbyItem(id: string, category: string, title: string)

  /** `INITIAL_ITEMS` */
  const InitialItems: nat := 2
  /** `CHUNK_SIZE` */
  const ChunkSize: nat := 2

  /** The `i`-th entry of `allNearbyItems`. */
  function ItemAt(i: nat): NearbyItem {
    match i
    case 0 => NearbyItem("1", "Temple", "Danteshwari Temple")
    case 1 => NearbyItem("2", "Nature", "Kanger Valley National Park")
    case 2 => NearbyItem("3", "Food", "Tribal Kitchen")
    case 3 => NearbyItem("4", "Museum", "Anthropological Museum")
    case 4 => NearbyItem("5", "Nature", "Tirathgarh Falls")
    case _ => NearbyItem("6", "Nature", "Kutumsar Cave")
  }

  /** `allNearbyItems` */
  const AllNearbyItems: seq<NearbyItem> := seq(6, i requires 0 <= i < 6 => ItemAt(i))

  /** The ids of the category chips. */
  const CategoryIds: seq<string> := ["all", "Temple", "Nature", "Food", "Museum", "Heritage"]

  /** Whether an item is listed under a chip: every item under "all",
      otherwise exact (case-sensitive) equality of the category. */
  predicate ListedUnder(category: string, item: NearbyItem) {
    category == "all" || item.category == category
  }

  /** The test `item.category === activeCategory`. */
  function OfCategory(category: string): NearbyItem -> bool {
    (item: NearbyItem) => item.category == category
  }

  /** `ListedUnder` as a test on items. */
  function Listed(category: string): NearbyItem -> bool {
    (item: NearbyItem) => ListedUnder(category, item)
  }

  /** `filteredItems` */
  function FilteredItems(items: seq<NearbyItem>, category: string): (r: seq<NearbyItem>)
    ensures |r| <= |items|
    ensures forall i :: 0 <= i < |r| ==> r[i] in items && ListedUnder(category, r[i])
    ensures forall i :: 0 <= i < |items| && ListedUnder(category, items[i]) ==> items[i] in r
  {
    if category == "all" then items else Filter(items, OfCategory(category))
  }

  /** `filteredItems` is the order-preserving selection of the listed items. */
  lemma FilteredIsSelection(items: seq<NearbyItem>, category: string)
    ensures FilteredItems(items, category) == Filter(items, Listed(category))
  {
    if category == "all" {
      FilterAll(items, Listed(category));
    } else {
      SameSelection(items, OfCategory(category), Listed(category));
    }
  }

  lemma {:induction false} SameSelection(items: seq<NearbyItem>, f: NearbyItem -> bool, g: NearbyItem -> bool)
    requires forall x :: f(x) == g(x)
    ensures Filter(items, f) == Filter(items, g)
    decreases |items|
  {
    if items != [] {
      SameSelection(items[1..], f, g);
    }
  }

  /** "all" lists all six cards; the "Heritage" chip, which no card carries, lists none. */
  lemma HeritageListsNothing()
    ensures |FilteredItems(AllNearbyItems, "all")| == 6
    ensures FilteredItems(AllNearbyItems, "Heritage") == []
  {
    var all := AllNearbyItems;
    forall i | 0 <= i < |all| ensures !OfCategory("Heritage")(all[i]) {
      assert all[i] == ItemAt(i);
    }
    FilterNone(all, OfCategory("Heritage"));
  }

  /** `xs` is an initial run of `ys`. */
  predicate IsPrefix(xs: seq<NearbyItem>, ys: seq<NearbyItem>) {
    |xs| <= |ys| && xs == ys[..|xs|]
  }

  function Min(a: int, b: int): int { if a < b then a else b }

  /** The component's state. The shown cards are always an initial run of
      the filtered list. */
  class Feed {
    const items: seq<NearbyItem>
    var activeCategory: string
    var displayed: seq<NearbyItem>
    var isLoading: bool
    var loadingMore: bool

    ghost predicate Valid()
      reads this
    {
      IsPrefix(displayed, Filtered())
    }

    /** `filteredItems` for the active chip. */
    function Filtered(): seq<NearbyItem>
      reads this
    {
      FilteredItems(items, activeCategory)
    }

    /** `hasMore` */
    function HasMore(): (b: bool)
      reads this
      ensures b <==> |displayed| < |Filtered()|
    {
      |displayed| < |Filtered()|
    }

    /** `remainingCount`: how many loading placeholders are shown. */
    function RemainingCount(): (n: int)
      reads this
      ensures n <= ChunkSize
      ensures n > 0 <==> HasMore()
    {
      Min(ChunkSize, |Filtered()| - |displayed|)
    }

    /** The count printed on the "Load More" button. */
    function RemainingLabel(): (n: int)
      reads this
      ensures n > 0 <==> HasMore()
      ensures HasMore() ==> RemainingCount() <= n
    {
      |Filtered()| - |displayed|
    }

    /** Mount: the "all" chip, nothing shown, the initial load pending. */
    constructor ()
      ensures Valid()
      ensures items == AllNearbyItems && activeCategory == "all"
      ensures displayed == [] && isLoading && !loadingMore
    {
      items := AllNearbyItems;
      activeCategory := "all";
      displayed := [];
      isLoading := true;
      loadingMore := false;
    }

    /** A chip click. Choosing another chip reruns the load effect: the
        list empties and the initial load starts again. Clicking the
        active chip changes nothing. */
    method SelectCategory(category: string)
      requires Valid()
      modifies this
      ensures Valid()
      ensures activeCategory == category && loadingMore == old(loadingMore)
      ensures category == old(activeCategory) ==> displayed == old(displayed) && isLoading == old(isLoading)
      ensures category != old(activeCategory) ==> displayed == [] && isLoading
    {
      if category != activeCategory {
        activeCategory := category;
        isLoading := true;
        displayed := [];
      }
    }

    /** The initial-load timer firing: the first two filtered cards. */
    method FinishInitialLoad()
      requires Valid()
      modifies this
      ensures Valid()
      ensures displayed == Filtered()[..Min(InitialItems, |Filtered()|)]
      ensures !isLoading && activeCategory == old(activeCategory) && loadingMore == old(loadingMore)
    {
      var filtered := FilteredItems(items, activeCategory);
      displayed := Slice(filtered, 0, InitialItems);
      isLoading := false;
    }

    /** `loadMoreItems`: ignored while a load is pending or when every
        card is shown; otherwise a load starts. */
    method LoadMoreItems() returns (started: bool)
      requires Valid()
      modifies this
      ensures Valid()
      ensures started <==> !old(loadingMore) && old(HasMore())
      ensures loadingMore == (old(loadingMore) || started)
      ensures displayed == old(displayed) && activeCategory == old(activeCategory) && isLoading == old(isLoading)
    {
      if loadingMore || !HasMore() {
        return false;
      }
      loadingMore := true;
      started := true;
    }

    /** The load-more timer firing: the next chunk of filtered cards is
        appended, exactly as many as placeholders were shown. */
    method FinishLoadMore()
      requires Valid()
      modifies this
      ensures Valid()
      ensures |displayed| == old(|displayed|) + old(RemainingCount())
      ensures old(displayed) == displayed[..old(|displayed|)]
      ensures !loadingMore && activeCategory == old(activeCategory) && isLoading == old(isLoading)
    {
      var filtered := FilteredItems(items, activeCategory);
      var currentCount := |displayed|;
      var nextItems := Slice(filtered, currentCount, currentCount + ChunkSize);
      assert nextItems == filtered[currentCount..Min(currentCount + ChunkSize, |filtered|)];
      displayed := displayed + nextItems;
      loadingMore := false;
    }
  }

  /** The placeholder count is never more than a chunk and, while there is
      more to load, is at least one and at most the number on the button. */
  lemma RemainingCountBounds(filtered: nat, shown: nat)
    ensures Min(ChunkSize, filtered - shown) <= ChunkSize
    ensures shown < filtered ==> 1 <= Min(ChunkSize, filtered - shown) <= filtered - shown
    ensures shown == filtered ==> Min(ChunkSize, filtered - shown) == 0
  {
  }

  /** The number of cards shown after the initial load and `loads` more
      loads of a list of `n` filtered cards. */
  function ShownAfter(n: nat, loads: nat): (r: nat)
    ensures r <= n
  {
    if loads == 0 then Min(InitialItems, n) else Min(ChunkSize, n - ShownAfter(n, loads - 1)) + ShownAfter(n, loads - 1)
  }

  /** Every card is reachable: `loads` loads show `min(n, 2 + 2 * loads)` cards. */
  lemma {:induction false} ShownAfterLoads(n: nat, loads: nat)
    ensures ShownAfter(n, loads) == Min(n, InitialItems + ChunkSize * loads)
  {
    if loads > 0 {
      ShownAfterLoads(n, loads - 1);
    }
  }
}
