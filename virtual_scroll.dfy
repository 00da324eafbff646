/** The windowing arithmetic of src/components/ui/VirtualScroll.tsx: which
    slice of a long list is rendered for a scroll position, where it is
    placed, and when the end-of-list callback fires. Pixel quantities are
    integers; the item size must be positive. */
module VirtualScrolling {
  import opened Js

  /** Default `overscan` of the vertical component. */
  const VerticalOverscan: int := 3
  /** Default `endReachedThreshold`, in pixels. */
  const EndReachedThreshold: int := 200
  /** Default `overscan` of the horizontal hook. */
  const HorizontalOverscan: int := 2

  /** `Math.floor(a / b)` for a positive divisor. */
  function FloorDiv(a: int, b: int): (q: int)
    requires b > 0
    ensures q * b <= a < (q + 1) * b
  {
    a / b
  }

  /** `Math.ceil(a / b)` for a positive divisor. */
  function CeilDiv(a: int, b: int): (q: int)
    requires b > 0
    ensures (q - 1) * b < a <= q * b
  {
    -((-a) / b)
  }

  /** The rendered range `[start, end)` with its pixel offset and the
      height (or width) of the whole list. */
  datatype Window = Window(start: int, end: int, offset: int, total: int)

  /** The range for `len` items of `size` pixels, a viewport of `viewport`
      pixels scrolled to `pos`, widened by `overscan` items on each side. */
  function WindowAt(len: nat, size: int, viewport: int, pos: int, overscan: int): (w: Window)
    requires size > 0
    ensures w.start == Max(0, FloorDiv(pos, size) - overscan)
    ensures w.end == Min(len, CeilDiv(pos + viewport, size) + overscan)
    ensures w.offset == w.start * size && w.total == len * size
  {
    var start := Max(0, FloorDiv(pos, size) - overscan);
    Window(start, Min(len, CeilDiv(pos + viewport, size) + overscan), start * size, len * size)
  }

  function Max(a: int, b: int): int { if a < b then b else a }
  function Min(a: int, b: int): int { if a < b then a else b }

  /** The range never starts before the first item nor ends past the last,
      and it is placed exactly where its first item sits in the full list. */
  lemma WindowBounds(len: nat, size: int, viewport: int, pos: int, overscan: int)
    requires size > 0
    ensures var w := WindowAt(len, size, viewport, pos, overscan);
      0 <= w.start && w.end <= len && w.offset == w.start * size && 0 <= w.offset
  {
  }

  /** With a non-negative overscan every item that overlaps the viewport,
      even by one pixel, is inside the rendered range. */
  lemma {:induction false} WindowCoversViewport(len: nat, size: int, viewport: int, pos: int, overscan: int, i: int)
    requires size > 0 && overscan >= 0
    requires 0 <= i < len && pos < (i + 1) * size && i * size < pos + viewport
    ensures var w := WindowAt(len, size, viewport, pos, overscan); w.start <= i < w.end
  {
    var lo, hi := FloorDiv(pos, size), CeilDiv(pos + viewport, size);
    BelowFromProducts(lo, i, size, pos);
    AboveFromProducts(i, hi, size, pos + viewport);
  }

  lemma BelowFromProducts(lo: int, i: int, size: int, pos: int)
    requires size > 0 && lo * size <= pos && pos < (i + 1) * size
    ensures lo <= i
  {
  }

  lemma AboveFromProducts(i: int, hi: int, size: int, bottom: int)
    requires size > 0 && i * size < bottom && bottom <= hi * size
    ensures i < hi
  {
  }

  /** Scrolled past the end, nothing but the overscan tail is left: with no
      overscan, a viewport that starts below the list renders no item. */
  lemma PastTheEndIsEmpty<T>(items: seq<T>, size: int, viewport: int, pos: int)
    requires size > 0 && pos >= |items| * size
    ensures var w := WindowAt(|items|, size, viewport, pos, 0); Slice(items, w.start, w.end) == []
  {
    var w := WindowAt(|items|, size, viewport, pos, 0);
    AboveFromProducts(|items|, FloorDiv(pos, size) + 1, size, pos + 1);
  }

  /** `visibleItems.map((item, index) => renderItem(item, startIndex + index))`:
      each rendered item paired with the index it is rendered under. */
  function Rendered<T>(items: seq<T>, w: Window): (r: seq<(T, int)>)
    ensures |r| == |Slice(items, w.start, w.end)|
    ensures forall k :: 0 <= k < |r| ==> r[k].0 == Slice(items, w.start, w.end)[k] && r[k].1 == w.start + k
  {
    var visible := Slice(items, w.start, w.end);
    seq(|visible|, k requires 0 <= k < |visible| => (visible[k], w.start + k))
  }

  /** The index handed to `renderItem` is the item's own position in the
      full list, for any window the component computes. */
  lemma {:induction false} RenderedIndexIsGlobal<T>(items: seq<T>, size: int, viewport: int, pos: int, overscan: int)
    requires size > 0
    ensures var r := Rendered(items, WindowAt(|items|, size, viewport, pos, overscan));
      forall k :: 0 <= k < |r| ==> 0 <= r[k].1 < |items| && items[r[k].1] == r[k].0
  {
    var w := WindowAt(|items|, size, viewport, pos, overscan);
    var r := Rendered(items, w);
    var to := RelativeIndex(w.end, |items|);
    if w.start < to {
      assert Slice(items, w.start, w.end) == items[w.start..to];
    }
  }

  /** The distance test of `handleScroll`: true when the bottom of the
      viewport is less than `threshold` pixels from the end of the list. */
  predicate NearEnd(total: int, scrollTop: int, containerHeight: int, threshold: int) {
    total - (scrollTop + containerHeight) < threshold
  }

  /** The vertical component's state: the last reported `scrollTop`. */
  class VirtualList<T> {
    const items: seq<T>
    const itemHeight: int
    const containerHeight: int
    const overscan: int
    const threshold: int
    const hasEndCallback: bool
    var scrollTop: int

    constructor (items: seq<T>, itemHeight: int, containerHeight: int, overscan: Option<int>, threshold: Option<int>, hasEndCallback: bool)
      requires itemHeight > 0
      ensures this.items == items && this.itemHeight == itemHeight && this.containerHeight == containerHeight
      ensures this.overscan == (if overscan.Some? then overscan.value else VerticalOverscan)
      ensures this.threshold == (if threshold.Some? then threshold.value else EndReachedThreshold)
      ensures this.hasEndCallback == hasEndCallback && scrollTop == 0
    {
      this.items := items;
      this.itemHeight := itemHeight;
      this.containerHeight := containerHeight;
      this.overscan := if overscan.Some? then overscan.value else VerticalOverscan;
      this.threshold := if threshold.Some? then threshold.value else EndReachedThreshold;
      this.hasEndCallback := hasEndCallback;
      scrollTop := 0;
    }

    /** The range rendered at the current scroll position. */
    function Layout(): Window
      requires itemHeight > 0
      reads this
    {
      WindowAt(|items|, itemHeight, containerHeight, scrollTop, overscan)
    }

    /** `handleScroll`: record the new position; `fired` tells whether
        `onEndReached` was called. */
    method HandleScroll(newScrollTop: int) returns (fired: bool)
      requires itemHeight > 0
      modifies this
      ensures scrollTop == newScrollTop
      ensures fired <==> hasEndCallback && NearEnd(|items| * itemHeight, newScrollTop, containerHeight, threshold)
    {
      scrollTop := newScrollTop;
      fired := false;
      if hasEndCallback {
        var distanceFromEnd := Layout().total - (newScrollTop + containerHeight);
        if distanceFromEnd < threshold {
          fired := true;
        }
      }
    }
  }

  /** With the default threshold the callback fires once the viewport's
      bottom is within 200 pixels of the list's end, and not at 200. */
  lemma NearEndBoundary(total: int, containerHeight: int)
    ensures NearEnd(total, total - containerHeight - 199, containerHeight, EndReachedThreshold)
    ensures !NearEnd(total, total - containerHeight - 200, containerHeight, EndReachedThreshold)
  {
  }

  /** `useVirtualHorizontalScroll`: the same window along the x axis, with
      `scrollLeft` as its state. */
  class HorizontalList<T> {
    const items: seq<T>
    const itemWidth: int
    const containerWidth: int
    const overscan: int
    var scrollLeft: int

    constructor (items: seq<T>, itemWidth: int, containerWidth: int, overscan: Option<int>)
      requires itemWidth > 0
      ensures this.items == items && this.itemWidth == itemWidth && this.containerWidth == containerWidth
      ensures this.overscan == (if overscan.Some? then overscan.value else HorizontalOverscan)
      ensures scrollLeft == 0
    {
      this.items := items;
      this.itemWidth := itemWidth;
      this.containerWidth := containerWidth;
      this.overscan := if overscan.Some? then overscan.value else HorizontalOverscan;
      scrollLeft := 0;
    }

    /** The hook's `startIndex`, `offsetX`, `totalWidth` and the end of `visibleItems`. */
    function Layout(): Window
      requires itemWidth > 0
      reads this
    {
      WindowAt(|items|, itemWidth, containerWidth, scrollLeft, overscan)
    }

    /** The hook's `handleScroll(scrollPosition)`. */
    method HandleScroll(scrollPosition: int)
      modifies this
      ensures scrollLeft == scrollPosition
    {
      scrollLeft := scrollPosition;
    }
  }

  /** At rest, a 1000-pixel row of 300-pixel cards renders the first six:
      four in view and two of overscan. */
  lemma HorizontalAtRest()
    ensures WindowAt(10, 300, 1000, 0, HorizontalOverscan) == Window(0, 6, 0, 3000)
  {
  }
}
