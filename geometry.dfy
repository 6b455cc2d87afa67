/**
 * src/utils/index.ts: fitting an item's aspect ratio inside a container
 * (`calculateContainSize`) and `min`.  Sizes are positive reals.
 */
module Geometry {

  /** `Size` */
  datatype Size = Size(width: real, height: real)

  /** The video's intrinsic size and the element's rendered size (`ScannerSizes`/`VideoSize`). */
  datatype Sizes = Sizes(video: Size, client: Size)

  predicate Positive(s: Size) { s.width > 0.0 && s.height > 0.0 }

  predicate PositiveSizes(s: Sizes) { Positive(s.video) && Positive(s.client) }

  /** `calculateContainSize(containerSize, itemSize)` */
  function CalculateContainSize(container: Size, item: Size): (r: Size)
    requires Positive(container) && Positive(item)
    ensures Positive(r)
  {
    var itemRatio := item.width / item.height;
    var containerRatio := container.width / container.height;
    if itemRatio > containerRatio then
      Size(container.width, container.width / itemRatio)
    else
      Size(container.height * itemRatio, container.height)
  }

  /** `min(a, b)`: `a < b ? a : b` */
  function Min(a: real, b: real): (r: real)
    ensures r == a || r == b
    ensures r <= a && r <= b
    ensures a == b ==> r == b
  {
    if a < b then a else b
  }

  /** `w / h < W / H` for positive sizes, stated without division. */
  lemma RatioLess(w: real, h: real, cw: real, ch: real)
    requires h > 0.0 && ch > 0.0
    ensures w / h > cw / ch <==> w * ch > cw * h
  {
    var a, b := w / h, cw / ch;
    assert w == a * h && cw == b * ch;
    assert w * ch - cw * h == (a - b) * (h * ch);
    assert h * ch > 0.0;
    if a > b {
      assert (a - b) * (h * ch) > 0.0;
    } else {
      assert (a - b) * (h * ch) <= 0.0;
    }
  }

  /** The contained size fits inside the container. */
  lemma {:induction false} ContainFits(container: Size, item: Size)
    requires Positive(container) && Positive(item)
    ensures CalculateContainSize(container, item).width <= container.width
    ensures CalculateContainSize(container, item).height <= container.height
  {
    var ir, cr := item.width / item.height, container.width / container.height;
    assert container.width == cr * container.height;
    if ir > cr {
      var h := container.width / ir;
      assert h * ir == container.width;
      assert h * ir == cr * container.height;
    } else {
      assert container.height * ir <= container.height * cr;
    }
  }

  /** The contained size has the item's aspect ratio (cross-multiplied: `w * item.h == h * item.w`). */
  lemma {:induction false} ContainKeepsRatio(container: Size, item: Size)
    requires Positive(container) && Positive(item)
    ensures CalculateContainSize(container, item).width * item.height
         == CalculateContainSize(container, item).height * item.width
    ensures CalculateContainSize(container, item).width / CalculateContainSize(container, item).height
         == item.width / item.height
  {
    var r := CalculateContainSize(container, item);
    var ir := item.width / item.height;
    assert item.width == ir * item.height;
    if ir > container.width / container.height {
      assert r.height * ir == container.width == r.width;
    } else {
      assert r.width == r.height * ir;
    }
    assert r.width == r.height * ir;
  }

  /**
   * A relatively wider item is fitted to the container's width, any other
   * item (equal ratios included) to the container's height.
   */
  lemma ContainTouches(container: Size, item: Size)
    requires Positive(container) && Positive(item)
    ensures item.width * container.height > container.width * item.height ==>
      CalculateContainSize(container, item).width == container.width
    ensures item.width * container.height <= container.width * item.height ==>
      CalculateContainSize(container, item).height == container.height
  {
    RatioLess(item.width, item.height, container.width, container.height);
  }

  /** An item of the container's own aspect ratio is contained as the container itself. */
  lemma {:induction false} ContainSameRatio(container: Size, item: Size)
    requires Positive(container) && Positive(item)
    requires item.width * container.height == container.width * item.height
    ensures CalculateContainSize(container, item) == container
  {
    RatioLess(item.width, item.height, container.width, container.height);
    var ir := item.width / item.height;
    assert item.width == ir * item.height;
    assert ir * item.height * container.height == container.width * item.height;
    assert (ir * container.height - container.width) * item.height == 0.0;
    assert container.height * ir == container.width;
  }

  /** Containing the contained size again (same item) changes nothing. */
  lemma {:induction false} ContainIdempotent(container: Size, item: Size)
    requires Positive(container) && Positive(item)
    ensures CalculateContainSize(CalculateContainSize(container, item), item)
         == CalculateContainSize(container, item)
  {
    var r := CalculateContainSize(container, item);
    ContainKeepsRatio(container, item);
    ContainSameRatio(r, item);
  }

  /** `Math.floor((outer - inner) / 2)`: the offset that centres `inner` inside `outer`. */
  function CenterOffset(outer: real, inner: real): (k: int)
    ensures k as real <= (outer - inner) / 2.0 < k as real + 1.0
  {
    ((outer - inner) / 2.0).Floor
  }

  /** The centring offset leaves equal margins on both sides, up to less than one pixel of rounding on each. */
  lemma CenterOffsetBounds(outer: real, inner: real)
    ensures 2.0 * (CenterOffset(outer, inner) as real) <= outer - inner < 2.0 * (CenterOffset(outer, inner) as real) + 2.0
    ensures inner <= outer ==> CenterOffset(outer, inner) >= 0
  {
    var k := CenterOffset(outer, inner);
    assert (k as real) <= (outer - inner) / 2.0 < (k as real) + 1.0;
  }
}
