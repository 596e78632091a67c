/**
 * Arithmetic shared by the popup and the thumbnail transform machines:
 * JavaScript's Math.max/Math.min on reals, the symmetric clamp both files
 * write as Math.max(-m, Math.min(m, t)), the two translate adjustments the
 * scripts write for a zoom step, and the adjustment that keeps the content
 * under the pointer in place. Pixel and scale values are reals; no
 * floating-point rounding is modelled.
 */
module Geometry {

  /**
   * What a handler reads from an element's layout: its client rectangle's
   * corner (getBoundingClientRect) and its offset size (offsetWidth,
   * offsetHeight).
   */
  datatype Layout = Layout(left: real, top: real, width: real, height: real)

  predicate Sized(layout: Layout) {
    layout.width >= 0.0 && layout.height >= 0.0
  }

  /** A handler that divides by the offset size needs it non-zero (zero gives NaN, not modelled). */
  predicate Measurable(layout: Layout) {
    layout.width > 0.0 && layout.height > 0.0
  }

  function Max(a: real, b: real): (r: real)
    ensures r >= a && r >= b && (r == a || r == b)
  {
    if a >= b then a else b
  }

  function Min(a: real, b: real): (r: real)
    ensures r <= a && r <= b && (r == a || r == b)
  {
    if a <= b then a else b
  }

  function Abs(x: real): (r: real)
    ensures r >= 0.0 && (r == x || r == -x)
  {
    if x < 0.0 then -x else x
  }

  /** Math.max(-m, Math.min(m, t)): for m >= 0 the nearest point of [-m, m] to t. */
  function ClampSymmetric(t: real, m: real): (r: real)
    ensures m >= 0.0 ==> -m <= r <= m
    ensures -m <= t <= m ==> r == t
    ensures m >= 0.0 && t > m ==> r == m
    ensures m >= 0.0 && t < -m ==> r == -m
  {
    Max(-m, Min(m, t))
  }

  /** A clamp to [-m, m] is the identity on its own results. */
  lemma ClampSymmetricIdempotent(t: real, m: real)
    requires m >= 0.0
    ensures ClampSymmetric(ClampSymmetric(t, m), m) == ClampSymmetric(t, m)
  {
  }

  /** The clamp moves t no further than any other point of [-m, m] is from t. */
  lemma ClampSymmetricIsNearest(t: real, m: real, y: real)
    requires -m <= y <= m
    ensures Abs(ClampSymmetric(t, m) - t) <= Abs(y - t)
  {
  }

  /**
   * The largest translate, in pixels, for content of `size` pixels scaled
   * by `scale` about the centre of its box of the same size: (scale - 1) *
   * size / 2. Up to it, from scale 1 on, the content still covers the box;
   * its edges do not come inside the box.
   */
  function MaxTranslate(scale: real, size: real): (r: real)
    requires size >= 0.0
    ensures scale >= 1.0 ==> r >= 0.0
    ensures scale == 1.0 ==> r == 0.0
  {
    (scale - 1.0) * size / 2.0
  }

  /**
   * Content of `size` pixels scaled by `scale` >= 1 about the centre of its
   * box and moved by a translate within MaxTranslate still reaches both
   * edges of the box (offsets from the box's centre).
   */
  lemma ClampKeepsBoxCovered(t: real, scale: real, size: real)
    requires size >= 0.0 && scale >= 1.0 && Abs(t) <= MaxTranslate(scale, size)
    ensures t - scale * size / 2.0 <= -size / 2.0
    ensures t + scale * size / 2.0 >= size / 2.0
  {
  }

  /**
   * The popup's translate update for a zoom from `scale` to `newScale` about
   * a pivot at fraction `rel` of the element: the element's unscaled size is
   * `size / scale`, and the pivot's offset from the centre is `rel - 0.5`.
   */
  function PopupZoomAbout(t: real, scale: real, newScale: real, size: real, rel: real): (r: real)
    requires scale > 0.0
    ensures rel == 0.5 ==> r == t
    ensures newScale == scale ==> r == t
  {
    t - (newScale - scale) * (size / scale) * (rel - 0.5)
  }

  /**
   * The popup writes the update two ways, `t - (newScale - scale) * w * d`
   * when zooming in and `t + (scale - newScale) * w * d` otherwise; both are
   * PopupZoomAbout.
   */
  lemma PopupZoomBranchesAgree(t: real, scale: real, newScale: real, size: real, rel: real)
    requires scale > 0.0
    ensures t - (newScale - scale) * (size / scale) * (rel - 0.5) == PopupZoomAbout(t, scale, newScale, size, rel)
    ensures t + (scale - newScale) * (size / scale) * (rel - 0.5) == PopupZoomAbout(t, scale, newScale, size, rel)
  {
    var w, d := size / scale, rel - 0.5;
    assert (scale - newScale) * w * d == -((newScale - scale) * w * d);
  }

  /** The popup's update as written, branching on the zoom direction with the unscaled size `size / scale`. */
  function WrittenZoomUpdate(zoomingIn: bool, t: real, scale: real, newScale: real, size: real, rel: real): (r: real)
    requires scale > 0.0
    ensures r == PopupZoomAbout(t, scale, newScale, size, rel)
  {
    PopupZoomBranchesAgree(t, scale, newScale, size, rel);
    var originalSize := size / scale;
    if zoomingIn then t - (newScale - scale) * originalSize * (rel - 0.5)
    else t + (scale - newScale) * originalSize * (rel - 0.5)
  }

  /**
   * A zoom from `scale` to `newScale` about the element's centre that keeps
   * the content under the pointer in place. `offset` is the pointer's
   * distance from the centre of the untransformed box, and the content
   * point under it lies (offset - t) / scale unscaled pixels from the
   * content's own centre, before and after.
   */
  function ZoomAboutPointer(t: real, scale: real, newScale: real, offset: real): (r: real)
    requires scale > 0.0 && newScale > 0.0
    ensures (offset - r) / newScale == (offset - t) / scale
    ensures offset == t ==> r == t
    ensures newScale == scale ==> r == t
  {
    var r := offset - (offset - t) * (newScale / scale);
    assert offset - r == ((offset - t) / scale) * newScale;
    r
  }

  /**
   * The thumbnail's translate update for a zoom from `zoom` to `newZoom`
   * with the pointer at fraction `frac` of the container's `size`.
   */
  function ThumbnailZoomAbout(t: real, zoom: real, newZoom: real, size: real, frac: real): (r: real)
    ensures frac == 0.0 ==> r == t
    ensures newZoom == zoom ==> r == t
    ensures newZoom > zoom && size > 0.0 && frac > 0.0 ==> r < t
  {
    t - (newZoom - zoom) * size * frac
  }

  /** Where a pointer sits inside an element, as a fraction of its size. */
  function Fraction(client: real, offset: real, size: real): (r: real)
    requires size > 0.0
    ensures client == offset + size / 2.0 ==> r == 0.5
    ensures client == offset ==> r == 0.0
    ensures offset <= client <= offset + size ==> 0.0 <= r <= 1.0
  {
    var r := (client - offset) / size;
    assert r * size == client - offset;
    ProductWithPositive(r - 0.5, size);
    r
  }

  /** A product with a positive factor has the sign of the other factor. */
  lemma ProductWithPositive(a: real, b: real)
    requires b > 0.0
    ensures a > 0.0 ==> a * b > 0.0
    ensures a < 0.0 ==> a * b < 0.0
  {
  }

  /** A product of two non-zero factors is non-zero. */
  lemma NonZeroProduct(a: real, b: real)
    requires a != 0.0 && b != 0.0
    ensures a * b != 0.0
  {
    if b > 0.0 {
      ProductWithPositive(a, b);
    } else {
      ProductWithPositive(a, -b);
      assert a * -b == -(a * b);
    }
  }
}
