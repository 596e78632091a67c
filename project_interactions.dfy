/**
 * project-interactions.js: per-thumbnail wheel zoom and drag pan, and the
 * hover slideshow of the later project thumbnails. Each .zoom-container's
 * closure state is one ZoomContainer object; each slideshow's is one
 * Slideshow object whose array holds the slides' "active" class flags. The
 * 1500 ms interval is a running flag plus an explicit Tick event.
 */
module ProjectInteractions {
  import opened Wrappers
  import opened Geometry

  const MinZoom: real := 1.0
  const MaxZoom: real := 3.0
  const ZoomFactor: real := 0.1
  /** Containers before this index get no slideshow. */
  const FirstSlideshowIndex: nat := 2

  /** Math.sign. */
  function Sign(x: real): (r: int)
    ensures r == -1 || r == 0 || r == 1
    ensures r < 0 <==> x < 0.0
    ensures r > 0 <==> x > 0.0
  {
    if x > 0.0 then 1 else if x < 0.0 then -1 else 0
  }

  /** Math.max(minZoom, Math.min(maxZoom, z)). */
  function ClampZoom(z: real): (r: real)
    ensures MinZoom <= r <= MaxZoom
    ensures MinZoom <= z <= MaxZoom ==> r == z
  {
    Max(MinZoom, Min(MaxZoom, z))
  }

  /** The clamp of updateTransform on one axis: within ±(zoom-1)*size/2, hence 0 at zoom 1. */
  function ClampPan(t: real, zoom: real, size: real): (r: real)
    requires zoom >= MinZoom && size >= 0.0
    ensures Abs(r) <= MaxTranslate(zoom, size)
    ensures Abs(t) <= MaxTranslate(zoom, size) ==> r == t
    ensures zoom == MinZoom ==> r == 0.0
  {
    var maxTranslate := MaxTranslate(zoom, size);
    Max(-maxTranslate, Min(maxTranslate, t))
  }

  class ZoomContainer {
    var currentZoom: real
    var translateX: real
    var translateY: real
    var isDragging: bool
    var lastTranslateX: real
    var lastTranslateY: real
    /** The drag anchor (startX/startY), kept per container here. */
    var startX: real
    var startY: real

    ghost predicate Valid()
      reads this
    {
      MinZoom <= currentZoom <= MaxZoom
    }

    /** After updateTransform: |tx| <= (zoom-1)*width/2 and |ty| <= (zoom-1)*height/2. */
    ghost predicate Clamped(layout: Layout)
      reads this
      requires Valid() && Sized(layout)
    {
      Abs(translateX) <= MaxTranslate(currentZoom, layout.width)
      && Abs(translateY) <= MaxTranslate(currentZoom, layout.height)
    }

    constructor ()
      ensures Valid()
      ensures currentZoom == 1.0 && translateX == 0.0 && translateY == 0.0 && !isDragging
      ensures lastTranslateX == 0.0 && lastTranslateY == 0.0
    {
      currentZoom, translateX, translateY := 1.0, 0.0, 0.0;
      isDragging := false;
      lastTranslateX, lastTranslateY := 0.0, 0.0;
      startX, startY := 0.0, 0.0;
    }

    /** updateTransform: clamp both translates against the current zoom. */
    method UpdateTransform(layout: Layout)
      requires Valid() && Sized(layout)
      modifies this
      ensures Valid() && Clamped(layout)
      ensures currentZoom == old(currentZoom) && isDragging == old(isDragging)
      ensures startX == old(startX) && startY == old(startY)
      ensures lastTranslateX == old(lastTranslateX) && lastTranslateY == old(lastTranslateY)
      ensures translateX == ClampPan(old(translateX), currentZoom, layout.width)
      ensures translateY == ClampPan(old(translateY), currentZoom, layout.height)
    {
      var maxTranslateX := MaxTranslate(currentZoom, layout.width);
      var maxTranslateY := MaxTranslate(currentZoom, layout.height);
      translateX := Max(-maxTranslateX, Min(maxTranslateX, translateX));
      translateY := Max(-maxTranslateY, Min(maxTranslateY, translateY));
    }

    /**
     * The wheel listener: a 0.1 zoom step, with each translate moved by
     * (newZoom - zoom) times the pointer's offset from the container's
     * top-left corner, except that scrolling out at minimum zoom returns
     * before touching anything.
     */
    method Wheel(deltaY: real, clientX: real, clientY: real, layout: Layout)
      requires Valid() && Measurable(layout)
      modifies this
      ensures Valid()
      ensures isDragging == old(isDragging) && startX == old(startX) && startY == old(startY)
      ensures lastTranslateX == old(lastTranslateX) && lastTranslateY == old(lastTranslateY)
      ensures old(currentZoom) == MinZoom && deltaY > 0.0 ==>
        currentZoom == old(currentZoom) && translateX == old(translateX) && translateY == old(translateY)
      ensures !(old(currentZoom) == MinZoom && deltaY > 0.0) ==>
        && currentZoom == ClampZoom(old(currentZoom) - Sign(deltaY) as real * ZoomFactor)
        && Clamped(layout)
        && translateX == ClampPan(
             ThumbnailZoomAbout(old(translateX), old(currentZoom), currentZoom, layout.width,
               Fraction(clientX, layout.left, layout.width)),
             currentZoom, layout.width)
        && translateY == ClampPan(
             ThumbnailZoomAbout(old(translateY), old(currentZoom), currentZoom, layout.height,
               Fraction(clientY, layout.top, layout.height)),
             currentZoom, layout.height)
    {
      var mouseX := clientX - layout.left;
      var mouseY := clientY - layout.top;
      var delta := -Sign(deltaY);
      var newZoom := Max(MinZoom, Min(MaxZoom, currentZoom + delta as real * ZoomFactor));
      if currentZoom == MinZoom && delta < 0 {
        return;
      }
      var mouseXPercent := mouseX / layout.width;
      var mouseYPercent := mouseY / layout.height;
      assert mouseXPercent == Fraction(clientX, layout.left, layout.width);
      assert mouseYPercent == Fraction(clientY, layout.top, layout.height);
      var newTranslateX := ThumbnailZoomAbout(translateX, currentZoom, newZoom, layout.width, mouseXPercent);
      var newTranslateY := ThumbnailZoomAbout(translateY, currentZoom, newZoom, layout.height, mouseYPercent);
      currentZoom := newZoom;
      translateX := newTranslateX;
      translateY := newTranslateY;
      UpdateTransform(layout);
    }

    /**
     * The wheel listener as the pointer zoom is evidently meant: the same
     * early return and new zoom, and translates that keep the content under
     * the pointer in place before the clamp, for an image that fills its
     * container and is scaled about its centre.
     */
    method WheelAboutPointer(deltaY: real, clientX: real, clientY: real, layout: Layout)
      requires Valid() && Measurable(layout)
      modifies this
      ensures Valid()
      ensures isDragging == old(isDragging) && startX == old(startX) && startY == old(startY)
      ensures lastTranslateX == old(lastTranslateX) && lastTranslateY == old(lastTranslateY)
      ensures old(currentZoom) == MinZoom && deltaY > 0.0 ==>
        currentZoom == old(currentZoom) && translateX == old(translateX) && translateY == old(translateY)
      ensures !(old(currentZoom) == MinZoom && deltaY > 0.0) ==>
        && currentZoom == ClampZoom(old(currentZoom) - Sign(deltaY) as real * ZoomFactor)
        && Clamped(layout)
        && translateX == ClampPan(
             ZoomAboutPointer(old(translateX), old(currentZoom), currentZoom, clientX - (layout.left + layout.width / 2.0)),
             currentZoom, layout.width)
        && translateY == ClampPan(
             ZoomAboutPointer(old(translateY), old(currentZoom), currentZoom, clientY - (layout.top + layout.height / 2.0)),
             currentZoom, layout.height)
    {
      var newZoom := ClampZoom(currentZoom - Sign(deltaY) as real * ZoomFactor);
      if currentZoom == MinZoom && deltaY > 0.0 {
        return;
      }
      translateX := ZoomAboutPointer(translateX, currentZoom, newZoom, clientX - (layout.left + layout.width / 2.0));
      translateY := ZoomAboutPointer(translateY, currentZoom, newZoom, clientY - (layout.top + layout.height / 2.0));
      currentZoom := newZoom;
      UpdateTransform(layout);
    }

    /** The mousedown listener: a drag starts only when zoomed in. */
    method MouseDown(clientX: real, clientY: real)
      requires Valid()
      modifies this
      ensures Valid()
      ensures currentZoom == old(currentZoom) && translateX == old(translateX) && translateY == old(translateY)
      ensures lastTranslateX == old(lastTranslateX) && lastTranslateY == old(lastTranslateY)
      ensures old(currentZoom) > MinZoom ==>
        isDragging && startX == clientX - translateX && startY == clientY - translateY
      ensures old(currentZoom) <= MinZoom ==>
        isDragging == old(isDragging) && startX == old(startX) && startY == old(startY)
    {
      if currentZoom > MinZoom {
        isDragging := true;
        startX := clientX - translateX;
        startY := clientY - translateY;
      }
    }

    /** The window's mousemove listener: while dragging, translate follows the pointer minus the anchor. */
    method WindowMouseMove(clientX: real, clientY: real, layout: Layout)
      requires Valid() && Sized(layout)
      modifies this
      ensures Valid()
      ensures currentZoom == old(currentZoom) && isDragging == old(isDragging)
      ensures startX == old(startX) && startY == old(startY)
      ensures lastTranslateX == old(lastTranslateX) && lastTranslateY == old(lastTranslateY)
      ensures !old(isDragging) ==> translateX == old(translateX) && translateY == old(translateY)
      ensures old(isDragging) ==>
        && Clamped(layout)
        && translateX == ClampPan(clientX - startX, currentZoom, layout.width)
        && translateY == ClampPan(clientY - startY, currentZoom, layout.height)
    {
      if !isDragging {
        return;
      }
      translateX := clientX - startX;
      translateY := clientY - startY;
      UpdateTransform(layout);
    }

    /** The window's mouseup listener: a drag ends and its translate is remembered. */
    method WindowMouseUp()
      requires Valid()
      modifies this
      ensures Valid()
      ensures !isDragging
      ensures currentZoom == old(currentZoom) && translateX == old(translateX) && translateY == old(translateY)
      ensures startX == old(startX) && startY == old(startY)
      ensures old(isDragging) ==> lastTranslateX == translateX && lastTranslateY == translateY
      ensures !old(isDragging) ==> lastTranslateX == old(lastTranslateX) && lastTranslateY == old(lastTranslateY)
    {
      if isDragging {
        isDragging := false;
        lastTranslateX := translateX;
        lastTranslateY := translateY;
      }
    }

    /** The mouseleave listener: the drag always ends; at minimum zoom translate goes back to 0. */
    method MouseLeave(layout: Layout)
      requires Valid() && Sized(layout)
      modifies this
      ensures Valid() && Clamped(layout)
      ensures !isDragging && currentZoom == old(currentZoom)
      ensures startX == old(startX) && startY == old(startY)
      ensures lastTranslateX == old(lastTranslateX) && lastTranslateY == old(lastTranslateY)
      ensures currentZoom == MinZoom ==> translateX == 0.0 && translateY == 0.0
      ensures currentZoom > MinZoom ==>
        translateX == ClampPan(old(translateX), currentZoom, layout.width)
        && translateY == ClampPan(old(translateY), currentZoom, layout.height)
    {
      isDragging := false;
      if currentZoom == MinZoom {
        translateX := 0.0;
        translateY := 0.0;
      }
      UpdateTransform(layout);
    }

    /** The dblclick listener: back to the identity transform. */
    method DoubleClick(layout: Layout)
      requires Valid() && Sized(layout)
      modifies this
      ensures Valid() && Clamped(layout)
      ensures currentZoom == MinZoom && translateX == 0.0 && translateY == 0.0
      ensures isDragging == old(isDragging) && startX == old(startX) && startY == old(startY)
      ensures lastTranslateX == old(lastTranslateX) && lastTranslateY == old(lastTranslateY)
    {
      currentZoom := MinZoom;
      translateX := 0.0;
      translateY := 0.0;
      UpdateTransform(layout);
    }
  }

  // ---------------------------------------------------------------------
  // Where the wheel zoom leaves the content. The zoom image fills its
  // container and is drawn with `scale(zoom) translate(t / zoom)` about its
  // centre, the initial transform-origin, which the script does not change.
  // A content point p pixels from the image's centre then appears
  // zoom * p + t pixels from the container's centre, so the content under a
  // pointer d pixels from that centre is the point (d - t) / zoom, the
  // quantity ZoomAboutPointer keeps.
  // ---------------------------------------------------------------------

  /**
   * The written update is the zoom about the pointer minus a drift of
   * (newZoom - zoom) * ((zoom - 1) * d + zoom * size / 2 + t) / zoom.
   */
  lemma ThumbnailZoomDrifts(left: real, size: real, z: real, nz: real, t: real, client: real)
    requires size > 0.0 && z > 0.0 && nz > 0.0
    ensures var d := client - (left + size / 2.0);
      ThumbnailZoomAbout(t, z, nz, size, Fraction(client, left, size))
      == ZoomAboutPointer(t, z, nz, d) - (nz - z) * ((z - 1.0) * d + z * size / 2.0 + t) / z
  {
    var d := client - (left + size / 2.0);
    var frac := Fraction(client, left, size);
    assert frac * size == d + size / 2.0;
    assert (nz - z) * size * frac == (nz - z) * (d + size / 2.0);
    ThumbnailDriftAlgebra(t, z, nz, size, d);
  }

  /** The algebra behind ThumbnailZoomDrifts, over plain variables. */
  lemma ThumbnailDriftAlgebra(t: real, z: real, nz: real, size: real, d: real)
    requires z > 0.0
    ensures t - (nz - z) * (d + size / 2.0)
      == (d - (d - t) * (nz / z)) - (nz - z) * ((z - 1.0) * d + z * size / 2.0 + t) / z
  {
    var q := nz / z;
    assert nz == q * z;
    var x := (z - 1.0) * d + z * size / 2.0 + t;
    assert (nz - z) * x / z == (q - 1.0) * x;
  }

  /**
   * The written update keeps the content under the pointer exactly when the
   * zoom does not change or (zoom - 1) * d + zoom * size / 2 + t is zero.
   */
  lemma ThumbnailZoomIsAboutPointerOnlyWhen(left: real, size: real, z: real, nz: real, t: real, client: real)
    requires size > 0.0 && z > 0.0 && nz > 0.0
    ensures var d := client - (left + size / 2.0);
      ThumbnailZoomAbout(t, z, nz, size, Fraction(client, left, size)) == ZoomAboutPointer(t, z, nz, d)
      <==> (nz == z || (z - 1.0) * d + z * size / 2.0 + t == 0.0)
  {
    var d := client - (left + size / 2.0);
    var x := (z - 1.0) * d + z * size / 2.0 + t;
    ThumbnailZoomDrifts(left, size, z, nz, t, client);
    assert (nz - z) * x / z * z == (nz - z) * x;
    if nz != z && x != 0.0 {
      NonZeroProduct(nz - z, x);
    }
  }

  /** From zoom 1 and translate 0, every written zoom step moves the content under the pointer, wherever it is. */
  lemma ThumbnailZoomDriftsFromIdentity(left: real, size: real, nz: real, client: real)
    requires size > 0.0 && nz > 0.0 && nz != 1.0
    ensures ThumbnailZoomAbout(0.0, 1.0, nz, size, Fraction(client, left, size))
      != ZoomAboutPointer(0.0, 1.0, nz, client - (left + size / 2.0))
  {
    ThumbnailZoomIsAboutPointerOnlyWhen(left, size, 1.0, nz, 0.0, client);
  }

  /**
   * A fresh thumbnail, one scroll up with the pointer at the container's
   * centre: zoom 1.1, and the image moves a twentieth of its size up and
   * left, which the clamp allows.
   */
  method WheelUpAtCentre(layout: Layout) returns (zoom: real, translateX: real, translateY: real)
    requires Measurable(layout)
    ensures zoom == 1.1
    ensures translateX == -layout.width / 20.0 && translateY == -layout.height / 20.0
  {
    var c := new ZoomContainer();
    c.Wheel(-1.0, layout.left + layout.width / 2.0, layout.top + layout.height / 2.0, layout);
    zoom, translateX, translateY := c.currentZoom, c.translateX, c.translateY;
  }

  /** The same scroll through the corrected handler leaves the image in place. */
  method WheelUpAtCentreAboutPointer(layout: Layout) returns (zoom: real, translateX: real, translateY: real)
    requires Measurable(layout)
    ensures zoom == 1.1 && translateX == 0.0 && translateY == 0.0
  {
    var c := new ZoomContainer();
    c.WheelAboutPointer(-1.0, layout.left + layout.width / 2.0, layout.top + layout.height / 2.0, layout);
    zoom, translateX, translateY := c.currentZoom, c.translateX, c.translateY;
  }

  /** Exactly slide `k` of `flags` carries the active class. */
  ghost predicate OnlyActive(flags: seq<bool>, k: int) {
    0 <= k < |flags| && forall i :: 0 <= i < |flags| ==> flags[i] == (i == k)
  }

  /** The slide flags after setup: slide 0, if there is one, gets the active class. */
  function FirstActivated(initial: seq<bool>): (r: seq<bool>)
    ensures |r| == |initial|
    ensures |initial| > 0 ==> r[0]
    ensures forall i :: 0 < i < |initial| ==> r[i] == initial[i]
  {
    if |initial| > 0 then initial[0 := true] else initial
  }

  /** The slides of one .image-slideshow and the closure state that cycles them. */
  class Slideshow {
    /** slides[i] is whether the i-th .slide has the class "active". */
    const slides: array<bool>
    var activeIndex: nat
    /** An interval started by mouseenter that mouseleave has not cleared. */
    var timerRunning: bool

    ghost predicate Valid()
      reads this
    {
      (slides.Length == 0 ==> activeIndex == 0)
      && (slides.Length > 0 ==> activeIndex < slides.Length)
      && (timerRunning ==> slides.Length > 1)
    }

    /** The setup: activeIndex 0, and slide 0 (if any) gets the active class. */
    constructor (initial: seq<bool>)
      ensures Valid() && fresh(slides)
      ensures activeIndex == 0 && !timerRunning
      ensures slides[..] == FirstActivated(initial)
    {
      var flags := new bool[|initial|](i requires 0 <= i < |initial| => initial[i]);
      if |initial| > 0 {
        flags[0] := true;
      }
      slides := flags;
      activeIndex := 0;
      timerRunning := false;
    }

    /** nextSlide: deactivate the current slide, advance cyclically, activate the new one. */
    method NextSlide()
      requires Valid() && slides.Length > 0
      modifies this, slides
      ensures Valid() && timerRunning == old(timerRunning)
      ensures activeIndex == (old(activeIndex) + 1) % slides.Length
      ensures slides[..] == old(slides[..])[old(activeIndex) := false][activeIndex := true]
      ensures OnlyActive(old(slides[..]), old(activeIndex)) ==> OnlyActive(slides[..], activeIndex)
    {
      slides[activeIndex] := false;
      activeIndex := (activeIndex + 1) % slides.Length;
      slides[activeIndex] := true;
    }

    /** The mouseenter listener: the interval starts only when there is more than one slide. */
    method MouseEnter()
      requires Valid()
      modifies this
      ensures Valid() && activeIndex == old(activeIndex)
      ensures timerRunning == (old(timerRunning) || slides.Length > 1)
    {
      if slides.Length > 1 {
        timerRunning := true;
      }
    }

    /** One firing of the 1500 ms interval: nextSlide, if the interval is running. */
    method Tick()
      requires Valid()
      modifies this, slides
      ensures Valid() && timerRunning == old(timerRunning)
      ensures !timerRunning ==> activeIndex == old(activeIndex) && slides[..] == old(slides[..])
      ensures timerRunning ==> activeIndex == (old(activeIndex) + 1) % slides.Length
      ensures timerRunning ==> slides[..] == old(slides[..])[old(activeIndex) := false][activeIndex := true]
      ensures OnlyActive(old(slides[..]), old(activeIndex)) ==> OnlyActive(slides[..], activeIndex)
    {
      if timerRunning {
        NextSlide();
      }
    }

    /**
     * The mouseleave listener: stop the interval, clear every active flag,
     * go back to slide 0 and activate it. With no slides, slides[0] is
     * undefined and the listener throws a TypeError after the reset; the
     * result `ok` is false exactly then.
     */
    method MouseLeave() returns (ok: bool)
      requires Valid()
      modifies this, slides
      ensures Valid() && !timerRunning && activeIndex == 0
      ensures ok <==> slides.Length > 0
      ensures ok ==> OnlyActive(slides[..], 0)
    {
      timerRunning := false;
      var i := 0;
      while i < slides.Length
        invariant 0 <= i <= slides.Length
        invariant forall j :: 0 <= j < i ==> !slides[j]
        invariant !timerRunning
      {
        slides[i] := false;
        i := i + 1;
      }
      activeIndex := 0;
      if slides.Length == 0 {
        return false;
      }
      slides[0] := true;
      return true;
    }
  }

  /**
   * The forEach over .project-image-container elements: container `index`
   * gets a slideshow when index >= 2 and it holds an .image-slideshow
   * (`containers[index]` is that element's initial slide flags, or None).
   */
  method SetupSlideshows(containers: seq<Option<seq<bool>>>) returns (shows: seq<Slideshow?>)
    ensures |shows| == |containers|
    ensures forall i :: 0 <= i < |shows| ==> (shows[i] != null <==> i >= FirstSlideshowIndex && containers[i].Some?)
    ensures forall i :: 0 <= i < |shows| && shows[i] != null ==>
      shows[i].Valid() && shows[i].activeIndex == 0 && !shows[i].timerRunning
      && shows[i].slides[..] == FirstActivated(containers[i].value)
  {
    shows := [];
    var index := 0;
    while index < |containers|
      invariant 0 <= index <= |containers| && |shows| == index
      invariant forall i :: 0 <= i < index ==> (shows[i] != null <==> i >= FirstSlideshowIndex && containers[i].Some?)
      invariant forall i :: 0 <= i < index && shows[i] != null ==>
        shows[i].Valid() && shows[i].activeIndex == 0 && !shows[i].timerRunning
        && shows[i].slides[..] == FirstActivated(containers[i].value)
    {
      var show: Slideshow? := null;
      if index >= FirstSlideshowIndex && containers[index].Some? {
        show := new Slideshow(containers[index].value);
      }
      shows := shows + [show];
      index := index + 1;
    }
  }

  /** A tick from "exactly slide k active" leaves exactly the next slide active, for every slide count. */
  lemma AdvanceKeepsOneActive(flags: seq<bool>, k: int)
    requires OnlyActive(flags, k)
    ensures OnlyActive(flags[k := false][(k + 1) % |flags| := true], (k + 1) % |flags|)
  {
  }
}
