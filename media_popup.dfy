/**
 * media-popup.js: the lightbox that shows one image or video with
 * wheel, pinch, button, keyboard and drag zoom/pan. The closure variables
 * of the DOMContentLoaded handler are the fields of one Popup object; every
 * event listener is a method. Layout reads (getBoundingClientRect,
 * offsetWidth/offsetHeight) and Math.hypot are passed in as inputs.
 */
module MediaPopup {
  import opened Wrappers
  import opened Geometry

  const MinScale: real := 0.5
  const MaxScale: real := 5.0
  /** Scale change per wheel event and per +/- key press. */
  const WheelStep: real := 0.2
  const KeyZoomStep: real := 0.2
  /** Scale change per zoom-button click. */
  const ButtonStep: real := 0.5
  /** Scale change per pixel of pinch-distance change. */
  const PinchSensitivity: real := 0.01
  /** Pixels moved per arrow key press. */
  const KeyPanStep: real := 50.0
  /** The keys the keydown listener handles besides Escape. */
  const KeyZoomPanKeys: set<string> := {"+", "=", "-", "0", "ArrowUp", "ArrowDown", "ArrowLeft", "ArrowRight"}

  datatype Point = Point(clientX: real, clientY: real)

  /** Where a click on the overlay landed: e.target. */
  datatype ClickTarget = Overlay | ContentContainer | Elsewhere

  /** Math.max(0.5, Math.min(5, x)). */
  function ClampScale(x: real): (r: real)
    ensures MinScale <= r <= MaxScale
    ensures MinScale <= x <= MaxScale ==> r == x
    ensures x > MaxScale ==> r == MaxScale
    ensures x < MinScale ==> r == MinScale
  {
    Max(MinScale, Min(MaxScale, x))
  }

  /** e.deltaY < 0 ? 0.2 : -0.2: scrolling up zooms in, anything else (also 0) zooms out. */
  function WheelDelta(deltaY: real): (r: real)
    ensures deltaY < 0.0 <==> r > 0.0
    ensures r == WheelStep || r == -WheelStep
  {
    if deltaY < 0.0 then 0.2 else -0.2
  }

  /** The clamp of applyTransform on one axis: within ±(scale-1)*size/2 above scale 1, else 0. */
  function ClampTranslate(t: real, scale: real, size: real): (r: real)
    requires size >= 0.0
    ensures scale > 1.0 ==> Abs(r) <= MaxTranslate(scale, size)
    ensures scale > 1.0 && Abs(t) <= MaxTranslate(scale, size) ==> r == t
    ensures scale <= 1.0 ==> r == 0.0
  {
    var maxTranslate := MaxTranslate(scale, size);
    if scale > 1.0 then ClampSymmetric(t, maxTranslate) else 0.0
  }

  /** Clamping an already clamped translate changes nothing. */
  lemma ClampTranslateIdempotent(t: real, scale: real, size: real)
    requires size >= 0.0
    ensures ClampTranslate(ClampTranslate(t, scale, size), scale, size) == ClampTranslate(t, scale, size)
  {
  }

  /** A step of ±step from inside [0.5, 5] stays inside, whichever zoom path takes it. */
  lemma ZoomPathsStayInRange(scale: real, step: real)
    requires MinScale <= scale <= MaxScale && step >= 0.0
    ensures MinScale <= Min(MaxScale, scale + step) <= MaxScale
    ensures MinScale <= Max(MinScale, scale - step) <= MaxScale
  {
  }

  /** The <img> or <video> element the popup mounts. */
  class Media {
    const isVideo: bool
    const src: string
    var paused: bool

    /** document.createElement('video'|'img') with src set; autoplay = false, so a video starts paused. */
    constructor (isVideo: bool, src: string)
      ensures this.isVideo == isVideo && this.src == src && paused
    {
      this.isVideo := isVideo;
      this.src := src;
      paused := true;
    }

    /** The user starts playback with the video's own controls. */
    method Play()
      modifies this
      ensures !paused
    {
      paused := false;
    }

    /** HTMLMediaElement.pause(). */
    method Pause()
      modifies this
      ensures paused
    {
      paused := true;
    }
  }

  /** The transform part of the state, for stating what a handler leaves alone. */
  datatype TransformState = TransformState(scale: real, translateX: real, translateY: real)
  /** The gesture part: drag flag, drag anchor, last pinch distance. */
  datatype GestureState = GestureState(isDragging: bool, startX: real, startY: real, lastTouchDistance: real)
  /** The session part: what is mounted and shown. */
  datatype SessionState = SessionState(currentMedia: Media?, isVideo: bool, displayed: bool,
                                       bodyOverflow: string, title: string, children: seq<object>)

  class Popup {
    var scale: real
    var translateX: real
    var translateY: real
    var isDragging: bool
    var startX: real
    var startY: real
    var lastTouchDistance: real
    var currentMedia: Media?
    var isVideo: bool
    /** popup.style.display === 'block' */
    var displayed: bool
    /** document.body.style.overflow */
    var bodyOverflow: string
    /** popupTitle.textContent */
    var title: string
    /** The child nodes of the .popup-image-container element. */
    var children: seq<object>

    /**
     * Scale stays in [0.5, 5]; a pinch distance is never negative; once media
     * is mounted it is the container's only child and isVideo describes it;
     * before any media is mounted the popup is hidden and untranslated and
     * no drag is in progress.
     */
    ghost predicate Valid()
      reads this
    {
      && MinScale <= scale <= MaxScale
      && lastTouchDistance >= 0.0
      && (currentMedia != null ==> children == [currentMedia] && currentMedia.isVideo == isVideo)
      && (currentMedia == null ==> !displayed && !isDragging && translateX == 0.0 && translateY == 0.0)
    }

    /** After applyTransform with media present: translates within ±(scale-1)*size/2, and 0 at scale <= 1. */
    ghost predicate Clamped(layout: Layout)
      reads this
      requires Sized(layout)
    {
      currentMedia != null ==>
        && (scale > 1.0 ==> Abs(translateX) <= MaxTranslate(scale, layout.width)
                            && Abs(translateY) <= MaxTranslate(scale, layout.height))
        && (scale <= 1.0 ==> translateX == 0.0 && translateY == 0.0)
    }

    ghost function Transform(): TransformState
      reads this
    {
      TransformState(scale, translateX, translateY)
    }

    ghost function Gesture(): GestureState
      reads this
    {
      GestureState(isDragging, startX, startY, lastTouchDistance)
    }

    ghost function Session(): SessionState
      reads this
    {
      SessionState(currentMedia, isVideo, displayed, bodyOverflow, title, children)
    }

    /** The state when DOMContentLoaded runs: identity transform, nothing mounted, popup hidden. */
    constructor (initialChildren: seq<object>)
      ensures Valid()
      ensures Transform() == TransformState(1.0, 0.0, 0.0)
      ensures Gesture() == GestureState(false, 0.0, 0.0, 0.0)
      ensures Session() == SessionState(null, false, false, "", "", initialChildren)
    {
      scale, translateX, translateY := 1.0, 0.0, 0.0;
      isDragging, startX, startY, lastTouchDistance := false, 0.0, 0.0, 0.0;
      currentMedia, isVideo, displayed := null, false, false;
      bodyOverflow, title, children := "", "", initialChildren;
    }

    /** applyTransform: clamp both translates against the current scale; no media, no change. */
    method ApplyTransform(layout: Layout)
      requires Valid() && Sized(layout)
      modifies this
      ensures Valid() && Clamped(layout)
      ensures scale == old(scale) && Gesture() == old(Gesture()) && Session() == old(Session())
      ensures currentMedia == null ==> Transform() == old(Transform())
      ensures currentMedia != null ==>
        && translateX == ClampTranslate(old(translateX), scale, layout.width)
        && translateY == ClampTranslate(old(translateY), scale, layout.height)
    {
      if currentMedia == null {
        return;
      }
      var maxTranslateX := MaxTranslate(scale, layout.width);
      var maxTranslateY := MaxTranslate(scale, layout.height);
      if scale > 1.0 {
        translateX := Max(-maxTranslateX, Min(maxTranslateX, translateX));
        translateY := Max(-maxTranslateY, Min(maxTranslateY, translateY));
      } else {
        translateX := 0.0;
        translateY := 0.0;
      }
    }

    /** resetTransform: identity from any state. The dblclick listener and the reset button are this method. */
    method ResetTransform(layout: Layout)
      requires Valid() && Sized(layout)
      modifies this
      ensures Valid() && Clamped(layout)
      ensures Transform() == TransformState(1.0, 0.0, 0.0)
      ensures Gesture() == old(Gesture()) && Session() == old(Session())
    {
      scale := 1.0;
      translateX := 0.0;
      translateY := 0.0;
      ApplyTransform(layout);
    }

    /**
     * openPopup: empty the container, mount one fresh <img> or <video>,
     * show the overlay, lock page scroll, reset the transform.
     */
    method OpenPopup(src: string, title: string, isVideoMedia: bool, layout: Layout)
      requires Valid() && Sized(layout)
      modifies this
      ensures Valid() && Clamped(layout)
      ensures currentMedia != null && fresh(currentMedia)
      ensures currentMedia.src == src && currentMedia.isVideo == isVideoMedia && currentMedia.paused
      ensures children == [currentMedia] && isVideo == isVideoMedia && this.title == title
      ensures displayed && bodyOverflow == "hidden"
      ensures Transform() == TransformState(1.0, 0.0, 0.0)
      ensures Gesture() == old(Gesture())
    {
      this.title := title;
      isVideo := isVideoMedia;
      while children != []
        invariant Transform() == old(Transform()) && Gesture() == old(Gesture())
        invariant this.title == title && isVideo == isVideoMedia
        decreases |children|
      {
        children := children[1..];
      }
      var media := new Media(isVideo, src);
      children := children + [media];
      currentMedia := media;
      displayed := true;
      bodyOverflow := "hidden";
      ResetTransform(layout);
    }

    /** The project card's click listener: ignored mid-drag, else opens the video if data-video-src is set, else the image. */
    method CardClick(imageSrc: string, videoSrc: Option<string>, projectTitle: string, layout: Layout)
      requires Valid() && Sized(layout)
      modifies this
      ensures Valid()
      ensures Gesture() == old(Gesture())
      ensures old(isDragging) ==> Transform() == old(Transform()) && Session() == old(Session())
      ensures !old(isDragging) ==>
        var playVideo := videoSrc.Some? && videoSrc.value != "";
        && currentMedia != null && fresh(currentMedia) && children == [currentMedia]
        && currentMedia.isVideo == playVideo && isVideo == playVideo
        && currentMedia.src == (if playVideo then videoSrc.value else imageSrc)
        && title == projectTitle && displayed && bodyOverflow == "hidden"
        && Transform() == TransformState(1.0, 0.0, 0.0)
    {
      if isDragging {
        return;
      }
      if videoSrc.Some? && videoSrc.value != "" {
        OpenPopup(videoSrc.value, projectTitle, true, layout);
      } else {
        OpenPopup(imageSrc, projectTitle, false, layout);
      }
    }

    /** closePopup: hide, restore scroll, pause a video; the transform and the mounted media stay. */
    method ClosePopup()
      requires Valid()
      modifies this, currentMedia
      ensures Valid()
      ensures !displayed && bodyOverflow == ""
      ensures Transform() == old(Transform()) && Gesture() == old(Gesture())
      ensures currentMedia == old(currentMedia) && isVideo == old(isVideo)
      ensures title == old(title) && children == old(children)
      ensures currentMedia != null && isVideo ==> currentMedia.paused
      ensures currentMedia != null && !isVideo ==> currentMedia.paused == old(currentMedia.paused)
    {
      displayed := false;
      bodyOverflow := "";
      if isVideo && currentMedia != null {
        currentMedia.Pause();
      }
    }

    /** The overlay's click listener: closes on a click on the overlay itself or on the content container. */
    method OverlayClick(target: ClickTarget)
      requires Valid()
      modifies this, currentMedia
      ensures Valid()
      ensures target == Elsewhere ==> Session() == old(Session())
      ensures target == Elsewhere && currentMedia != null ==> currentMedia.paused == old(currentMedia.paused)
      ensures target != Elsewhere ==> !displayed && bodyOverflow == ""
      ensures Transform() == old(Transform()) && Gesture() == old(Gesture()) && currentMedia == old(currentMedia)
      ensures isVideo == old(isVideo) && title == old(title) && children == old(children)
      ensures target != Elsewhere && currentMedia != null && isVideo ==> currentMedia.paused
      ensures target != Elsewhere && currentMedia != null && !isVideo ==> currentMedia.paused == old(currentMedia.paused)
    {
      if target == Overlay || target == ContentContainer {
        ClosePopup();
      }
    }

    /**
     * The translate update that handleWheel and handleTouchMove both write
     * out, with its branch on the zoom direction: the unscaled size is
     * offsetWidth / scale, and either branch is a zoom about (relX, relY).
     */
    method ZoomTranslate(zoomingIn: bool, newScale: real, layout: Layout, relX: real, relY: real)
      requires Valid() && Measurable(layout)
      modifies this
      ensures scale == old(scale) && Gesture() == old(Gesture()) && Session() == old(Session())
      ensures translateX == PopupZoomAbout(old(translateX), scale, newScale, layout.width, relX)
      ensures translateY == PopupZoomAbout(old(translateY), scale, newScale, layout.height, relY)
    {
      var s := scale;
      translateX := WrittenZoomUpdate(zoomingIn, translateX, s, newScale, layout.width, relX);
      translateY := WrittenZoomUpdate(zoomingIn, translateY, s, newScale, layout.height, relY);
    }

    /** handleWheel: a ±0.2 zoom about the pointer's fraction of the reported rectangle, then the clamp. */
    method HandleWheel(deltaY: real, clientX: real, clientY: real, layout: Layout)
      requires Valid() && currentMedia != null && Measurable(layout)
      modifies this
      ensures Valid() && Clamped(layout)
      ensures scale == ClampScale(old(scale) + WheelDelta(deltaY))
      ensures translateX == ClampTranslate(
        PopupZoomAbout(old(translateX), old(scale), scale, layout.width, Fraction(clientX, layout.left, layout.width)),
        scale, layout.width)
      ensures translateY == ClampTranslate(
        PopupZoomAbout(old(translateY), old(scale), scale, layout.height, Fraction(clientY, layout.top, layout.height)),
        scale, layout.height)
      ensures Gesture() == old(Gesture()) && Session() == old(Session())
    {
      var mouseX := clientX - layout.left;
      var mouseY := clientY - layout.top;
      var relX := mouseX / layout.width;
      var relY := mouseY / layout.height;
      var delta := if deltaY < 0.0 then 0.2 else -0.2;
      var newScale := Max(0.5, Min(5.0, scale + delta));
      assert relX == Fraction(clientX, layout.left, layout.width);
      assert relY == Fraction(clientY, layout.top, layout.height);
      ZoomTranslate(delta > 0.0, newScale, layout, relX, relY);
      scale := newScale;
      ApplyTransform(layout);
    }

    /**
     * handleWheel as the pointer zoom is evidently meant: the same new
     * scale, and translates that keep the content under the pointer in
     * place before the clamp. `box` is the media's untransformed layout box.
     */
    method WheelAboutPointer(deltaY: real, clientX: real, clientY: real, box: Layout)
      requires Valid() && currentMedia != null && Measurable(box)
      modifies this
      ensures Valid() && Clamped(box)
      ensures scale == ClampScale(old(scale) + WheelDelta(deltaY))
      ensures translateX == ClampTranslate(
        ZoomAboutPointer(old(translateX), old(scale), scale, clientX - (box.left + box.width / 2.0)), scale, box.width)
      ensures translateY == ClampTranslate(
        ZoomAboutPointer(old(translateY), old(scale), scale, clientY - (box.top + box.height / 2.0)), scale, box.height)
      ensures Gesture() == old(Gesture()) && Session() == old(Session())
    {
      var newScale := ClampScale(scale + WheelDelta(deltaY));
      translateX := ZoomAboutPointer(translateX, scale, newScale, clientX - (box.left + box.width / 2.0));
      translateY := ZoomAboutPointer(translateY, scale, newScale, clientY - (box.top + box.height / 2.0));
      scale := newScale;
      ApplyTransform(box);
    }

    /** handleMouseDown: start a drag anchored at the pointer minus the current translate. */
    method HandleMouseDown(clientX: real, clientY: real)
      requires Valid() && currentMedia != null
      modifies this
      ensures Valid()
      ensures isDragging && startX == clientX - translateX && startY == clientY - translateY
      ensures Transform() == old(Transform()) && lastTouchDistance == old(lastTouchDistance)
      ensures Session() == old(Session())
    {
      isDragging := true;
      startX := clientX - translateX;
      startY := clientY - translateY;
    }

    /** handleTouchStart: one finger starts a drag, two fingers record the pinch distance. */
    method HandleTouchStart(touches: seq<Point>, distance: real)
      requires Valid() && currentMedia != null && distance >= 0.0
      modifies this
      ensures Valid()
      ensures |touches| == 1 ==>
        Gesture() == GestureState(true, touches[0].clientX - translateX, touches[0].clientY - translateY,
                                  old(lastTouchDistance))
      ensures |touches| == 2 ==>
        Gesture() == GestureState(false, old(startX), old(startY), distance)
      ensures |touches| != 1 && |touches| != 2 ==> Gesture() == old(Gesture())
      ensures Transform() == old(Transform()) && Session() == old(Session())
    {
      if |touches| == 1 {
        isDragging := true;
        startX := touches[0].clientX - translateX;
        startY := touches[0].clientY - translateY;
      } else if |touches| == 2 {
        isDragging := false;
        lastTouchDistance := distance;
      }
    }

    /**
     * handleTouchMove: one finger while dragging pans; two fingers zoom by
     * the change of pinch distance about their midpoint, except on the first
     * move after the distance was reset, which only records it.
     */
    method HandleTouchMove(touches: seq<Point>, distance: real, layout: Layout)
      requires Valid() && currentMedia != null && distance >= 0.0 && Measurable(layout)
      modifies this
      ensures Valid()
      ensures Session() == old(Session())
      ensures isDragging == old(isDragging) && startX == old(startX) && startY == old(startY)
      ensures |touches| == 1 && old(isDragging) ==>
        && scale == old(scale) && Clamped(layout)
        && translateX == ClampTranslate(touches[0].clientX - startX, scale, layout.width)
        && translateY == ClampTranslate(touches[0].clientY - startY, scale, layout.height)
      ensures |touches| == 2 ==> lastTouchDistance == distance
      ensures |touches| == 2 && old(lastTouchDistance) > 0.0 ==>
        && scale == ClampScale(old(scale) + (distance - old(lastTouchDistance)) * PinchSensitivity)
        && Clamped(layout)
        && translateX == ClampTranslate(
             PopupZoomAbout(old(translateX), old(scale), scale, layout.width,
               Fraction((touches[0].clientX + touches[1].clientX) / 2.0, layout.left, layout.width)),
             scale, layout.width)
        && translateY == ClampTranslate(
             PopupZoomAbout(old(translateY), old(scale), scale, layout.height,
               Fraction((touches[0].clientY + touches[1].clientY) / 2.0, layout.top, layout.height)),
             scale, layout.height)
      ensures |touches| == 2 && old(lastTouchDistance) == 0.0 ==> Transform() == old(Transform())
      ensures !(|touches| == 1 && old(isDragging)) && |touches| != 2 ==>
        Transform() == old(Transform()) && lastTouchDistance == old(lastTouchDistance)
      ensures |touches| == 1 ==> lastTouchDistance == old(lastTouchDistance)
    {
      if |touches| == 1 && isDragging {
        translateX := touches[0].clientX - startX;
        translateY := touches[0].clientY - startY;
        ApplyTransform(layout);
      } else if |touches| == 2 {
        var currentDistance := distance;
        if lastTouchDistance > 0.0 {
          var delta := currentDistance - lastTouchDistance;
          var newScale := Max(0.5, Min(5.0, scale + delta * 0.01));
          var midX := (touches[0].clientX + touches[1].clientX) / 2.0;
          var midY := (touches[0].clientY + touches[1].clientY) / 2.0;
          var relX := (midX - layout.left) / layout.width;
          var relY := (midY - layout.top) / layout.height;
          assert relX == Fraction(midX, layout.left, layout.width);
          assert relY == Fraction(midY, layout.top, layout.height);
          ZoomTranslate(newScale > scale, newScale, layout, relX, relY);
          scale := newScale;
          ApplyTransform(layout);
        }
        lastTouchDistance := currentDistance;
      }
    }

    /** handleTouchEnd: no drag and no pinch in progress. */
    method HandleTouchEnd()
      requires Valid()
      modifies this
      ensures Valid()
      ensures !isDragging && lastTouchDistance == 0.0
      ensures startX == old(startX) && startY == old(startY)
      ensures Transform() == old(Transform()) && Session() == old(Session())
    {
      isDragging := false;
      lastTouchDistance := 0.0;
    }

    /** The zoom-in button: scale + 0.5 capped at 5, then the clamp. */
    method ZoomInClick(layout: Layout)
      requires Valid() && Sized(layout)
      modifies this
      ensures Valid() && Clamped(layout)
      ensures scale == Min(MaxScale, old(scale) + ButtonStep)
      ensures currentMedia != null ==>
        translateX == ClampTranslate(old(translateX), scale, layout.width)
        && translateY == ClampTranslate(old(translateY), scale, layout.height)
      ensures Gesture() == old(Gesture()) && Session() == old(Session())
    {
      scale := Min(5.0, scale + 0.5);
      ApplyTransform(layout);
    }

    /** The zoom-out button: scale - 0.5 floored at 0.5, then the clamp. */
    method ZoomOutClick(layout: Layout)
      requires Valid() && Sized(layout)
      modifies this
      ensures Valid() && Clamped(layout)
      ensures scale == Max(MinScale, old(scale) - ButtonStep)
      ensures currentMedia != null ==>
        translateX == ClampTranslate(old(translateX), scale, layout.width)
        && translateY == ClampTranslate(old(translateY), scale, layout.height)
      ensures Gesture() == old(Gesture()) && Session() == old(Session())
    {
      scale := Max(0.5, scale - 0.5);
      ApplyTransform(layout);
    }

    /** The window's mousemove listener: while dragging, translate follows the pointer minus the anchor. */
    method WindowMouseMove(clientX: real, clientY: real, layout: Layout)
      requires Valid() && Sized(layout)
      modifies this
      ensures Valid()
      ensures Gesture() == old(Gesture()) && Session() == old(Session()) && scale == old(scale)
      ensures !old(isDragging) ==> Transform() == old(Transform())
      ensures old(isDragging) ==>
        && Clamped(layout)
        && translateX == ClampTranslate(clientX - startX, scale, layout.width)
        && translateY == ClampTranslate(clientY - startY, scale, layout.height)
    {
      if !isDragging {
        return;
      }
      translateX := clientX - startX;
      translateY := clientY - startY;
      ApplyTransform(layout);
    }

    /** The window's mouseup listener: the drag ends. */
    method WindowMouseUp()
      requires Valid()
      modifies this
      ensures Valid()
      ensures !isDragging
      ensures startX == old(startX) && startY == old(startY) && lastTouchDistance == old(lastTouchDistance)
      ensures Transform() == old(Transform()) && Session() == old(Session())
    {
      if isDragging {
        isDragging := false;
      }
    }

    /** The window's keydown listener; it acts only while the overlay is shown. */
    method KeyDown(key: string, layout: Layout)
      requires Valid() && Sized(layout)
      modifies this, currentMedia
      ensures Valid()
      ensures Gesture() == old(Gesture()) && currentMedia == old(currentMedia)
      ensures isVideo == old(isVideo) && title == old(title) && children == old(children)
      ensures !old(displayed) ==> Transform() == old(Transform()) && Session() == old(Session())
      ensures old(displayed) && key == "Escape" ==>
        !displayed && bodyOverflow == "" && Transform() == old(Transform())
      ensures old(displayed) && key == "Escape" && currentMedia != null && isVideo ==> currentMedia.paused
      ensures currentMedia != null && (!old(displayed) || key != "Escape" || !isVideo) ==>
        currentMedia.paused == old(currentMedia.paused)
      ensures old(displayed) && key != "Escape" ==> Session() == old(Session())
      ensures old(displayed) && key in KeyZoomPanKeys ==> Clamped(layout)
      ensures old(displayed) && (key == "+" || key == "=") ==>
        scale == Min(MaxScale, old(scale) + KeyZoomStep)
        && translateX == ClampTranslate(old(translateX), scale, layout.width)
        && translateY == ClampTranslate(old(translateY), scale, layout.height)
      ensures old(displayed) && key == "-" ==>
        scale == Max(MinScale, old(scale) - KeyZoomStep)
        && translateX == ClampTranslate(old(translateX), scale, layout.width)
        && translateY == ClampTranslate(old(translateY), scale, layout.height)
      ensures old(displayed) && key == "0" ==> Transform() == TransformState(1.0, 0.0, 0.0)
      ensures old(displayed) && key == "ArrowUp" ==> (
          scale == old(scale)
          && translateX == ClampTranslate(old(translateX), scale, layout.width)
          && translateY == ClampTranslate(old(translateY) + KeyPanStep, scale, layout.height))
      ensures old(displayed) && key == "ArrowDown" ==> (
          scale == old(scale)
          && translateX == ClampTranslate(old(translateX), scale, layout.width)
          && translateY == ClampTranslate(old(translateY) - KeyPanStep, scale, layout.height))
      ensures old(displayed) && key == "ArrowLeft" ==> (
          scale == old(scale)
          && translateX == ClampTranslate(old(translateX) + KeyPanStep, scale, layout.width)
          && translateY == ClampTranslate(old(translateY), scale, layout.height))
      ensures old(displayed) && key == "ArrowRight" ==> (
          scale == old(scale)
          && translateX == ClampTranslate(old(translateX) - KeyPanStep, scale, layout.width)
          && translateY == ClampTranslate(old(translateY), scale, layout.height))
      ensures old(displayed) && key != "Escape" && key !in KeyZoomPanKeys ==>
        Transform() == old(Transform())
    {
      if !displayed {
        return;
      }
      if key == "Escape" {
        ClosePopup();
      } else {
        KeyZoomPan(key, layout);
      }
    }

    /** The keydown cases other than Escape, while the overlay is shown: zoom, reset and pan by key. */
    method KeyZoomPan(key: string, layout: Layout)
      requires Valid() && Sized(layout) && displayed
      modifies this
      ensures Valid() && Gesture() == old(Gesture()) && Session() == old(Session())
      ensures key in KeyZoomPanKeys ==> Clamped(layout)
      ensures key == "+" || key == "=" ==>
        scale == Min(MaxScale, old(scale) + KeyZoomStep)
        && translateX == ClampTranslate(old(translateX), scale, layout.width)
        && translateY == ClampTranslate(old(translateY), scale, layout.height)
      ensures key == "-" ==>
        scale == Max(MinScale, old(scale) - KeyZoomStep)
        && translateX == ClampTranslate(old(translateX), scale, layout.width)
        && translateY == ClampTranslate(old(translateY), scale, layout.height)
      ensures key == "0" ==> Transform() == TransformState(1.0, 0.0, 0.0)
      ensures key == "ArrowUp" ==> (
          scale == old(scale)
          && translateX == ClampTranslate(old(translateX), scale, layout.width)
          && translateY == ClampTranslate(old(translateY) + KeyPanStep, scale, layout.height))
      ensures key == "ArrowDown" ==> (
          scale == old(scale)
          && translateX == ClampTranslate(old(translateX), scale, layout.width)
          && translateY == ClampTranslate(old(translateY) - KeyPanStep, scale, layout.height))
      ensures key == "ArrowLeft" ==> (
          scale == old(scale)
          && translateX == ClampTranslate(old(translateX) + KeyPanStep, scale, layout.width)
          && translateY == ClampTranslate(old(translateY), scale, layout.height))
      ensures key == "ArrowRight" ==> (
          scale == old(scale)
          && translateX == ClampTranslate(old(translateX) - KeyPanStep, scale, layout.width)
          && translateY == ClampTranslate(old(translateY), scale, layout.height))
      ensures key !in KeyZoomPanKeys ==> Transform() == old(Transform())
    {
      if key == "+" || key == "=" {
        ZoomTo(Min(5.0, scale + 0.2), layout);
      } else if key == "-" {
        ZoomTo(Max(0.5, scale - 0.2), layout);
      } else if key == "0" {
        ResetTransform(layout);
      } else if key == "ArrowUp" {
        PanBy(0.0, 50.0, layout);
      } else if key == "ArrowDown" {
        PanBy(0.0, -50.0, layout);
      } else if key == "ArrowLeft" {
        PanBy(50.0, 0.0, layout);
      } else if key == "ArrowRight" {
        PanBy(-50.0, 0.0, layout);
      }
    }

    /** `scale = newScale; applyTransform();` as the zoom keys write it. */
    method ZoomTo(newScale: real, layout: Layout)
      requires Valid() && Sized(layout) && currentMedia != null && MinScale <= newScale <= MaxScale
      modifies this
      ensures Valid() && Clamped(layout) && Gesture() == old(Gesture()) && Session() == old(Session())
      ensures scale == newScale
      ensures translateX == ClampTranslate(old(translateX), scale, layout.width)
      ensures translateY == ClampTranslate(old(translateY), scale, layout.height)
    {
      scale := newScale;
      ApplyTransform(layout);
    }

    /** `translateX += dx; translateY += dy; applyTransform();` as the arrow keys write it. */
    method PanBy(dx: real, dy: real, layout: Layout)
      requires Valid() && Sized(layout) && currentMedia != null
      modifies this
      ensures Valid() && Clamped(layout) && Gesture() == old(Gesture()) && Session() == old(Session())
      ensures scale == old(scale)
      ensures translateX == ClampTranslate(old(translateX) + dx, scale, layout.width)
      ensures translateY == ClampTranslate(old(translateY) + dy, scale, layout.height)
    {
      translateX := translateX + dx;
      translateY := translateY + dy;
      ApplyTransform(layout);
    }
  }

  /**
   * Where the rectangle the browser reports starts, on one axis, for media
   * whose untransformed box starts at `offset` with `size` pixels, drawn
   * with `translate(t) scale(s)` about its centre (openPopup sets
   * transform-origin to center center): the visual centre moves with the
   * translate only. This is the rectangle once the 0.2 s transform
   * transition openPopup also sets has finished.
   */
  function RenderedOffset(offset: real, size: real, s: real, t: real): (r: real)
    ensures r + s * size / 2.0 == offset + size / 2.0 + t
  {
    offset + t + (1.0 - s) * size / 2.0
  }

  /**
   * The rectangle getBoundingClientRect reports for the transformed media.
   * offsetWidth and offsetHeight ignore transforms, so the size stays the box's.
   */
  function RenderedLayout(box: Layout, s: real, tx: real, ty: real): (r: Layout)
    ensures r.width == box.width && r.height == box.height
    ensures r.left == RenderedOffset(box.left, box.width, s, tx)
    ensures r.top == RenderedOffset(box.top, box.height, s, ty)
  {
    Layout(RenderedOffset(box.left, box.width, s, tx), RenderedOffset(box.top, box.height, s, ty), box.width, box.height)
  }

  /**
   * On the rectangle the browser reports, the update handleWheel and
   * handleTouchMove write is the zoom about the pointer plus a drift of
   * -(newScale - scale) * (scale - 1) * size / (2 * scale): the pivot
   * fraction is measured on the scaled rectangle but divided by the
   * unscaled offset size. One axis; `offset` and `size` are the box's.
   */
  lemma WrittenZoomDrifts(offset: real, size: real, s: real, ns: real, t: real, client: real)
    requires size > 0.0 && s > 0.0 && ns > 0.0
    ensures PopupZoomAbout(t, s, ns, size, Fraction(client, RenderedOffset(offset, size, s, t), size))
      == ZoomAboutPointer(t, s, ns, client - (offset + size / 2.0)) - (ns - s) * (s - 1.0) * size / (2.0 * s)
  {
    var d := client - (offset + size / 2.0);
    var rel := Fraction(client, RenderedOffset(offset, size, s, t), size);
    RenderedFraction(offset, size, s, t, client);
    PivotFraction(d - t, size, s, rel);
    var x := (size / s) * (rel - 0.5);
    ScaledFraction(d - t, size, s, x, rel);
    DriftAlgebra(t, s, ns, size, d, rel, x);
  }

  /** The pointer's fraction of the rendered rectangle, scaled back to pixels. */
  lemma RenderedFraction(offset: real, size: real, s: real, t: real, client: real)
    requires size > 0.0
    ensures Fraction(client, RenderedOffset(offset, size, s, t), size) * size
      == (client - (offset + size / 2.0) - t) + s * size / 2.0
  {
    var l := RenderedOffset(offset, size, s, t);
    assert (client - l) / size * size == client - l;
  }

  /** The last step of the drift: both updates written over the same pivot offset `x`. */
  lemma DriftAlgebra(t: real, s: real, ns: real, size: real, d: real, rel: real, x: real)
    requires s > 0.0
    requires x == (size / s) * (rel - 0.5)
    requires x == (d - t) / s + (s - 1.0) * size / (2.0 * s)
    ensures t - (ns - s) * (size / s) * (rel - 0.5)
      == d - (d - t) * (ns / s) - (ns - s) * (s - 1.0) * size / (2.0 * s)
  {
    var k := ns - s;
    assert k * (size / s) * (rel - 0.5) == k * x;
    assert k * x == k * ((d - t) / s) + k * ((s - 1.0) * size / (2.0 * s));
    assert k * ((s - 1.0) * size / (2.0 * s)) == k * (s - 1.0) * size / (2.0 * s);
    assert (d - t) * (ns / s) == (d - t) + k * ((d - t) / s);
  }

  /** The pivot fraction on the rendered rectangle, in terms of the pointer's offset `e` from the visual centre. */
  lemma PivotFraction(e: real, size: real, s: real, rel: real)
    requires size > 0.0
    requires rel * size == e + s * size / 2.0
    ensures rel - 0.5 == e / size + (s - 1.0) / 2.0
  {
    assert (e / size) * size == e;
    assert (rel - e / size - s / 2.0) * size == 0.0;
  }

  /** The unscaled size times the pivot offset, split into the pointer term and the drift term. */
  lemma ScaledFraction(e: real, size: real, s: real, x: real, rel: real)
    requires size > 0.0 && s > 0.0
    requires rel - 0.5 == e / size + (s - 1.0) / 2.0
    requires x == (size / s) * (rel - 0.5)
    ensures x == e / s + (s - 1.0) * size / (2.0 * s)
  {
    assert (size / s) * (e / size) == e / s;
    assert (size / s) * ((s - 1.0) / 2.0) == (s - 1.0) * size / (2.0 * s);
  }

  /** The written update keeps the content under the pointer exactly when the scale is 1 or does not change. */
  lemma WrittenZoomIsAboutPointerOnlyAtScaleOne(offset: real, size: real, s: real, ns: real, t: real, client: real)
    requires size > 0.0 && s > 0.0 && ns > 0.0
    ensures PopupZoomAbout(t, s, ns, size, Fraction(client, RenderedOffset(offset, size, s, t), size))
      == ZoomAboutPointer(t, s, ns, client - (offset + size / 2.0))
      <==> (s == 1.0 || ns == s)
  {
    WrittenZoomDrifts(offset, size, s, ns, t, client);
    DriftVanishes(s, ns, size);
  }

  /** The drift term is zero exactly at scale 1 or with no change of scale. */
  lemma DriftVanishes(s: real, ns: real, size: real)
    requires size > 0.0 && s > 0.0
    ensures (ns - s) * (s - 1.0) * size / (2.0 * s) == 0.0 <==> (s == 1.0 || ns == s)
  {
    var p := (ns - s) * (s - 1.0) * size;
    assert p / (2.0 * s) * (2.0 * s) == p;
    if s != 1.0 && ns != s {
      NonZeroProduct(ns - s, s - 1.0);
      NonZeroProduct((ns - s) * (s - 1.0), size);
    }
  }

  /**
   * Open an image and, with the pointer held still at the image's centre,
   * scroll up twice, the second scroll after the first one's 0.2 s
   * transition has finished; each event sees the rectangle the browser
   * reports for the transform of the moment. The first step (from scale 1) keeps the
   * image in place; the second, from 1.2 to 1.4, moves it a sixtieth of its
   * size up and left, so the content under the pointer drifts.
   */
  method TwoWheelUpsAtCentre(src: string, box: Layout) returns (scale: real, translateX: real, translateY: real)
    requires Measurable(box)
    ensures scale == 1.4 && translateX == -(box.width / 60.0) && translateY == -(box.height / 60.0)
  {
    var popup := new Popup([]);
    popup.OpenPopup(src, "Demo", false, box);
    var centreX := box.left + box.width / 2.0;
    var centreY := box.top + box.height / 2.0;
    popup.HandleWheel(-1.0, centreX, centreY, RenderedLayout(box, popup.scale, popup.translateX, popup.translateY));
    assert popup.scale == 1.2 && popup.translateX == 0.0 && popup.translateY == 0.0;
    WrittenZoomDrifts(box.left, box.width, 1.2, 1.4, 0.0, centreX);
    WrittenZoomDrifts(box.top, box.height, 1.2, 1.4, 0.0, centreY);
    popup.HandleWheel(-1.0, centreX, centreY, RenderedLayout(box, popup.scale, popup.translateX, popup.translateY));
    scale, translateX, translateY := popup.scale, popup.translateX, popup.translateY;
  }

  /** The same two scrolls with the zoom kept about the pointer: the image stays centred. */
  method TwoWheelUpsAboutPointer(src: string, box: Layout) returns (scale: real, translateX: real, translateY: real)
    requires Measurable(box)
    ensures scale == 1.4 && translateX == 0.0 && translateY == 0.0
  {
    var popup := new Popup([]);
    popup.OpenPopup(src, "Demo", false, box);
    var centreX := box.left + box.width / 2.0;
    var centreY := box.top + box.height / 2.0;
    popup.WheelAboutPointer(-1.0, centreX, centreY, box);
    popup.WheelAboutPointer(-1.0, centreX, centreY, box);
    scale, translateX, translateY := popup.scale, popup.translateX, popup.translateY;
  }
}
