# Portfolio site interactivity, modelled in Dafny

This project models the client-side logic of a personal portfolio site's
four scripts:

- **media-popup.js**: a lightbox that shows one image or video. It supports
  wheel zoom meant to be about the pointer (see Findings), pinch zoom,
  zoom buttons, keyboard zoom/pan, mouse and touch drag, and a reset.
  Every translate is clamped to ±(scale−1)·size/2 (to 0 at or below scale
  1), so zoomed-in content, larger than its box, still covers the whole
  box.
- **project-interactions.js**: wheel zoom and drag pan on each project
  thumbnail, with zoom in [1, 3]. Later thumbnails also get a hover
  slideshow that keeps exactly one slide active.
- **dynamic-assets.js**: a fixed table from asset keys to image paths,
  written into the page's elements at load (`src`, or `xlink:href` on SVG
  `<image>`), plus the avatar image.
- **security.js**: a one-shot crawler/headless gate that either lets the
  script finish or throws one of two errors.

Event handlers become methods on classes that hold the handlers' closure
state. Browser reads become inputs:

- layout reads: `getBoundingClientRect` left/top and `offsetWidth`/`offsetHeight`;
- `Math.hypot` of two touches;
- user agent, framing, referrer, hostname and automation flags.

Pixels and scales are `real`.

Files and modules:

- `wrappers.dfy` `Wrappers`: the `Option` datatype.
- `geometry.dfy` `Geometry`: `Math.max`/`Math.min`, the symmetric clamp, the
  zoom-about-pivot updates, pointer fractions.
- `text.dfy` `Text`: ASCII `toLowerCase`, `indexOf`, `includes`.
- `media_popup.dfy` `MediaPopup`: classes `Media` and `Popup`.
- `project_interactions.dfy` `ProjectInteractions`: classes `ZoomContainer`
  and `Slideshow`, plus `SetupSlideshows`.
- `dynamic_assets.dfy` `DynamicAssets`: the asset table, element records
  in an array, `LoadAvatar`, `LoadDynamicImages`.
- `security.dfy` `Security`: the pure `Gate` decision.

Invariants kept by every handler:

- `Popup.Valid()`: scale in [0.5, 5]; pinch distance ≥ 0. Once media is
  mounted, it is the container's only child and `isVideo` describes it.
  Before that, the popup is hidden, untranslated and not dragging.
- `ZoomContainer.Valid()`: zoom in [1, 3].
- `Slideshow.Valid()`: `activeIndex` in [0, n); the timer runs only with
  more than one slide.
- `Clamped(layout)`: after every clamp, each translate is at most
  (scale − 1)·size/2 in absolute value, and exactly 0 at scale ≤ 1.

## Model

| member | source | states |
|---|---|---|
| `Geometry.Max` | assets/js/media-popup.js:197-198 | `Math.max` returns one of its arguments and is at least both |
| `Geometry.Min` | assets/js/media-popup.js:197-198 | `Math.min` returns one of its arguments and is at most both |
| `Geometry.ClampSymmetric` | assets/js/media-popup.js:197-198 | `Math.max(-m, Math.min(m, t))` lies in [-m, m] for m ≥ 0, is t when t is inside, and saturates at ±m outside |
| `Geometry.ClampSymmetricIdempotent` | assets/js/project-interactions.js:93-94 | clamping a clamped value changes nothing |
| `Geometry.ClampSymmetricIsNearest` | assets/js/project-interactions.js:93-94 | the clamp result is at least as close to t as any point of [-m, m] |
| `Geometry.MaxTranslate` | assets/js/media-popup.js:193-194 | (scale−1)·size/2 is non-negative from scale 1 up and 0 at scale 1 |
| `Geometry.ClampKeepsBoxCovered` | assets/js/project-interactions.js:90-95 | content scaled by at least 1 about its box's centre, with a translate within (scale−1)·size/2, still reaches both edges of the box |
| `Geometry.PopupZoomAbout` | assets/js/media-popup.js:101-109 | the popup's zoom-about-pivot update leaves translate unchanged when the pivot is the centre (rel = 0.5) or the scale does not change |
| `Geometry.PopupZoomBranchesAgree` | assets/js/media-popup.js:104-110 | the zoom-in branch `t − (new−s)·w·d` and the zoom-out branch `t + (s−new)·w·d` are the same update |
| `Geometry.WrittenZoomUpdate` | assets/js/media-popup.js:104-110 | the two-branch update as written is `PopupZoomAbout` whichever way the zoom goes |
| `Geometry.ZoomAboutPointer` | assets/js/media-popup.js:101-110 | the intended zoom toward the pointer: the content point under the pointer, (offset − t)/scale from the content centre, is the same after the zoom; it keeps t when the pointer is at the visual centre or the scale is unchanged |
| `Geometry.ThumbnailZoomAbout` | assets/js/project-interactions.js:36-37 | `t − (newZoom−zoom)·size·fraction` is t at fraction 0 or with no zoom change, and decreases when zooming in with the pointer inside |
| `Geometry.Fraction` | assets/js/media-popup.js:92-96 | the pointer's fraction of the element is 0.5 at the centre, 0 at the left/top edge, and within [0, 1] inside |
| `Text.ToLower` | assets/js/security.js:8 | lower-casing keeps the length and maps each character to its lower-case form |
| `Text.ToLowerIdempotent` | assets/js/security.js:8 | lower-casing twice is lower-casing once |
| `Text.IndexOfFrom` | assets/js/security.js:15 | `indexOf` from a position within the string returns the first occurrence at or after it, or −1 exactly when there is none |
| `Text.IndexOf` | assets/js/security.js:15 | `indexOf` is −1 exactly when the search string occurs nowhere; otherwise it is the first occurrence |
| `Text.ContainsIffOccurs` | assets/js/security.js:9 | `includes` holds exactly when there is an occurrence at some index |
| `Text.OccurrenceIsFound` | assets/js/security.js:15 | an occurrence at index i means `indexOf` finds one at or before i |
| `Text.EmptyIsFoundAtStart` | assets/js/security.js:15 | the empty string is found at index 0, so an empty hostname matches every referrer |
| `Security.ContainsAny` | assets/js/security.js:9 | `some(bot => ua.includes(bot))` holds exactly when some listed name is contained |
| `Security.HasInvalidReferrer` | assets/js/security.js:14-15 | the referrer is invalid exactly when it is non-empty and the hostname occurs nowhere in it |
| `Security.Gate` | assets/js/security.js:1-35 | with the bot test `Security.IsPotentialBot` (security.js:8-9) and the headless test `Security.IsHeadless` (security.js:25-29) as its conditions, the outcome is "Unauthorized access" exactly when bot and (framed or invalid referrer); else "Automated access" exactly when headless; else completion |
| `Security.NonBotNeverUnauthorized` | assets/js/security.js:3-12 | a user agent containing none of the ten names after lower-casing never draws the first abort |
| `Security.BotAbortCondition` | assets/js/security.js:12-20 | for a bot user agent, the first abort fires exactly when framed, or when the referrer is non-empty and does not contain the hostname |
| `Security.EmptyReferrerIsValid` | assets/js/security.js:14 | an empty referrer is never invalid |
| `Security.ReferrerWithHostnameIsValid` | assets/js/security.js:15 | a referrer containing the hostname at any position is valid |
| `Security.HeadlessAlwaysAborts` | assets/js/security.js:25-34 | headless markers always abort, whatever the bot check says; for a non-bot agent the abort is "Automated access" |
| `Security.UnauthorizedWinsOverHeadless` | assets/js/security.js:12-34 | when both conditions hold, "Unauthorized access" is the outcome, because it is checked first |
| `Security.BotCheckIgnoresCase` | assets/js/security.js:8-9 | the bot decision on a lower-cased agent equals the decision on the original |
| `Security.CapitalisedBotIsCaught` | assets/js/security.js:8-9 | an agent starting "GoogleBot" is a potential bot despite the capitals |
| `Security.HeadlessMatchIsCaseSensitive` | assets/js/security.js:8-25 | the headless test is case-sensitive: no lower-cased user agent ever matches `/HeadlessChrome/` |
| `DynamicAssets.AssetMapShape` | assets/js/dynamic-assets.js:5-10 | the table has exactly the keys avatar, logo and background, all with non-empty paths, and avatar maps to assets/img/me.png |
| `DynamicAssets.Lookup` | assets/js/dynamic-assets.js:26 | the intended lookup finds a non-empty path exactly for the table's own keys |
| `DynamicAssets.Resolve` | assets/js/dynamic-assets.js:24-35 | a missing, empty or unmapped key leaves the element unchanged; a mapped SVG `image` gets `xlink:href` with `src` untouched; any other mapped element gets `src` with the href untouched; tag, key and ancestry never change |
| `DynamicAssets.ResolveIdempotent` | assets/js/dynamic-assets.js:24-35 | resolving a resolved element changes nothing |
| `DynamicAssets.ResolveDependsOnKeyAndTag` | assets/js/dynamic-assets.js:25-32 | two elements with the same key and tag receive the same write |
| `DynamicAssets.ResolveAll` | assets/js/dynamic-assets.js:22-36 | the intended pass (own keys only): the page after it has the same length, and each element is `Resolve` of that element alone |
| `DynamicAssets.ResolveAllIdempotent` | assets/js/dynamic-assets.js:22-36 | running `loadDynamicImages` twice gives the same page as running it once |
| `DynamicAssets.LoadDynamicImages` | assets/js/dynamic-assets.js:22-36 | the in-place `forEach`, with the lookup as written, leaves the array equal to `ResolveAllAsWritten` of the old page |
| `DynamicAssets.FindAvatarImage` | assets/js/dynamic-assets.js:14 | `querySelector` returns the first matching element in document order, or nothing when none matches |
| `DynamicAssets.AvatarLoadedChangesAtMostOne` | assets/js/dynamic-assets.js:13-19 | `loadAvatar` changes at most one element, and only its `xlink:href`, to the avatar path |
| `DynamicAssets.AvatarLoadedEffect` | assets/js/dynamic-assets.js:13-19 | with no matching element nothing changes; the first match gets `xlink:href = assets/img/me.png` |
| `DynamicAssets.LoadAvatar` | assets/js/dynamic-assets.js:13-19 | the array after `loadAvatar` is `DynamicAssets.AvatarLoaded` of the old page: the first `.avatar__box image` gets the avatar path as `xlink:href`, every other element is kept |
| `DynamicAssets.LoadAssets` | assets/js/dynamic-assets.js:39-40 | the load handler leaves the page equal to `loadAvatar` followed by `loadDynamicImages` as written (`ResolveAllAsWritten` of `AvatarLoaded` of the old page) |
| `DynamicAssets.LookupAsWritten` | assets/js/dynamic-assets.js:26 | `assetMap[key]` as JavaScript evaluates it: own keys as intended; the twelve names inherited from `Object.prototype` (including the Annex B accessor methods) give their truthy values; all other keys are absent |
| `DynamicAssets.ResolveAsWritten` | assets/js/dynamic-assets.js:24-35 | tag, key and ancestry never change; a missing key, or one in neither the table nor `Object.prototype`, leaves the element unchanged; a key of the table is resolved as intended; an inherited name writes the inherited value's text into `xlink:href` of an SVG `image` or into `src` of any other element |
| `DynamicAssets.ResolveAsWrittenIdempotent` | assets/js/dynamic-assets.js:24-35 | resolving an element twice with the lookup as written changes nothing more |
| `DynamicAssets.ResolveAllAsWritten` | assets/js/dynamic-assets.js:22-36 | the page after the pass as written has the same length, and each element is `ResolveAsWritten` of that element alone |
| `DynamicAssets.ResolveAllAsWrittenIdempotent` | assets/js/dynamic-assets.js:22-36 | running `loadDynamicImages` as written twice gives the same page as running it once |
| `DynamicAssets.ResolveAsWrittenIsIntended` | assets/js/dynamic-assets.js:26 | on an element not keyed by an inherited name, the lookup as written gives the intended result |
| `DynamicAssets.ResolveAllAsWrittenIsIntended` | assets/js/dynamic-assets.js:22-36 | on a page where no element is keyed by an inherited name, the pass as written equals the intended pass `ResolveAll` |
| `DynamicAssets.InheritedKeyIsNotSkipped` | assets/js/dynamic-assets.js:24-35 | for every element keyed by an inherited name, the key is not in the table and the intended pass leaves the element alone, but the as-written pass writes the inherited value's non-empty text into `src` (or `xlink:href` on an SVG `image`) |
| `DynamicAssets.ConstructorKeyIsNotSkipped` | assets/js/dynamic-assets.js:26 | an `<img data-image-key="constructor">` is changed by the as-written pass and not by the intended one |
| `MediaPopup.ClampScale` | assets/js/media-popup.js:99 | `Math.max(0.5, Math.min(5, x))` lies in [0.5, 5], is x inside, and saturates outside |
| `MediaPopup.WheelDelta` | assets/js/media-popup.js:98 | the wheel step is +0.2 exactly when `deltaY < 0`, and −0.2 otherwise (also for 0) |
| `MediaPopup.ClampTranslate` | assets/js/media-popup.js:190-205 | above scale 1 the translate is within ±(scale−1)·size/2, and unchanged when already inside; at scale ≤ 1 it is 0 |
| `MediaPopup.ClampTranslateIdempotent` | assets/js/media-popup.js:196-202 | clamping a clamped translate changes nothing |
| `MediaPopup.ZoomPathsStayInRange` | assets/js/media-popup.js:261-269 | button and key steps (`Math.min(5, s+step)`, `Math.max(0.5, s−step)`) from inside [0.5, 5] stay inside |
| `MediaPopup.Media.constructor` | assets/js/media-popup.js:34-59 | a new `<video>` or `<img>` has the given source and kind, and starts paused (`autoplay = false`) |
| `MediaPopup.Media.Play` | assets/js/media-popup.js:37 | the user's native play control leaves the video playing |
| `MediaPopup.Media.Pause` | assets/js/media-popup.js:222 | `pause()` leaves the video paused |
| `MediaPopup.Popup.constructor` | assets/js/media-popup.js:13-20 | the initial state is scale 1, translate (0, 0), no drag, pinch distance 0, no media, hidden |
| `MediaPopup.Popup.ApplyTransform` | assets/js/media-popup.js:190-205 | with media present both translates become their clamp for the current scale; with no media nothing changes; scale is untouched |
| `MediaPopup.Popup.ResetTransform` | assets/js/media-popup.js:208-213 | from any state: scale 1, translate (0, 0); the dblclick listener and the reset button (lines 84, 271) are this method |
| `MediaPopup.Popup.OpenPopup` | assets/js/media-popup.js:23-68 | the container ends with exactly one fresh media child; sets `currentMedia` and `isVideo`; shows the overlay; body overflow hidden; transform reset |
| `MediaPopup.Popup.CardClick` | assets/js/media-popup.js:229-251 | ignored during a drag; otherwise opens the video when `data-video-src` is non-empty, else the image, with the card's title; the gesture state never changes |
| `MediaPopup.Popup.ClosePopup` | assets/js/media-popup.js:216-224 | hides the overlay and restores body overflow; pauses only when `isVideo` and media is present; transform, gesture and mounted media untouched |
| `MediaPopup.Popup.OverlayClick` | assets/js/media-popup.js:255-259 | closes exactly on a click whose target is the overlay or the content container. A close pauses a mounted video and leaves an image's paused flag alone. The transform, gesture, `isVideo`, title and children never change |
| `MediaPopup.Popup.ZoomTranslate` | assets/js/media-popup.js:101-110 | either branch of the translate update equals the zoom about the pivot using unscaled size `offsetWidth/scale` |
| `MediaPopup.Popup.HandleWheel` | assets/js/media-popup.js:88-114 | new scale = `ClampScale(scale ± 0.2)`; each translate = clamp of the written pivot update `PopupZoomAbout` at the pointer's fraction of the reported rectangle; the result is `Clamped` |
| `MediaPopup.Popup.HandleMouseDown` | assets/js/media-popup.js:117-122 | starts a drag with anchor `client − translate`; the transform is untouched |
| `MediaPopup.Popup.HandleTouchStart` | assets/js/media-popup.js:125-137 | one touch starts a drag anchored at touch − translate; two touches stop dragging and record the distance; other counts change nothing |
| `MediaPopup.Popup.HandleTouchMove` | assets/js/media-popup.js:140-181 | one-finger drag pans to touch − anchor and clamps; a pinch zooms by `delta·0.01` about the midpoint and clamps; with a recorded distance of 0 it only records the distance, scale and translate unchanged |
| `MediaPopup.Popup.HandleTouchEnd` | assets/js/media-popup.js:184-187 | clears both the drag flag and the pinch distance |
| `MediaPopup.Popup.ZoomInClick` | assets/js/media-popup.js:261-264 | scale = `min(5, scale+0.5)`, then the clamp |
| `MediaPopup.Popup.ZoomOutClick` | assets/js/media-popup.js:266-269 | scale = `max(0.5, scale−0.5)`, then the clamp |
| `MediaPopup.Popup.WindowMouseMove` | assets/js/media-popup.js:274-279 | while dragging, translate = clamp of `client − anchor`; otherwise nothing changes |
| `MediaPopup.Popup.WindowMouseUp` | assets/js/media-popup.js:281-288 | the drag ends; nothing else changes |
| `MediaPopup.Popup.KeyDown` | assets/js/media-popup.js:291-327 | acts only while shown. Escape closes, pausing a mounted video; no other key, and no key while hidden, touches the media's paused flag. `+`/`=` and `-` step the scale by 0.2 within the bounds; `0` resets; ArrowUp/Down move Y by ±50 and ArrowLeft/Right move X by ±50, each clamped; other keys change nothing; `isVideo`, title and children never change |
| `MediaPopup.Popup.KeyZoomPan` | assets/js/media-popup.js:297-324 | the non-Escape cases of the switch while shown: each handled key's new scale and clamped translate, any other key changes nothing, and gesture and session state stay |
| `MediaPopup.Popup.ZoomTo` | assets/js/media-popup.js:299-304 | a key zoom sets the scale and clamps both translates for it; gesture and session stay |
| `MediaPopup.Popup.PanBy` | assets/js/media-popup.js:310-323 | an arrow key adds its step to one translate and clamps both; the scale, gesture and session stay |
| `MediaPopup.TwoWheelUpsAtCentre` | assets/js/media-popup.js:88-113 | opening an image and wheeling up twice with the pointer held at its centre, each event reading the rectangle the transformed image really has, gives scale 1.4 and translate (−width/60, −height/60): the image drifts (see Findings) |
| `MediaPopup.RenderedOffset` | assets/js/media-popup.js:91-92 | the reported rectangle of media drawn with `translate(t) scale(s)` (line 204) about its centre has its visual centre at the box centre plus t |
| `MediaPopup.RenderedLayout` | assets/js/media-popup.js:91-96 | `getBoundingClientRect` moves with the transform while `offsetWidth`/`offsetHeight` keep the untransformed size |
| `MediaPopup.WrittenZoomDrifts` | assets/js/media-popup.js:91-110 | on the reported rectangle, the written update equals the zoom about the pointer minus (newScale−scale)·(scale−1)·size/(2·scale) |
| `MediaPopup.WrittenZoomIsAboutPointerOnlyAtScaleOne` | assets/js/media-popup.js:91-110 | the written update keeps the content under the pointer exactly when the scale is 1 or does not change |
| `MediaPopup.DriftVanishes` | assets/js/media-popup.js:101-110 | the drift term is zero exactly when scale is 1 or the scale does not change |
| `MediaPopup.Popup.WheelAboutPointer` | assets/js/media-popup.js:88-114 | the corrected wheel handler: the same new scale as the listener, and translates that are the clamp of the zoom about the pointer |
| `MediaPopup.TwoWheelUpsAboutPointer` | assets/js/media-popup.js:88-113 | with the corrected handler, the same two scrolls at the centre leave translate (0, 0) at scale 1.4 |
| `ProjectInteractions.Sign` | assets/js/project-interactions.js:25 | `Math.sign` is −1, 0 or 1 with the sign of its argument |
| `ProjectInteractions.ClampZoom` | assets/js/project-interactions.js:27 | the thumbnail zoom lies in [1, 3] and is unchanged inside |
| `ProjectInteractions.ClampPan` | assets/js/project-interactions.js:89-94 | the translate is within ±(zoom−1)·size/2, unchanged when inside, and 0 at zoom 1 |
| `ProjectInteractions.ZoomContainer.constructor` | assets/js/project-interactions.js:9-13 | a container starts at zoom 1, translate (0, 0), not dragging |
| `ProjectInteractions.ZoomContainer.UpdateTransform` | assets/js/project-interactions.js:89-97 | both translates become their clamp for the current zoom; nothing else changes |
| `ProjectInteractions.ZoomContainer.Wheel` | assets/js/project-interactions.js:18-44 | scrolling out at zoom 1 is a no-op; otherwise zoom = clamp(zoom − sign(deltaY)·0.1) in [1, 3] and translate = clamp of `t − (newZoom−zoom)·size·fraction` (see Findings) |
| `ProjectInteractions.ZoomContainer.WheelAboutPointer` | assets/js/project-interactions.js:18-44 | the corrected listener: the same early return and new zoom, and each translate the clamp of the zoom about the pointer's offset from the container's centre, which keeps the content under the pointer in place |
| `ProjectInteractions.ThumbnailZoomDrifts` | assets/js/project-interactions.js:33-37 | the written update equals the zoom about the pointer minus (newZoom−zoom)·((zoom−1)·d + zoom·size/2 + t)/zoom, d being the pointer's offset from the container's centre |
| `ProjectInteractions.ThumbnailZoomIsAboutPointerOnlyWhen` | assets/js/project-interactions.js:33-37 | the written update keeps the content under the pointer exactly when the zoom is unchanged or (zoom−1)·d + zoom·size/2 + t = 0 |
| `ProjectInteractions.ThumbnailZoomDriftsFromIdentity` | assets/js/project-interactions.js:33-37 | from zoom 1 and translate 0, every written zoom step moves the content under the pointer, wherever the pointer is |
| `ProjectInteractions.WheelUpAtCentre` | assets/js/project-interactions.js:18-44 | one scroll up on a fresh thumbnail with the pointer at the container's centre gives zoom 1.1 and translate (−width/20, −height/20), which the clamp keeps |
| `ProjectInteractions.WheelUpAtCentreAboutPointer` | assets/js/project-interactions.js:18-44 | the same scroll through the corrected listener gives zoom 1.1 and translate (0, 0) |
| `ProjectInteractions.ZoomContainer.MouseDown` | assets/js/project-interactions.js:46-53 | a drag starts, anchored at `client − translate`, only when zoom > 1 |
| `ProjectInteractions.ZoomContainer.WindowMouseMove` | assets/js/project-interactions.js:55-62 | while dragging, translate = clamp of `client − anchor`; otherwise nothing changes |
| `ProjectInteractions.ZoomContainer.WindowMouseUp` | assets/js/project-interactions.js:64-71 | the drag ends and the last translate is remembered |
| `ProjectInteractions.ZoomContainer.MouseLeave` | assets/js/project-interactions.js:73-80 | the drag always ends; at zoom 1 the translate resets to (0, 0); then the clamp |
| `ProjectInteractions.ZoomContainer.DoubleClick` | assets/js/project-interactions.js:82-87 | back to zoom 1 and translate (0, 0) |
| `ProjectInteractions.Slideshow.constructor` | assets/js/project-interactions.js:108-114 | `activeIndex` 0, no timer, slide 0 (if any) made active and the other flags as found |
| `ProjectInteractions.Slideshow.NextSlide` | assets/js/project-interactions.js:116-120 | `activeIndex` advances cyclically in [0, n); "exactly slide `activeIndex` active" is preserved |
| `ProjectInteractions.Slideshow.MouseEnter` | assets/js/project-interactions.js:122-126 | the timer starts only when there is more than one slide |
| `ProjectInteractions.Slideshow.Tick` | assets/js/project-interactions.js:124 | one interval firing is `nextSlide` while the timer runs (the index advances cyclically, and exactly the old slide is deactivated and the new one activated); nothing changes otherwise |
| `ProjectInteractions.Slideshow.MouseLeave` | assets/js/project-interactions.js:128-134 | stops the timer, sets `activeIndex` to 0, and leaves exactly slide 0 active; with no slides it reports the `TypeError` |
| `ProjectInteractions.SetupSlideshows` | assets/js/project-interactions.js:101-114 | container i gets a slideshow exactly when i ≥ 2 and it has a slideshow element; each starts valid at slide 0 with no timer, slide 0 active and the other flags as found |
| `ProjectInteractions.AdvanceKeepsOneActive` | assets/js/project-interactions.js:116-120 | on flag sequences, advancing from "exactly k active" gives "exactly (k+1) mod n active" |

## Left out

- DOM presentation is not modelled. That covers element creation details
  (`id`, `alt`, `controls`, `controlsList`), every `style.*` write (the CSS
  transform string, transitions, cursor, box shadow), `addEventListener`
  registration, and `preventDefault`.
- `console.error` in security.js is not modelled. It is output only; the
  thrown error is the modelled outcome.
- assets/js/pdfscript.js is not part of this model. It is a promise chain
  over the external `pdfjsLib` with no logic of its own.
- Floating-point rounding is not modelled; pixel and scale values are
  exact reals, and every comparison is an exact comparison of reals.
- `MediaPopup.Popup.HandleWheel`: requires a non-zero offset size. Zero
  width or height divides by zero and gives NaN, which is not modelled.
- `MediaPopup.Popup.HandleTouchMove`: requires a non-zero offset size, for
  the same reason. The pinch distance is an input; its relation to the two
  touches (`Math.hypot`) is only that it is non-negative.
- `ProjectInteractions.ZoomContainer.Wheel`: requires a non-zero offset
  size, for the same reason.
- `ProjectInteractions.ZoomContainer.Wheel`: gives the translate formula
  as written and does not claim that the point under the pointer stays
  fixed. The script never sets `transform-origin` on `.zoom-image`, and the
  stylesheet is not part of this model. The drift lemmas and the corrected
  `WheelAboutPointer` take the initial origin (the centre) and an image
  that fills its container. Under a top-left origin the written formula
  would keep the point fixed from zoom 1, but the symmetric clamp would
  then allow a translate that uncovers a strip of the box.
- Layout reads are inputs to each handler. The model assumes nothing about
  them staying the same between events.
- `DynamicAssets.LookupAsWritten`: the inherited values are the text V8
  gives for `String()` of a native function. Other engines lay that text out
  differently (Firefox breaks it over lines). The finding only needs the
  text to be non-empty, which holds in every engine.
- `MediaPopup.RenderedLayout`: takes the transform about the media's
  centre, the `transformOrigin = 'center center'` that `openPopup` sets
  (media-popup.js:43 for video, 56 for images). `openPopup` also sets
  `transition: transform 0.2s ease` (lines 42 and 55), so this is the
  rectangle the browser reports only once that transition has finished;
  `MediaPopup.TwoWheelUpsAtCentre` therefore assumes the two scrolls are at
  least 0.2 s apart. Mid-transition rectangles are not modelled. The popup
  handlers themselves take the reported rectangle as an input, as the
  listeners read it.
- `MediaPopup.Popup.HandleTouchMove`: keeps the written pinch update. The
  drift lemmas cover it too, since it uses the same update about the
  pinch midpoint, but there is no corrected pinch handler. Only the wheel
  handler has a corrected counterpart.
- `Text.ToLower`: lower-cases ASCII letters only. Full Unicode case mapping
  is not modelled; for example U+212A KELVIN SIGN lower-cases to an ASCII
  `k` in JavaScript.
- The selector `.avatar__box image` is not parsed. An element matches when
  it is flagged as inside an `avatar__box` and its tag name is `image`.
  `[data-image-key]` selects the elements whose key is present.
- `startX`/`startY` in project-interactions.js are implicit globals, shared
  by every thumbnail. The model keeps them per container. A drag ends on
  mouseleave, so at most one container drags at a time.
- `lastTranslateX`/`lastTranslateY` are recorded on mouseup but never read.
- The interval is a running flag plus a `Tick` event; the 1500 ms period is
  not modelled. Two mouseenter events without a mouseleave between them
  would, in the browser, start a second interval that mouseleave never
  clears. The model keeps a single flag instead (mouseenter fires once per
  entry).
- `MediaPopup.Media.Play` stands for the user pressing the video's native
  play control. The script itself never plays a video.
- Only the behaviour of this version of media-popup.js is modelled. It has
  image and video popups only, with no embedded-document or multi-slide
  popups and no embed-key table. Closing does not unmount the media, clear
  `currentMedia` or reset the transform. The overlay also closes on a click
  on the content container. The model follows the code in all of these.
- The element a handler is registered on is assumed present. Handlers
  registered on the mounted media (wheel, mousedown, touch) require
  `currentMedia != null`; they can only fire after a media element exists.

## Findings

The handlers model the code as written: the popup's wheel and pinch
handlers use the written zoom update, and `DynamicAssets.LoadDynamicImages`
and `DynamicAssets.LoadAssets` use the lookup as written
(`DynamicAssets.ResolveAllAsWritten`), and the thumbnail's
`ZoomContainer.Wheel` uses its written update. Next to them are the
corrected definitions (`Popup.WheelAboutPointer` and
`ZoomContainer.WheelAboutPointer`, both with `Geometry.ZoomAboutPointer`,
and `DynamicAssets.Resolve` with `DynamicAssets.ResolveAll`), each with its
intended property proved; `DynamicAssets.ResolveAllAsWrittenIsIntended`
shows the two passes agree on every page without an inherited key.

| source | as written | input that shows it | evidently intended | confidence | as-written member | corrected member |
|---|---|---|---|---|---|---|
| assets/js/media-popup.js:91-110 | the pivot fraction is measured on the transformed rectangle (`getBoundingClientRect`) but divided by the untransformed `offsetWidth`, and `offsetWidth / scale` is taken as the unscaled size. So above scale 1 the wheel and pinch zooms are not about the pointer; they drift by (newScale−scale)·(scale−1)·width/(2·scale) | an image at scale 1.2, translate 0, pointer at its centre, wheel up: `translateX` becomes −width/60 instead of 0 | the point under the cursor stays fixed | not executed; medium (assumes the second scroll comes after the first one's 0.2 s transition has finished) | `MediaPopup.TwoWheelUpsAtCentre` | `MediaPopup.Popup.WheelAboutPointer` |
| assets/js/project-interactions.js:33-37 | the translate moves by (newZoom−zoom) times the pointer's offset from the container's top-left corner, which keeps the point under the pointer only for a top-left transform-origin from zoom 1; with the image scaled about its centre the content drifts by (newZoom−zoom)·((zoom−1)·d + zoom·size/2 + t)/zoom | a fresh thumbnail, pointer at the container's centre, wheel up: zoom 1.1, `translateX` becomes −width/20 instead of 0, and the clamp keeps it | the point under the cursor stays fixed | not executed; medium (assumes the stylesheet leaves `transform-origin` at its initial centre, which the symmetric clamp also presumes) | `ProjectInteractions.WheelUpAtCentre` | `ProjectInteractions.ZoomContainer.WheelAboutPointer` |
| assets/js/dynamic-assets.js:26 | `assetMap[key]` on an object literal also finds the properties every object inherits from `Object.prototype`, and they are all truthy | `<img data-image-key="constructor">`: `src` becomes the text of the `Object` function instead of being skipped | keys outside the table are skipped (an own-property lookup) | not executed; high | `DynamicAssets.InheritedKeyIsNotSkipped` | `DynamicAssets.Resolve` |
