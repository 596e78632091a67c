/**
 * dynamic-assets.js: a fixed table from symbolic asset keys to image paths,
 * applied in place to the page's elements at load time. The page is an
 * array of element records; only the attributes the script reads or writes
 * are kept.
 */
module DynamicAssets {
  import opened Wrappers
  import opened Text

  /** assetMap: the only keys are avatar, logo and background. */
  const AssetMap: map<string, string> := map[
    "avatar" := "assets/img/me.png",
    "logo" := "assets/img/logo.png",
    "background" := "assets/img/background.jpg"
  ]

  const AvatarPath: string := "assets/img/me.png"

  /** One element of the page, with the attributes the script touches. */
  datatype Element = Element(
    tagName: string,           // as the DOM reports it (upper case for HTML, as written for SVG)
    imageKey: Option<string>,  // data-image-key; None when the attribute is absent
    src: string,               // the src property
    xlinkHref: Option<string>, // the xlink:href attribute; None when absent
    insideAvatarBox: bool      // the element has an ancestor of class avatar__box
  )

  /** Every own value of the table is a non-empty path, so `assetMap[key]` is truthy exactly on the keys. */
  lemma AssetMapShape()
    ensures AssetMap.Keys == {"avatar", "logo", "background"}
    ensures forall k :: k in AssetMap ==> AssetMap[k] != ""
    ensures AssetMap["avatar"] == AvatarPath
  {
  }

  /** The table lookup as intended: own keys of the table only. */
  function Lookup(key: string): (r: Option<string>)
    ensures r.Some? <==> key in AssetMap
    ensures r.Some? ==> r.value == AssetMap[key] && r.value != ""
  {
    if key in AssetMap then Some(AssetMap[key]) else None
  }

  /** The element carries a non-empty key that the table maps. */
  predicate IsMapped(e: Element) {
    e.imageKey.Some? && e.imageKey.value != "" && e.imageKey.value in AssetMap
  }

  /** An SVG <image>: tagName.toLowerCase() === 'image'. */
  predicate IsSvgImage(e: Element) {
    ToLower(e.tagName) == "image"
  }

  /**
   * The forEach body of loadDynamicImages on one element: a mapped SVG
   * <image> gets xlink:href, any other mapped element gets src, and an
   * element with a missing, empty or unmapped key is left alone.
   */
  function Resolve(e: Element): (r: Element)
    ensures r.tagName == e.tagName && r.imageKey == e.imageKey && r.insideAvatarBox == e.insideAvatarBox
    ensures !IsMapped(e) ==> r == e
    ensures IsMapped(e) && IsSvgImage(e) ==>
      r.xlinkHref == Some(AssetMap[e.imageKey.value]) && r.src == e.src
    ensures IsMapped(e) && !IsSvgImage(e) ==>
      r.src == AssetMap[e.imageKey.value] && r.xlinkHref == e.xlinkHref
  {
    match e.imageKey
    case None => e
    case Some(key) =>
      var value := Lookup(key);
      if key != "" && value.Some? then
        if IsSvgImage(e) then e.(xlinkHref := Some(value.value)) else e.(src := value.value)
      else e
  }

  /** Resolving an already resolved element changes nothing. */
  lemma ResolveIdempotent(e: Element)
    ensures Resolve(Resolve(e)) == Resolve(e)
  {
  }

  /** Two elements with the same key and tag receive the same write. */
  lemma ResolveDependsOnKeyAndTag(e1: Element, e2: Element)
    requires e1.imageKey == e2.imageKey && e1.tagName == e2.tagName
    ensures IsMapped(e1) == IsMapped(e2)
    ensures IsMapped(e1) && IsSvgImage(e1) ==> Resolve(e1).xlinkHref == Resolve(e2).xlinkHref
    ensures IsMapped(e1) && !IsSvgImage(e1) ==> Resolve(e1).src == Resolve(e2).src
  {
  }

  /** loadDynamicImages over the whole page, as a function of the page before it. */
  function ResolveAll(page: seq<Element>): (r: seq<Element>)
    ensures |r| == |page|
    ensures forall i :: 0 <= i < |page| ==> r[i] == Resolve(page[i])
  {
    if page == [] then [] else [Resolve(page[0])] + ResolveAll(page[1..])
  }

  /** Running loadDynamicImages twice leaves the page as running it once. */
  lemma ResolveAllIdempotent(page: seq<Element>)
    ensures ResolveAll(ResolveAll(page)) == ResolveAll(page)
  {
    forall i | 0 <= i < |page| ensures ResolveAll(ResolveAll(page))[i] == ResolveAll(page)[i] {
      ResolveIdempotent(page[i]);
    }
  }

  // ---------------------------------------------------------------------
  // The lookup as the script writes it. `assetMap[key]` on an object
  // literal also finds the properties every object inherits from
  // Object.prototype, all of which are truthy, so those keys are not
  // skipped. Their values reach the element's attribute as the strings
  // below: String() of an inherited function in V8's format, or of
  // Object.prototype for __proto__. The names include the legacy accessor
  // methods that every major browser defines on Object.prototype.
  // ---------------------------------------------------------------------

  const InheritedMembers: map<string, string> := map[
    "constructor" := "function Object() { [native code] }",
    "toString" := "function toString() { [native code] }",
    "toLocaleString" := "function toLocaleString() { [native code] }",
    "valueOf" := "function valueOf() { [native code] }",
    "hasOwnProperty" := "function hasOwnProperty() { [native code] }",
    "isPrototypeOf" := "function isPrototypeOf() { [native code] }",
    "propertyIsEnumerable" := "function propertyIsEnumerable() { [native code] }",
    "__defineGetter__" := "function __defineGetter__() { [native code] }",
    "__defineSetter__" := "function __defineSetter__() { [native code] }",
    "__lookupGetter__" := "function __lookupGetter__() { [native code] }",
    "__lookupSetter__" := "function __lookupSetter__() { [native code] }",
    "__proto__" := "[object Object]"
  ]

  /** assetMap[key] as JavaScript evaluates it: own property first, then the inherited ones. */
  function LookupAsWritten(key: string): (r: Option<string>)
    ensures key in AssetMap ==> r == Lookup(key)
    ensures key !in AssetMap && key in InheritedMembers ==> r == Some(InheritedMembers[key])
    ensures key !in AssetMap && key !in InheritedMembers ==> r.None?
  {
    if key in AssetMap then Some(AssetMap[key])
    else if key in InheritedMembers then Some(InheritedMembers[key])
    else None
  }

  /**
   * The forEach body with the lookup as written: a key of the table is
   * resolved as intended, an inherited name writes the inherited value's
   * text, and any other key leaves the element alone.
   */
  function ResolveAsWritten(e: Element): (r: Element)
    ensures r.tagName == e.tagName && r.imageKey == e.imageKey && r.insideAvatarBox == e.insideAvatarBox
    ensures e.imageKey.None? || (e.imageKey.value !in AssetMap && e.imageKey.value !in InheritedMembers) ==> r == e
    ensures e.imageKey.Some? && e.imageKey.value in AssetMap ==> r == Resolve(e)
    ensures e.imageKey.Some? && e.imageKey.value !in AssetMap && e.imageKey.value in InheritedMembers ==>
      r == if IsSvgImage(e) then e.(xlinkHref := Some(InheritedMembers[e.imageKey.value]))
           else e.(src := InheritedMembers[e.imageKey.value])
  {
    match e.imageKey
    case None => e
    case Some(key) =>
      var value := LookupAsWritten(key);
      if key != "" && value.Some? then
        if IsSvgImage(e) then e.(xlinkHref := Some(value.value)) else e.(src := value.value)
      else e
  }

  /** Resolving an element twice with the lookup as written changes nothing more. */
  lemma ResolveAsWrittenIdempotent(e: Element)
    ensures ResolveAsWritten(ResolveAsWritten(e)) == ResolveAsWritten(e)
  {
  }

  /** The whole pass as written, as a function of the page before it. */
  function ResolveAllAsWritten(page: seq<Element>): (r: seq<Element>)
    ensures |r| == |page|
    ensures forall i :: 0 <= i < |page| ==> r[i] == ResolveAsWritten(page[i])
  {
    if page == [] then [] else [ResolveAsWritten(page[0])] + ResolveAllAsWritten(page[1..])
  }

  /** Running the pass as written twice leaves the page as running it once. */
  lemma ResolveAllAsWrittenIdempotent(page: seq<Element>)
    ensures ResolveAllAsWritten(ResolveAllAsWritten(page)) == ResolveAllAsWritten(page)
  {
    forall i | 0 <= i < |page| ensures ResolveAllAsWritten(ResolveAllAsWritten(page))[i] == ResolveAllAsWritten(page)[i] {
      ResolveAsWrittenIdempotent(page[i]);
    }
  }

  /** An element not keyed by an inherited name is resolved as intended by the pass as written. */
  lemma ResolveAsWrittenIsIntended(e: Element)
    requires e.imageKey.Some? ==> e.imageKey.value !in InheritedMembers
    ensures ResolveAsWritten(e) == Resolve(e)
  {
    if e.imageKey.Some? && e.imageKey.value !in AssetMap {
      assert !IsMapped(e);
    }
  }

  /** On a page where no element is keyed by an inherited name, the pass as written is the intended one. */
  lemma {:induction false} ResolveAllAsWrittenIsIntended(page: seq<Element>)
    requires forall i :: 0 <= i < |page| && page[i].imageKey.Some? ==> page[i].imageKey.value !in InheritedMembers
    ensures ResolveAllAsWritten(page) == ResolveAll(page)
  {
    if page != [] {
      ResolveAsWrittenIsIntended(page[0]);
      ResolveAllAsWrittenIsIntended(page[1..]);
    }
  }

  /** loadDynamicImages: the forEach over the elements that carry data-image-key, with the lookup as written. */
  method LoadDynamicImages(page: array<Element>)
    modifies page
    ensures page[..] == ResolveAllAsWritten(old(page[..]))
  {
    var i := 0;
    while i < page.Length
      invariant 0 <= i <= page.Length
      invariant forall k :: 0 <= k < i ==> page[k] == ResolveAsWritten(old(page[k]))
      invariant forall k :: i <= k < page.Length ==> page[k] == old(page[k])
    {
      if page[i].imageKey.Some? {
        page[i] := ResolveAsWritten(page[i]);
      }
      i := i + 1;
    }
  }

  /** The element matches the selector `.avatar__box image`. */
  predicate IsAvatarImage(e: Element) {
    e.insideAvatarBox && e.tagName == "image"
  }

  /** Index `i` is where querySelector('.avatar__box image') stops: the first match in document order. */
  predicate IsFirstAvatarImage(page: seq<Element>, i: int) {
    0 <= i < |page| && IsAvatarImage(page[i]) && forall j :: 0 <= j < i ==> !IsAvatarImage(page[j])
  }

  /** document.querySelector over the elements from index `from` on. */
  function FindAvatarImage(page: seq<Element>, from: nat): (r: Option<nat>)
    decreases |page| - from
    ensures r.Some? ==> from <= r.value < |page| && IsAvatarImage(page[r.value])
    ensures r.Some? ==> forall j :: from <= j < r.value ==> !IsAvatarImage(page[j])
    ensures r.None? ==> forall j :: from <= j < |page| ==> !IsAvatarImage(page[j])
  {
    if from >= |page| then None
    else if IsAvatarImage(page[from]) then Some(from)
    else FindAvatarImage(page, from + 1)
  }

  /** The page after loadAvatar: the first match gets xlink:href = the avatar path, nothing else changes. */
  function AvatarLoaded(page: seq<Element>): (r: seq<Element>)
    ensures |r| == |page|
  {
    seq(|page|, i requires 0 <= i < |page| =>
      if IsFirstAvatarImage(page, i) then page[i].(xlinkHref := Some(AvatarPath)) else page[i])
  }

  /** loadAvatar changes at most one element, and only its xlink:href. */
  lemma AvatarLoadedChangesAtMostOne(page: seq<Element>, i: int, j: int)
    requires 0 <= i < |page| && 0 <= j < |page|
    requires AvatarLoaded(page)[i] != page[i] && AvatarLoaded(page)[j] != page[j]
    ensures i == j
    ensures AvatarLoaded(page)[i] == page[i].(xlinkHref := Some(AvatarPath))
  {
  }

  /** Without a matching element loadAvatar does nothing; with one, the first gets the avatar path. */
  lemma AvatarLoadedEffect(page: seq<Element>)
    ensures (forall j :: 0 <= j < |page| ==> !IsAvatarImage(page[j])) ==> AvatarLoaded(page) == page
    ensures forall i :: IsFirstAvatarImage(page, i) ==> AvatarLoaded(page)[i].xlinkHref == Some(AvatarPath)
  {
  }

  /** loadAvatar: querySelector, then one setAttributeNS on the element found. */
  method LoadAvatar(page: array<Element>)
    modifies page
    ensures page[..] == AvatarLoaded(old(page[..]))
  {
    var avatarImage := FindAvatarImage(page[..], 0);
    if avatarImage.Some? {
      var i := avatarImage.value;
      page[i] := page[i].(xlinkHref := Some(AssetMap["avatar"]));
    }
  }

  /** The DOMContentLoaded handler: loadAvatar, then loadDynamicImages. */
  method LoadAssets(page: array<Element>)
    modifies page
    ensures page[..] == ResolveAllAsWritten(AvatarLoaded(old(page[..])))
  {
    LoadAvatar(page);
    LoadDynamicImages(page);
  }

  /**
   * An element keyed by an inherited name: the intended pass skips it, the
   * pass as written stores the inherited value's text in its src (or, on an
   * SVG <image>, its xlink:href).
   */
  lemma InheritedKeyIsNotSkipped(e: Element)
    requires e.imageKey.Some? && e.imageKey.value in InheritedMembers
    ensures e.imageKey.value !in AssetMap && Resolve(e) == e
    ensures var text := InheritedMembers[e.imageKey.value];
      text != "" && ResolveAsWritten(e) == if IsSvgImage(e) then e.(xlinkHref := Some(text)) else e.(src := text)
  {
    var key := e.imageKey.value;
    assert key != "" && key !in AssetMap;
    assert InheritedMembers[key] != "";
  }

  /** An <img data-image-key="constructor">: the key is not in the table, yet its src is overwritten. */
  lemma ConstructorKeyIsNotSkipped()
    ensures var e := Element("IMG", Some("constructor"), "", None, false);
      "constructor" !in AssetMap && ResolveAsWritten(e) != e && Resolve(e) == e
  {
    var e := Element("IMG", Some("constructor"), "", None, false);
    assert ResolveAsWritten(e).src == "function Object() { [native code] }";
  }
}
