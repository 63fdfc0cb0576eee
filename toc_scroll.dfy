/**
 * The TOC's geometry: which link the route hash selects, how far the TOC
 * wrapper scrolls to bring it into view, and where the active-item marker
 * sits. Rectangles are viewport coordinates in whole pixels.
 */
module TocScroll {
  import opened Wrappers
  import Decimal

  /** The part of a bounding client rectangle the TOC reads. */
  datatype Rect = Rect(top: int, height: int) {
    function Bottom(): int {
      top + height
    }
  }

  /** The TOC wrapper element: its rectangle and the scroll offset of its content. */
  datatype Wrapper = Wrapper(rect: Rect, scrollTop: int)

  /** A rendered TOC link, in document order: its `href` and its rectangle. */
  datatype Link = Link(href: string, rect: Rect)

  /** The marker's position before any item is known. */
  const MarkerSentinel: string := "-1.7rem"

  /** The attribute selector `[href$="hash"]`: `href` ends with `hash`; an empty value matches nothing. */
  predicate HrefEndsWith(href: string, hash: string) {
    hash != "" && |hash| <= |href| && href[|href| - |hash|..] == hash
  }

  /** `querySelector` over the links: the index of the first one the hash selects. */
  function FindLinkIndex(links: seq<Link>, hash: string): (r: Option<nat>)
    ensures r.Some? ==> r.value < |links| && HrefEndsWith(links[r.value].href, hash)
    ensures r.Some? ==> forall j :: 0 <= j < r.value ==> !HrefEndsWith(links[j].href, hash)
    ensures r.None? ==> forall j :: 0 <= j < |links| ==> !HrefEndsWith(links[j].href, hash)
  {
    if links == [] then None
    else if HrefEndsWith(links[0].href, hash) then Some(0)
    else match FindLinkIndex(links[1..], hash)
      case None => None
      case Some(i) => Some(i + 1)
  }

  /** The rectangle of the link the hash selects, if any. */
  function FindLink(links: seq<Link>, hash: string): Option<Rect> {
    match FindLinkIndex(links, hash)
    case None => None
    case Some(i) => Some(links[i].rect)
  }

  /** The item's rectangle once the wrapper content has scrolled from `from` to `to`. */
  function Scrolled(item: Rect, from: int, to: int): (r: Rect)
    ensures r.height == item.height
    ensures r.top - item.top == from - to
  {
    Rect(item.top - (to - from), item.height)
  }

  predicate Inside(item: Rect, view: Rect) {
    view.top <= item.top && item.Bottom() <= view.Bottom()
  }

  /**
   * The scroll of the hash watcher: an item above the wrapper is aligned to
   * its top edge, one below it to its bottom edge, one inside causes no scroll.
   */
  function AlignTarget(w: Wrapper, item: Rect): (r: Option<int>)
    ensures item.top < w.rect.top ==>
      r.Some? && r.value < w.scrollTop && Scrolled(item, w.scrollTop, r.value).top == w.rect.top
    ensures w.rect.top <= item.top && item.Bottom() > w.rect.Bottom() ==>
      r.Some? && r.value > w.scrollTop && Scrolled(item, w.scrollTop, r.value).Bottom() == w.rect.Bottom()
    ensures r.None? <==> Inside(item, w.rect)
  {
    if item.top < w.rect.top then
      Some(w.scrollTop + item.top - w.rect.top)
    else if item.top + item.height > w.rect.top + w.rect.height then
      Some(w.scrollTop + item.top + item.height - w.rect.top - w.rect.height)
    else None
  }

  /** The watcher on `route.hash`: no wrapper or no selected link means no scroll. */
  function HashScroll(wrapper: Option<Wrapper>, links: seq<Link>, hash: string): (r: Option<int>)
    ensures wrapper.None? || FindLink(links, hash).None? ==> r.None?
    ensures wrapper.Some? && FindLink(links, hash).Some? ==> r == AlignTarget(wrapper.value, FindLink(links, hash).value)
  {
    match wrapper
    case None => None
    case Some(w) =>
      match FindLink(links, hash)
      case None => None
      case Some(item) => AlignTarget(w, item)
  }

  /** An item no taller than the wrapper is fully visible after the scroll, and a second event does not scroll again. */
  lemma AlignedItemVisible(w: Wrapper, item: Rect)
    requires item.height <= w.rect.height
    requires AlignTarget(w, item).Some?
    ensures Inside(Scrolled(item, w.scrollTop, AlignTarget(w, item).value), w.rect)
    ensures AlignTarget(w.(scrollTop := AlignTarget(w, item).value),
                        Scrolled(item, w.scrollTop, AlignTarget(w, item).value)).None?
  {
  }

  /** `updateTocMarker`: the active item's offset from the top of the wrapper's scrolled content. */
  function MarkerOffset(wrapper: Option<Wrapper>, active: Option<Rect>): (r: Option<int>)
    ensures r.Some? <==> wrapper.Some? && active.Some?
    ensures r.Some? ==> r.value - wrapper.value.scrollTop == active.value.top - wrapper.value.rect.top
  {
    match wrapper
    case None => None
    case Some(w) =>
      match active
      case None => None
      case Some(item) => Some(item.top - w.rect.top + w.scrollTop)
  }

  /** Scrolling moves the item and the content together, so the marker offset does not change. */
  lemma MarkerOffsetScrollInvariant(w: Wrapper, item: Rect, to: int)
    ensures MarkerOffset(Some(w.(scrollTop := to)), Some(Scrolled(item, w.scrollTop, to)))
         == MarkerOffset(Some(w), Some(item))
  {
  }

  /** The pixel length `<n>px` written into a CSS value, or `None` for any other text. */
  function PixelValue(css: string): Option<int> {
    if |css| >= 2 && css[|css| - 2..] == "px" then Decimal.ParseInt(css[..|css| - 2]) else None
  }

  /** The CSS `top` of the marker: the offset in pixels, or the sentinel when there is no offset. */
  function MarkerTop(wrapper: Option<Wrapper>, active: Option<Rect>): (r: string)
    ensures r == MarkerSentinel <==> MarkerOffset(wrapper, active).None?
    ensures PixelValue(r) == MarkerOffset(wrapper, active)
  {
    match MarkerOffset(wrapper, active)
    case None => MarkerSentinel
    case Some(n) =>
      var css := Decimal.FromInt(n) + "px";
      assert css[|css| - 2..] == "px" && css[..|css| - 2] == Decimal.FromInt(n);
      Decimal.FromIntRoundTrip(n);
      assert css[|css| - 1] == 'x';
      css
  }

  /**
   * The TOC's mutable state: the `tocMarkerTop` ref and the wrapper element
   * the `toc` ref points to (absent while no headers are rendered).
   */
  class TocPanel {
    var markerTop: string
    var wrapper: Option<Wrapper>

    constructor (wrapper: Option<Wrapper>)
      ensures this.wrapper == wrapper && markerTop == MarkerSentinel
    {
      this.wrapper := wrapper;
      markerTop := MarkerSentinel;
    }

    /** `scrollTo`: the wrapper's content jumps to the requested offset. */
    method ScrollTo(top: int)
      requires wrapper.Some?
      modifies this`wrapper
      ensures wrapper == Some(old(wrapper).value.(scrollTop := top))
    {
      wrapper := Some(wrapper.value.(scrollTop := top));
    }

    /** `updateTocMarker`, run after every route change. */
    method UpdateTocMarker(active: Option<Rect>)
      modifies this`markerTop
      ensures markerTop == MarkerTop(wrapper, active)
      ensures PixelValue(markerTop) == MarkerOffset(wrapper, active)
    {
      if wrapper.Some? {
        if active.Some? {
          markerTop := Decimal.FromInt(active.value.top - wrapper.value.rect.top + wrapper.value.scrollTop) + "px";
        } else {
          markerTop := MarkerSentinel;
        }
      } else {
        markerTop := MarkerSentinel;
      }
    }

    /** The watcher on `route.hash`: scroll the selected link into view. */
    method OnHashChange(hash: string, links: seq<Link>)
      modifies this`wrapper
      ensures old(wrapper).None? ==> wrapper == old(wrapper)
      ensures old(wrapper).Some? ==>
        wrapper == Some(old(wrapper).value.(scrollTop := HashScroll(old(wrapper), links, hash).GetOr(old(wrapper).value.scrollTop)))
      ensures (old(wrapper).Some? && FindLink(links, hash).Some?
               && FindLink(links, hash).value.height <= old(wrapper).value.rect.height) ==>
        Inside(Scrolled(FindLink(links, hash).value, old(wrapper).value.scrollTop, wrapper.value.scrollTop), wrapper.value.rect)
    {
      if wrapper.Some? {
        var activeTocItem := FindLink(links, hash);
        if activeTocItem.None? {
          return;
        }
        var toc, item := wrapper.value, activeTocItem.value;
        if item.top < toc.rect.top {
          ScrollTo(toc.scrollTop + item.top - toc.rect.top);
        } else if item.top + item.height > toc.rect.top + toc.rect.height {
          ScrollTo(toc.scrollTop + item.top + item.height - toc.rect.top - toc.rect.height);
        }
      }
    }
  }
}
