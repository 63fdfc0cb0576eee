/**
 * The TOC's rendering: the header tree becomes nested lists of links, the
 * entry whose slug the route hash names is marked active, and the component
 * renders nothing when it has neither headers nor slot content.
 */
module TocRender {
  import opened Wrappers
  import Decimal

  /** A page header: its title, heading level, anchor slug and sub-headers. */
  datatype Header = Header(title: string, level: nat, slug: string, children: seq<Header>)

  /** `renderHeader`: a link to the header's anchor, classed by its level. */
  datatype TocLink = TocLink(to: string, levelClass: string, title: string)

  /**
   * What one header puts into its `ul`: the `li.vp-toc-item` holding the link,
   * with `active` on that `li`, then the sibling `li` wrapping the nested list
   * of its sub-headers, or `null` when it has none.
   */
  datatype TocEntry = TocEntry(link: TocLink, active: bool, sublist: Option<TocList>)

  datatype TocList = TocList(entries: seq<TocEntry>)

  function Anchor(slug: string): string {
    "#" + slug
  }

  function RenderHeader(h: Header): (r: TocLink)
    ensures r.to == Anchor(h.slug) && r.title == h.title
    ensures r.levelClass == "level" + Decimal.FromInt(h.level)
  {
    TocLink(Anchor(h.slug), "level" + Decimal.FromInt(h.level), h.title)
  }

  /** `renderChildren`: no list for no headers; otherwise one entry per header, in order. */
  function RenderChildren(headers: seq<Header>, hash: string): (r: Option<TocList>)
    ensures r.None? <==> headers == []
    ensures r.Some? ==> |r.value.entries| == |headers|
    decreases headers, 1
  {
    if |headers| == 0 then None else Some(TocList(RenderEntries(headers, hash)))
  }

  /** The entries of `renderChildren`'s list, one per header: its item's link and active mark, then its nested list. */
  function RenderEntries(headers: seq<Header>, hash: string): (r: seq<TocEntry>)
    ensures |r| == |headers|
    ensures forall i :: 0 <= i < |headers| ==>
      && r[i].link == RenderHeader(headers[i])
      && (r[i].active <==> hash == Anchor(headers[i].slug))
      && r[i].sublist == RenderChildren(headers[i].children, hash)
    decreases headers, 0
  {
    if headers == [] then []
    else
      var h := headers[0];
      [TocEntry(RenderHeader(h), hash == Anchor(h.slug), RenderChildren(h.children, hash))]
        + RenderEntries(headers[1..], hash)
  }

  /** The headers of a tree in document order: each header, then its sub-headers, then its siblings. */
  function Preorder(headers: seq<Header>): seq<Header>
    decreases headers
  {
    if headers == [] then [] else [headers[0]] + Preorder(headers[0].children) + Preorder(headers[1..])
  }

  /** The rendered items of a list in document order, from its entry `from` on: each link with its active mark. */
  function ListItems(l: TocList, from: nat): seq<(TocLink, bool)>
    decreases l, |l.entries| - from
  {
    if from >= |l.entries| then []
    else
      var e := l.entries[from];
      [(e.link, e.active)]
        + (if e.sublist.Some? then ListItems(e.sublist.value, 0) else [])
        + ListItems(l, from + 1)
  }

  /** What a header contributes to the rendered document, on its own. */
  function ItemOf(h: Header, hash: string): (TocLink, bool) {
    (RenderHeader(h), hash == Anchor(h.slug))
  }

  function ItemsOf(headers: seq<Header>, hash: string): (r: seq<(TocLink, bool)>)
    ensures |r| == |headers|
    ensures forall i :: 0 <= i < |headers| ==> r[i] == ItemOf(headers[i], hash)
  {
    if headers == [] then [] else [ItemOf(headers[0], hash)] + ItemsOf(headers[1..], hash)
  }

  lemma ItemsOfAppend(a: seq<Header>, b: seq<Header>, hash: string)
    ensures ItemsOf(a + b, hash) == ItemsOf(a, hash) + ItemsOf(b, hash)
  {
    assert |ItemsOf(a + b, hash)| == |ItemsOf(a, hash) + ItemsOf(b, hash)|;
    forall i | 0 <= i < |a + b| ensures ItemsOf(a + b, hash)[i] == (ItemsOf(a, hash) + ItemsOf(b, hash))[i] {
      if i < |a| { assert (a + b)[i] == a[i]; } else { assert (a + b)[i] == b[i - |a|]; }
    }
  }

  /** Rendering keeps the tree: in document order, every header from the `from`-th sibling on gives one item, its link and its active mark. */
  lemma {:induction false} EntriesInDocumentOrder(headers: seq<Header>, hash: string, from: nat)
    requires from <= |headers|
    ensures ListItems(TocList(RenderEntries(headers, hash)), from) == ItemsOf(Preorder(headers[from..]), hash)
    decreases headers, |headers| - from
  {
    var l := TocList(RenderEntries(headers, hash));
    if from == |headers| {
      assert headers[from..] == [];
    } else {
      var h := headers[from];
      var rest := headers[from..];
      assert rest[0] == h && rest[1..] == headers[from + 1..];
      EntriesInDocumentOrder(h.children, hash, 0);
      EntriesInDocumentOrder(headers, hash, from + 1);
      assert h.children[0..] == h.children;
      if h.children != [] {
        assert l.entries[from].sublist.value == TocList(RenderEntries(h.children, hash));
      } else {
        assert Preorder(h.children) == [];
      }
      ItemsOfAppend([h], Preorder(h.children), hash);
      ItemsOfAppend([h] + Preorder(h.children), Preorder(headers[from + 1..]), hash);
    }
  }

  /** The items of the whole rendered tree, in document order. */
  function RenderedItems(headers: seq<Header>, hash: string): seq<(TocLink, bool)> {
    match RenderChildren(headers, hash)
    case None => []
    case Some(l) => ListItems(l, 0)
  }

  /** `renderChildren` keeps the tree: every header, in document order, gives one item with its link and active mark. */
  lemma RenderedInDocumentOrder(headers: seq<Header>, hash: string)
    ensures RenderedItems(headers, hash) == ItemsOf(Preorder(headers), hash)
  {
    if headers != [] {
      EntriesInDocumentOrder(headers, hash, 0);
      assert headers[0..] == headers;
    }
  }

  /** An item is active exactly when the hash is its header's anchor. */
  lemma ActiveIffHashIsAnchor(headers: seq<Header>, hash: string, i: nat)
    requires i < |Preorder(headers)|
    ensures |RenderedItems(headers, hash)| == |Preorder(headers)|
    ensures RenderedItems(headers, hash)[i].1 <==> hash == Anchor(Preorder(headers)[i].slug)
  {
    RenderedInDocumentOrder(headers, hash);
  }

  lemma AnchorInjective(a: string, b: string)
    ensures Anchor(a) == Anchor(b) <==> a == b
  {
    assert Anchor(a)[1..] == a && Anchor(b)[1..] == b;
  }

  predicate DistinctSlugs(hs: seq<Header>) {
    forall i, j :: 0 <= i < j < |hs| ==> hs[i].slug != hs[j].slug
  }

  /** When no two headers share a slug, at most one item in the whole rendered tree is active. */
  lemma AtMostOneActive(headers: seq<Header>, hash: string)
    requires DistinctSlugs(Preorder(headers))
    ensures var items := RenderedItems(headers, hash);
      forall i, j :: 0 <= i < j < |items| ==> !(items[i].1 && items[j].1)
  {
    var items := RenderedItems(headers, hash);
    var hs := Preorder(headers);
    RenderedInDocumentOrder(headers, hash);
    forall i, j | 0 <= i < j < |items| ensures !(items[i].1 && items[j].1) {
      AnchorInjective(hs[i].slug, hs[j].slug);
    }
  }

  /** What a slot function gives back: `null`, one node, or an array of nodes (an empty array counts as content). */
  datatype SlotResult = NullNode | Node(tag: string) | Nodes(tags: seq<string>)

  /** JavaScript truthiness of `slots.x?.()`: an absent slot and `null` are falsy; a node and any array, even empty, are truthy. */
  predicate SlotTruthy(s: Option<SlotResult>)
    ensures s.None? || s == Some(NullNode) ==> !SlotTruthy(s)
    ensures s.Some? && (s.value.Node? || s.value.Nodes?) ==> SlotTruthy(s)
  {
    s.Some? && !s.value.NullNode?
  }

  /** The TOC body: the header list and the marker below it. */
  datatype TocBody = TocBody(list: TocList, markerTop: string)

  /** The placeholder the component renders: `before`, the body when there are headers, `after`. */
  datatype TocView = TocView(before: Option<SlotResult>, body: Option<TocBody>, after: Option<SlotResult>)

  /** `props.items ?? headers.value`: the given items, even an empty list; the page headers only when none are given. */
  function ChosenHeaders(items: Option<seq<Header>>, pageHeaders: seq<Header>): (r: seq<Header>)
    ensures items.Some? ==> r == items.value
    ensures items.None? ==> r == pageHeaders
  {
    items.GetOr(pageHeaders)
  }

  /** The component's render function. */
  function Render(items: Option<seq<Header>>, pageHeaders: seq<Header>, hash: string,
                  before: Option<SlotResult>, after: Option<SlotResult>, markerTop: string): (r: Option<TocView>)
    ensures r.None? <==> ChosenHeaders(items, pageHeaders) == [] && !SlotTruthy(before) && !SlotTruthy(after)
    ensures r.Some? ==> r.value.before == before && r.value.after == after
    ensures r.Some? ==> (r.value.body.Some? <==> ChosenHeaders(items, pageHeaders) != [])
    ensures r.Some? && r.value.body.Some? ==>
      && |r.value.body.value.list.entries| == |ChosenHeaders(items, pageHeaders)|
      && r.value.body.value.list == RenderChildren(ChosenHeaders(items, pageHeaders), hash).value
      && r.value.body.value.markerTop == markerTop
  {
    var tocHeaders := RenderChildren(ChosenHeaders(items, pageHeaders), hash);
    if tocHeaders.Some? || SlotTruthy(before) || SlotTruthy(after) then
      Some(TocView(before,
                   match tocHeaders case None => None case Some(l) => Some(TocBody(l, markerTop)),
                   after))
    else None
  }
}
