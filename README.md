# YouTube embed and table of contents, modelled in Dafny

This project models two client components of vuepress-theme-hope.

**The `YouTube` embed component** turns its props into an embed URL and renders that URL:
- The *core URL* is the video id followed by `?`. Without an id, it is a playlist query whose list id always carries the `PL` prefix.
- The *params* are a `URLSearchParams` filled by conditional `set` calls in a fixed order.
- The *video link* is `https://www.youtube.com/embed/`, then the core URL, then the serialized params.
- The component renders nothing when there is no link. Otherwise it renders a screen-reader link, an iframe and, until the frame has loaded, a loading icon.

**The `TOC` component** renders the page's header tree as nested lists of links:
- The list item (`li.vp-toc-item`) of the header whose slug the route hash names gets the `active` class.
- On a hash change, the TOC's scrolling wrapper scrolls so that the selected link is aligned to whichever edge it overflows.
- After every route change, the marker is placed beside the active item.
- The component renders nothing when it has neither headers nor slot content.

Files:
- `wrappers.dfy`: `Option`.
- `decimal.dfy`: JavaScript `toString()` of an integer, and a parser that reads it back.
- `search_params.dfy`: an abstract `URLSearchParams`, covering `set`, `toString` and a parser for the round trip.
- `youtube.dfy`: the YouTube component.
- `toc_scroll.dfy`: the TOC's scrolling and marker. This includes the `TocPanel` class, which holds the `tocMarkerTop` ref and the wrapper element.
- `toc_render.dfy`: the TOC's rendering.

How the source is modelled:
- **`params`** is a method, `BuildParams`, written as the source's straight-line sequence of `set` calls. The source has five blank-line groups. The first four are the methods `SetPlaybackFlags`, `SetTimeRange`, `SetLanguages` and `SetControlFlags`, and the fifth, the single `playlist` call, is written inline in `BuildParams`. It is proved equal to `Query`, a declarative table stating which of the thirteen parameters is present and with which value. The lemmas about `Query` state exactly what each name maps to.
- **The hash watcher and `updateTocMarker`** are methods on `TocPanel`. Each is proved against a pure decision function (`HashScroll`, `MarkerTop`), and those functions carry the geometric properties.
- **Module state and the DOM** are parameters: the page language, the route hash, the rendered links with their bounding rectangles, and the wrapper's rectangle and scroll offset.

## Model

| member | source | states |
|---|---|---|
| YouTube.OrElse | packages/components/src/client/components/YouTube.ts:186-188 | `s \|\| fallback`: the prop when it is a non-empty string, the fallback otherwise |
| YouTube.NormalizeList | packages/components/src/client/components/YouTube.ts:169 | the list id always starts with `PL`; it is unchanged exactly when it already did, otherwise `PL` is prefixed |
| YouTube.NormalizeListIdempotent | packages/components/src/client/components/YouTube.ts:169 | normalising a list id twice is the same as once |
| YouTube.CoreURL | packages/components/src/client/components/YouTube.ts:164-172 | a core URL, when there is one, is never empty (so the `coreURL.value ?` test only tests presence) |
| YouTube.IdTakesPrecedence | packages/components/src/client/components/YouTube.ts:164-166 | with a non-empty id the core URL is `id?`, whatever `listType` and `list` say |
| YouTube.PlaylistCoreURL | packages/components/src/client/components/YouTube.ts:167-171 | without an id there is a core URL exactly when `listType` is `playlist` and `list` is non-empty; it is the playlist query with the normalised id, ending in `&` |
| YouTube.SetPlaybackFlags | packages/components/src/client/components/YouTube.ts:177-180 | after the four playback-flag `set` calls the pairs are exactly those of the first four parameters |
| YouTube.SetTimeRange | packages/components/src/client/components/YouTube.ts:182-183 | after the `start`/`end` calls the pairs are exactly those of the first six parameters |
| YouTube.SetLanguages | packages/components/src/client/components/YouTube.ts:185-189 | after the `hl`, `cc_lang_pref` and `color` calls the pairs are exactly those of the first nine parameters |
| YouTube.SetControlFlags | packages/components/src/client/components/YouTube.ts:191-193 | after the three disabling flags the pairs are exactly those of the first twelve parameters |
| YouTube.BuildParams | packages/components/src/client/components/YouTube.ts:174-198 | the `URLSearchParams` that `params` fills holds exactly the query `Query` specifies |
| YouTube.StepSelect | packages/components/src/client/components/YouTube.ts:174-195 | a `set` of a name not yet present appends its pair, so the fixed call order gives the fixed pair order |
| YouTube.SelectPresent | packages/components/src/client/components/YouTube.ts:174-195 | the pairs are, one by one, the present parameters' names and values, with strictly increasing positions |
| YouTube.NameDecodes | packages/components/src/client/components/YouTube.ts:177-195 | each parameter name decodes back to its parameter |
| YouTube.NameInjective | packages/components/src/client/components/YouTube.ts:177-195 | two parameters share a name exactly when they are the same parameter |
| YouTube.NotSelected | packages/components/src/client/components/YouTube.ts:174-195 | a parameter is not named before its own `set` call |
| YouTube.OnlyParamNames | packages/components/src/client/components/YouTube.ts:174-195 | no name other than the thirteen parameter names is ever set |
| YouTube.SelectLookup | packages/components/src/client/components/YouTube.ts:174-195 | after the first `n` calls, each earlier parameter reads back its value and each later one reads back nothing |
| YouTube.QueryParam | packages/components/src/client/components/YouTube.ts:177-195 | in the final query each parameter's name reads back exactly the value its prop gives it |
| YouTube.QueryLookup | packages/components/src/client/components/YouTube.ts:174-197 | every name reads back its parameter's value, and a name that is no parameter reads back nothing |
| YouTube.QueryOrdered | packages/components/src/client/components/YouTube.ts:177-195 | every query name is a parameter name, and the names come in the order of the `set` calls |
| YouTube.QueryDistinct | packages/components/src/client/components/YouTube.ts:175-195 | no name occurs twice in the query |
| YouTube.QueryLanguages | packages/components/src/client/components/YouTube.ts:185-189 | `hl` and `cc_lang_pref` are always present, falling back to the page language when the prop is absent or empty; `color` is always `white` |
| YouTube.QueryPlaybackFlags | packages/components/src/client/components/YouTube.ts:177-180 | `autoplay`, `loop`, `cc_load_policy` and `iv_load_policy` are present exactly when their props are set, with values `1`, `1`, `1` and `3` |
| YouTube.QueryControlFlags | packages/components/src/client/components/YouTube.ts:191-193 | `controls`, `fs` and `disablekb` are present exactly when their `disable…` props are set, with values `0`, `0` and `1` |
| YouTube.QueryOptionalValues | packages/components/src/client/components/YouTube.ts:182-195 | `start` and `end` are present exactly when truthy, so `0` and `""` are dropped, with their `toString()`; `playlist` is present exactly when non-empty |
| Decimal.FromInt | packages/components/src/client/components/YouTube.ts:182-183 | a number's `toString()` is never empty and starts with `-` exactly for a negative number (read back by `Decimal.FromIntRoundTrip`); the same text is the number in the marker's `px` value, see `TocScroll.MarkerTop` |
| YouTube.TimeText | packages/components/src/client/components/YouTube.ts:182-183 | `toString()` of `start`/`end`: a number's text reads back as that number, and a string is itself |
| YouTube.TimeTruthy | packages/components/src/client/components/YouTube.ts:182-183 | `if (props.start)`: a truthy value has non-empty text, and a number is falsy exactly when its text is `0` |
| YouTube.ValueForShape | packages/components/src/client/components/YouTube.ts:177-195 | the per-parameter table: `hl`, `cc_lang_pref` and `color` are always set, and every other parameter that is set has a non-empty value |
| YouTube.QueryStartSeconds | packages/components/src/client/components/YouTube.ts:182 | a numeric start time is written as decimal text that reads back as the same number |
| Decimal.FromIntRoundTrip | packages/components/src/client/components/YouTube.ts:182-183 | the decimal text of an integer parses back to that integer |
| SearchParams.SetReplaces | packages/components/src/client/components/YouTube.ts:177-195 | `set` (modelled by `SearchParams.Set`) of a name already present gives its first pair the new value in place and removes any later pairs with that name |
| SearchParams.SetAppends | packages/components/src/client/components/YouTube.ts:177 | `set` of a name not yet present appends the pair at the end |
| SearchParams.SetLookup | packages/components/src/client/components/YouTube.ts:177 | after `set`, the name reads back the new value and every other name reads back what it did before |
| SearchParams.ParseSerialize | packages/components/src/client/components/YouTube.ts:197 | `toString()` (modelled by `SearchParams.Serialize`) of pairs whose names and values hold no separators parses back to exactly those pairs |
| SearchParams.SerializeAppend | packages/components/src/client/components/YouTube.ts:197-202 | serializing two non-empty lists one after the other joins their texts with `&` |
| YouTube.VideoLink | packages/components/src/client/components/YouTube.ts:200-204 | there is a link exactly when there is a core URL; it is the embed base, the core URL and the serialized params |
| YouTube.VideoLinkShape | packages/components/src/client/components/YouTube.ts:164-204 | every link is the embed base, the id or nothing, `?`, and one well-formed query whose pairs are the playlist pairs (for a playlist) followed by the params |
| YouTube.PlaylistLinkShape | packages/components/src/client/components/YouTube.ts:168-202 | the playlist core URL's trailing `&` joins the list pairs to the params in one query |
| YouTube.VideoLinkQueryReadsBack | packages/components/src/client/components/YouTube.ts:197-202 | when no prop value holds `&`, the link's query parses back to exactly its pairs |
| YouTube.Render | packages/components/src/client/components/YouTube.ts:206-231 | no nodes without a link; otherwise the description link and the iframe both point to the link and carry the title, and the third node is the loading icon exactly while not loaded |
| YouTube.RendersNothingIff | packages/components/src/client/components/YouTube.ts:164-231 | the component renders nothing exactly when there is neither a non-empty id nor `listType` `playlist` with a non-empty `list` |
| YouTube.DefaultRendersNothing | packages/components/src/client/components/YouTube.ts:164-231 | a component with only default props renders nothing |
| TocScroll.FindLinkIndex | packages/theme/src/client/modules/info/components/TOC.ts:71-73 | the selector finds the first link whose `href` ends with the hash, or none when no link does |
| TocScroll.AlignTarget | packages/theme/src/client/modules/info/components/TOC.ts:84-100 | an item above the wrapper scrolls up until its top meets the wrapper's top; one below scrolls down until the bottoms meet; an item inside causes no scroll, and only such an item |
| TocScroll.HashScroll | packages/theme/src/client/modules/info/components/TOC.ts:68-101 | no wrapper or no selected link means no scroll; otherwise the scroll is the alignment of the selected link |
| TocScroll.AlignedItemVisible | packages/theme/src/client/modules/info/components/TOC.ts:84-100 | an item no taller than the wrapper is fully visible after the scroll, and the same hash does not scroll again |
| TocScroll.MarkerOffset | packages/theme/src/client/modules/info/components/TOC.ts:45-61 | there is an offset exactly when the wrapper and an active item exist; it is the item's distance from the wrapper's top plus the scroll offset |
| TocScroll.MarkerOffsetScrollInvariant | packages/theme/src/client/modules/info/components/TOC.ts:50-57 | scrolling the wrapper does not move the marker relative to the content |
| TocScroll.MarkerTop | packages/theme/src/client/modules/info/components/TOC.ts:45-61 | the marker's CSS `top` is the sentinel `-1.7rem` exactly when there is no offset; otherwise it is `<offset>px` and reads back as the offset |
| TocScroll.TocPanel.constructor | packages/theme/src/client/modules/info/components/TOC.ts:38-39 | the marker starts at the sentinel |
| TocScroll.TocPanel.ScrollTo | packages/theme/src/client/modules/info/components/TOC.ts:41-43 | the wrapper's scroll offset becomes the requested one and nothing else changes |
| TocScroll.TocPanel.UpdateTocMarker | packages/theme/src/client/modules/info/components/TOC.ts:45-62 | the marker becomes `MarkerTop` of the wrapper and the active item, a pixel value that reads back as the offset |
| TocScroll.TocPanel.OnHashChange | packages/theme/src/client/modules/info/components/TOC.ts:66-103 | nothing happens without a wrapper; otherwise the scroll offset becomes the one `HashScroll` chooses (unchanged when it chooses none), after which a link that fits is inside the wrapper |
| TocRender.RenderHeader | packages/theme/src/client/modules/info/components/TOC.ts:111-126 | the link goes to `#slug`, is classed `level<level>` and shows the title |
| TocRender.RenderChildren | packages/theme/src/client/modules/info/components/TOC.ts:128-153 | no list exactly for no headers; otherwise one entry per header |
| TocRender.RenderEntries | packages/theme/src/client/modules/info/components/TOC.ts:135-151 | entry `i` is header `i`'s link, is active exactly when the hash is `#slug`, and nests the rendering of its children (none when it has none) |
| TocRender.EntriesInDocumentOrder | packages/theme/src/client/modules/info/components/TOC.ts:128-153 | from any sibling on, the rendered items read in document order are the headers' links and active marks in preorder |
| TocRender.RenderedInDocumentOrder | packages/theme/src/client/modules/info/components/TOC.ts:128-153 | the whole rendered tree, read in document order, is one item per header in preorder, none lost or added |
| TocRender.ActiveIffHashIsAnchor | packages/theme/src/client/modules/info/components/TOC.ts:144 | the `i`-th rendered item is active exactly when the hash is the `i`-th header's anchor |
| TocRender.AnchorInjective | packages/theme/src/client/modules/info/components/TOC.ts:119 | two slugs give the same anchor exactly when they are equal |
| TocRender.AtMostOneActive | packages/theme/src/client/modules/info/components/TOC.ts:139-147 | with distinct slugs at most one item in the whole tree is active, so the marker's `.vp-toc-item.active` lookup is unambiguous |
| TocRender.SlotTruthy | packages/theme/src/client/modules/info/components/TOC.ts:157-160 | a slot that is absent or returns `null` is falsy; one that returns a node or any array, even an empty one, is truthy |
| TocRender.ChosenHeaders | packages/theme/src/client/modules/info/components/TOC.ts:156 | `items ?? headers`: given items, even an empty list, are used; the page headers only when no items are given |
| TocRender.Render | packages/theme/src/client/modules/info/components/TOC.ts:155-207 | nothing is rendered exactly when there are no headers and neither slot gives content; the slots are passed through; the body is present exactly when there are headers and holds their list and the marker position |

## Left out

- URL percent-encoding: `toString()` writes `name=value` pairs without encoding. Real `URLSearchParams` percent-encodes. The read-back lemmas therefore require values without `&`.
- Other `URLSearchParams` behaviour: only `set` and `toString` are used by the component. Parsing exists only to state the round trip.
- Numbers as floating point: `start` and `end` numbers, rectangle coordinates and scroll offsets are integers. JavaScript's `toString()` of non-integral numbers, `NaN` and very large magnitudes is not modelled.
- The iframe's size: `useSize`, `width`, `height`, `ratio` and the zero height before loading are not modelled. The loaded flag is a parameter of `YouTube.Render`. The `onLoad` handler that sets it is not modelled.
- Locale and theme composables are parameters. `useLang` is the page language, `useRoute` is the route hash, `useHeaders` is the page headers and `useMetaLocale` is not modelled. The same goes for `PrintButton` and the `useToggle` expand state, including its arrow and `open` classes and the click handlers.
- Vue reactivity: `computed`, `watch`, `flush: "post"`, `immediate` and `onMounted` are not modelled. Each watcher is a method the caller invokes with the current DOM state.
- DOM queries are parameters: the rendered links with their rectangles, and the active item's rectangle.
- `querySelector` errors: a hash that makes an invalid CSS selector would throw, but the model treats it as a plain suffix match.
- The TOC's per-header list items: for each header the source puts two children in the `ul`, the `li.vp-toc-item` holding the link and then a sibling `li` wrapping the nested list (or `null`). The model folds that sibling `li` into the entry's `sublist` field. Document order is kept, as `TocRender.RenderedInDocumentOrder` states.
- Smooth scrolling: `scrollTo` is an immediate assignment of the scroll offset. This leaves out the animation and the browser's clamping of the offset to the scrollable range.
- `TocScroll.TocPanel.OnHashChange`: the after-scroll visibility clause holds only when the offset is not clamped, which the model does not represent.
- The theme's option types and the demo site configuration (`options.ts`, `config.ts`) are configuration, not behaviour.
