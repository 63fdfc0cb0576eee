/**
 * The YouTube embed component: from its props to the embed URL and to the
 * nodes it renders. The props are read as JavaScript reads them: an absent
 * or empty string is falsy, and so is a numeric `0`.
 */
module YouTube {
  import opened Wrappers
  import Decimal
  import opened SearchParams

  /** `start` and `end` accept a string or a number of seconds. */
  datatype TimeValue = Seconds(n: int) | Text(s: string)

  /** The props the URL and the rendering depend on (the size props are not modelled). */
  datatype Props = Props(
    id: Option<string>,
    title: string,
    autoplay: bool,
    loop: bool,
    showCc: bool,
    showAnnotations: bool,
    start: Option<TimeValue>,
    end: Option<TimeValue>,
    defaultCcLang: Option<string>,
    uiLang: Option<string>,
    listType: Option<string>,
    list: Option<string>,
    playlist: Option<string>,
    disableControls: bool,
    disableFullscreen: bool,
    disableKeyboard: bool)

  const DefaultTitle: string := "A YouTube video"

  /** The props of a component written without attributes: the declared defaults. */
  function DefaultProps(): Props {
    Props(None, DefaultTitle, false, false, false, false, None, None,
          None, None, None, None, None, false, false, false)
  }

  const EmbedBase: string := "https://www.youtube.com/embed/"
  const PlaylistCore: string := "?listType=playlist&list="

  /** JavaScript truthiness of an optional string. */
  predicate Truthy(s: Option<string>) {
    s.Some? && s.value != ""
  }

  /** `toString()` of a string-or-number: a number's text reads back as the number, a string is itself. */
  function TimeText(t: TimeValue): (r: string)
    ensures t.Seconds? ==> Decimal.ParseInt(r) == Some(t.n)
    ensures t.Text? ==> r == t.s
  {
    match t
    case Seconds(n) => Decimal.FromIntRoundTrip(n); Decimal.FromInt(n)
    case Text(s) => s
  }

  /**
   * JavaScript truthiness of an optional string-or-number: a truthy value has
   * non-empty text, and a number is falsy exactly when its text is `0`.
   */
  predicate TimeTruthy(t: Option<TimeValue>)
    ensures TimeTruthy(t) ==> t.Some? && TimeText(t.value) != ""
    ensures t.Some? && t.value.Seconds? ==> (TimeTruthy(t) <==> TimeText(t.value) != "0")
  {
    match t
    case None => false
    case Some(Seconds(n)) =>
      Decimal.FromIntInjective(n, 0);
      assert Decimal.FromInt(0) == "0";
      n != 0
    case Some(Text(s)) => s != ""
  }

  /** `s || fallback` for an optional string. */
  function OrElse(s: Option<string>, fallback: string): (r: string)
    ensures Truthy(s) ==> r == s.value
    ensures !Truthy(s) ==> r == fallback
  {
    if Truthy(s) then s.value else fallback
  }

  /** A playlist id with the `PL` prefix the embed player expects. */
  function NormalizeList(list: string): (r: string)
    ensures "PL" <= r
    ensures r == list <==> "PL" <= list
    ensures r == list || r == "PL" + list
  {
    if "PL" <= list then list else "PL" + list
  }

  lemma NormalizeListIdempotent(list: string)
    ensures NormalizeList(NormalizeList(list)) == NormalizeList(list)
  {
  }

  /** `coreURL`: the path and the start of the query, before the params. */
  function CoreURL(p: Props): (r: Option<string>)
    ensures r.Some? ==> r.value != ""
  {
    if Truthy(p.id) then Some(p.id.value + "?")
    else if p.listType == Some("playlist") && Truthy(p.list) then
      Some(PlaylistCore + NormalizeList(p.list.value) + "&")
    else None
  }

  /** With a video id the core URL is the id and `?`, whatever the playlist props say. */
  lemma IdTakesPrecedence(p: Props, listType: Option<string>, list: Option<string>)
    requires Truthy(p.id)
    ensures CoreURL(p) == CoreURL(p.(listType := listType, list := list)) == Some(p.id.value + "?")
  {
  }

  /** Without a video id a core URL exists exactly for a non-empty list of type `playlist`, whose id is normalised. */
  lemma PlaylistCoreURL(p: Props)
    requires !Truthy(p.id)
    ensures CoreURL(p).Some? <==> p.listType == Some("playlist") && Truthy(p.list)
    ensures CoreURL(p).Some? ==> CoreURL(p).value == PlaylistCore + NormalizeList(p.list.value) + "&"
  {
  }

  /** The query parameters `params` can set, in the order it sets them. */
  datatype Param = Autoplay | Loop | CcLoadPolicy | IvLoadPolicy | Start | End | Hl | CcLangPref
                 | Color | Controls | Fullscreen | DisableKb | PlaylistParam

  const ParamCount: nat := 13

  /** The name a parameter is written under. */
  function Name(k: Param): string {
    match k
    case Autoplay => "autoplay"
    case Loop => "loop"
    case CcLoadPolicy => "cc_load_policy"
    case IvLoadPolicy => "iv_load_policy"
    case Start => "start"
    case End => "end"
    case Hl => "hl"
    case CcLangPref => "cc_lang_pref"
    case Color => "color"
    case Controls => "controls"
    case Fullscreen => "fs"
    case DisableKb => "disablekb"
    case PlaylistParam => "playlist"
  }

  /** The position of a parameter in the order `params` sets them. */
  function Rank(k: Param): (r: nat)
    ensures r < ParamCount
  {
    match k
    case Autoplay => 0 case Loop => 1 case CcLoadPolicy => 2 case IvLoadPolicy => 3
    case Start => 4 case End => 5 case Hl => 6 case CcLangPref => 7 case Color => 8
    case Controls => 9 case Fullscreen => 10 case DisableKb => 11 case PlaylistParam => 12
  }

  /** The parameter at a position. */
  function ParamAt(r: nat): (k: Param)
    requires r < ParamCount
    ensures Rank(k) == r
  {
    match r
    case 0 => Autoplay case 1 => Loop case 2 => CcLoadPolicy case 3 => IvLoadPolicy
    case 4 => Start case 5 => End case 6 => Hl case 7 => CcLangPref case 8 => Color
    case 9 => Controls case 10 => Fullscreen case 11 => DisableKb case _ => PlaylistParam
  }

  lemma ParamAtRank(k: Param)
    ensures ParamAt(Rank(k)) == k
  {
  }

  /** The parameter a name stands for, if any. */
  function ParamNamed(s: string): (r: Option<Param>)
    ensures r.Some? ==> Name(r.value) == s
  {
    if s == "autoplay" then Some(Autoplay)
    else if s == "loop" then Some(Loop)
    else if s == "cc_load_policy" then Some(CcLoadPolicy)
    else if s == "iv_load_policy" then Some(IvLoadPolicy)
    else if s == "start" then Some(Start)
    else if s == "end" then Some(End)
    else if s == "hl" then Some(Hl)
    else if s == "cc_lang_pref" then Some(CcLangPref)
    else if s == "color" then Some(Color)
    else if s == "controls" then Some(Controls)
    else if s == "fs" then Some(Fullscreen)
    else if s == "disablekb" then Some(DisableKb)
    else if s == "playlist" then Some(PlaylistParam)
    else None
  }

  /** Every parameter's name decodes to that parameter, so no two parameters share a name. */
  lemma NameDecodes(k: Param)
    ensures ParamNamed(Name(k)) == Some(k)
  {
    match k
    case Autoplay => case Loop => case CcLoadPolicy => case IvLoadPolicy =>
    case Start => case End => case Hl => case CcLangPref => case Color =>
    case Controls => case Fullscreen => case DisableKb => case PlaylistParam =>
  }

  /** Parameter names hold no query separator. */
  lemma NamePlain(k: Param)
    ensures '&' !in Name(k) && '=' !in Name(k)
  {
    match k
    case Autoplay => case Loop => case CcLoadPolicy => case IvLoadPolicy =>
    case Start => case End => case Hl => case CcLangPref => case Color =>
    case Controls => case Fullscreen => case DisableKb => case PlaylistParam =>
  }

  function Flag(on: bool, value: string): Option<string> {
    if on then Some(value) else None
  }

  /** The value a parameter takes for the given props and page language; `None` leaves it out. */
  function ValueFor(p: Props, lang: string, k: Param): Option<string> {
    match k
    case Autoplay => Flag(p.autoplay, "1")
    case Loop => Flag(p.loop, "1")
    case CcLoadPolicy => Flag(p.showCc, "1")
    case IvLoadPolicy => Flag(p.showAnnotations, "3")
    case Start => if TimeTruthy(p.start) then Some(TimeText(p.start.value)) else None
    case End => if TimeTruthy(p.end) then Some(TimeText(p.end.value)) else None
    case Hl => Some(OrElse(p.uiLang, lang))
    case CcLangPref => Some(OrElse(p.defaultCcLang, lang))
    case Color => Some("white")
    case Controls => Flag(p.disableControls, "0")
    case Fullscreen => Flag(p.disableFullscreen, "0")
    case DisableKb => Flag(p.disableKeyboard, "1")
    case PlaylistParam => if Truthy(p.playlist) then p.playlist else None
  }

  /** `hl`, `cc_lang_pref` and `color` are always set; every other parameter that is set has a non-empty value. */
  lemma ValueForShape(p: Props, lang: string, k: Param)
    ensures k == Hl || k == CcLangPref || k == Color ==> ValueFor(p, lang, k).Some?
    ensures ValueFor(p, lang, k).Some? && k != Hl && k != CcLangPref ==> ValueFor(p, lang, k).value != ""
  {
  }

  /** The pair a parameter contributes: none, or its name with its value. */
  function EntryFor(p: Props, lang: string, k: Param): seq<Entry> {
    match ValueFor(p, lang, k)
    case None => []
    case Some(v) => [(Name(k), v)]
  }

  lemma EntryLookup(p: Props, lang: string, k: Param, s: string)
    ensures Lookup(EntryFor(p, lang, k), s) == if s == Name(k) then ValueFor(p, lang, k) else None
  {
  }

  /** The pairs of the first `n` parameters, in order. */
  function Select(n: nat, p: Props, lang: string): seq<Entry>
    requires n <= ParamCount
  {
    if n == 0 then [] else Select(n - 1, p, lang) + EntryFor(p, lang, ParamAt(n - 1))
  }

  /** The query that `params` builds. */
  function Query(p: Props, lang: string): seq<Entry> {
    Select(ParamCount, p, lang)
  }

  /** The parameters among the first `n` that have a value, in order. */
  function Present(n: nat, p: Props, lang: string): seq<Param>
    requires n <= ParamCount
  {
    if n == 0 then []
    else Present(n - 1, p, lang) + if ValueFor(p, lang, ParamAt(n - 1)).Some? then [ParamAt(n - 1)] else []
  }

  /** Each selected pair is a present parameter's name and value; the parameters rank below `n`, increasing. */
  lemma {:induction false} SelectPresent(n: nat, p: Props, lang: string)
    requires n <= ParamCount
    ensures |Select(n, p, lang)| == |Present(n, p, lang)|
    ensures forall i :: 0 <= i < |Present(n, p, lang)| ==>
      && ValueFor(p, lang, Present(n, p, lang)[i]).Some?
      && Select(n, p, lang)[i] == (Name(Present(n, p, lang)[i]), ValueFor(p, lang, Present(n, p, lang)[i]).value)
      && Rank(Present(n, p, lang)[i]) < n
    ensures forall i, j :: 0 <= i < j < |Present(n, p, lang)| ==>
      Rank(Present(n, p, lang)[i]) < Rank(Present(n, p, lang)[j])
  {
    if n > 0 {
      SelectPresent(n - 1, p, lang);
    }
  }

  /** Two parameters share a name only when they are the same parameter. */
  lemma NameInjective(a: Param, b: Param)
    ensures Name(a) == Name(b) <==> a == b
  {
    NameDecodes(a);
    NameDecodes(b);
  }

  /** A parameter whose rank is not below `n` is not named among the first `n` pairs. */
  lemma NotSelected(n: nat, p: Props, lang: string, k: Param)
    requires n <= ParamCount && n <= Rank(k)
    ensures Name(k) !in Names(Select(n, p, lang))
  {
    var q := Select(n, p, lang);
    if Name(k) in Names(q) {
      var i :| 0 <= i < |q| && Names(q)[i] == Name(k);
      NamesAt(q, i);
      SelectPresent(n, p, lang);
      NameInjective(k, Present(n, p, lang)[i]);
    }
  }

  /** A string that names no parameter is not among the pairs. */
  lemma OnlyParamNames(n: nat, p: Props, lang: string, s: string)
    requires n <= ParamCount && ParamNamed(s).None?
    ensures s !in Names(Select(n, p, lang))
  {
    var q := Select(n, p, lang);
    if s in Names(q) {
      var i :| 0 <= i < |q| && Names(q)[i] == s;
      NamesAt(q, i);
      SelectPresent(n, p, lang);
      NameDecodes(Present(n, p, lang)[i]);
    }
  }

  /** The first `n` pairs give each parameter of rank below `n` its value, and the others none. */
  lemma {:induction false} SelectLookup(n: nat, p: Props, lang: string, k: Param)
    requires n <= ParamCount
    ensures Lookup(Select(n, p, lang), Name(k)) == if Rank(k) < n then ValueFor(p, lang, k) else None
  {
    if n > 0 {
      var last := ParamAt(n - 1);
      var init := Select(n - 1, p, lang);
      SelectLookup(n - 1, p, lang, k);
      LookupAppend(init, EntryFor(p, lang, last), Name(k));
      EntryLookup(p, lang, last, Name(k));
      if Rank(k) == n - 1 {
        ParamAtRank(k);
        NotSelected(n - 1, p, lang, k);
      } else {
        NameInjective(k, last);
      }
    }
  }

  /** Each parameter's name takes exactly the value the props give it. */
  lemma QueryParam(p: Props, lang: string, k: Param)
    ensures Lookup(Query(p, lang), Name(k)) == ValueFor(p, lang, k)
  {
    SelectLookup(ParamCount, p, lang, k);
  }

  /** Every name takes exactly the value its parameter has; a name that is no parameter is absent. */
  lemma QueryLookup(p: Props, lang: string, s: string)
    ensures Lookup(Query(p, lang), s)
         == match ParamNamed(s) case Some(k) => ValueFor(p, lang, k) case None => None
  {
    match ParamNamed(s)
    case Some(k) => SelectLookup(ParamCount, p, lang, k);
    case None => OnlyParamNames(ParamCount, p, lang, s);
  }

  /** The query names are parameter names, each at most once, in the fixed order. */
  lemma QueryOrdered(p: Props, lang: string)
    ensures forall i :: 0 <= i < |Query(p, lang)| ==> ParamNamed(Query(p, lang)[i].0).Some?
    ensures forall i, j :: 0 <= i < j < |Query(p, lang)| ==>
      Rank(ParamNamed(Query(p, lang)[i].0).value) < Rank(ParamNamed(Query(p, lang)[j].0).value)
  {
    SelectPresent(ParamCount, p, lang);
    var ks := Present(ParamCount, p, lang);
    forall i | 0 <= i < |ks| ensures ParamNamed(Query(p, lang)[i].0) == Some(ks[i]) {
      NameDecodes(ks[i]);
    }
  }

  /** No name appears twice in the query. */
  lemma QueryDistinct(p: Props, lang: string)
    ensures forall i, j :: 0 <= i < j < |Query(p, lang)| ==> Query(p, lang)[i].0 != Query(p, lang)[j].0
  {
    QueryOrdered(p, lang);
  }

  /** `hl`, `cc_lang_pref` and `color` are always present; the languages fall back to the page language. */
  lemma QueryLanguages(p: Props, lang: string)
    ensures Lookup(Query(p, lang), "hl") == Some(if Truthy(p.uiLang) then p.uiLang.value else lang)
    ensures Lookup(Query(p, lang), "cc_lang_pref")
         == Some(if Truthy(p.defaultCcLang) then p.defaultCcLang.value else lang)
    ensures Lookup(Query(p, lang), "color") == Some("white")
  {
    QueryParam(p, lang, Hl);
    QueryParam(p, lang, CcLangPref);
    QueryParam(p, lang, Color);
  }

  /** Each playback flag is present exactly when its boolean prop is set, with its fixed value. */
  lemma QueryPlaybackFlags(p: Props, lang: string)
    ensures Lookup(Query(p, lang), "autoplay") == if p.autoplay then Some("1") else None
    ensures Lookup(Query(p, lang), "loop") == if p.loop then Some("1") else None
    ensures Lookup(Query(p, lang), "cc_load_policy") == if p.showCc then Some("1") else None
    ensures Lookup(Query(p, lang), "iv_load_policy") == if p.showAnnotations then Some("3") else None
  {
    QueryParam(p, lang, Autoplay);
    QueryParam(p, lang, Loop);
    QueryParam(p, lang, CcLoadPolicy);
    QueryParam(p, lang, IvLoadPolicy);
  }

  /** Each control flag is present exactly when its `disable…` prop is set, with its fixed value. */
  lemma QueryControlFlags(p: Props, lang: string)
    ensures Lookup(Query(p, lang), "controls") == if p.disableControls then Some("0") else None
    ensures Lookup(Query(p, lang), "fs") == if p.disableFullscreen then Some("0") else None
    ensures Lookup(Query(p, lang), "disablekb") == if p.disableKeyboard then Some("1") else None
  {
    QueryParam(p, lang, Controls);
    QueryParam(p, lang, Fullscreen);
    QueryParam(p, lang, DisableKb);
  }

  /** `start` and `end` appear only when truthy (a `0` or an empty string is dropped); `playlist` only when non-empty. */
  lemma QueryOptionalValues(p: Props, lang: string)
    ensures Lookup(Query(p, lang), "start") == if TimeTruthy(p.start) then Some(TimeText(p.start.value)) else None
    ensures Lookup(Query(p, lang), "end") == if TimeTruthy(p.end) then Some(TimeText(p.end.value)) else None
    ensures Lookup(Query(p, lang), "playlist") == if Truthy(p.playlist) then p.playlist else None
  {
    QueryParam(p, lang, Start);
    QueryParam(p, lang, End);
    QueryParam(p, lang, PlaylistParam);
  }

  /** A numeric start time is written as its decimal text, which reads back as the same number. */
  lemma QueryStartSeconds(p: Props, lang: string, n: int)
    requires p.start == Some(Seconds(n)) && n != 0
    ensures Lookup(Query(p, lang), "start").Some?
    ensures Decimal.ParseInt(Lookup(Query(p, lang), "start").value) == Some(n)
  {
    QueryParam(p, lang, Start);
    Decimal.FromIntRoundTrip(n);
  }

  /** Setting a parameter on the pairs of the parameters before it appends its pair. */
  lemma StepSelect(p: Props, lang: string, k: Param)
    ensures Select(Rank(k) + 1, p, lang)
         == match ValueFor(p, lang, k)
            case None => Select(Rank(k), p, lang)
            case Some(v) => Set(Select(Rank(k), p, lang), Name(k), v)
  {
    ParamAtRank(k);
    NotSelected(Rank(k), p, lang, k);
    if ValueFor(p, lang, k).Some? {
      SetAppends(Select(Rank(k), p, lang), Name(k), ValueFor(p, lang, k).value);
    }
  }

  /** `params`, first group: the playback flags. */
  method SetPlaybackFlags(p: Props, lang: string, q0: seq<Entry>) returns (q: seq<Entry>)
    requires q0 == Select(0, p, lang)
    ensures q == Select(4, p, lang)
  {
    q := q0;
    StepSelect(p, lang, Autoplay);
    if p.autoplay { q := Set(q, "autoplay", "1"); }
    StepSelect(p, lang, Loop);
    if p.loop { q := Set(q, "loop", "1"); }
    StepSelect(p, lang, CcLoadPolicy);
    if p.showCc { q := Set(q, "cc_load_policy", "1"); }
    StepSelect(p, lang, IvLoadPolicy);
    if p.showAnnotations { q := Set(q, "iv_load_policy", "3"); }
  }

  /** `params`, second group: the start and end times, when truthy. */
  method SetTimeRange(p: Props, lang: string, q0: seq<Entry>) returns (q: seq<Entry>)
    requires q0 == Select(4, p, lang)
    ensures q == Select(6, p, lang)
  {
    q := q0;
    StepSelect(p, lang, Start);
    if TimeTruthy(p.start) { q := Set(q, "start", TimeText(p.start.value)); }
    StepSelect(p, lang, End);
    if TimeTruthy(p.end) { q := Set(q, "end", TimeText(p.end.value)); }
  }

  /** `params`, third group: the interface and caption languages and the colour, always set. */
  method SetLanguages(p: Props, lang: string, q0: seq<Entry>) returns (q: seq<Entry>)
    requires q0 == Select(6, p, lang)
    ensures q == Select(9, p, lang)
  {
    q := q0;
    StepSelect(p, lang, Hl);
    q := Set(q, "hl", OrElse(p.uiLang, lang));
    StepSelect(p, lang, CcLangPref);
    q := Set(q, "cc_lang_pref", OrElse(p.defaultCcLang, lang));
    StepSelect(p, lang, Color);
    q := Set(q, "color", "white");
  }

  /** `params`, fourth group: the flags that disable player features. */
  method SetControlFlags(p: Props, lang: string, q0: seq<Entry>) returns (q: seq<Entry>)
    requires q0 == Select(9, p, lang)
    ensures q == Select(12, p, lang)
  {
    q := q0;
    StepSelect(p, lang, Controls);
    if p.disableControls { q := Set(q, "controls", "0"); }
    StepSelect(p, lang, Fullscreen);
    if p.disableFullscreen { q := Set(q, "fs", "0"); }
    StepSelect(p, lang, DisableKb);
    if p.disableKeyboard { q := Set(q, "disablekb", "1"); }
  }

  /**
   * `params`: a fresh `URLSearchParams` filled by successive conditional
   * `set` calls, group by group. The result is the query the props determine.
   */
  method BuildParams(p: Props, lang: string) returns (q: seq<Entry>)
    ensures q == Query(p, lang)
  {
    q := [];
    q := SetPlaybackFlags(p, lang, q);
    q := SetTimeRange(p, lang, q);
    q := SetLanguages(p, lang, q);
    q := SetControlFlags(p, lang, q);
    StepSelect(p, lang, PlaylistParam);
    if Truthy(p.playlist) { q := Set(q, "playlist", p.playlist.value); }
  }

  /** `videoLink`: the embed URL, present exactly when there is a core URL. */
  function VideoLink(p: Props, lang: string): (r: Option<string>)
    ensures r.None? <==> CoreURL(p).None?
    ensures r.Some? ==> r.value == EmbedBase + CoreURL(p).value + Serialize(Query(p, lang))
  {
    match CoreURL(p)
    case Some(core) => if core != "" then Some(EmbedBase + core + Serialize(Query(p, lang))) else None
    case None => None
  }

  /** The path after the embed base: the video id, or nothing for a playlist. */
  function EmbedPath(p: Props): string {
    if Truthy(p.id) then p.id.value else ""
  }

  /** All pairs of the embed URL's query: the playlist pair for a playlist, then the params. */
  function LinkEntries(p: Props, lang: string): seq<Entry> {
    (if Truthy(p.id) then []
     else [("listType", "playlist"), ("list", NormalizeList(p.list.GetOr("")))])
      + Query(p, lang)
  }

  /** The embed URL is the base, the path, `?` and one well-formed query holding every pair once. */
  lemma VideoLinkShape(p: Props, lang: string)
    requires VideoLink(p, lang).Some?
    ensures VideoLink(p, lang).value == EmbedBase + EmbedPath(p) + "?" + Serialize(LinkEntries(p, lang))
  {
    if Truthy(p.id) {
      var q := Query(p, lang);
      assert LinkEntries(p, lang) == q;
      Associative(EmbedBase, p.id.value + "?", Serialize(q));
      Associative(EmbedBase, p.id.value, "?");
    } else {
      SelectLookup(ParamCount, p, lang, Color);
      PlaylistLinkShape(NormalizeList(p.list.value), Query(p, lang));
      assert LinkEntries(p, lang) == [("listType", "playlist"), ("list", NormalizeList(p.list.value))] + Query(p, lang);
    }
  }

  /** A playlist URL carries the list pairs and the params in one query after `?`. */
  lemma PlaylistLinkShape(list: string, q: seq<Entry>)
    requires q != []
    ensures EmbedBase + (PlaylistCore + list + "&") + Serialize(q)
         == EmbedBase + "" + "?" + Serialize([("listType", "playlist"), ("list", list)] + q)
  {
    var head: seq<Entry> := [("listType", "playlist"), ("list", list)];
    SerializeAppend(head, q);
    PlaylistHead(list);
    PlaylistCoreSplit();
    Regroup(EmbedBase, "", "?", ListPrefix, list, "&", Serialize(q));
  }

  const ListPrefix := "listType=playlist&list="

  lemma PlaylistCoreSplit()
    ensures PlaylistCore == "?" + ListPrefix
  {
  }

  lemma PlaylistHead(list: string)
    ensures Serialize([("listType", "playlist"), ("list", list)]) == ListPrefix + list
  {
    var head: seq<Entry> := [("listType", "playlist"), ("list", list)];
    assert head[1..] == [("list", list)];
  }

  /**
   * Moving the `?` of the core URL in front of the query it opens. Every part,
   * the empty path included, is a variable, so the solver never regroups the
   * URL's literals themselves.
   */
  lemma Regroup(base: string, empty: string, open: string, prefix: string, list: string, amp: string, rest: string)
    requires empty == []
    ensures base + (open + prefix + list + amp) + rest == base + empty + open + (prefix + list + amp + rest)
  {
    assert base + empty == base;
  }

  /** Regrouping three strings; stated on variables so the solver never regroups the URL's literals themselves. */
  lemma Associative(a: string, b: string, c: string)
    ensures a + (b + c) == a + b + c
  {
  }

  /** When no value holds `&`, the query of the embed URL reads back as exactly its pairs. */
  lemma VideoLinkQueryReadsBack(p: Props, lang: string)
    requires forall i :: 0 <= i < |LinkEntries(p, lang)| ==> '&' !in LinkEntries(p, lang)[i].1
    ensures Parse(Serialize(LinkEntries(p, lang))) == LinkEntries(p, lang)
  {
    var e := LinkEntries(p, lang);
    QueryOrdered(p, lang);
    forall i | 0 <= i < |e| ensures Plain(e[i]) {
      if !Truthy(p.id) && i < 2 {
      } else {
        var k := if Truthy(p.id) then i else i - 2;
        assert e[i] == Query(p, lang)[k];
        NamePlain(ParamNamed(e[i].0).value);
      }
    }
    ParseSerialize(e);
  }

  /** The nodes rendered for the embed; `NoNode` is the `null` left where the loading icon was. */
  datatype EmbedNode = Description(href: string, text: string) | Frame(src: string, title: string)
                     | LoadingIcon | NoNode

  /**
   * Render: nothing without a link; otherwise a description link and an iframe,
   * both to the embed URL and both titled, then the loading icon until the frame has loaded.
   */
  function Render(p: Props, lang: string, loaded: bool): (r: seq<EmbedNode>)
    ensures r == [] <==> VideoLink(p, lang).None?
    ensures r != [] ==> |r| == 3 && r[0].Description? && r[1].Frame?
    ensures r != [] ==> r[0].href == r[1].src == VideoLink(p, lang).value
    ensures r != [] ==> r[0].text == r[1].title == p.title
    ensures r != [] ==> (r[2] == LoadingIcon <==> !loaded) && (r[2] == NoNode <==> loaded)
  {
    match VideoLink(p, lang)
    case Some(link) => [Description(link, p.title), Frame(link, p.title), if loaded then NoNode else LoadingIcon]
    case None => []
  }

  /** Nothing is rendered exactly when there is neither a video id nor a non-empty playlist. */
  lemma RendersNothingIff(p: Props, lang: string, loaded: bool)
    ensures Render(p, lang, loaded) == [] <==> !Truthy(p.id) && !(p.listType == Some("playlist") && Truthy(p.list))
  {
  }

  /** A component without attributes renders nothing. */
  lemma DefaultRendersNothing(lang: string, loaded: bool)
    ensures Render(DefaultProps(), lang, loaded) == []
  {
  }
}
