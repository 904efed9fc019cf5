/**
 * The decision and string-building logic of the provider-selection modal:
 * which English translation supplies the title, the provider-discovery query
 * for each media kind, and the watch page a chosen provider leads to.
 * Everything here is a function of the modal's props and the chosen item.
 */
module ProviderResolver {
  import opened Wrappers
  import opened JsText
  import opened Url

  datatype MediaKind = Movie | Tv | Anime

  /** The value of the `type` prop, which is also sent as the `type` parameter. */
  function KindName(k: MediaKind): string
  {
    match k
    case Movie => "movie"
    case Tv => "tv"
    case Anime => "anime"
  }

  /** The localized fields of one translation; either may be missing. */
  datatype TranslationData = TranslationData(title: Option<string>, name: Option<string>)

  /** One entry of `translations.translations`: an ISO 639-1 code and its optional data. */
  datatype Translation = Translation(iso6391: string, data: Option<TranslationData>)

  /** The props the modal reads (the close handler is presentation only). */
  datatype Props = Props(
    id: JsValue,
    kind: MediaKind,
    title: string,
    origTitle: string,
    year: int,
    translations: Option<seq<Translation>>,
    season: Option<int>,
    episode: Option<int>,
    episodeId: Option<string>)

  /** One provider returned by discovery: its opaque id (string or number) and its name. */
  datatype Item = Item(id: JsValue, provider: string)

  // ---------------------------------------------------------------------------
  // Title selection

  predicate IsEnglish(t: Translation) { t.iso6391 == "en" }

  /** `i` is the position of the first English translation in `ts`. */
  predicate FirstEnglishAt(ts: seq<Translation>, i: int)
  {
    0 <= i < |ts| && IsEnglish(ts[i]) && forall j :: 0 <= j < i ==> !IsEnglish(ts[j])
  }

  /** `ts.find(item => item.iso_639_1 === 'en')`. */
  function FindEnglish(ts: seq<Translation>): Option<Translation>
  {
    if ts == [] then None
    else if IsEnglish(ts[0]) then Some(ts[0])
    else FindEnglish(ts[1..])
  }

  /** `translations?.translations.find(...)`: absent when there are no translations at all. */
  function FindTranslation(translations: Option<seq<Translation>>): Option<Translation>
  {
    match translations
    case None => None
    case Some(ts) => FindEnglish(ts)
  }

  /** The search yields the translation at the first English position. */
  lemma {:induction false} FindEnglishIsFirst(ts: seq<Translation>, i: int)
    requires FirstEnglishAt(ts, i)
    ensures FindEnglish(ts) == Some(ts[i])
  {
    if i > 0 {
      assert !IsEnglish(ts[0]);
      assert forall j :: 0 <= j < i - 1 ==> ts[1..][j] == ts[j + 1];
      FindEnglishIsFirst(ts[1..], i - 1);
    }
  }

  /** The search finds nothing exactly when no translation is English, and otherwise finds the first one. */
  lemma {:induction false} FindEnglishSpec(ts: seq<Translation>)
    ensures FindEnglish(ts).None? <==> forall i :: 0 <= i < |ts| ==> !IsEnglish(ts[i])
    ensures FindEnglish(ts).Some? ==> exists i :: FirstEnglishAt(ts, i) && FindEnglish(ts).value == ts[i]
  {
    if ts != [] {
      if IsEnglish(ts[0]) {
        assert FirstEnglishAt(ts, 0);
      } else {
        FindEnglishSpec(ts[1..]);
        assert forall i :: 1 <= i < |ts| ==> ts[i] == ts[1..][i - 1];
        if FindEnglish(ts[1..]).Some? {
          var i :| FirstEnglishAt(ts[1..], i) && FindEnglish(ts[1..]).value == ts[1..][i];
          assert FirstEnglishAt(ts, i + 1);
        }
      }
    }
  }

  /** An English translation in an earlier part of the list always wins over any later one. */
  lemma {:induction false} FindEnglishConcat(a: seq<Translation>, b: seq<Translation>)
    ensures FindEnglish(a + b) == if FindEnglish(a).Some? then FindEnglish(a) else FindEnglish(b)
  {
    if a == [] {
      assert a + b == b;
    } else {
      assert (a + b)[0] == a[0];
      assert (a + b)[1..] == a[1..] + b;
      FindEnglishConcat(a[1..], b);
    }
  }

  /** `findTranslation.data?.title` */
  function TranslatedTitle(t: Translation): Option<string>
  {
    match t.data
    case None => None
    case Some(d) => d.title
  }

  /** `findTranslation.data?.name` */
  function TranslatedName(t: Translation): Option<string>
  {
    match t.data
    case None => None
    case Some(d) => d.name
  }

  /** The text sent as the `title` parameter. */
  function QueryTitle(p: Props): string
  {
    match p.kind
    case Movie =>
      (match FindTranslation(p.translations)
       case Some(t) => ToText(OfStr(TranslatedTitle(t)))
       case None => p.title)
    case Tv =>
      (match FindTranslation(p.translations)
       case Some(t) => ToText(OfStr(TranslatedName(t)))
       case None => p.title)
    case Anime => p.title
  }

  /**
   * For a movie the title is the first English translation's `data.title`, for a
   * TV show its `data.name`; a missing field is sent as the text `undefined`.
   */
  lemma QueryTitleFromEnglish(p: Props, ts: seq<Translation>, i: int)
    requires p.kind != Anime && p.translations == Some(ts) && FirstEnglishAt(ts, i)
    ensures p.kind == Movie ==> QueryTitle(p) == ToText(OfStr(TranslatedTitle(ts[i])))
    ensures p.kind == Tv ==> QueryTitle(p) == ToText(OfStr(TranslatedName(ts[i])))
    ensures ts[i].data.None? ==> QueryTitle(p) == UndefinedText
  {
    FindEnglishIsFirst(ts, i);
  }

  /** Without an English translation a movie or TV show is queried under its raw title. */
  lemma QueryTitleFallsBack(p: Props)
    requires p.translations.Some? ==> forall i :: 0 <= i < |p.translations.value| ==> !IsEnglish(p.translations.value[i])
    ensures QueryTitle(p) == p.title
  {
    if p.translations.Some? {
      FindEnglishSpec(p.translations.value);
    }
  }

  // ---------------------------------------------------------------------------
  // Discovery query

  /** The URL passed to `fetcher.load` when the modal becomes visible. */
  function DiscoveryUrl(p: Props): string
  {
    match p.kind
    case Movie =>
      "/api/provider?title=" + QueryTitle(p) + "&type=" + KindName(p.kind)
      + "&origTitle=" + p.origTitle + "&year=" + IntToString(p.year)
    case Tv =>
      "/api/provider?title=" + QueryTitle(p) + "&type=" + KindName(p.kind)
      + "&origTitle=" + p.origTitle + "&year=" + IntToString(p.year)
      + "&season=" + ToText(OfNum(p.season))
    case Anime =>
      "/api/provider?title=" + p.title + "&type=" + KindName(p.kind)
      + "&origTitle=" + p.origTitle + "&year=" + IntToString(p.year)
      + "&episodeId=" + ToText(OfStr(p.episodeId))
  }

  /** The discovery request as a path and parameter list: the common four, then the kind's own. */
  function DiscoveryTarget(p: Props): Target
  {
    var common := CommonParams(p);
    Target("/api/provider",
      match p.kind
      case Movie => common
      case Tv => common + [Param("season", ToText(OfNum(p.season)))]
      case Anime => common + [Param("episodeId", ToText(OfStr(p.episodeId)))])
  }

  lemma NumeralAvoids(s: string, c: char)
    requires IsNumeral(s) && !IsDigit(c) && c != '-'
    ensures c !in s
  {
  }

  /** The four parameters every discovery query starts with. */
  function CommonParams(p: Props): seq<Param>
  {
    [Param("title", QueryTitle(p)), Param("type", KindName(p.kind)),
     Param("origTitle", p.origTitle), Param("year", IntToString(p.year))]
  }

  lemma CommonParamsRender(p: Props)
    ensures Render(Target("/api/provider", CommonParams(p))) ==
      "/api/provider?title=" + QueryTitle(p) + "&type=" + KindName(p.kind)
      + "&origTitle=" + p.origTitle + "&year=" + IntToString(p.year)
  {
    var path := "/api/provider";
    var p1 := Param("title", QueryTitle(p));
    var p2 := Param("type", KindName(p.kind));
    var p3 := Param("origTitle", p.origTitle);
    RenderSingle(path, "title", QueryTitle(p));
    assert path + ("?" + "title" + "=") == "/api/provider?title=";
    RenderAppend(path, [p1], "type", KindName(p.kind));
    assert [p1] + [p2] == [p1, p2];
    assert "&" + "type" + "=" == "&type=";
    RenderAppend(path, [p1, p2], "origTitle", p.origTitle);
    assert [p1, p2] + [p3] == [p1, p2, p3];
    assert "&" + "origTitle" + "=" == "&origTitle=";
    RenderAppend(path, [p1, p2, p3], "year", IntToString(p.year));
    assert [p1, p2, p3] + [Param("year", IntToString(p.year))] == CommonParams(p);
    assert "&" + "year" + "=" == "&year=";
  }

  /** The URL is exactly the rendering of the structured request. */
  lemma DiscoveryUrlRenders(p: Props)
    ensures DiscoveryUrl(p) == Render(DiscoveryTarget(p))
  {
    CommonParamsRender(p);
    match p.kind
    case Movie =>
    case Tv =>
      RenderAppend("/api/provider", CommonParams(p), "season", ToText(OfNum(p.season)));
      assert "&" + "season" + "=" == "&season=";
    case Anime =>
      RenderAppend("/api/provider", CommonParams(p), "episodeId", ToText(OfStr(p.episodeId)));
      assert "&" + "episodeId" + "=" == "&episodeId=";
  }

  /** The interpolated strings of a discovery query hold no `&`, so no value can spill into another parameter. */
  predicate DiscoverySafe(p: Props)
  {
    && '&' !in QueryTitle(p)
    && '&' !in p.origTitle
    && (p.kind == Anime && p.episodeId.Some? ==> '&' !in p.episodeId.value)
  }

  lemma DiscoveryTargetReadable(p: Props)
    requires DiscoverySafe(p)
    ensures Readable(DiscoveryTarget(p))
  {
    var path := "/api/provider";
    var p1 := Param("title", QueryTitle(p));
    var p2 := Param("type", KindName(p.kind));
    var p3 := Param("origTitle", p.origTitle);
    NumeralAvoids(IntToString(p.year), '&');
    ReadableSingle(path, "title", QueryTitle(p));
    ReadableAppend(path, [p1], "type", KindName(p.kind));
    assert [p1] + [p2] == [p1, p2];
    ReadableAppend(path, [p1, p2], "origTitle", p.origTitle);
    assert [p1, p2] + [p3] == [p1, p2, p3];
    ReadableAppend(path, [p1, p2, p3], "year", IntToString(p.year));
    assert [p1, p2, p3] + [Param("year", IntToString(p.year))] == CommonParams(p);
    match p.kind
    case Movie =>
    case Tv =>
      if p.season.Some? {
        NumeralAvoids(IntToString(p.season.value), '&');
      }
      ReadableAppend(path, CommonParams(p), "season", ToText(OfNum(p.season)));
    case Anime =>
      ReadableAppend(path, CommonParams(p), "episodeId", ToText(OfStr(p.episodeId)));
  }

  /** A safe discovery query reads back as exactly its structured request. */
  lemma DiscoveryUrlParses(p: Props)
    requires DiscoverySafe(p)
    ensures Parse(DiscoveryUrl(p)) == DiscoveryTarget(p)
  {
    DiscoveryTargetReadable(p);
    DiscoveryUrlRenders(p);
    ParseRender(DiscoveryTarget(p));
  }

  lemma CommonParamsLookups(p: Props)
    ensures Keys(CommonParams(p)) == ["title", "type", "origTitle", "year"]
    ensures Lookup(CommonParams(p), "title") == Some(QueryTitle(p))
    ensures Lookup(CommonParams(p), "type") == Some(KindName(p.kind))
    ensures Lookup(CommonParams(p), "origTitle") == Some(p.origTitle)
    ensures Lookup(CommonParams(p), "year") == Some(IntToString(p.year))
    ensures Lookup(CommonParams(p), "season") == None
    ensures Lookup(CommonParams(p), "episodeId") == None
  {
    var ps := CommonParams(p);
    assert ps[1..] == [ps[1], ps[2], ps[3]];
    assert ps[1..][1..] == [ps[2], ps[3]];
    assert ps[1..][1..][1..] == [ps[3]];
    assert ps[1..][1..][1..][1..] == [];
    var tail2, tail3 := ps[1..][1..], ps[1..][1..][1..];
    assert Lookup(tail3, "season") == None && Lookup(tail3, "episodeId") == None;
    assert Lookup(tail2, "season") == None && Lookup(tail2, "episodeId") == None;
    assert Lookup(tail2, "origTitle") == Some(p.origTitle);
    assert Lookup(tail2, "year") == Some(IntToString(p.year));
  }

  lemma KeysAppend(a: seq<Param>, b: seq<Param>)
    ensures Keys(a + b) == Keys(a) + Keys(b)
  {
  }

  /**
   * Read back, the discovery query carries `title`, `type`, `origTitle` and `year`
   * in that order, then `season` for a TV show only and `episodeId` for anime only,
   * with the selected title, the kind, the original title and the year as values.
   */
  lemma DiscoveryUrlReads(p: Props)
    requires DiscoverySafe(p)
    ensures Parse(DiscoveryUrl(p)).path == "/api/provider"
    ensures Keys(Parse(DiscoveryUrl(p)).params) ==
      ["title", "type", "origTitle", "year"]
      + (if p.kind == Tv then ["season"] else [])
      + (if p.kind == Anime then ["episodeId"] else [])
    ensures Lookup(Parse(DiscoveryUrl(p)).params, "title") == Some(QueryTitle(p))
    ensures Lookup(Parse(DiscoveryUrl(p)).params, "type") == Some(KindName(p.kind))
    ensures Lookup(Parse(DiscoveryUrl(p)).params, "origTitle") == Some(p.origTitle)
    ensures Lookup(Parse(DiscoveryUrl(p)).params, "year") == Some(IntToString(p.year))
    ensures Lookup(Parse(DiscoveryUrl(p)).params, "season") ==
      if p.kind == Tv then Some(ToText(OfNum(p.season))) else None
    ensures Lookup(Parse(DiscoveryUrl(p)).params, "episodeId") ==
      if p.kind == Anime then Some(ToText(OfStr(p.episodeId))) else None
  {
    DiscoveryUrlParses(p);
    CommonParamsLookups(p);
    var extra := DiscoveryTarget(p).params[4..];
    assert DiscoveryTarget(p).params == CommonParams(p) + extra;
    KeysAppend(CommonParams(p), extra);
    LookupAppend(CommonParams(p), extra, "title");
    LookupAppend(CommonParams(p), extra, "type");
    LookupAppend(CommonParams(p), extra, "origTitle");
    LookupAppend(CommonParams(p), extra, "year");
    LookupAppend(CommonParams(p), extra, "season");
    LookupAppend(CommonParams(p), extra, "episodeId");
  }

  /** Only a TV query carries `season`, and only an anime query carries `episodeId`. */
  lemma KindSpecificDiscoveryParams(p: Props)
    requires DiscoverySafe(p)
    ensures Lookup(Parse(DiscoveryUrl(p)).params, "season").Some? <==> p.kind == Tv
    ensures Lookup(Parse(DiscoveryUrl(p)).params, "episodeId").Some? <==> p.kind == Anime
  {
    DiscoveryUrlReads(p);
  }

  /** The year sent in the query reads back as the `year` prop. */
  lemma DiscoveryYearRoundTrip(p: Props)
    requires DiscoverySafe(p)
    ensures var y := Lookup(Parse(DiscoveryUrl(p)).params, "year");
            y.Some? && IsNumeral(y.value) && ParseInt(y.value) == p.year
  {
    DiscoveryUrlReads(p);
    IntToStringRoundTrip(p.year);
  }

  /** Queries for different years never coincide: the year is always read back intact. */
  lemma DistinctYearsDistinctQueries(p: Props, q: Props)
    requires DiscoverySafe(p) && DiscoverySafe(q)
    requires p.year != q.year
    ensures DiscoveryUrl(p) != DiscoveryUrl(q)
  {
    DiscoveryUrlReads(p);
    DiscoveryUrlReads(q);
    IntToStringInjective(p.year, q.year);
  }

  /** An anime query never depends on translations. */
  lemma AnimeIgnoresTranslations(p: Props, other: Option<seq<Translation>>)
    requires p.kind == Anime
    ensures DiscoveryUrl(p.(translations := other)) == DiscoveryUrl(p)
    ensures QueryTitle(p) == p.title
  {
  }

  // ---------------------------------------------------------------------------
  // Watch target

  /** The URL passed to `navigate` when the user picks `item`. */
  function WatchUrl(p: Props, item: Item): string
  {
    match p.kind
    case Movie =>
      "/movies/" + ToText(p.id) + "/watch?provider=" + item.provider + "&id=" + ToText(item.id)
    case Tv =>
      "/tv-shows/" + ToText(p.id) + "/season/" + ToText(OfNum(p.season))
      + "/episode/" + ToText(OfNum(p.episode))
      + "?provider=" + item.provider + "&id=" + ToText(item.id)
    case Anime =>
      "/anime/" + ToText(p.id) + "/episode/" + ToText(OfStr(p.episodeId))
      + "?provider=" + item.provider + "&id=" + ToText(item.id)
      + "&episode=" + ToText(OfNum(p.episode))
  }

  /** The two parameters every watch target starts with: the chosen provider and its id. */
  function ChosenParams(item: Item): seq<Param>
  {
    [Param("provider", item.provider), Param("id", ToText(item.id))]
  }

  lemma ChosenParamsLookups(item: Item)
    ensures Keys(ChosenParams(item)) == ["provider", "id"]
    ensures Lookup(ChosenParams(item), "provider") == Some(item.provider)
    ensures Lookup(ChosenParams(item), "id") == Some(ToText(item.id))
    ensures Lookup(ChosenParams(item), "episode") == None
  {
    var ps := ChosenParams(item);
    assert "id" != "provider" && "episode" != "provider" && "episode" != "id";
    assert ps[1..][1..] == [];
    assert Lookup(ps[1..], "episode") == None;
  }

  /** The watch page as a path and parameter list. */
  function WatchTarget(p: Props, item: Item): Target
  {
    var chosen := ChosenParams(item);
    match p.kind
    case Movie =>
      Target("/movies/" + ToText(p.id) + "/watch", chosen)
    case Tv =>
      Target("/tv-shows/" + ToText(p.id) + "/season/" + ToText(OfNum(p.season))
             + "/episode/" + ToText(OfNum(p.episode)), chosen)
    case Anime =>
      Target("/anime/" + ToText(p.id) + "/episode/" + ToText(OfStr(p.episodeId)),
             chosen + [Param("episode", ToText(OfNum(p.episode)))])
  }

  lemma ChosenParamsRender(path: string, item: Item)
    ensures Render(Target(path, ChosenParams(item))) ==
      path + "?provider=" + item.provider + "&id=" + ToText(item.id)
  {
    var p1 := Param("provider", item.provider);
    RenderSingle(path, "provider", item.provider);
    assert "?" + "provider" + "=" == "?provider=";
    RenderAppend(path, [p1], "id", ToText(item.id));
    assert [p1] + [Param("id", ToText(item.id))] == ChosenParams(item);
    assert "&" + "id" + "=" == "&id=";
  }

  lemma MovieWatchUrlRenders(p: Props, item: Item)
    requires p.kind == Movie
    ensures WatchUrl(p, item) == Render(WatchTarget(p, item))
  {
    ChosenParamsRender("/movies/" + ToText(p.id) + "/watch", item);
    assert "/watch" + "?provider=" == "/watch?provider=";
  }

  lemma AnimeWatchUrlRenders(p: Props, item: Item)
    requires p.kind == Anime
    ensures WatchUrl(p, item) == Render(WatchTarget(p, item))
  {
    var path := WatchTarget(p, item).path;
    ChosenParamsRender(path, item);
    RenderAppend(path, ChosenParams(item), "episode", ToText(OfNum(p.episode)));
    assert "&" + "episode" + "=" == "&episode=";
  }

  lemma WatchUrlRenders(p: Props, item: Item)
    ensures WatchUrl(p, item) == Render(WatchTarget(p, item))
  {
    match p.kind
    case Movie => MovieWatchUrlRenders(p, item);
    case Tv => ChosenParamsRender(WatchTarget(p, item).path, item);
    case Anime => AnimeWatchUrlRenders(p, item);
  }

  /** The path values hold no `?` and the query values no `&`. */
  predicate WatchSafe(p: Props, item: Item)
  {
    && '?' !in ToText(p.id)
    && (p.kind == Anime && p.episodeId.Some? ==> '?' !in p.episodeId.value)
    && '&' !in item.provider
    && '&' !in ToText(item.id)
  }

  lemma WatchPathAvoidsQuestionMark(p: Props, item: Item)
    requires WatchSafe(p, item)
    ensures '?' !in WatchTarget(p, item).path
  {
    var id := ToText(p.id);
    var season, episode := ToText(OfNum(p.season)), ToText(OfNum(p.episode));
    if p.season.Some? {
      NumeralAvoids(IntToString(p.season.value), '?');
    }
    if p.episode.Some? {
      NumeralAvoids(IntToString(p.episode.value), '?');
    }
    assert '?' !in season && '?' !in episode;
    match p.kind
    case Movie =>
      assert '?' !in "/movies/" && '?' !in "/watch";
    case Tv =>
      assert '?' !in "/tv-shows/" && '?' !in "/season/" && '?' !in "/episode/";
    case Anime =>
      assert '?' !in "/anime/" && '?' !in "/episode/";
  }

  lemma WatchTargetReadable(p: Props, item: Item)
    requires WatchSafe(p, item)
    ensures Readable(WatchTarget(p, item))
  {
    var t := WatchTarget(p, item);
    WatchPathAvoidsQuestionMark(p, item);
    if p.episode.Some? {
      NumeralAvoids(IntToString(p.episode.value), '&');
    }
    var p1 := Param("provider", item.provider);
    ReadableSingle(t.path, "provider", item.provider);
    ReadableAppend(t.path, [p1], "id", ToText(item.id));
    assert [p1] + [Param("id", ToText(item.id))] == [p1, Param("id", ToText(item.id))];
    if p.kind == Anime {
      ReadableAppend(t.path, [p1, Param("id", ToText(item.id))], "episode", ToText(OfNum(p.episode)));
    }
  }

  /** A safe watch URL reads back as exactly its structured target. */
  lemma WatchUrlParses(p: Props, item: Item)
    requires WatchSafe(p, item)
    ensures Parse(WatchUrl(p, item)) == WatchTarget(p, item)
  {
    WatchTargetReadable(p, item);
    WatchUrlRenders(p, item);
    ParseRender(WatchTarget(p, item));
  }

  /**
   * Read back, every watch target carries the chosen item's `provider` and `id`
   * first, and an anime target also the episode number; nothing else of the item.
   */
  lemma WatchUrlReads(p: Props, item: Item)
    requires WatchSafe(p, item)
    ensures Keys(Parse(WatchUrl(p, item)).params) ==
      ["provider", "id"] + (if p.kind == Anime then ["episode"] else [])
    ensures Lookup(Parse(WatchUrl(p, item)).params, "provider") == Some(item.provider)
    ensures Lookup(Parse(WatchUrl(p, item)).params, "id") == Some(ToText(item.id))
    ensures Lookup(Parse(WatchUrl(p, item)).params, "episode") ==
      if p.kind == Anime then Some(ToText(OfNum(p.episode))) else None
  {
    WatchUrlParses(p, item);
    ChosenParamsLookups(item);
    var extra := WatchTarget(p, item).params[2..];
    assert WatchTarget(p, item).params == ChosenParams(item) + extra;
    KeysAppend(ChosenParams(item), extra);
    LookupAppend(ChosenParams(item), extra, "provider");
    LookupAppend(ChosenParams(item), extra, "id");
    LookupAppend(ChosenParams(item), extra, "episode");
  }

  /** Two picks lead to the same page only if they name the same provider and ids with the same text, when neither holds `&`. */
  lemma WatchUrlDeterminesItem(p: Props, a: Item, b: Item)
    requires WatchSafe(p, a) && WatchSafe(p, b)
    requires WatchUrl(p, a) == WatchUrl(p, b)
    ensures a.provider == b.provider && ToText(a.id) == ToText(b.id)
  {
    WatchUrlReads(p, a);
    WatchUrlReads(p, b);
  }

  /** The letter after the leading `/` of each kind's route. */
  function RouteInitial(k: MediaKind): char
  {
    match k
    case Movie => 'm'
    case Tv => 't'
    case Anime => 'a'
  }

  lemma PrefixIndex(a: string, b: string, k: nat)
    requires k < |a|
    ensures |a + b| > k && (a + b)[k] == a[k]
  {
  }

  lemma WatchUrlInitial(p: Props, item: Item)
    ensures |WatchUrl(p, item)| > 1 && WatchUrl(p, item)[1] == RouteInitial(p.kind)
  {
    var t := WatchTarget(p, item);
    var id := ToText(p.id);
    match p.kind
    case Movie =>
      PrefixIndex("/movies/", id, 1);
      PrefixIndex("/movies/" + id, "/watch", 1);
    case Tv =>
      var season, episode := ToText(OfNum(p.season)), ToText(OfNum(p.episode));
      PrefixIndex("/tv-shows/", id, 1);
      PrefixIndex("/tv-shows/" + id, "/season/", 1);
      PrefixIndex("/tv-shows/" + id + "/season/", season, 1);
      PrefixIndex("/tv-shows/" + id + "/season/" + season, "/episode/", 1);
      PrefixIndex("/tv-shows/" + id + "/season/" + season + "/episode/", episode, 1);
    case Anime =>
      PrefixIndex("/anime/", id, 1);
      PrefixIndex("/anime/" + id, "/episode/", 1);
      PrefixIndex("/anime/" + id + "/episode/", ToText(OfStr(p.episodeId)), 1);
    assert t.path[1] == RouteInitial(p.kind);
    WatchUrlRenders(p, item);
    PrefixIndex(t.path, "?", 1);
    PrefixIndex(t.path + "?", Join(RenderParams(t.params), '&'), 1);
  }

  /** Each kind has its own route: targets of different kinds never coincide. */
  lemma WatchRoutesDisjoint(p: Props, q: Props, a: Item, b: Item)
    requires p.kind != q.kind
    ensures WatchUrl(p, a) != WatchUrl(q, b)
  {
    WatchUrlInitial(p, a);
    WatchUrlInitial(q, b);
  }
}
