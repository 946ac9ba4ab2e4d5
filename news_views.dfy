/** The three Kaktus Media views (today, yesterday, latest with pages) and
    the mixin they share: each request first consults the cache, on a miss
    fetches the listing page of a day, extracts its articles and stores the
    result under its key with a fixed time-to-live. */
module NewsViews {
  import opened Wrappers
  import opened Text
  import opened Numerals
  import opened Dates
  import opened Listing

  // ---------------------------------------------------------------------
  // Extraction (KaktusNewsMixin._parse_articles)

  /** The records `_parse_articles` returns: the containers of every
      `Tag--articles` section, section by section, without a source key. */
  function SectionArticles(doc: Document): seq<Article>
  {
    Harvest(Flatten(Sections(doc)), None)
  }

  /** `_parse_articles`: for each section, for each container in it, append
      its record or, when a piece is missing, log and go on. */
  method ParseArticles(doc: Document) returns (newsList: seq<Article>)
    ensures newsList == SectionArticles(doc)
  {
    var sections := Sections(doc);
    newsList := [];
    ghost var done: seq<Container> := [];
    var s := 0;
    while s < |sections|
      invariant 0 <= s <= |sections|
      invariant done == Flatten(sections[..s])
      invariant newsList == Harvest(done, None)
    {
      var tags := sections[s];
      var i := 0;
      assert done + tags[..0] == done;
      while i < |tags|
        invariant 0 <= i <= |tags|
        invariant newsList == Harvest(done + tags[..i], None)
      {
        HarvestStep(done, tags, i);
        var record := Extract(tags[i], None);
        if record.Some? {
          newsList := newsList + [record.value];
        }
        // otherwise the except branch: the error is printed and the loop goes on
        i := i + 1;
      }
      assert tags[..i] == tags;
      FlattenPrefix(sections, s);
      done := done + tags;
      s := s + 1;
    }
    assert sections[..s] == sections;
  }

  lemma HarvestStep(done: seq<Container>, tags: seq<Container>, i: nat)
    requires i < |tags|
    ensures Harvest(done + tags[..i + 1], None)
      == Harvest(done + tags[..i], None) + (if WellFormed(tags[i]) then [RecordOf(tags[i], None)] else [])
  {
    HarvestSnoc(done + tags[..i], tags[i], None);
    assert (done + tags[..i]) + [tags[i]] == done + tags[..i + 1];
  }

  /** On a page without sections there is nothing to extract. */
  lemma NoSectionsNoArticles(doc: Document)
    requires forall k :: 0 <= k < |doc| ==> doc[k].Loose?
    ensures SectionArticles(doc) == []
  {
    NoSectionsNoContainers(doc);
  }

  // ---------------------------------------------------------------------
  // The date banner (_get_date)

  /** `_get_date`: the text of the `PaginatorDate--today-text` banner with
      every pair of spaces removed, or the fallback day as `dd.mm.yyyy`. */
  function GetDate(banner: Option<string>, fallback: Date): string
    requires Valid(fallback)
  {
    match banner
    case Some(text) => RemoveDoubleSpaces(text)
    case None => FormatDMY(fallback)
  }

  /** With a banner, the date keeps every non-space character of it, in
      order, and has no two adjacent spaces; without one it is the fallback
      day in `dd.mm.yyyy` form. */
  lemma GetDateShape(banner: Option<string>, fallback: Date)
    requires Valid(fallback)
    ensures banner.Some? ==>
      && NoDoubleSpace(GetDate(banner, fallback))
      && Seqs.Keep(GetDate(banner, fallback), NotSpace) == Seqs.Keep(banner.value, NotSpace)
    ensures banner.None? ==>
      var r := GetDate(banner, fallback);
      && |r| == 10 && r[2] == '.' && r[5] == '.'
      && DecValue(r[0..2]) == fallback.day && DecValue(r[3..5]) == fallback.month
      && DecValue(r[6..10]) == fallback.year
  {
    if banner.Some? {
      RemoveLeavesNoDoubleSpace(banner.value);
      RemoveKeepsNonSpaces(banner.value);
    } else {
      FormatDMYFields(fallback);
    }
  }

  // ---------------------------------------------------------------------
  // Request URLs and cache keys

  const UrlHead := "https://kaktus.media/?lable=8&date="
  const UrlTail := "&order=time"

  /** `f'https://kaktus.media/?lable=8&date={date}&order=time'`. */
  function KaktusUrl(date: string): (u: string)
    ensures |u| == |UrlHead| + |date| + |UrlTail|
    ensures u[..|UrlHead|] == UrlHead && u[|UrlHead|..|UrlHead| + |date|] == date
    ensures u[|UrlHead| + |date|..] == UrlTail
  {
    UrlHead + date + UrlTail
  }

  /** The URL of one day's listing. */
  function DayUrl(d: Date): string
    requires Valid(d)
  {
    KaktusUrl(FormatYMD(d))
  }

  /** Different days are requested under different URLs. */
  lemma DayUrlInjective(a: Date, b: Date)
    requires Valid(a) && Valid(b) && DayUrl(a) == DayUrl(b)
    ensures a == b
  {
    var sa, sb := FormatYMD(a), FormatYMD(b);
    assert sa == DayUrl(a)[|UrlHead|..|UrlHead| + 10];
    assert sb == DayUrl(b)[|UrlHead|..|UrlHead| + 10];
    FormatYMDInjective(a, b);
  }

  const TodayKey := "kaktus_today_news"
  const YesterdayKey := "kaktus_yesterday_news"
  const LatestPrefix := "kaktus_latest_"

  /** `f'kaktus_latest_{page}_{per_page}'`. */
  function LatestKey(page: int, perPage: int): string
  {
    LatestPrefix + IntToString(page) + "_" + IntToString(perPage)
  }

  /** Where the first `c` of `s` is (`|s|` when there is none). */
  function IndexOf(s: string, c: char): nat
  {
    if s == [] then 0 else if s[0] == c then 0 else 1 + IndexOf(s[1..], c)
  }

  lemma {:induction false} IndexOfSeparator(x: string, y: string)
    requires forall k :: 0 <= k < |x| ==> x[k] != '_'
    ensures IndexOf(x + "_" + y, '_') == |x|
    decreases |x|
  {
    var s := x + "_" + y;
    if x == [] {
      assert s[0] == '_';
    } else {
      assert s[0] == x[0] && s[1..] == x[1..] + "_" + y;
      IndexOfSeparator(x[1..], y);
    }
  }

  /** Two texts joined by `_`, the first free of `_`, split back uniquely. */
  lemma SplitAtUnderscore(x: string, y: string, x': string, y': string)
    requires forall k :: 0 <= k < |x| ==> x[k] != '_'
    requires forall k :: 0 <= k < |x'| ==> x'[k] != '_'
    requires x + "_" + y == x' + "_" + y'
    ensures x == x' && y == y'
  {
    var s := x + "_" + y;
    IndexOfSeparator(x, y);
    IndexOfSeparator(x', y');
    assert x == s[..|x|];
    assert x' == (x' + "_" + y')[..|x'|];
    assert y == s[|x| + 1..];
    assert y' == (x' + "_" + y')[|x'| + 1..];
  }

  lemma IntToStringHasNoUnderscore(i: int)
    ensures forall k :: 0 <= k < |IntToString(i)| ==> IntToString(i)[k] != '_'
  {
  }

  lemma DropPrefix(p: string, a: string, b: string)
    requires p + a == p + b
    ensures a == b
  {
    assert a == (p + a)[|p|..];
    assert b == (p + b)[|p|..];
  }

  /** Distinct page parameters never share a cache entry, and no page
      shares one with the today or yesterday views. */
  lemma LatestKeyInjective(page: int, perPage: int, page': int, perPage': int)
    requires LatestKey(page, perPage) == LatestKey(page', perPage')
    ensures page == page' && perPage == perPage'
  {
    var x, y := IntToString(page), IntToString(perPage);
    var x', y' := IntToString(page'), IntToString(perPage');
    assert LatestKey(page, perPage) == LatestPrefix + (x + "_" + y);
    assert LatestKey(page', perPage') == LatestPrefix + (x' + "_" + y');
    DropPrefix(LatestPrefix, x + "_" + y, x' + "_" + y');
    IntToStringHasNoUnderscore(page);
    IntToStringHasNoUnderscore(page');
    SplitAtUnderscore(x, y, x', y');
    IntToStringInjective(page, page');
    IntToStringInjective(perPage, perPage');
  }

  lemma LatestKeyIsItsOwn(page: int, perPage: int)
    ensures LatestKey(page, perPage) != TodayKey && LatestKey(page, perPage) != YesterdayKey
  {
    assert LatestKey(page, perPage)[7] == 'l';
  }

  // ---------------------------------------------------------------------
  // Cache, network and responses

  /** A value held by the cache. Only the views' own results are described;
      anything else written under their keys is `Foreign`, and only its
      Python truthiness matters to them. */
  datatype Payload =
    | DayNews(date: string, articles: seq<Article>, source: string, lastUpdated: string)
    | LatestNews(page: int, perPage: int, totalArticles: nat, articles: seq<Article>, lastUpdated: string)
    | Foreign(truthy: bool)

  /** `if cached_data:` — a non-empty dict is true. */
  predicate Truthy(p: Payload)
  {
    match p
    case Foreign(t) => t
    case _ => true
  }

  /** A stored value and the time-to-live, in seconds, it was stored with. */
  datatype Entry = Entry(value: Payload, ttl: nat)

  type Store = map<string, Entry>

  /** The cache backend: a key/value store with a time-to-live per entry.
      Expiry itself is not simulated: an expired entry is simply absent. */
  class Cache {
    var entries: Store

    constructor ()
      ensures entries == map[]
    {
      entries := map[];
    }

    /** `cache.get(key)`: None on a miss. */
    method Get(key: string) returns (v: Option<Payload>)
      ensures v == if key in entries then Some(entries[key].value) else None
    {
      v := if key in entries then Some(entries[key].value) else None;
    }

    /** `cache.set(key, value, timeout=ttl)`: overwrites the key. */
    method Set(key: string, value: Payload, ttl: nat)
      modifies this
      ensures entries == old(entries)[key := Entry(value, ttl)]
    {
      entries := entries[key := Entry(value, ttl)];
    }
  }

  /** The JSON a view answers with. */
  datatype Body =
    | Data(payload: Payload)
    | FetchFailed(upstream: int)        // {'error': 'Failed to fetch news', 'status': ...}
    | ConnectionError(message: string)  // {'error': str(e), 'type': 'connection_error'}

  /** A view's answer: a JsonResponse with its HTTP status, or an
      exception the view does not catch (Django then answers 500 itself). */
  datatype Response = Json(status: int, body: Body) | Unhandled(exception: string)

  predicate Hit(store: Store, key: string)
  {
    key in store && Truthy(store[key].value)
  }

  /** Everything one request does: its answer, the cache afterwards and the
      URLs it fetched, in order. */
  datatype Step = Step(response: Response, store: Store, requested: seq<string>)

  const TodayTtl := 600
  const YesterdayTtl := 86400
  const LatestTtl := 300
  const ViewsSource := "kaktus.media"

  // ---------------------------------------------------------------------
  // TodayNewsView.get and YesterdayNewsView.get

  /** The result dict of a successful day fetch. */
  function DayResult(page: Page, day: Date, stamp: string): Payload
    requires Valid(day)
  {
    DayNews(GetDate(page.banner, day), SectionArticles(page.doc), ViewsSource, stamp)
  }

  /** One request to a day view whose key is `key`, whose cache timeout is
      `ttl` and whose day is `day` (None when computing it overflowed). */
  function DayStep(store: Store, key: string, ttl: nat, day: Option<Date>, stamp: string,
                   net: string -> HttpOutcome): Step
    requires day.Some? ==> Valid(day.value)
  {
    if Hit(store, key) then Step(Json(200, Data(store[key].value)), store, [])
    else if day.None? then Step(Unhandled("OverflowError"), store, [])
    else
      var url := DayUrl(day.value);
      match net(url)
      case Raised(m) => Step(Json(500, ConnectionError(m)), store, [url])
      case Reply(status, page) =>
        if status == 200 then
          var result := DayResult(page, day.value, stamp);
          Step(Json(200, Data(result)), store[key := Entry(result, ttl)], [url])
        else Step(Json(500, FetchFailed(status)), store, [url])
  }

  /** The body shared by both day views. */
  method DayNewsGet(cache: Cache, key: string, ttl: nat, day: Option<Date>, stamp: string,
                    net: string -> HttpOutcome)
    returns (response: Response, requested: seq<string>)
    requires day.Some? ==> Valid(day.value)
    modifies cache
    ensures Step(response, cache.entries, requested) == DayStep(old(cache.entries), key, ttl, day, stamp, net)
  {
    var cached := cache.Get(key);
    if cached.Some? && Truthy(cached.value) {
      return Json(200, Data(cached.value)), [];
    }
    if day.None? {
      return Unhandled("OverflowError"), [];
    }
    var url := DayUrl(day.value);
    requested := [url];
    match net(url)
    case Raised(m) =>
      response := Json(500, ConnectionError(m));
    case Reply(status, page) =>
      if status == 200 {
        var articles := ParseArticles(page.doc);
        var result := DayNews(GetDate(page.banner, day.value), articles, ViewsSource, stamp);
        cache.Set(key, result, ttl);
        response := Json(200, Data(result));
      } else {
        response := Json(500, FetchFailed(status));
      }
  }

  /** `TodayNewsView.get`: today's listing, cached for ten minutes. */
  method TodayNewsGet(cache: Cache, today: Date, stamp: string, net: string -> HttpOutcome)
    returns (response: Response, requested: seq<string>)
    requires Valid(today)
    modifies cache
    ensures Step(response, cache.entries, requested)
      == DayStep(old(cache.entries), TodayKey, TodayTtl, Some(today), stamp, net)
  {
    response, requested := DayNewsGet(cache, TodayKey, TodayTtl, Some(today), stamp, net);
  }

  /** `YesterdayNewsView.get`: yesterday's listing, cached for a day. */
  method YesterdayNewsGet(cache: Cache, today: Date, stamp: string, net: string -> HttpOutcome)
    returns (response: Response, requested: seq<string>)
    requires Valid(today)
    modifies cache
    ensures Step(response, cache.entries, requested)
      == DayStep(old(cache.entries), YesterdayKey, YesterdayTtl, PrevDay(today), stamp, net)
  {
    response, requested := DayNewsGet(cache, YesterdayKey, YesterdayTtl, PrevDay(today), stamp, net);
  }

  /** A truthy cached value is answered as it is, nothing is fetched and
      the cache is left alone. */
  lemma DayHitShortCircuits(store: Store, key: string, ttl: nat, day: Option<Date>, stamp: string,
                            net: string -> HttpOutcome)
    requires day.Some? ==> Valid(day.value)
    requires Hit(store, key)
    ensures DayStep(store, key, ttl, day, stamp, net)
      == Step(Json(200, Data(store[key].value)), store, [])
  {
  }

  /** On a miss exactly one URL is fetched: that of the day. */
  lemma DayMissFetchesTheDay(store: Store, key: string, ttl: nat, day: Date, stamp: string,
                             net: string -> HttpOutcome)
    requires Valid(day) && !Hit(store, key)
    ensures DayStep(store, key, ttl, Some(day), stamp, net).requested
      == ["https://kaktus.media/?lable=8&date=" + FormatYMD(day) + "&order=time"]
  {
  }

  /** A 200 answer is stored under the view's key with the view's timeout,
      the value stored is the value answered, and no other key changes. */
  lemma DaySuccessStoresWhatItAnswers(store: Store, key: string, ttl: nat, day: Date, stamp: string,
                                      net: string -> HttpOutcome)
    requires Valid(day) && !Hit(store, key)
    requires net(DayUrl(day)).Reply? && net(DayUrl(day)).status == 200
    ensures var step := DayStep(store, key, ttl, Some(day), stamp, net);
      && step.response.Json? && step.response.status == 200 && step.response.body.Data?
      && key in step.store && step.store[key] == Entry(step.response.body.payload, ttl)
      && step.store[key].value == DayResult(net(DayUrl(day)).page, day, stamp)
      && forall k :: k != key ==> (k in step.store <==> k in store) && (k in store ==> step.store[k] == store[k])
  {
  }

  /** Any other status, or an exception, stores nothing and answers 500;
      a bad status is passed on in the answer. */
  lemma DayFailureStoresNothing(store: Store, key: string, ttl: nat, day: Date, stamp: string,
                                net: string -> HttpOutcome)
    requires Valid(day) && !Hit(store, key)
    requires !(net(DayUrl(day)).Reply? && net(DayUrl(day)).status == 200)
    ensures var step := DayStep(store, key, ttl, Some(day), stamp, net);
      && step.store == store
      && step.response.Json? && step.response.status == 500
      && (net(DayUrl(day)).Reply? ==> step.response.body == FetchFailed(net(DayUrl(day)).status))
      && (net(DayUrl(day)).Raised? ==> step.response.body == ConnectionError(net(DayUrl(day)).message))
  {
  }

  /** Right after a successful fetch, the same request is served from the
      cache: same answer, no fetch. */
  lemma DaySecondRequestIsCached(store: Store, key: string, ttl: nat, day: Option<Date>, stamp: string,
                                 stamp': string, net: string -> HttpOutcome, net': string -> HttpOutcome)
    requires day.Some? ==> Valid(day.value)
    requires var first := DayStep(store, key, ttl, day, stamp, net);
      first.response.Json? && first.response.status == 200
    ensures var first := DayStep(store, key, ttl, day, stamp, net);
      var second := DayStep(first.store, key, ttl, day, stamp', net');
      second == Step(first.response, first.store, [])
  {
  }

  /** A day request either leaves the cache alone or stores under its own
      key with its own timeout. */
  lemma DayStoresWithItsTimeout(store: Store, key: string, ttl: nat, day: Option<Date>, stamp: string,
                                net: string -> HttpOutcome)
    requires day.Some? ==> Valid(day.value)
    ensures var step := DayStep(store, key, ttl, day, stamp, net);
      step.store == store || (key in step.store && step.store[key].ttl == ttl)
  {
  }

  /** The timeouts of the two day views: ten minutes and a day. */
  lemma DayViewTimeouts(store: Store, today: Date, stamp: string, net: string -> HttpOutcome)
    requires Valid(today)
    ensures var t := DayStep(store, TodayKey, TodayTtl, Some(today), stamp, net);
      t.store != store ==> TodayKey in t.store && t.store[TodayKey].ttl == 600
    ensures var y := DayStep(store, YesterdayKey, YesterdayTtl, PrevDay(today), stamp, net);
      y.store != store ==> YesterdayKey in y.store && y.store[YesterdayKey].ttl == 86400
  {
    DayStoresWithItsTimeout(store, TodayKey, TodayTtl, Some(today), stamp, net);
    DayStoresWithItsTimeout(store, YesterdayKey, YesterdayTtl, PrevDay(today), stamp, net);
  }

  /** Today and yesterday are never fetched under the same URL. */
  lemma TwoDaysTwoUrls(today: Date)
    requires Valid(today) && today != MinDate
    ensures DayUrl(PrevDay(today).value) != DayUrl(today)
  {
    var y := PrevDay(today).value;
    if DayUrl(y) == DayUrl(today) {
      DayUrlInjective(y, today);
    }
  }

  /** The yesterday view asks for the day before today: the one day whose
      next day is today. */
  lemma YesterdayIsTheDayBefore(store: Store, today: Date, stamp: string, net: string -> HttpOutcome)
    requires Valid(today) && today != MinDate && !Hit(store, YesterdayKey)
    ensures var y := DayStep(store, YesterdayKey, YesterdayTtl, PrevDay(today), stamp, net);
      && y.requested == [DayUrl(PrevDay(today).value)]
      && NextDay(PrevDay(today).value) == Some(today)
  {
    PrevThenNext(today);
  }

  // ---------------------------------------------------------------------
  // LatestNewsView

  /** `_fetch_news_for_date` on the outcome of its GET: the records on 200,
      `[]` when an exception was raised, and None (the method falls off its
      end) for any other status. */
  function FetchForDate(outcome: HttpOutcome): (r: Option<seq<Article>>)
    ensures outcome.Raised? ==> r == Some([])
    ensures outcome.Reply? && outcome.status == 200 ==> r == Some(SectionArticles(outcome.page.doc))
    ensures outcome.Reply? && outcome.status != 200 ==> r.None?
  {
    match outcome
    case Raised(_) => Some([])
    case Reply(status, page) => if status == 200 then Some(SectionArticles(page.doc)) else None
  }

  /** `_fetch_news_for_date(date)`: one GET, then the records or the
      fallback. */
  method FetchNewsForDate(date: string, net: string -> HttpOutcome)
    returns (news: Option<seq<Article>>, url: string)
    ensures url == KaktusUrl(date) && news == FetchForDate(net(url))
  {
    url := KaktusUrl(date);
    match net(url)
    case Raised(_) =>
      news := Some([]);
    case Reply(status, page) =>
      if status == 200 {
        var articles := ParseArticles(page.doc);
        news := Some(articles);
      } else {
        news := None;
      }
  }

  /** Python's `s[i:j]` on a list: negative bounds count from the end, and
      both are clamped to the list. */
  function PySlice<T>(s: seq<T>, i: int, j: int): (r: seq<T>)
  {
    var a := Clamp(i, |s|);
    var b := Clamp(j, |s|);
    if a < b then s[a..b] else []
  }

  function Clamp(i: int, n: nat): (c: nat)
    ensures c <= n
  {
    if i < 0 then (if i + n < 0 then 0 else i + n) else if i > n then n else i
  }

  function Min(a: int, b: int): int { if a < b then a else b }

  /** The articles on a page: `all[(page-1)*per_page : (page-1)*per_page + per_page]`. */
  function PageOf<T>(all: seq<T>, page: int, perPage: int): seq<T>
  {
    var start := (page - 1) * perPage;
    PySlice(all, start, start + perPage)
  }

  /** For positive parameters a page is the plain slice from
      `(page-1)*per_page` to `page*per_page`, cut at the end of the list,
      so it never holds more than `per_page` articles. */
  lemma PageIsSlice<T>(all: seq<T>, page: int, perPage: int)
    requires page >= 1 && perPage >= 1
    ensures var n := |all|;
      PageOf(all, page, perPage)
        == all[Min((page - 1) * perPage, n)..Min(page * perPage, n)]
    ensures |PageOf(all, page, perPage)| <= perPage
  {
    var n := |all|;
    var start := (page - 1) * perPage;
    var end := page * perPage;
    NonNegativeProduct(page - 1, perPage);
    assert start + perPage == end;
    var a, b := Clamp(start, n), Clamp(end, n);
    assert a == Min(start, n) && b == Min(end, n);
    assert PageOf(all, page, perPage) == PySlice(all, start, end);
    if a >= b {
      assert a == b;
    }
  }

  lemma NonNegativeProduct(x: int, y: int)
    requires x >= 0 && y >= 0
    ensures x * y >= 0
  {
  }

  /** Article number `q * per_page + r` (with `r < per_page`) is on page
      `q + 1`, at position `r`: the pages cover the list with no gap. */
  lemma ArticleOnItsPage<T>(all: seq<T>, perPage: int, q: nat, r: nat)
    requires perPage >= 1 && r < perPage && q * perPage + r < |all|
    ensures var p := PageOf(all, q + 1, perPage);
      r < |p| && p[r] == all[q * perPage + r]
  {
    var start := q * perPage;
    assert (q + 1 - 1) * perPage == start;
    assert start >= 0;
    var p := PySlice(all, start, start + perPage);
    assert p == all[start..Min(start + perPage, |all|)];
  }

  /** Page 0 is empty for every positive `per_page`: its slice runs from
      `-per_page` to 0, and 0 is the start of the list. */
  lemma PageZeroIsEmpty<T>(all: seq<T>, perPage: int)
    requires perPage >= 1
    ensures PageOf(all, 0, perPage) == []
  {
    assert (0 - 1) * perPage == -perPage;
  }

  /** A negative page `-back` reads backwards from the end of the list, the
      way Python slices do: it holds the articles from `n-(back+1)*per_page`
      to `n-back*per_page`, each bound cut at the start of the list. */
  lemma NegativePageReadsFromTheEnd<T>(all: seq<T>, back: int, perPage: int)
    requires back >= 1 && perPage >= 1
    ensures var n := |all|;
      var lo := n - (back + 1) * perPage;
      var hi := n - back * perPage;
      PageOf(all, -back, perPage) == all[if lo < 0 then 0 else lo..if hi < 0 then 0 else hi]
    ensures (back + 1) * perPage <= |all| ==>
      PageOf(all, -back, perPage) == all[|all| - (back + 1) * perPage..|all| - back * perPage]
  {
    var start := (-back - 1) * perPage;
    assert start == -((back + 1) * perPage);
    assert start + perPage == -(back * perPage);
    assert back * perPage >= perPage by {
      assert (back - 1) * perPage >= 0;
    }
  }

  /** The result dict of a latest page. */
  function LatestResult(todayNews: seq<Article>, yesterdayNews: seq<Article>, page: int, perPage: int,
                        stamp: string): Payload
  {
    var all := todayNews + yesterdayNews;
    LatestNews(page, perPage, |all|, PageOf(all, page, perPage), stamp)
  }

  /** One request to the latest view. */
  function LatestStep(store: Store, page: int, perPage: int, today: Date, stamp: string,
                      net: string -> HttpOutcome): Step
    requires Valid(today)
  {
    var key := LatestKey(page, perPage);
    if Hit(store, key) then Step(Json(200, Data(store[key].value)), store, [])
    else
      var todayUrl := DayUrl(today);
      var todayNews := FetchForDate(net(todayUrl));
      match PrevDay(today)
      case None => Step(Unhandled("OverflowError"), store, [todayUrl])
      case Some(yesterday) =>
        var yesterdayUrl := DayUrl(yesterday);
        var yesterdayNews := FetchForDate(net(yesterdayUrl));
        if todayNews.None? || yesterdayNews.None? then
          // `today_news + yesterday_news` with a None operand
          Step(Unhandled("TypeError"), store, [todayUrl, yesterdayUrl])
        else
          var result := LatestResult(todayNews.value, yesterdayNews.value, page, perPage, stamp);
          Step(Json(200, Data(result)), store[key := Entry(result, LatestTtl)], [todayUrl, yesterdayUrl])
  }

  /** `LatestNewsView.get` with `page` and `per_page` already read from
      the query string. */
  method LatestNewsGet(cache: Cache, page: int, perPage: int, today: Date, stamp: string,
                       net: string -> HttpOutcome)
    returns (response: Response, requested: seq<string>)
    requires Valid(today)
    modifies cache
    ensures Step(response, cache.entries, requested) == LatestStep(old(cache.entries), page, perPage, today, stamp, net)
  {
    var key := LatestKey(page, perPage);
    var cached := cache.Get(key);
    if cached.Some? && Truthy(cached.value) {
      return Json(200, Data(cached.value)), [];
    }
    var todayNews, todayUrl := FetchNewsForDate(FormatYMD(today), net);
    requested := [todayUrl];
    var yesterday := PrevDay(today);
    if yesterday.None? {
      return Unhandled("OverflowError"), requested;
    }
    var yesterdayNews, yesterdayUrl := FetchNewsForDate(FormatYMD(yesterday.value), net);
    requested := requested + [yesterdayUrl];
    if todayNews.None? || yesterdayNews.None? {
      return Unhandled("TypeError"), requested;
    }
    var all := todayNews.value + yesterdayNews.value;
    var start := (page - 1) * perPage;
    var end := start + perPage;
    var result := LatestNews(page, perPage, |all|, PySlice(all, start, end), stamp);
    cache.Set(key, result, LatestTtl);
    response := Json(200, Data(result));
  }

  /** A truthy cached page is answered as it is, with no fetch. */
  lemma LatestHitShortCircuits(store: Store, page: int, perPage: int, today: Date, stamp: string,
                               net: string -> HttpOutcome)
    requires Valid(today) && Hit(store, LatestKey(page, perPage))
    ensures LatestStep(store, page, perPage, today, stamp, net)
      == Step(Json(200, Data(store[LatestKey(page, perPage)].value)), store, [])
  {
  }

  /** When both days can be read, the answer lists today's articles before
      yesterday's, counts all of them whatever the page, holds the page's
      slice, and is what is stored under the page's key for five minutes. */
  lemma LatestSuccess(store: Store, page: int, perPage: int, today: Date, stamp: string,
                      net: string -> HttpOutcome)
    requires Valid(today) && today != MinDate && !Hit(store, LatestKey(page, perPage))
    requires FetchForDate(net(DayUrl(today))).Some?
    requires FetchForDate(net(DayUrl(PrevDay(today).value))).Some?
    ensures var t := FetchForDate(net(DayUrl(today))).value;
      var y := FetchForDate(net(DayUrl(PrevDay(today).value))).value;
      var step := LatestStep(store, page, perPage, today, stamp, net);
      && step.requested == [DayUrl(today), DayUrl(PrevDay(today).value)]
      && step.response.Json? && step.response.status == 200 && step.response.body.Data?
      && step.response.body.payload.LatestNews?
      && step.response.body.payload.totalArticles == |t| + |y|
      && step.response.body.payload.articles == PageOf(t + y, page, perPage)
      && LatestKey(page, perPage) in step.store
      && step.store[LatestKey(page, perPage)] == Entry(step.response.body.payload, 300)
      && forall k :: k != LatestKey(page, perPage) ==>
           (k in step.store <==> k in store) && (k in store ==> step.store[k] == store[k])
  {
  }

  /** A non-200 status on either day leaves `None` in the sum, so the view
      fails with an uncaught TypeError and caches nothing; both days have
      been fetched by then. */
  lemma LatestBadStatusIsUncaught(store: Store, page: int, perPage: int, today: Date, stamp: string,
                                  net: string -> HttpOutcome)
    requires Valid(today) && today != MinDate && !Hit(store, LatestKey(page, perPage))
    requires var t := net(DayUrl(today));
      var y := net(DayUrl(PrevDay(today).value));
      (t.Reply? && t.status != 200) || (y.Reply? && y.status != 200)
    ensures var step := LatestStep(store, page, perPage, today, stamp, net);
      step.response == Unhandled("TypeError") && step.store == store && |step.requested| == 2
  {
  }

  /** Connection failures count as days without articles: if both fetches
      raise, the view still answers 200 with no articles. */
  lemma LatestBothRaisedIsEmpty(store: Store, page: int, perPage: int, today: Date, stamp: string,
                                net: string -> HttpOutcome)
    requires Valid(today) && today != MinDate && !Hit(store, LatestKey(page, perPage))
    requires net(DayUrl(today)).Raised? && net(DayUrl(PrevDay(today).value)).Raised?
    ensures var step := LatestStep(store, page, perPage, today, stamp, net);
      step.response == Json(200, Data(LatestNews(page, perPage, 0, [], stamp)))
  {
  }
}
