/** `KaktusMediaParser`: the stand-alone scraper that reads every article
    container of a day's listing page and tags each record with its source. */
module NewsParser {
  import opened Wrappers
  import opened Text
  import opened Dates
  import opened Listing
  import Numerals
  import NewsViews

  const BaseUrl := "https://kaktus.media"
  const ParserSource := "Kaktus Media"

  /** The records `parse_articles` returns: one per well-formed
      `.Tag--article` of the page, wherever it stands, each with
      `source: 'Kaktus Media'`. */
  function ParsedArticles(doc: Document): seq<Article>
  {
    Harvest(AllContainers(doc), Some(ParserSource))
  }

  /** `parse_articles`: one loop over `soup.select('.Tag--article')`,
      appending each record and skipping, after a log line, each container
      the `try` block fails on. */
  method ParseArticles(doc: Document) returns (articles: seq<Article>)
    ensures articles == ParsedArticles(doc)
  {
    var items := AllContainers(doc);
    articles := [];
    var i := 0;
    while i < |items|
      invariant 0 <= i <= |items|
      invariant articles == Harvest(items[..i], Some(ParserSource))
    {
      HarvestSnoc(items[..i], items[i], Some(ParserSource));
      assert items[..i + 1] == items[..i] + [items[i]];
      var record := Extract(items[i], Some(ParserSource));
      if record.Some? {
        articles := articles + [record.value];
      }
      i := i + 1;
    }
    assert items[..i] == items;
  }

  /** Every record is that of some well-formed container of the page: its
      title and time are stripped and its source is 'Kaktus Media'. */
  lemma ParsedRecordShape(doc: Document, a: Article)
    requires a in ParsedArticles(doc)
    ensures Trimmed(a.title) && Trimmed(a.time) && a.source == Some(ParserSource)
    ensures exists k :: (0 <= k < |AllContainers(doc)| && WellFormed(AllContainers(doc)[k]) &&
                         a == RecordOf(AllContainers(doc)[k], Some(ParserSource)))
  {
    HarvestSound(AllContainers(doc), Some(ParserSource), a);
  }

  /** A page without any article container yields `[]`. */
  lemma NoContainersNoArticles(doc: Document)
    requires AllContainers(doc) == []
    ensures ParsedArticles(doc) == []
  {
  }

  /** A container standing outside any section is read by the parser but
      not by the views. */
  lemma LooseContainerOnlyParsed(c: Container)
    requires WellFormed(c)
    ensures ParsedArticles([Loose(c)]) == [RecordOf(c, Some(ParserSource))]
    ensures NewsViews.SectionArticles([Loose(c)]) == []
  {
    var doc := [Loose(c)];
    assert doc[1..] == [];
    assert AllContainers(doc) == [c];
    assert Sections(doc) == [];
    assert Harvest([c], Some(ParserSource)) == Piece(c, Some(ParserSource)) + Harvest([c][1..], Some(ParserSource));
  }

  /** On a page made only of sections, the parser and the views read the
      same records in the same order; the parser's carry the source. */
  lemma SectionedPagesAgree(doc: Document)
    requires HasNoLooseItems(doc)
    ensures var p := ParsedArticles(doc);
      var v := NewsViews.SectionArticles(doc);
      |p| == |v| && forall k :: 0 <= k < |p| ==> p[k] == v[k].(source := Some(ParserSource))
  {
    SectionsCoverAll(doc);
    HarvestResourced(AllContainers(doc), None, Some(ParserSource));
  }

  /** The dict `fetch_news` returns. `source` is present only on a 200. */
  datatype NewsBatch = NewsBatch(date: string, articles: seq<Article>, source: Option<string>)

  /** `f"{self.BASE_URL}/?lable=8&date={date_str}&order=time"`. */
  function FetchUrl(d: Date): string
    requires Valid(d)
  {
    BaseUrl + "/?lable=8&date=" + FormatYMD(d) + "&order=time"
  }

  /** The parser asks for the same URL as the views do for that day. */
  lemma FetchUrlIsViewsUrl(d: Date)
    requires Valid(d)
    ensures FetchUrl(d) == NewsViews.DayUrl(d)
  {
  }

  /** `fetch_news` on the outcome of its GET: the records and the base URL
      on 200, no articles and no source otherwise, and the exception passed
      on when the request raises. */
  function FetchOutcome(d: Date, outcome: HttpOutcome): (r: Result<NewsBatch, string>)
    requires Valid(d)
    ensures r.Err? <==> outcome.Raised?
    ensures r.Err? ==> r.error == outcome.message
    ensures r.Ok? ==> r.value.date == FormatYMD(d)
    ensures r.Ok? ==> (r.value.source.Some? <==> outcome.status == 200)
    ensures r.Ok? && outcome.status == 200 ==>
      r.value.articles == ParsedArticles(outcome.page.doc) && r.value.source == Some(BaseUrl)
    ensures r.Ok? && outcome.status != 200 ==> r.value.articles == []
  {
    var dateStr := FormatYMD(d);
    match outcome
    case Raised(m) => Err(m)
    case Reply(status, page) =>
      if status == 200 then Ok(NewsBatch(dateStr, ParsedArticles(page.doc), Some(BaseUrl)))
      else Ok(NewsBatch(dateStr, [], None))
  }

  /** `fetch_news(date)`: request the day's listing and build the dict. */
  method FetchNews(d: Date, net: string -> HttpOutcome) returns (result: Result<NewsBatch, string>, url: string)
    requires Valid(d)
    ensures url == FetchUrl(d) && result == FetchOutcome(d, net(url))
  {
    var dateStr := FormatYMD(d);
    url := BaseUrl + "/?lable=8&date=" + dateStr + "&order=time";
    match net(url)
    case Raised(m) =>
      result := Err(m);
    case Reply(status, page) =>
      if status == 200 {
        var articles := ParseArticles(page.doc);
        result := Ok(NewsBatch(dateStr, articles, Some(BaseUrl)));
      } else {
        result := Ok(NewsBatch(dateStr, [], None));
      }
  }

  /** The `date` of the result reads back as the requested day, whichever
      path was taken. */
  lemma FetchDateReadsBack(d: Date, outcome: HttpOutcome)
    requires Valid(d) && FetchOutcome(d, outcome).Ok?
    ensures var s := FetchOutcome(d, outcome).value.date;
      && |s| == 10 && s[4] == '-' && s[7] == '-'
      && Numerals.DecValue(s[0..4]) == d.year
      && Numerals.DecValue(s[5..7]) == d.month
      && Numerals.DecValue(s[8..10]) == d.day
  {
    FormatYMDFields(d);
  }
}
