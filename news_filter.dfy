/** The list filter of the news API (`NewsFilterBackend.filter_queryset`):
    three optional query parameters, each narrowing a list of article dicts,
    all of them combined with AND. */
module NewsFilter {
  import opened Wrappers
  import opened Text
  import Seqs

  /** One article as the dict the filter receives: key to text. */
  type Item = map<string, string>

  /** The `title`, `date` and `source` query parameters, each absent or
      given as text. */
  datatype Query = Query(title: Option<string>, date: Option<string>, source: Option<string>)

  /** The exception a list comprehension can raise: `n['title']` on an
      article without that key. */
  datatype FilterError = KeyError(key: string)

  /** `if x := request.query_params.get(...)`: a parameter takes effect only
      when it is present and non-empty. */
  predicate Given(p: Option<string>)
  {
    p.Some? && p.value != ""
  }

  /** `t.lower() in n['title'].lower()`, for an article that has a title. */
  predicate TitleMatches(t: string, n: Item)
  {
    "title" in n && Contains(Lower(n["title"]), Lower(t))
  }

  /** `n.get('date') == d`: an article without a date never equals a text. */
  predicate DateMatches(d: string, n: Item)
  {
    "date" in n && n["date"] == d
  }

  /** `n.get('source') == s`: exact and case-sensitive. */
  predicate SourceMatches(s: string, n: Item)
  {
    "source" in n && n["source"] == s
  }

  function TitleTest(t: string): Item -> bool { n => TitleMatches(t, n) }
  function DateTest(d: string): Item -> bool { n => DateMatches(d, n) }
  function SourceTest(s: string): Item -> bool { n => SourceMatches(s, n) }

  /** An article passes every criterion the query gives. */
  predicate Matches(q: Query, n: Item)
  {
    && (Given(q.title) ==> TitleMatches(q.title.value, n))
    && (Given(q.date) ==> DateMatches(q.date.value, n))
    && (Given(q.source) ==> SourceMatches(q.source.value, n))
  }

  function MatchTest(q: Query): Item -> bool { n => Matches(q, n) }

  predicate AllHaveTitle(items: seq<Item>)
  {
    forall i :: 0 <= i < |items| ==> "title" in items[i]
  }

  /** `[n for n in items if t.lower() in n['title'].lower()]`: raises
      KeyError as soon as it meets an article without a title. */
  function FilterByTitle(items: seq<Item>, t: string): (r: Result<seq<Item>, FilterError>)
    ensures r.Err? <==> !AllHaveTitle(items)
    ensures r.Err? ==> r.error == KeyError("title")
    ensures r.Ok? ==> r.value == Seqs.Keep(items, TitleTest(t))
  {
    if items == [] then Ok([])
    else if "title" !in items[0] then Err(KeyError("title"))
    else
      match FilterByTitle(items[1..], t)
      case Err(e) => Err(e)
      case Ok(rest) =>
        Ok((if Contains(Lower(items[0]["title"]), Lower(t)) then [items[0]] else []) + rest)
  }

  /** `filter_queryset`: the title filter, then the date filter, then the
      source filter, each applied only when its parameter is given. */
  function FilterQueryset(q: Query, items: seq<Item>): Result<seq<Item>, FilterError>
  {
    var byTitle := if Given(q.title) then FilterByTitle(items, q.title.value) else Ok(items);
    match byTitle
    case Err(e) => Err(e)
    case Ok(afterTitle) =>
      var afterDate := if Given(q.date) then Seqs.Keep(afterTitle, DateTest(q.date.value)) else afterTitle;
      var afterSource := if Given(q.source) then Seqs.Keep(afterDate, SourceTest(q.source.value)) else afterDate;
      Ok(afterSource)
  }

  /** Keeping by a list of tests one after another is keeping by `Matches`
      once; this is the heart of every property below. */
  lemma {:induction false} ChainIsMatch(q: Query, items: seq<Item>)
    ensures var afterTitle := if Given(q.title) then Seqs.Keep(items, TitleTest(q.title.value)) else items;
      var afterDate := if Given(q.date) then Seqs.Keep(afterTitle, DateTest(q.date.value)) else afterTitle;
      var afterSource := if Given(q.source) then Seqs.Keep(afterDate, SourceTest(q.source.value)) else afterDate;
      afterSource == Seqs.Keep(items, MatchTest(q))
  {
    var tq := Query(q.title, None, None);
    var dq := Query(q.title, q.date, None);
    // after the title step the list is Keep(items, tq)
    if Given(q.title) {
      assert forall n :: TitleTest(q.title.value)(n) == MatchTest(tq)(n);
      KeepSameTest(items, TitleTest(q.title.value), MatchTest(tq));
    } else {
      assert forall n :: MatchTest(tq)(n);
      Seqs.KeepAll(items, MatchTest(tq));
    }
    var afterTitle := if Given(q.title) then Seqs.Keep(items, TitleTest(q.title.value)) else items;
    assert afterTitle == Seqs.Keep(items, MatchTest(tq));
    // after the date step it is Keep(items, dq)
    if Given(q.date) {
      assert forall n :: MatchTest(dq)(n) == (MatchTest(tq)(n) && DateTest(q.date.value)(n));
      Seqs.KeepKeep(items, MatchTest(tq), DateTest(q.date.value), MatchTest(dq));
    } else {
      assert forall n :: MatchTest(dq)(n) == MatchTest(tq)(n);
      KeepSameTest(items, MatchTest(tq), MatchTest(dq));
    }
    var afterDate := if Given(q.date) then Seqs.Keep(afterTitle, DateTest(q.date.value)) else afterTitle;
    assert afterDate == Seqs.Keep(items, MatchTest(dq));
    // and after the source step it is Keep(items, q)
    if Given(q.source) {
      assert forall n :: MatchTest(q)(n) == (MatchTest(dq)(n) && SourceTest(q.source.value)(n));
      Seqs.KeepKeep(items, MatchTest(dq), SourceTest(q.source.value), MatchTest(q));
    } else {
      assert forall n :: MatchTest(q)(n) == MatchTest(dq)(n);
      KeepSameTest(items, MatchTest(dq), MatchTest(q));
    }
  }

  lemma {:induction false} KeepSameTest(items: seq<Item>, p: Item -> bool, p': Item -> bool)
    requires forall n :: p(n) == p'(n)
    ensures Seqs.Keep(items, p) == Seqs.Keep(items, p')
    decreases |items|
  {
    if items != [] {
      KeepSameTest(items[1..], p, p');
    }
  }

  /** The whole behaviour of `filter_queryset`: a KeyError exactly when a
      title is given and some article has no title; otherwise the articles
      that match every given criterion, in their original order. */
  lemma FilterQuerysetIs(q: Query, items: seq<Item>)
    ensures FilterQueryset(q, items).Err? <==> Given(q.title) && !AllHaveTitle(items)
    ensures FilterQueryset(q, items).Err? ==> FilterQueryset(q, items).error == KeyError("title")
    ensures FilterQueryset(q, items).Ok? ==> FilterQueryset(q, items).value == Seqs.Keep(items, MatchTest(q))
  {
    ChainIsMatch(q, items);
  }

  /** A query with no parameter, or with only empty ones, returns the input
      unchanged. */
  lemma FilterWithoutCriteria(q: Query, items: seq<Item>)
    requires !Given(q.title) && !Given(q.date) && !Given(q.source)
    ensures FilterQueryset(q, items) == Ok(items)
  {
  }

  /** The output is the input with some articles removed and the rest in
      their original order. */
  lemma FilterIsSubsequence(q: Query, items: seq<Item>)
    requires FilterQueryset(q, items).Ok?
    ensures Seqs.IsSubsequence(FilterQueryset(q, items).value, items)
  {
    FilterQuerysetIs(q, items);
    Seqs.KeepIsSubsequence(items, MatchTest(q));
  }

  /** Soundness: every article returned passes every given criterion. */
  lemma FilterSound(q: Query, items: seq<Item>, n: Item)
    requires FilterQueryset(q, items).Ok? && n in FilterQueryset(q, items).value
    ensures n in items && Matches(q, n)
  {
    FilterQuerysetIs(q, items);
    Seqs.KeepSound(items, MatchTest(q), n);
  }

  /** Completeness: every input article that passes every given criterion
      is returned. */
  lemma FilterComplete(q: Query, items: seq<Item>, n: Item)
    requires FilterQueryset(q, items).Ok? && n in items && Matches(q, n)
    ensures n in FilterQueryset(q, items).value
  {
    FilterQuerysetIs(q, items);
    Seqs.KeepComplete(items, MatchTest(q), n);
  }

  /** Filtering the result again with the same query changes nothing and
      cannot fail. */
  lemma FilterIdempotent(q: Query, items: seq<Item>)
    requires FilterQueryset(q, items).Ok?
    ensures FilterQueryset(q, FilterQueryset(q, items).value) == FilterQueryset(q, items)
  {
    var out := FilterQueryset(q, items).value;
    FilterQuerysetIs(q, items);
    if Given(q.title) {
      forall i | 0 <= i < |out| ensures "title" in out[i] {
        Seqs.KeepSound(items, MatchTest(q), out[i]);
      }
    }
    FilterQuerysetIs(q, out);
    Seqs.KeepIdempotent(items, MatchTest(q));
  }

  /** With a date given, an article without a `date` key is never returned. */
  lemma DateFilterDropsUndated(q: Query, items: seq<Item>, n: Item)
    requires Given(q.date) && "date" !in n
    requires FilterQueryset(q, items).Ok?
    ensures n !in FilterQueryset(q, items).value
  {
    if n in FilterQueryset(q, items).value {
      FilterSound(q, items, n);
    }
  }

  /** The title test ignores case: "news" finds "Breaking NEWS Today". */
  lemma TitleIgnoresCase()
    ensures TitleMatches("news", map["title" := "Breaking NEWS Today"])
  {
    var hay := Lower("Breaking NEWS Today");
    assert hay[9..13] == "news";
    assert OccursAt(hay, Lower("news"), 9);
  }

  /** The source test is exact: neither a different case nor a part of the
      name matches. */
  lemma SourceIsExact()
    ensures !SourceMatches("kaktus media", map["source" := "Kaktus Media"])
    ensures !SourceMatches("Kaktus", map["source" := "Kaktus Media"])
    ensures SourceMatches("Kaktus Media", map["source" := "Kaktus Media"])
  {
  }
}
