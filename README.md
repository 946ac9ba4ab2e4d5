# Kaktus Media news pipeline and user checks, modelled in Dafny

This project models the part of the News_2 Django service that has real
behaviour, and proves properties of that model. It covers:

- **The news list filter** (`NewsFilterBackend.filter_queryset`). It narrows a list of
  article dicts by three optional query parameters, `title`, `date` and `source`,
  which are combined with AND.
- **The two article extractors.** `KaktusNewsMixin._parse_articles` walks the
  `Tag--articles` sections of the listing page and then the containers inside
  each one. `KaktusMediaParser.parse_articles` walks every `.Tag--article` container
  of the page and tags each record with `source: 'Kaktus Media'`.
- **The date banner** (`_get_date`). It takes the page's own "today" label with every pair
  of spaces removed. When the page has no banner it falls back to the day as
  `dd.mm.yyyy`.
- **The three cached views** (`TodayNewsView`, `YesterdayNewsView`, `LatestNewsView`).
  Each one checks the cache, fetches on a miss, and stores a successful result
  under its key with a fixed timeout (600 s, 86400 s, 300 s). The latest
  view concatenates today's and yesterday's articles and serves one page of them.
- **`KaktusMediaParser.fetch_news`**: the request URL, the `date` string, and the two
  possible result shapes.
- **The user side:**
  - `CustomUserManager.create_user`'s email requirement;
  - `create_superuser`'s flag defaulting and its `is True` checks;
  - `UserSerializer.validate` and `create`;
  - the two admin list filters;
  - the `IsOwnerOrAdmin` object permission.

The HTML is modelled after parsing. A page (`Listing.Page`) is a sequence of blocks. A
block is either a section holding containers, or a container standing on its
own. Each container has an optional name link, with its text and an optional
`href`, and an optional time text. The network becomes a function parameter
`net: string -> HttpOutcome`. An outcome is a reply with a status and a parsed
page, or a raised exception. The clock becomes a `today: Date` parameter
and a `stamp` string for `last_updated`. The cache is a class whose single field
maps a key to its value and timeout (`NewsViews.Cache`).

Each view is a method that changes the cache. It is proved equal to a
pure step function (`DayStep`, `LatestStep`), and the properties are lemmas
about those step functions. A step function returns the answer, the new cache
contents, and the URLs fetched, in order. Uncaught Python exceptions become
`Response.Unhandled`. Two cases reach it:
- the `OverflowError` of stepping back from 0001-01-01;
- the `TypeError` of `today_news + yesterday_news` when a fetch returned `None`.

The two extraction loops are methods with loop invariants. They are proved
equal to `Harvest`, which visits the containers in order and skips every
malformed one.

Behaviour the model makes explicit:
- **Yesterday view at the first day.** It checks the cache before computing
  yesterday (apps/news/views.py:94-99). A cached value is therefore served even
  on 0001-01-01, and the overflow happens only on a miss.
- **A bad status in the latest view.** If either day's fetch gets a non-200
  status, `_fetch_news_for_date` returns `None`. The sum in the latest view
  then raises, after both URLs have been fetched, and nothing is cached. A
  connection error, in contrast, counts as a day with no articles
  (`NewsViews.LatestBadStatusIsUncaught`, `NewsViews.LatestBothRaisedIsEmpty`).
- **Pages below 1.** `page` is used as given. Page 0 is empty for every
  positive `per_page` (`NewsViews.PageZeroIsEmpty`), and a negative page reads
  from the end of the list the way Python slices do
  (`NewsViews.NegativePageReadsFromTheEnd`).
- **Extra containers seen by the parser.** The parser reads containers outside
  any section, which the views skip. Within the container abstraction of this
  model, on pages made only of sections, the parser and the views read the
  same records, up to the `source` key (`NewsParser.SectionedPagesAgree`).
  The real extractors differ further: the views look elements up by tag name
  and class (`div`, `a`, `div`; apps/news/views.py:18,22,25-27), the parser
  by class alone (apps/news/parsers.py:15,17-19), so an article container
  that is not a `div` is read by the parser and skipped by the views. The
  model does not represent element names.
- **Filters the code has.** The title filter is case-insensitive substring
  matching (apps/news/filters.py:8). The source filter is exact,
  case-sensitive equality (apps/news/filters.py:16). The date filter is
  equality with the `date` key (apps/news/filters.py:12); there is no
  `date_after`/`date_before` range filter.

## Model

| member | source | states |
|---|---|---|
| NewsFilter.FilterQueryset | apps/news/filters.py:5-18 | definition: the title, date and source comprehensions in turn, each only when its parameter is truthy; properties in FilterQuerysetIs, FilterSound, FilterComplete, FilterIdempotent |
| NewsFilter.FilterByTitle | apps/news/filters.py:7-8 | KeyError('title') exactly when some article has no title; otherwise the articles whose lower-cased title contains the lower-cased query, in input order |
| NewsFilter.ChainIsMatch | apps/news/filters.py:7-16 | the three successive comprehensions keep exactly the items passing every given criterion |
| NewsFilter.FilterQuerysetIs | apps/news/filters.py:5-18 | fails (KeyError 'title') iff a title is given and some article lacks a title; otherwise returns the articles matching all given criteria, in order |
| NewsFilter.FilterWithoutCriteria | apps/news/filters.py:7-18 | absent or empty parameters (walrus truthiness) leave the list unchanged |
| NewsFilter.FilterIsSubsequence | apps/news/filters.py:8-16 | the output is a subsequence of the input (order kept) |
| NewsFilter.FilterSound | apps/news/filters.py:7-16 | every returned article is an input article matching every given criterion |
| NewsFilter.FilterComplete | apps/news/filters.py:7-16 | every input article matching every given criterion is returned |
| NewsFilter.FilterIdempotent | apps/news/filters.py:7-18 | filtering the result again with the same query returns it unchanged and cannot fail |
| NewsFilter.DateFilterDropsUndated | apps/news/filters.py:11-12 | with a date given, an article without a `date` key is never returned |
| NewsFilter.TitleIgnoresCase | apps/news/filters.py:8 | "news" matches the title "Breaking NEWS Today" |
| NewsFilter.SourceIsExact | apps/news/filters.py:15-16 | the source test is exact: another case or a part of the name does not match |
| Text.Contains | apps/news/filters.py:8 | definition of Python's `needle in hay`: the needle occurs at some offset; used by the title filter |
| Text.RemoveDoubleSpaces | apps/news/views.py:86 | definition of `replace('  ', '')`, left-to-right non-overlapping; properties in SplitAfterNonSpace, RunCollapses, RemoveLeavesNoDoubleSpace, RemoveKeepsNonSpaces, RemoveFixesNoDoubleSpace, RemoveDoubleSpacesIdempotent |
| Text.Strip | apps/news/views.py:26-27 | `strip()` yields a text that neither starts nor ends with Python whitespace, no longer than the input |
| Text.StripOfPadded | apps/news/views.py:26-27 | `strip()` removes exactly the surrounding whitespace: a trimmed text padded with whitespace strips back to itself |
| Text.StripIdempotent | apps/news/parsers.py:17-19 | stripping a stripped text changes nothing |
| Text.Lower | apps/news/filters.py:8 | `lower()` keeps the length and maps each character through the case table |
| Text.LowerLeavesNoCapitals | apps/news/filters.py:8 | after `lower()` no ASCII or basic Cyrillic capital remains |
| Text.LowerIdempotent | apps/news/filters.py:8 | lowering twice is lowering once |
| Text.SplitAfterNonSpace | apps/news/views.py:86 | after a non-space the replacement works on each side separately: no deleted pair straddles the boundary |
| Text.RunCollapses | apps/news/views.py:86 | `replace('  ', '')` turns a maximal run of k spaces anywhere in the text into k mod 2 spaces, leaving the text on either side as it would be alone (so "a   b" becomes "a b") |
| Text.RemoveLeavesNoDoubleSpace | apps/news/views.py:86 | after the replacement no two adjacent spaces remain |
| Text.RemoveKeepsNonSpaces | apps/news/views.py:86 | the replacement removes spaces only: the non-space characters are kept, in order |
| Text.RemoveFixesNoDoubleSpace | apps/news/views.py:86 | a text with no double space is left unchanged |
| Text.RemoveDoubleSpacesIdempotent | apps/news/views.py:86 | applying the replacement twice is applying it once |
| Numerals.NatToStringRoundTrip | apps/news/views.py:146 | the decimal text of a natural number reads back as that number |
| Numerals.IntToString | apps/news/views.py:146 | `str(i)` is non-empty, starts with '-' iff i < 0, and holds only digits and the sign |
| Numerals.IntToStringInjective | apps/news/views.py:146 | distinct integers print differently |
| Numerals.Fixed | apps/news/views.py:49 | a zero-padded field has exactly the given width and only digits |
| Numerals.FixedRoundTrip | apps/news/views.py:49 | a zero-padded field reads back as its number |
| Dates.PrevDay | apps/news/views.py:99 | `now() - timedelta(days=1)` fails (OverflowError) exactly at 0001-01-01; otherwise yields a valid, earlier date |
| Dates.PrevThenNext | apps/news/views.py:99 | the day after yesterday is today, so the step back skips no date |
| Dates.FormatYMD | apps/news/views.py:49 | `strftime("%Y-%m-%d")` is ten characters with '-' at offsets 4 and 7 |
| Dates.FormatYMDFields | apps/news/parsers.py:35 | the ISO text's year, month and day fields read back as the date's |
| Dates.FormatYMDInjective | apps/news/views.py:49-50 | different dates give different ISO texts |
| Dates.FormatDMY | apps/news/views.py:86 | `strftime("%d.%m.%Y")` is ten characters with '.' at offsets 2 and 5 |
| Dates.FormatDMYFields | apps/news/views.py:136-137 | the fallback text's day, month and year fields read back as the date's |
| Listing.Harvest | apps/news/views.py:23-34 | definition: the containers visited in order, each contributing its record or, when the `try` block fails, nothing; properties in HarvestConcat, HarvestSnoc, HarvestIsWellFormedRecords, HarvestAround, HarvestSound, HarvestResourced |
| Listing.Sections | apps/news/views.py:18-22 | the `Tag--articles` sections of the page, in order, each as its containers; never more than the page's blocks; properties in SectionsCoverAll, NoSectionsNoContainers |
| Listing.AllContainers | apps/news/parsers.py:15 | definition of `select('.Tag--article')`: every container in document order, inside a section or not; properties in SectionsCoverAll, LooseContainerOnlyParsed |
| Listing.RecordOf | apps/news/views.py:25-32 | a record has a stripped title and time and the extractor's source |
| Listing.Extract | apps/news/views.py:24-34 | the `try` block yields a record exactly when name link, `href` and time are all present, and that record is the container's |
| Listing.HarvestConcat | apps/news/views.py:21-34 | the records of consecutive container runs are their records one after the other (document order) |
| Listing.HarvestSnoc | apps/news/views.py:23-34 | one more container appends its record when well formed, nothing otherwise |
| Listing.HarvestIsWellFormedRecords | apps/news/views.py:23-34 | the k-th record is that of the k-th well-formed container; nothing else is emitted |
| Listing.HarvestAround | apps/news/views.py:24-34 | a malformed container is skipped without disturbing its siblings' records |
| Listing.HarvestSound | apps/news/parsers.py:15-29 | every record is that of some well-formed container of the input |
| Listing.HarvestResourced | apps/news/parsers.py:21-26 | extracting with another source changes each record's source field and nothing else |
| Listing.FlattenPrefix | apps/news/views.py:21-22 | one more section appends its containers |
| Listing.SectionsCoverAll | apps/news/views.py:18-23 | on a page made only of sections, the section-by-section walk visits all containers in document order |
| Listing.NoSectionsNoContainers | apps/news/views.py:18-21 | a page without sections gives the section walk nothing |
| NewsViews.SectionArticles | apps/news/views.py:15-36 | definition: the records of the containers of every section, section by section, without a source key; the loop is NewsViews.ParseArticles |
| NewsViews.ParseArticles | apps/news/views.py:15-36 | the nested loop returns the records of the containers of every section, section by section, malformed ones skipped |
| NewsViews.NoSectionsNoArticles | apps/news/views.py:18-21 | with no `Tag--articles` section the result is `[]` |
| NewsViews.GetDate | apps/news/views.py:83-86 | definition of `_get_date`: the banner text with `replace('  ', '')`, or the fallback day as dd.mm.yyyy (today for the today view, yesterday at views.py:133-137); properties in GetDateShape |
| NewsViews.GetDateShape | apps/news/views.py:83-86 | with a banner: no double space and every non-space character kept in order; without: the fallback day as dd.mm.yyyy, fields reading back |
| NewsViews.KaktusUrl | apps/news/views.py:50 | the URL is `https://kaktus.media/?lable=8&date=` + the date text + `&order=time`, and the date text can be read back out of it |
| NewsViews.DayUrl | apps/news/views.py:49-50 | definition: the listing URL of a day's YYYY-MM-DD text; properties in KaktusUrl, DayUrlInjective, TwoDaysTwoUrls |
| NewsViews.LatestKey | apps/news/views.py:146 | definition of `f'kaktus_latest_{page}_{per_page}'`; properties in LatestKeyInjective, LatestKeyIsItsOwn |
| NewsViews.DayUrlInjective | apps/news/views.py:99-100 | different days are requested under different URLs |
| NewsViews.LatestKeyInjective | apps/news/views.py:146 | distinct (page, per_page) pairs get distinct `kaktus_latest_{page}_{per_page}` keys |
| NewsViews.LatestKeyIsItsOwn | apps/news/views.py:146 | no latest key equals the today or yesterday key |
| NewsViews.Cache.Get | apps/news/views.py:44 | `cache.get` returns the stored value or None |
| NewsViews.Cache.Set | apps/news/views.py:70 | `cache.set` overwrites one key with the value and its timeout, nothing else |
| NewsViews.DayStep | apps/news/views.py:42-81 | definition of one request to a day view: answer, new cache and fetched URLs; properties in DayHitShortCircuits, DayMissFetchesTheDay, DaySuccessStoresWhatItAnswers, DayFailureStoresNothing, DaySecondRequestIsCached, DayStoresWithItsTimeout |
| NewsViews.DayNewsGet | apps/news/views.py:42-81 | the shared day-view body: answer, new cache and fetched URLs are those of `DayStep` |
| NewsViews.TodayNewsGet | apps/news/views.py:42-81 | `TodayNewsView.get` is `DayStep` for key `kaktus_today_news`, timeout 600, day today |
| NewsViews.YesterdayNewsGet | apps/news/views.py:92-131 | `YesterdayNewsView.get` is `DayStep` for key `kaktus_yesterday_news`, timeout 86400, day yesterday (None at 0001-01-01) |
| NewsViews.DayHitShortCircuits | apps/news/views.py:44-47 | a truthy cached value is answered as is, nothing is fetched and the cache is unchanged |
| NewsViews.DayMissFetchesTheDay | apps/news/views.py:49-54 | on a miss exactly one URL is fetched, the day's listing URL |
| NewsViews.DaySuccessStoresWhatItAnswers | apps/news/views.py:55-71 | on 200 the value stored under the key, with the view's timeout, is the value answered; no other key changes |
| NewsViews.DayFailureStoresNothing | apps/news/views.py:72-81 | another status or an exception stores nothing and answers 500; a bad status is carried in the body, an exception's message likewise |
| NewsViews.DaySecondRequestIsCached | apps/news/views.py:44-71 | right after a success the same request is a hit: same answer, no fetch |
| NewsViews.DayStoresWithItsTimeout | apps/news/views.py:70 | a day request leaves the cache alone or stores under its own key with its own timeout |
| NewsViews.DayViewTimeouts | apps/news/views.py:120 | the today view stores for 600 s (line 70) and the yesterday view for 86400 s |
| NewsViews.TwoDaysTwoUrls | apps/news/views.py:99-100 | today and yesterday are requested under different URLs |
| NewsViews.YesterdayIsTheDayBefore | apps/news/views.py:99-100 | the yesterday view fetches the day whose next day is today |
| NewsViews.FetchForDate | apps/news/views.py:175-185 | the records on 200, `[]` on an exception, None (no return) on another status |
| NewsViews.FetchNewsForDate | apps/news/views.py:175-185 | the method fetches the day's URL and returns what `FetchForDate` says |
| NewsViews.PySlice | apps/news/views.py:161 | definition of Python's `s[i:j]` on a list: negative bounds count from the end, both are clamped; properties in PageIsSlice, NegativePageReadsFromTheEnd |
| NewsViews.PageOf | apps/news/views.py:159-161 | definition: `all[(page-1)*per_page : (page-1)*per_page + per_page]`; properties in PageIsSlice, ArticleOnItsPage, PageZeroIsEmpty, NegativePageReadsFromTheEnd |
| NewsViews.PageIsSlice | apps/news/views.py:159-161 | for page >= 1 and per_page >= 1 the page is `all[min((page-1)*per_page, n) : min(page*per_page, n)]`, at most per_page long |
| NewsViews.ArticleOnItsPage | apps/news/views.py:159-161 | article q*per_page + r is on page q + 1 at position r: pages cover the list without gaps |
| NewsViews.PageZeroIsEmpty | apps/news/views.py:159-161 | page 0 is empty for every per_page >= 1 |
| NewsViews.NegativePageReadsFromTheEnd | apps/news/views.py:159-161 | for every back >= 1 and per_page >= 1, page -back holds articles n-(back+1)*per_page .. n-back*per_page, each bound cut at 0 |
| NewsViews.LatestStep | apps/news/views.py:143-173 | definition of one request to the latest view; properties in LatestHitShortCircuits, LatestSuccess, LatestBadStatusIsUncaught, LatestBothRaisedIsEmpty |
| NewsViews.LatestNewsGet | apps/news/views.py:143-173 | `LatestNewsView.get` is `LatestStep`: answer, new cache and fetched URLs |
| NewsViews.LatestHitShortCircuits | apps/news/views.py:148-150 | a truthy cached page is answered as is with no fetch |
| NewsViews.LatestSuccess | apps/news/views.py:153-172 | both days fetched in order; today's articles before yesterday's; total = both counts whatever the page; the page's slice; stored for 300 s; every other cache key unchanged |
| NewsViews.LatestBadStatusIsUncaught | apps/news/views.py:153-156 | a non-200 status on either day ends in an uncaught TypeError, after both fetches, caching nothing |
| NewsViews.LatestBothRaisedIsEmpty | apps/news/views.py:153-169 | if both fetches raise, the answer is a 200 page with no articles and total 0 |
| NewsParser.ParsedArticles | apps/news/parsers.py:10-31 | definition: the records of every container of the page, with source 'Kaktus Media'; the loop is NewsParser.ParseArticles; properties in ParsedRecordShape, SectionedPagesAgree |
| NewsParser.ParseArticles | apps/news/parsers.py:10-31 | the loop returns the records of every well-formed `.Tag--article` of the page, in document order |
| NewsParser.ParsedRecordShape | apps/news/parsers.py:15-26 | each record comes from a well-formed container: stripped title and time, raw href, source 'Kaktus Media' |
| NewsParser.NoContainersNoArticles | apps/news/parsers.py:13-15 | with no matching element the result is `[]` |
| NewsParser.LooseContainerOnlyParsed | apps/news/parsers.py:15 | a container outside any section is read by the parser but not by the views |
| NewsParser.SectionedPagesAgree | apps/news/parsers.py:15-26 | on pages made only of sections the parser's records are the views' with the source added |
| NewsParser.FetchUrl | apps/news/parsers.py:35-36 | definition of `f"{BASE_URL}/?lable=8&date={date_str}&order=time"`; properties in FetchUrlIsViewsUrl |
| NewsParser.FetchUrlIsViewsUrl | apps/news/parsers.py:35-36 | `BASE_URL + '/?lable=8&date=' + date_str + '&order=time'` is the views' URL for that day |
| NewsParser.FetchOutcome | apps/news/parsers.py:33-47 | on 200 the page's records with source BASE_URL; otherwise no articles and no source key; the date is date_str on both paths; an exception propagates |
| NewsParser.FetchNews | apps/news/parsers.py:33-47 | the method fetches the day's URL and returns what `FetchOutcome` says |
| NewsParser.FetchDateReadsBack | apps/news/parsers.py:35-47 | the returned `date` is the zero-padded YYYY-MM-DD of the requested day on both paths |
| UsersModels.SetDefault | apps/users/models.py:20-21 | `setdefault` adds the key only when absent and never overrides a value given |
| UsersModels.CreateUser | apps/users/models.py:9-17 | a falsy email raises ValueError before anything is built; otherwise the user has the normalised email, the password and the extra fields unchanged |
| UsersModels.CreateSuperuser | apps/users/models.py:19-26 | a given is_staff that is not True raises first, then the same for is_superuser; otherwise delegates with both flags True; with neither flag given both end True |
| UsersModels.TruthyStaffFlagIsRefused | apps/users/models.py:20-23 | `is_staff=1` is truthy, survives `setdefault` and is not True, so CreateSuperuser's first ensures gives the is_staff error |
| UserSerializer.Validate | apps/users/serializers.py:22-34 | a missing field raises KeyError; a mismatch fails under `password`; a constructor error propagates; weak passwords fail under `password` with their messages; success iff all pass, returning attrs unchanged |
| UserSerializer.MismatchDecidesAlone | apps/users/serializers.py:23-26 | the mismatch check comes first: the constructor and the strength check have no say then |
| UserSerializer.ValidateRejectsEverySignup | apps/users/serializers.py:28 | with a constructor refusing unknown fields, `validate` as written accepts no input |
| UserSerializer.ValidateFixed | apps/users/serializers.py:22-34 | the intended check: same mismatch error, returns attrs unchanged on success |
| UserSerializer.ValidateFixedAcceptsGoodSignup | apps/users/serializers.py:28-34 | with the same strict constructor, the intended check accepts a matching, strong sign-up |
| UserSerializer.ValidatedData.Pop | apps/users/serializers.py:37 | `pop` removes the key and returns its value, or raises KeyError and changes nothing |
| UserSerializer.CreateUserFromKwargs | apps/users/serializers.py:38 | a user is created iff `email` is present and non-empty; a missing email is a missing argument, an empty one the manager's ValueError; password defaults to None; every other key becomes an extra field unchanged |
| UserSerializer.Create | apps/users/serializers.py:36-39 | `create` removes exactly `password_confirmation` from the dict, then creates the user from the rest |
| UserSerializer.CreatePassesAllButConfirmation | apps/users/serializers.py:37-38 | `create` succeeds iff the email is present and non-empty; then the confirmation never reaches the user and every other key does, unchanged |
| AdminFilters.WithFlag | apps/users/admin_filters.py:17 | `filter(flag=want)` keeps exactly the users with that flag value, each as many times as in the list, in order |
| AdminFilters.ActiveLookups | apps/users/admin_filters.py:9-13 | the options are 'active' then 'inactive' |
| AdminFilters.StaffLookups | apps/users/admin_filters.py:26-30 | the options are 'staff' then 'non_staff' |
| AdminFilters.FlagQueryset | apps/users/admin_filters.py:15-19 | definition of the shared `queryset` body: the on value filters by flag True, the off value by False, anything else returns None; properties in FlagQuerysetSplits |
| AdminFilters.ActiveQueryset | apps/users/admin_filters.py:15-19 | definition of `ActiveUserFilter.queryset`; properties in ActiveFilterPartitions, ActiveOnlyOfferedValuesFilter |
| AdminFilters.StaffQueryset | apps/users/admin_filters.py:32-36 | definition of `StaffFilter.queryset`; properties in StaffFilterPartitions, StaffOnlyOfferedValuesFilter |
| AdminFilters.FlagQuerysetSplits | apps/users/admin_filters.py:15-19 | the two options give exactly the users with and without the flag, in order, and together partition the list |
| AdminFilters.ActiveFilterPartitions | apps/users/admin_filters.py:15-19 | 'active' gives exactly the active users, 'inactive' the others; together a partition |
| AdminFilters.StaffFilterPartitions | apps/users/admin_filters.py:32-36 | 'staff' gives exactly the staff, 'non_staff' the others; together a partition |
| AdminFilters.ActiveOnlyOfferedValuesFilter | apps/users/admin_filters.py:9-19 | exactly the offered values filter; any other value returns None (no filtering) |
| AdminFilters.StaffOnlyOfferedValuesFilter | apps/users/admin_filters.py:26-36 | exactly the offered values filter; any other value returns None (no filtering) |
| Permissions.HasObjectPermission | apps/users/permissions.py:5-6 | definition of `obj == request.user or request.user.is_staff`; properties in OwnerAllowed, StaffAllowed, OthersDenied, ViewIgnored |
| Permissions.OwnerAllowed | apps/users/permissions.py:6 | the owner of the object is allowed |
| Permissions.StaffAllowed | apps/users/permissions.py:6 | a staff user is allowed on any object |
| Permissions.OthersDenied | apps/users/permissions.py:6 | a non-staff non-owner, and the anonymous user, are refused |
| Permissions.ViewIgnored | apps/users/permissions.py:5-6 | the answer does not depend on the view |

## Findings

| source | as written | input that shows it | evidently intended | confidence | as-written member | corrected member |
|---|---|---|---|---|---|---|
| apps/users/serializers.py:28 | `User(**attrs)` is built from all validated fields, `password_confirmation` included | any sign-up whose two passwords agree: Django's model constructor rejects the unknown keyword `password_confirmation` with a TypeError | build the unsaved user from the fields without the confirmation | medium; not executed; depends on the model constructor refusing unknown keywords | UserSerializer.ValidateRejectsEverySignup | UserSerializer.ValidateFixedAcceptsGoodSignup |

## Left out

- **Network I/O** (aiohttp sessions, timeouts, reading the body). The network is the
  parameter `net`. A GET either replies with a status and a parsed page or
  raises.
- **HTML parsing** (BeautifulSoup with lxml):
  - the page is given already parsed, as blocks and containers;
  - nested sections are not represented;
  - a page with several date banners is not represented;
  - how `find`/`select_one` choose among several matching elements is not modelled;
  - element names are not represented: the views' `div`/`a` tag filters
    (apps/news/views.py:18,22,25-27) and the parser's class-only selectors
    (apps/news/parsers.py:15,17-19) read the same containers here, so a
    non-`div` article container, which only the parser would read, cannot
    be expressed.
- **Text.Lower** covers only ASCII and the basic Cyrillic capitals (U+0400..U+042F).
  It is not Python's full Unicode case mapping.
- **Text.Strip** uses Python's `str.isspace` set. Unicode categories outside that list
  are not consulted.
- **The clock.** Each request reads `datetime.now()` several times; the model
  collapses these readings into one `today` and one `stamp`. A request that
  spans midnight is not modelled. The `last_updated` ISO timestamp is the
  opaque `stamp`.
- **Cache expiry.** Timeouts are recorded with each entry. Expiry is not simulated:
  an expired entry is simply absent from the store. Concurrent requests and
  the Django cache backend itself are left out.
- **Values in the cache.** Values written under the views' keys by other code are
  `Foreign`; only their truthiness is modelled. A truthy one is answered as a
  200; a real `JsonResponse` of a value that is not a dict raises TypeError
  instead (safe mode), and that case is not modelled.
- **`int()` parsing of `page` and `per_page`.** The latest view starts from the two integers
  (apps/news/views.py:144-145). Their defaults, 1 and 10 when a parameter is
  absent, are the caller's choice of arguments. A malformed parameter raises
  ValueError there, and that case is not modelled.
- **Dates.FormatYMD and Dates.FormatDMY** zero-pad the year to four digits. Some C libraries print years
  below 1000 without padding.
- **Logging** (`print` in the `except` branches) is left out.
- UserSerializer.CreateUserFromKwargs takes `User.objects.create_user`
  (apps/users/serializers.py:38) to be `CustomUserManager.create_user`
  (apps/users/models.py:9-17), i.e. `get_user_model()` to be `CustomUser`,
  the only model with that manager (apps/users/models.py:43). The settings
  that choose the user model are not part of this model, and the
  serializer's `first_name`/`last_name` fields and apps/users/admin.py point
  to `users.User` instead. With Django's own `UserManager` a sign-up without
  a `username` would raise TypeError; that binding is not modelled.
- UserSerializer.CreatePassesAllButConfirmation inherits the same binding of
  `create_user`.
- **`normalize_email`, password hashing and `save()`.** `normalize_email` is the
  parameter `normalize`. Hashing and saving are left out.
- **UsersModels.CreateUser** returns the unsaved draft (`UserDraft`), so
  construction failures inside `self.model(...)` are not modelled.
- **Validator parameters.** `validate_password` and the model constructor used by
  `validate` are the parameters `strength` and `construct`.
- **UserSerializer.Validate** gives each error as a field and a list of messages. The
  mismatch message is a single string in the source, and the framework lists it.
- **Permissions.OwnerAllowed** compares users by primary key, as Django's model
  equality does.
- **Other files.** apps/news/admin.py, apps/news/tasks.py, apps/news/models.py,
  apps/news/api/views.py, the user views, forms, resources and admin
  registration, and the URL and Celery configuration are framework glue and
  are not part of this model. In particular, `tasks.py` calls
  `fetch_news(days=2)`, which does not match the parser's signature.
