/** The Kaktus Media listing page as the two extractors see it once the
    HTML parser has done its work, and the record each well-formed article
    container yields. */
module Listing {
  import opened Wrappers
  import opened Text
  import Seqs

  /** The `.ArticleItem--name` link: its text and its `href`, if it has one. */
  datatype Link = Link(text: string, href: Option<string>)

  /** One `.Tag--article` container: its name link and the text of its
      `.ArticleItem--time` element, either of which may be missing. */
  datatype Container = Container(name: Option<Link>, time: Option<string>)

  /** A top-level block of the page: a `div.Tag--articles` section with the
      containers inside it, or a container that stands outside any section. */
  datatype Block = Section(items: seq<Container>) | Loose(item: Container)

  /** The page, its blocks in document order. */
  type Document = seq<Block>

  /** The parsed listing page: its blocks and the text of its
      `PaginatorDate--today-text` banner, if it has one. */
  datatype Page = Page(doc: Document, banner: Option<string>)

  /** What one GET of a URL ends in: a response with its status and parsed
      body, or an exception (connection failure, timeout, decoding error). */
  datatype HttpOutcome = Reply(status: int, page: Page) | Raised(message: string)

  /** An extracted article. The `source` key is absent from the records of
      the views' extractor and present in those of the parser's. */
  datatype Article = Article(title: string, url: string, time: string, source: Option<string>)

  /** A container from which every piece can be read: the name link, its
      `href` and the time element. Any other container makes the `try`
      block raise (TypeError, KeyError or AttributeError). */
  predicate WellFormed(c: Container)
  {
    c.name.Some? && c.name.value.href.Some? && c.time.Some?
  }

  /** The record of a well-formed container: stripped title and time, the
      raw `href` as url. */
  function RecordOf(c: Container, source: Option<string>): (a: Article)
    requires WellFormed(c)
    ensures Trimmed(a.title) && Trimmed(a.time) && a.source == source
  {
    Article(Strip(c.name.value.text), c.name.value.href.value, Strip(c.time.value), source)
  }

  /** The body of the extractors' `try` block: a record, or None where the
      `except` branch logs the error and moves on. */
  function Extract(c: Container, source: Option<string>): (r: Option<Article>)
    ensures r.Some? <==> WellFormed(c)
    ensures r.Some? ==> r.value == RecordOf(c, source)
  {
    if WellFormed(c) then Some(RecordOf(c, source)) else None
  }

  /** The records of the containers `cs`, visited in order, each malformed
      one skipped. */
  function Harvest(cs: seq<Container>, source: Option<string>): seq<Article>
  {
    if cs == [] then [] else Piece(cs[0], source) + Harvest(cs[1..], source)
  }

  /** What one container contributes: its record, or nothing. */
  function Piece(c: Container, source: Option<string>): seq<Article>
  {
    if WellFormed(c) then [RecordOf(c, source)] else []
  }

  function WellFormedTest(): Container -> bool { c => WellFormed(c) }

  /** Harvesting is per container: the records of a concatenation are the
      records of its parts, one after the other (document order). */
  lemma {:induction false} HarvestConcat(a: seq<Container>, b: seq<Container>, source: Option<string>)
    ensures Harvest(a + b, source) == Harvest(a, source) + Harvest(b, source)
    decreases |a|
  {
    if a == [] {
      assert a + b == b;
    } else {
      var ab := a + b;
      assert ab[0] == a[0] && ab[1..] == a[1..] + b;
      HarvestConcat(a[1..], b, source);
      calc {
        Harvest(ab, source);
        Piece(a[0], source) + Harvest(a[1..] + b, source);
        Piece(a[0], source) + (Harvest(a[1..], source) + Harvest(b, source));
        (Piece(a[0], source) + Harvest(a[1..], source)) + Harvest(b, source);
      }
    }
  }

  /** Appending one container appends its record when it is well formed and
      nothing otherwise: the step the extraction loops take. */
  lemma HarvestSnoc(cs: seq<Container>, c: Container, source: Option<string>)
    ensures Harvest(cs + [c], source)
      == Harvest(cs, source) + Piece(c, source)
  {
    HarvestConcat(cs, [c], source);
    assert [c][1..] == [];
  }

  /** Exactly the well-formed containers yield records, in their order:
      the `i`-th record is that of the `i`-th well-formed container. */
  lemma {:induction false} HarvestIsWellFormedRecords(cs: seq<Container>, source: Option<string>)
    ensures var good := Seqs.Keep(cs, WellFormedTest());
      && |Harvest(cs, source)| == |good|
      && forall k :: 0 <= k < |good| ==> WellFormed(good[k]) && Harvest(cs, source)[k] == RecordOf(good[k], source)
    decreases |cs|
  {
    if cs != [] {
      HarvestIsWellFormedRecords(cs[1..], source);
      var good := Seqs.Keep(cs, WellFormedTest());
      var rest := Seqs.Keep(cs[1..], WellFormedTest());
      var h := Harvest(cs[1..], source);
      assert Harvest(cs, source) == Piece(cs[0], source) + h;
      if WellFormed(cs[0]) {
        assert good == [cs[0]] + rest;
        assert Harvest(cs, source) == [RecordOf(cs[0], source)] + h;
      } else {
        assert good == rest;
        assert Harvest(cs, source) == h;
      }
    }
  }

  /** A malformed container is skipped without disturbing its siblings; a
      well-formed one contributes its record in its own place. */
  lemma HarvestAround(cs: seq<Container>, i: nat, source: Option<string>)
    requires i < |cs|
    ensures Harvest(cs, source)
      == Harvest(cs[..i], source) + Piece(cs[i], source) + Harvest(cs[i + 1..], source)
    ensures Piece(cs[i], source) == if WellFormed(cs[i]) then [RecordOf(cs[i], source)] else []
  {
    assert cs == cs[..i] + [cs[i]] + cs[i + 1..];
    HarvestConcat(cs[..i] + [cs[i]], cs[i + 1..], source);
    HarvestSnoc(cs[..i], cs[i], source);
  }

  /** Every record comes from some well-formed container of the input. */
  lemma {:induction false} HarvestSound(cs: seq<Container>, source: Option<string>, a: Article)
    requires a in Harvest(cs, source)
    ensures exists k :: 0 <= k < |cs| && WellFormed(cs[k]) && RecordOf(cs[k], source) == a
    decreases |cs|
  {
    assert Harvest(cs, source) == Piece(cs[0], source) + Harvest(cs[1..], source);
    if WellFormed(cs[0]) && a == RecordOf(cs[0], source) {
    } else {
      assert a in Harvest(cs[1..], source);
      HarvestSound(cs[1..], source, a);
      var k :| 0 <= k < |cs[1..]| && WellFormed(cs[1..][k]) && RecordOf(cs[1..][k], source) == a;
      assert cs[k + 1] == cs[1..][k];
    }
  }

  /** The contents of the given sections, one after the other. */
  function Flatten(ss: seq<seq<Container>>): seq<Container>
  {
    if ss == [] then [] else Flatten(ss[..|ss| - 1]) + ss[|ss| - 1]
  }

  /** One more section appends its containers. */
  lemma FlattenPrefix(ss: seq<seq<Container>>, s: nat)
    requires s < |ss|
    ensures Flatten(ss[..s + 1]) == Flatten(ss[..s]) + ss[s]
  {
    assert ss[..s + 1][..s] == ss[..s];
  }

  /** `soup.find_all('div', class_='Tag--articles')`, each section given by
      the containers `find_all('div', class_='Tag--article')` finds in it. */
  function Sections(doc: Document): (r: seq<seq<Container>>)
    ensures |r| <= |doc|
  {
    if doc == [] then []
    else (if doc[0].Section? then [doc[0].items] else []) + Sections(doc[1..])
  }

  /** Every container of the page, in document order: `soup.select('.Tag--article')`. */
  function AllContainers(doc: Document): seq<Container>
  {
    if doc == [] then []
    else (if doc[0].Section? then doc[0].items else [doc[0].item]) + AllContainers(doc[1..])
  }

  predicate HasNoLooseItems(doc: Document)
  {
    forall k :: 0 <= k < |doc| ==> doc[k].Section?
  }

  lemma {:induction false} FlattenCons(s: seq<Container>, ss: seq<seq<Container>>)
    ensures Flatten([s] + ss) == s + Flatten(ss)
    decreases |ss|
  {
    if ss == [] {
      assert [s] + ss == [s];
      assert [s][..0] == [];
    } else {
      var all := [s] + ss;
      assert all[..|all| - 1] == [s] + ss[..|ss| - 1];
      FlattenCons(s, ss[..|ss| - 1]);
    }
  }

  /** On a page made only of sections, the two traversals visit the same
      containers in the same order. */
  lemma {:induction false} SectionsCoverAll(doc: Document)
    requires HasNoLooseItems(doc)
    ensures Flatten(Sections(doc)) == AllContainers(doc)
    decreases |doc|
  {
    if doc == [] {
    } else {
      assert HasNoLooseItems(doc[1..]) by {
        forall k | 0 <= k < |doc[1..]| ensures doc[1..][k].Section? {
          assert doc[1..][k] == doc[k + 1];
        }
      }
      SectionsCoverAll(doc[1..]);
      FlattenCons(doc[0].items, Sections(doc[1..]));
    }
  }

  /** A page without any section yields no section containers. */
  lemma {:induction false} NoSectionsNoContainers(doc: Document)
    requires forall k :: 0 <= k < |doc| ==> doc[k].Loose?
    ensures Sections(doc) == []
    decreases |doc|
  {
    if doc != [] {
      NoSectionsNoContainers(doc[1..]);
    }
  }

  /** The records do not depend on the source except through their
      `source` field: harvesting with another source changes that field of
      each record and nothing else. */
  lemma {:induction false} HarvestResourced(cs: seq<Container>, s1: Option<string>, s2: Option<string>)
    ensures |Harvest(cs, s2)| == |Harvest(cs, s1)|
    ensures forall k :: 0 <= k < |Harvest(cs, s1)| ==> Harvest(cs, s2)[k] == Harvest(cs, s1)[k].(source := s2)
    decreases |cs|
  {
    if cs != [] {
      HarvestResourced(cs[1..], s1, s2);
      var h1, h2 := Harvest(cs[1..], s1), Harvest(cs[1..], s2);
      assert Harvest(cs, s1) == Piece(cs[0], s1) + h1;
      assert Harvest(cs, s2) == Piece(cs[0], s2) + h2;
      if WellFormed(cs[0]) {
        assert RecordOf(cs[0], s2) == RecordOf(cs[0], s1).(source := s2);
      }
    }
  }
}
