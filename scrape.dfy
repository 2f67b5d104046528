/**
 * The data shaping of `scrape_website_data` (backend/app/main.py): how the fields
 * gathered from a parsed page are defaulted and bounded, and which headings are kept.
 *
 * Loading the page in a browser, parsing it and the screenshot are not modelled: the
 * parser's outputs arrive as a `ParsedPage`.
 */
module Scrape {
  import opened Wrappers
  import opened Text

  const HtmlStructureLimit := 8000
  const TextContentLimit := 3000
  const LinkLimit := 15
  const ImageLimit := 15
  const HeadingsPerLevel := 3
  const Untitled := "Untitled"

  /** A heading element `<hN>`: its level N and its stripped text. */
  datatype Heading = Heading(level: int, text: string)

  /** What the parser yields for a loaded page once its scripts and styles are removed. */
  datatype ParsedPage = ParsedPage(
    titleString: Option<string>,  // the `<title>` element's single string; None when there is none
    markup: string,               // the prettified document
    text: string,                 // the document's text, pieces stripped and joined by spaces
    hrefs: seq<string>,           // `href` of every `<a>` that has one, in document order
    srcs: seq<string>,            // `src` of every `<img>` that has one, in document order
    headings: seq<Heading>)       // every `<h1>`..`<h6>` element, in document order

  /** The record the scraper hands on to the generator. */
  datatype ScrapedData = ScrapedData(
    title: string,
    htmlStructure: string,
    textContent: string,
    links: seq<string>,
    images: seq<string>,
    headings: seq<Heading>)

  /**
   * The page title: the title string stripped, or "Untitled" when there is none. The test
   * is Python truthiness before stripping, so an all-whitespace title strips to "".
   */
  function PageTitle(titleString: Option<string>): (t: string)
    ensures titleString.None? || titleString.value == "" ==> t == Untitled
    ensures titleString.Some? && titleString.value != "" ==> t == Trim(titleString.value, Python)
  {
    if titleString.Some? && titleString.value != "" then Trim(titleString.value, Python) else Untitled
  }

  /** A title made of spaces only is kept, as the empty string, rather than replaced. */
  lemma {:induction false} BlankTitleBecomesEmpty(s: string)
    requires s != "" && AllSpace(s, Python)
    ensures PageTitle(Some(s)) == ""
  {
    TrimEmptyIffBlank(s, Python);
  }

  /** The headings of one level, in document order: the parser's `find_all('h' + level)`. */
  function OfLevel(hs: seq<Heading>, level: int): (r: seq<Heading>)
    ensures |r| <= |hs|
    ensures forall k :: 0 <= k < |r| ==> r[k].level == level
  {
    if hs == [] then []
    else (if hs[0].level == level then [hs[0]] else []) + OfLevel(hs[1..], level)
  }

  /** Every selected heading is one of the page's headings. */
  lemma {:induction false} OfLevelFromPage(hs: seq<Heading>, level: int)
    ensures forall k :: 0 <= k < |OfLevel(hs, level)| ==> OfLevel(hs, level)[k] in hs
  {
    if hs != [] {
      OfLevelFromPage(hs[1..], level);
      var r := OfLevel(hs, level);
      var rest := OfLevel(hs[1..], level);
      forall k | 0 <= k < |r| ensures r[k] in hs {
        if hs[0].level == level && k == 0 {
          assert r[0] == hs[0];
        } else {
          var j := if hs[0].level == level then k - 1 else k;
          assert r[k] == rest[j];
          assert rest[j] in hs[1..];
        }
      }
    }
  }

  /** Selecting a level from two runs of headings selects from each run in turn. */
  lemma {:induction false} OfLevelAppend(a: seq<Heading>, b: seq<Heading>, level: int)
    ensures OfLevel(a + b, level) == OfLevel(a, level) + OfLevel(b, level)
  {
    if a == [] {
      assert a + b == b;
    } else {
      assert (a + b)[1..] == a[1..] + b;
      OfLevelAppend(a[1..], b, level);
    }
  }

  /** Selecting a level from headings that all have one level keeps all or none of them. */
  lemma {:induction false} OfLevelUniform(hs: seq<Heading>, lvl: int, level: int)
    requires forall k :: 0 <= k < |hs| ==> hs[k].level == lvl
    ensures OfLevel(hs, level) == if level == lvl then hs else []
  {
    if hs != [] {
      OfLevelUniform(hs[1..], lvl, level);
    }
  }

  /** The headings kept from levels 1..`n`: at most three per level, level by level. */
  function CollectedUpTo(hs: seq<Heading>, n: int): seq<Heading>
    decreases n
  {
    if n < 1 then [] else CollectedUpTo(hs, n - 1) + Take(OfLevel(hs, n), HeadingsPerLevel)
  }

  /** The headings the scraper keeps from a page: those of levels 1..6. */
  function CollectedHeadings(hs: seq<Heading>): seq<Heading> {
    CollectedUpTo(hs, 6)
  }

  /** Ascending by level. */
  predicate LevelsAscending(hs: seq<Heading>) {
    forall i, j :: 0 <= i < j < |hs| ==> hs[i].level <= hs[j].level
  }

  /** The first three headings of one level all have that level. */
  lemma {:induction false} KeptOfOneLevel(hs: seq<Heading>, level: int)
    ensures forall k :: 0 <= k < |Take(OfLevel(hs, level), HeadingsPerLevel)| ==>
              Take(OfLevel(hs, level), HeadingsPerLevel)[k].level == level
  {
    forall k | 0 <= k < |Take(OfLevel(hs, level), HeadingsPerLevel)|
      ensures Take(OfLevel(hs, level), HeadingsPerLevel)[k].level == level
    {
      assert Take(OfLevel(hs, level), HeadingsPerLevel)[k] == OfLevel(hs, level)[k];
    }
  }

  /** After levels 1..n at most 3n headings are kept, each of a level in 1..n. */
  lemma {:induction false} CollectedUpToBounds(hs: seq<Heading>, n: int)
    requires 0 <= n
    ensures |CollectedUpTo(hs, n)| <= HeadingsPerLevel * n
    ensures forall k :: 0 <= k < |CollectedUpTo(hs, n)| ==> 1 <= CollectedUpTo(hs, n)[k].level <= n
    decreases n
  {
    if n >= 1 {
      var prev := CollectedUpTo(hs, n - 1);
      var last := Take(OfLevel(hs, n), HeadingsPerLevel);
      var c: seq<Heading> := prev + last;
      CollectedUpToBounds(hs, n - 1);
      KeptOfOneLevel(hs, n);
      assert CollectedUpTo(hs, n) == c;
      forall k | 0 <= k < |c| ensures 1 <= c[k].level <= n {
        if k < |prev| { assert c[k] == prev[k]; }
        else { assert c[k] == last[k - |prev|]; }
      }
    }
  }

  /** Headings of one level `n` appended after ascending headings of levels up to `n` stay ascending. */
  lemma AscendingAppend(a: seq<Heading>, b: seq<Heading>, n: int)
    requires LevelsAscending(a)
    requires forall k :: 0 <= k < |a| ==> a[k].level <= n
    requires forall k :: 0 <= k < |b| ==> b[k].level == n
    ensures LevelsAscending(a + b)
  {
    var c := a + b;
    forall i, j | 0 <= i < j < |c| ensures c[i].level <= c[j].level {
      if j < |a| {
        assert c[i] == a[i] && c[j] == a[j];
      } else if i < |a| {
        assert c[i] == a[i] && c[j] == b[j - |a|];
      } else {
        assert c[i] == b[i - |a|] && c[j] == b[j - |a|];
      }
    }
  }

  /** The headings kept after levels 1..n are in ascending order of level. */
  lemma {:induction false} CollectedUpToAscending(hs: seq<Heading>, n: int)
    requires 0 <= n
    ensures LevelsAscending(CollectedUpTo(hs, n))
    decreases n
  {
    if n >= 1 {
      CollectedUpToAscending(hs, n - 1);
      CollectedUpToBounds(hs, n - 1);
      KeptOfOneLevel(hs, n);
      AscendingAppend(CollectedUpTo(hs, n - 1), Take(OfLevel(hs, n), HeadingsPerLevel), n);
    }
  }

  /** Per level, the kept headings are the first three of that level in document order. */
  lemma {:induction false} CollectedUpToPerLevel(hs: seq<Heading>, n: int, level: int)
    requires 0 <= n
    ensures OfLevel(CollectedUpTo(hs, n), level)
            == if 1 <= level <= n then Take(OfLevel(hs, level), HeadingsPerLevel) else []
    decreases n
  {
    if n >= 1 {
      var prev := CollectedUpTo(hs, n - 1);
      var last := Take(OfLevel(hs, n), HeadingsPerLevel);
      CollectedUpToPerLevel(hs, n - 1, level);
      KeptOfOneLevel(hs, n);
      OfLevelAppend(prev, last, level);
      OfLevelUniform(last, n, level);
    }
  }

  /**
   * The kept headings run through levels 1..6 in ascending order; for each of those levels
   * they are exactly the first three of the page's headings of that level, in document
   * order; so there are at most 18.
   */
  lemma {:induction false} CollectedHeadingsShape(hs: seq<Heading>)
    ensures |CollectedHeadings(hs)| <= 18
    ensures forall k :: 0 <= k < |CollectedHeadings(hs)| ==> 1 <= CollectedHeadings(hs)[k].level <= 6
    ensures LevelsAscending(CollectedHeadings(hs))
    ensures forall level :: 1 <= level <= 6 ==>
              OfLevel(CollectedHeadings(hs), level) == Take(OfLevel(hs, level), HeadingsPerLevel)
  {
    CollectedUpToBounds(hs, 6);
    CollectedUpToAscending(hs, 6);
    forall level | 1 <= level <= 6
      ensures OfLevel(CollectedHeadings(hs), level) == Take(OfLevel(hs, level), HeadingsPerLevel)
    {
      CollectedUpToPerLevel(hs, 6, level);
    }
  }

  /**
   * The record scraped from `page`: the title defaulted; the markup, the text, the links
   * and the images cut to their limits, each a prefix of what the page holds; and the
   * headings collected level by level.
   */
  function ScrapedFrom(page: ParsedPage): (d: ScrapedData)
    ensures d.title == PageTitle(page.titleString)
    ensures |d.htmlStructure| == Min(HtmlStructureLimit, |page.markup|) && d.htmlStructure <= page.markup
    ensures |d.textContent| == Min(TextContentLimit, |page.text|) && d.textContent <= page.text
    ensures |d.links| == Min(LinkLimit, |page.hrefs|) && d.links <= page.hrefs
    ensures |d.images| == Min(ImageLimit, |page.srcs|) && d.images <= page.srcs
    ensures d.headings == CollectedHeadings(page.headings)
  {
    ScrapedData(
      PageTitle(page.titleString),
      Take(page.markup, HtmlStructureLimit),
      Take(page.text, TextContentLimit),
      Take(page.hrefs, LinkLimit),
      Take(page.srcs, ImageLimit),
      CollectedHeadings(page.headings))
  }

  /** The scraped record, its headings appended one at a time in the backend's nested loops. */
  method ScrapeWebsiteData(page: ParsedPage) returns (d: ScrapedData)
    ensures d == ScrapedFrom(page)
  {
    var collected: seq<Heading> := [];
    for i := 1 to 7
      invariant collected == CollectedUpTo(page.headings, i - 1)
    {
      var shown := Take(OfLevel(page.headings, i), HeadingsPerLevel);
      KeptOfOneLevel(page.headings, i);
      ghost var before := collected;
      for k := 0 to |shown|
        invariant collected == before + shown[..k]
      {
        assert Heading(i, shown[k].text) == shown[k];
        assert shown[..k + 1] == shown[..k] + [shown[k]];
        collected := collected + [Heading(i, shown[k].text)];
      }
      assert shown[..|shown|] == shown;
    }
    d := ScrapedData(
      PageTitle(page.titleString),
      Take(page.markup, HtmlStructureLimit),
      Take(page.text, TextContentLimit),
      Take(page.hrefs, LinkLimit),
      Take(page.srcs, ImageLimit),
      collected);
  }
}
