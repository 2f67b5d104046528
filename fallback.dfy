/**
 * The page `create_fallback_html` (backend/app/main.py) builds from scraped data when
 * the generated markup is missing or rejected: a fixed template with the title, the first
 * five headings and a cut text preview filled in.
 */
module Fallback {
  import opened Text
  import opened Scrape

  const ShownHeadings := 5
  const PreviewLimit := 400

  /** The document type declaration the fallback page opens with. */
  const Doctype := "<!DOCTYPE html>"

  /** The closing tag the fallback page ends with. */
  const HtmlClose := "</html>"

  /** Appended to the text preview, whether or not it was cut. */
  const Ellipsis := "..."

  /** The fixed text of the fallback page, in the five stretches between the parts it fills in. */
  datatype Template = Template(
    headIntro: string,       // after the doctype, up to the `<title>` element
    styleAndHeader: string,  // after the `<title>` element, up to the header's `<h1>`: the style sheet
    contentIntro: string,    // after the header's `<h1>`, up to the rendered headings
    previewIntro: string,    // after the rendered headings, up to the text preview
    bodyClose: string)       // after the text preview and its ellipsis, up to the closing `</html>`

  /** A line break followed by that many spaces of indentation. */
  const Indent0 := "\n"
  const Indent4 := "\n    "
  const Indent8 := "\n        "
  const Indent12 := "\n            "
  const Indent16 := "\n                "

  /** The fixed text as the backend writes it, one line of the page per line here (long lines cut at spaces). */
  function PageTemplate(): Template {
    Template(
      headIntro :=
        Indent0 + "<html lang=\"en\">"
        + Indent0 + "<head>"
        + Indent4 + "<meta charset=\"UTF-8\">"
        + Indent4 + "<meta name=\"viewport\" " + "content=\"width=device-width, " + "initial-scale=1.0\">"
        + Indent4,
      styleAndHeader :=
        Indent4 + "<style>"
        + Indent8 + "* {"
        + Indent12 + "margin: 0;"
        + Indent12 + "padding: 0;"
        + Indent12 + "box-sizing: border-box;"
        + Indent8 + "}"
        + Indent8
        + Indent8 + "body {"
        + Indent12 + "font-family: " + "-apple-system, " + "BlinkMacSystemFont, " + "'Segoe UI', Roboto, " + "sans-serif;"
        + Indent12 + "line-height: 1.6;"
        + Indent12 + "color: #333;"
        + Indent12 + "background: #f8f9fa;"
        + Indent8 + "}"
        + Indent8
        + Indent8 + ".container {"
        + Indent12 + "max-width: 1200px;"
        + Indent12 + "margin: 0 auto;"
        + Indent12 + "padding: 20px;"
        + Indent8 + "}"
        + Indent8
        + Indent8 + ".header {"
        + Indent12 + "background: " + "linear-gradient(135deg, " + "#667eea 0%, #764ba2 " + "100%);"
        + Indent12 + "color: white;"
        + Indent12 + "padding: 2rem 0;"
        + Indent12 + "text-align: center;"
        + Indent12 + "margin-bottom: 2rem;"
        + Indent12 + "border-radius: 10px;"
        + Indent8 + "}"
        + Indent8
        + Indent8 + ".header h1 {"
        + Indent12 + "font-size: 2.5rem;"
        + Indent12 + "margin-bottom: 0.5rem;"
        + Indent12 + "font-weight: 700;"
        + Indent8 + "}"
        + Indent8
        + Indent8 + ".content {"
        + Indent12 + "background: white;"
        + Indent12 + "padding: 2rem;"
        + Indent12 + "border-radius: 10px;"
        + Indent12 + "box-shadow: 0 4px 6px " + "rgba(0, 0, 0, 0.1);"
        + Indent12 + "margin-bottom: 2rem;"
        + Indent8 + "}"
        + Indent8
        + Indent8 + ".content h2 {"
        + Indent12 + "color: #495057;"
        + Indent12 + "margin-bottom: 1rem;"
        + Indent12 + "padding-bottom: 0.5rem;"
        + Indent12 + "border-bottom: 2px " + "solid #e9ecef;"
        + Indent8 + "}"
        + Indent8
        + Indent8 + ".preview-text {"
        + Indent12 + "background: #f8f9fa;"
        + Indent12 + "padding: 1rem;"
        + Indent12 + "border-radius: 5px;"
        + Indent12 + "font-style: italic;"
        + Indent12 + "margin: 1rem 0;"
        + Indent8 + "}"
        + Indent8
        + Indent8 + "@media (max-width: " + "768px) {"
        + Indent12 + ".container {"
        + Indent16 + "padding: 10px;"
        + Indent12 + "}"
        + Indent12
        + Indent12 + ".header h1 {"
        + Indent16 + "font-size: 2rem;"
        + Indent12 + "}"
        + Indent12
        + Indent12 + ".content {"
        + Indent16 + "padding: 1rem;"
        + Indent12 + "}"
        + Indent8 + "}"
        + Indent4 + "</style>"
        + Indent0 + "</head>"
        + Indent0 + "<body>"
        + Indent4 + "<div " + "class=\"container\">"
        + Indent8 + "<div class=\"header\">"
        + Indent12,
      contentIntro :=
        Indent12 + "<p>Website Successfully " + "Cloned</p>"
        + Indent8 + "</div>"
        + Indent8
        + Indent8 + "<div class=\"content\">"
        + Indent12 + "<h2>Website Content</h2>"
        + Indent12,
      previewIntro :=
        Indent12
        + Indent12 + "<div " + "class=\"preview-text\">"
        + Indent16 + "<strong>Content " + "Preview:</strong><br>"
        + Indent16,
      bodyClose :=
        Indent12 + "</div>"
        + Indent8 + "</div>"
        + Indent4 + "</div>"
        + Indent0 + "</body>"
        + Indent0)
  }

  /** The decimal digit for `d`. */
  function DigitChar(d: nat): (c: char)
    requires d < 10
    ensures '0' <= c <= '9' && c as int - '0' as int == d
  {
    ['0', '1', '2', '3', '4', '5', '6', '7', '8', '9'][d]
  }

  /** The decimal digits of `n`, most significant first, without leading zeros. */
  function Digits(n: nat): (r: string)
    ensures |r| >= 1
    ensures forall k :: 0 <= k < |r| ==> '0' <= r[k] <= '9'
    decreases n
  {
    if n < 10 then [DigitChar(n)] else Digits(n / 10) + [DigitChar(n % 10)]
  }

  /** An integer as Python formats it in an f-string: its digits, after a minus sign when negative. */
  function Decimal(n: int): (r: string)
    ensures |r| >= 1
    ensures r[0] == '-' <==> n < 0
    ensures 0 <= n < 10 ==> r == [DigitChar(n)]
  {
    if n < 0 then "-" + Digits(-n) else Digits(n)
  }

  /** The number a string of decimal digits denotes, most significant first. */
  function DigitsValue(s: string): int
    decreases |s|
  {
    if s == [] then 0 else 10 * DigitsValue(s[..|s| - 1]) + (s[|s| - 1] as int - '0' as int)
  }

  /** The number a decimal numeral denotes, with an optional leading minus sign. */
  function DecimalValue(s: string): int {
    if s != [] && s[0] == '-' then -DigitsValue(s[1..]) else DigitsValue(s)
  }

  /** Reading the digits of `n` back gives `n`. */
  lemma {:induction false} DigitsRoundTrip(n: nat)
    ensures DigitsValue(Digits(n)) == n
    decreases n
  {
    if n >= 10 {
      DigitsRoundTrip(n / 10);
      var r := Digits(n);
      assert r[..|r| - 1] == Digits(n / 10);
    }
  }

  /** The level written into a heading's tags reads back as that level. */
  lemma DecimalRoundTrip(n: int)
    ensures DecimalValue(Decimal(n)) == n
  {
    if n < 0 {
      DigitsRoundTrip(-n);
      assert Decimal(n)[1..] == Digits(-n);
    } else {
      DigitsRoundTrip(n);
    }
  }

  /** One heading as the fallback renders it: `<hN>text</hN>` and a newline. */
  function RenderHeading(h: Heading): string {
    "<h" + Decimal(h.level) + ">" + h.text + "</h" + Decimal(h.level) + ">\n"
  }

  /** The headings rendered one after another, in order. */
  function HeadingsHtml(hs: seq<Heading>): string {
    ConcatMap(RenderHeading, hs)
  }

  /** A heading of level 1..6 is rendered with that single digit in both tags. */
  lemma {:induction false} RenderHeadingLevel(h: Heading)
    requires 1 <= h.level <= 6
    ensures RenderHeading(h) == "<h" + [DigitChar(h.level)] + ">" + h.text + "</h" + [DigitChar(h.level)] + ">\n"
  {
  }

  /** The preview of the text: its first 400 characters followed by "...", even when nothing was cut. */
  function Preview(text: string): (r: string)
    ensures |r| == Min(PreviewLimit, |text|) + |Ellipsis|
    ensures r[..|r| - |Ellipsis|] <= text && r[|r| - |Ellipsis|..] == Ellipsis
  {
    Take(text, PreviewLimit) + Ellipsis
  }

  /** The `<title>` element of the page. */
  function TitleElement(title: string): string {
    "<title>" + title + "</title>"
  }

  /** The page header's `<h1>`. */
  function HeaderHeading(title: string): string {
    "<h1>" + title + "</h1>"
  }

  /**
   * The template `t` filled in: the doctype, the title in the `<title>` element and again
   * in the header's `<h1>`, the headings' markup, the preview, and the closing tag.
   */
  function Fill(t: Template, title: string, headingsHtml: string, preview: string): string {
    Doctype + t.headIntro + TitleElement(title) + t.styleAndHeader + HeaderHeading(title) + t.contentIntro
    + headingsHtml + t.previewIntro + preview + t.bodyClose + HtmlClose
  }

  /** A page of the fallback's shape for `d` with fixed text `t`: its first five headings and its preview filled in. */
  function Render(d: ScrapedData, t: Template): string {
    Fill(t, d.title, HeadingsHtml(Take(d.headings, ShownHeadings)), Preview(d.textContent))
  }

  /** The fallback page for `d`. */
  function FallbackDocument(d: ScrapedData): string {
    Render(d, PageTemplate())
  }

  /** The headings' markup, accumulated one heading at a time as the backend's loop does. */
  method RenderHeadings(shown: seq<Heading>) returns (html: string)
    ensures html == HeadingsHtml(shown)
  {
    html := "";
    for k := 0 to |shown|
      invariant html == HeadingsHtml(shown[..k])
    {
      assert shown[..k + 1][..k] == shown[..k];
      html := html + RenderHeading(shown[k]);
    }
    assert shown[..|shown|] == shown;
  }

  /** The fallback page: the template filled in with the title, the first five headings and the preview. */
  method CreateFallbackHtml(d: ScrapedData) returns (html: string)
    ensures html == FallbackDocument(d)
  {
    var headingsHtml := RenderHeadings(Take(d.headings, ShownHeadings));
    html := Fill(PageTemplate(), d.title, headingsHtml, Preview(d.textContent));
  }

  /**
   * The page opens with the doctype and ends with `</html>`, whatever its fixed text; so
   * neither end is whitespace, and stripping it changes nothing.
   */
  lemma RenderFraming(d: ScrapedData, t: Template)
    ensures StartsWith(Render(d, t), Doctype)
    ensures |Render(d, t)| >= |HtmlClose|
    ensures Render(d, t)[|Render(d, t)| - |HtmlClose|..] == HtmlClose
    ensures Trim(Render(d, t), Python) == Render(d, t)
  {
    var p1 := Doctype + t.headIntro;
    var p2 := p1 + TitleElement(d.title);
    var p3 := p2 + t.styleAndHeader;
    var p4 := p3 + HeaderHeading(d.title);
    var p5 := p4 + t.contentIntro;
    var p6 := p5 + HeadingsHtml(Take(d.headings, ShownHeadings));
    var p7 := p6 + t.previewIntro;
    var p8 := p7 + Preview(d.textContent);
    var p9 := p8 + t.bodyClose;
    var doc := p9 + HtmlClose;
    PrefixOfExtension(Doctype, Doctype, t.headIntro);
    PrefixOfExtension(Doctype, p1, TitleElement(d.title));
    PrefixOfExtension(Doctype, p2, t.styleAndHeader);
    PrefixOfExtension(Doctype, p3, HeaderHeading(d.title));
    PrefixOfExtension(Doctype, p4, t.contentIntro);
    PrefixOfExtension(Doctype, p5, HeadingsHtml(Take(d.headings, ShownHeadings)));
    PrefixOfExtension(Doctype, p6, t.previewIntro);
    PrefixOfExtension(Doctype, p7, Preview(d.textContent));
    PrefixOfExtension(Doctype, p8, t.bodyClose);
    PrefixOfExtension(Doctype, p9, HtmlClose);
    assert doc[|doc| - |HtmlClose|..] == HtmlClose;
    assert doc[0] == '<' && doc[|doc| - 1] == '>';
    TrimOfTrimmed(doc, Python);
  }

  /** The title is shown twice: in the `<title>` element and in the header's `<h1>`. */
  lemma RenderShowsTitle(d: ScrapedData, t: Template)
    ensures IsInfix(TitleElement(d.title), Render(d, t))
    ensures IsInfix(HeaderHeading(d.title), Render(d, t))
  {
    var p1 := Doctype + t.headIntro;
    var p3 := p1 + TitleElement(d.title) + t.styleAndHeader;
    var p5 := p3 + HeaderHeading(d.title) + t.contentIntro;
    var p6 := p5 + HeadingsHtml(Take(d.headings, ShownHeadings));
    var p7 := p6 + t.previewIntro;
    var p8 := p7 + Preview(d.textContent);
    var p9 := p8 + t.bodyClose;
    InfixOfConcat(p1, TitleElement(d.title), t.styleAndHeader);
    InfixOfConcat(p3, HeaderHeading(d.title), t.contentIntro);
    var x := TitleElement(d.title);
    var y := HeaderHeading(d.title);
    InfixOfExtension(x, p3, HeaderHeading(d.title));
    InfixOfExtension(x, p3 + HeaderHeading(d.title), t.contentIntro);
    InfixOfExtension(x, p5, HeadingsHtml(Take(d.headings, ShownHeadings)));
    InfixOfExtension(y, p5, HeadingsHtml(Take(d.headings, ShownHeadings)));
    InfixOfExtension(x, p6, t.previewIntro);
    InfixOfExtension(y, p6, t.previewIntro);
    InfixOfExtension(x, p7, Preview(d.textContent));
    InfixOfExtension(y, p7, Preview(d.textContent));
    InfixOfExtension(x, p8, t.bodyClose);
    InfixOfExtension(y, p8, t.bodyClose);
    InfixOfExtension(x, p9, HtmlClose);
    InfixOfExtension(y, p9, HtmlClose);
  }

  /** The first five headings, rendered in order, and the text preview are both in the page. */
  lemma RenderShowsContent(d: ScrapedData, t: Template)
    ensures IsInfix(HeadingsHtml(Take(d.headings, ShownHeadings)), Render(d, t))
    ensures IsInfix(Preview(d.textContent), Render(d, t))
  {
    var hh := HeadingsHtml(Take(d.headings, ShownHeadings));
    var pv := Preview(d.textContent);
    var p5 := Doctype + t.headIntro + TitleElement(d.title) + t.styleAndHeader + HeaderHeading(d.title) + t.contentIntro;
    var p7 := p5 + hh + t.previewIntro;
    var p9 := p7 + pv + t.bodyClose;
    InfixOfConcat(p5, hh, t.previewIntro);
    InfixOfConcat(p7, pv, t.bodyClose);
    InfixOfExtension(hh, p7, pv);
    InfixOfExtension(hh, p7 + pv, t.bodyClose);
    InfixOfExtension(hh, p9, HtmlClose);
    InfixOfExtension(pv, p9, HtmlClose);
  }

  /**
   * Each of the first five headings is in the page, rendered as `<hN>text</hN>` and a
   * newline: it sits in the headings' markup between those before it and those after it.
   */
  lemma RenderShowsHeading(d: ScrapedData, t: Template, i: nat)
    requires i < Min(ShownHeadings, |d.headings|)
    ensures IsInfix(RenderHeading(d.headings[i]), Render(d, t))
  {
    var shown := Take(d.headings, ShownHeadings);
    assert shown[i] == d.headings[i];
    ConcatMapAt(RenderHeading, shown, i);
    InfixOfConcat(HeadingsHtml(shown[..i]), RenderHeading(shown[i]), HeadingsHtml(shown[i + 1..]));
    RenderShowsContent(d, t);
    InfixTransitive(RenderHeading(shown[i]), HeadingsHtml(shown), Render(d, t));
  }
}
