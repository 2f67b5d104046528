/**
 * The choice `generate_html_with_ai` (backend/app/main.py) makes between the language
 * model's reply and the fallback page. The model call itself is not modelled: only its
 * outcome arrives, as an `AiOutcome`.
 */
module Generate {
  import opened Text
  import opened Scrape
  import opened Fallback

  /** The opening the acceptance rule also admits, besides the doctype. */
  const HtmlOpen := "<html"

  /** What asking the language model for a page came to. */
  datatype AiOutcome =
    | NoClient              // no client was configured at start-up
    | CallFails             // the call raised, or its reply had no text block
    | Replies(text: string) // the text of the reply's first content block

  /** The acceptance rule: once stripped, the text opens with the doctype or with `<html`. */
  predicate LooksLikeHtml(text: string) {
    StartsWith(Trim(text, Python), Doctype) || StartsWith(Trim(text, Python), HtmlOpen)
  }

  /** The fallback page passes the acceptance rule it stands in for. */
  lemma FallbackLooksLikeHtml(d: ScrapedData)
    ensures LooksLikeHtml(FallbackDocument(d))
  {
    RenderFraming(d, PageTemplate());
  }

  /**
   * The page handed back for scraped data `d`: the reply exactly as it came, untrimmed,
   * when there is one and it looks like HTML; the fallback page in every other case. Either
   * way the result looks like HTML.
   */
  method GenerateHtmlWithAi(d: ScrapedData, ai: AiOutcome) returns (html: string)
    ensures ai.Replies? && LooksLikeHtml(ai.text) ==> html == ai.text
    ensures !(ai.Replies? && LooksLikeHtml(ai.text)) ==> html == FallbackDocument(d)
    ensures LooksLikeHtml(html)
  {
    if ai.NoClient? {
      html := CreateFallbackHtml(d);
      FallbackLooksLikeHtml(d);
      return;
    }
    if ai.CallFails? {
      html := CreateFallbackHtml(d);
      FallbackLooksLikeHtml(d);
      return;
    }
    var generated := ai.text;
    if !StartsWith(Trim(generated, Python), Doctype) && !StartsWith(Trim(generated, Python), HtmlOpen) {
      html := CreateFallbackHtml(d);
      FallbackLooksLikeHtml(d);
      return;
    }
    html := generated;
  }

  /**
   * The rule looks past leading whitespace, but the page keeps it: a reply made of
   * whitespace and then a doctype is accepted, and handed on with the whitespace.
   */
  lemma PaddedReplyAccepted(pad: string, body: string)
    requires AllSpace(pad, Python)
    requires StartsWith(body, Doctype)
    ensures LooksLikeHtml(pad + body)
  {
    TrimOfPadded(pad, body, Doctype, Python);
  }
}
