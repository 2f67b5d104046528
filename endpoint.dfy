/**
 * The `POST /clone-website` endpoint `clone_website` (backend/app/main.py): the url is
 * normalised, the page at that url is scraped, and a page is generated from the scraped
 * data. Loading and parsing the page is not modelled: `load` says what loading a url
 * yields, a parsed page or the message of the exception raised on the way.
 */
module Endpoint {
  import opened Text
  import opened Scrape
  import opened Fallback
  import opened Generate

  const HttpScheme := "http://"
  const HttpsScheme := "https://"
  const ScrapeFailurePrefix := "Failed to scrape website: "
  const InternalServerError := 500

  /** What loading and parsing the page at a url came to. */
  datatype LoadOutcome =
    | Loaded(page: ParsedPage)
    | LoadFailed(message: string)  // the text of the exception raised while loading or parsing

  /** What the endpoint answers: a `CloneResponse` with `success` set, or an `HTTPException`. */
  datatype Reply =
    | Cloned(clonedHtml: string)
    | Raised(status: int, detail: string)

  /** The url names its scheme, as the endpoint's case-sensitive prefix test sees it. */
  predicate HasScheme(u: string) {
    StartsWith(u, HttpScheme) || StartsWith(u, HttpsScheme)
  }

  /**
   * The url the endpoint fetches: the request's url stripped, with "https://" put in front
   * unless it already names its scheme. The result always names one.
   */
  function NormaliseUrl(raw: string): (u: string)
    ensures HasScheme(u)
    ensures HasScheme(Trim(raw, Python)) ==> u == Trim(raw, Python)
    ensures !HasScheme(Trim(raw, Python)) ==> u == HttpsScheme + Trim(raw, Python)
  {
    var url := Trim(raw, Python);
    if !HasScheme(url) then HttpsScheme + url else url
  }

  /** The normalised url has no whitespace at either end. */
  lemma NormalisedIsTrimmed(raw: string)
    ensures IsTrimmed(NormaliseUrl(raw), Python)
  {
    var t := Trim(raw, Python);
    if !HasScheme(t) {
      var u := HttpsScheme + t;
      assert u[0] == 'h';
      assert u[|u| - 1] == if t == [] then '/' else t[|t| - 1];
    }
  }

  /** Normalising a normalised url changes nothing. */
  lemma NormaliseIdempotent(raw: string)
    ensures NormaliseUrl(NormaliseUrl(raw)) == NormaliseUrl(raw)
  {
    NormalisedIsTrimmed(raw);
    TrimOfTrimmed(NormaliseUrl(raw), Python);
  }

  /**
   * The scheme test is case-sensitive: a stripped url that starts with "HTTP://" gets
   * "https://" put in front of it.
   */
  lemma UpperCaseSchemeIsPrefixed(raw: string)
    requires IsTrimmed(raw, Python) && StartsWith(raw, "HTTP://")
    ensures NormaliseUrl(raw) == HttpsScheme + raw
  {
    TrimOfTrimmed(raw, Python);
    assert raw[0] == 'H';
  }

  /** A url of whitespace only, which the page lets through, becomes the bare "https://". */
  lemma BlankUrlBecomesBareScheme(raw: string)
    requires AllSpace(raw, Python)
    ensures NormaliseUrl(raw) == HttpsScheme
  {
    TrimEmptyIffBlank(raw, Python);
  }

  /**
   * One request: the url fetched is the normalised one. When loading it fails the reply is
   * a 500 whose detail carries the failure; otherwise the reply is a clone whose page
   * passes the acceptance rule, the model's reply when that was accepted and the fallback
   * page for the scraped data when not.
   */
  method CloneWebsite(rawUrl: string, load: string -> LoadOutcome, ai: AiOutcome)
    returns (fetched: string, reply: Reply)
    ensures fetched == NormaliseUrl(rawUrl)
    ensures load(fetched).LoadFailed? ==>
              reply == Raised(InternalServerError, ScrapeFailurePrefix + load(fetched).message)
    ensures load(fetched).Loaded? ==> reply.Cloned? && LooksLikeHtml(reply.clonedHtml)
    ensures load(fetched).Loaded? && ai.Replies? && LooksLikeHtml(ai.text) ==> reply == Cloned(ai.text)
    ensures load(fetched).Loaded? && !(ai.Replies? && LooksLikeHtml(ai.text)) ==>
              reply == Cloned(FallbackDocument(ScrapedFrom(load(fetched).page)))
  {
    var url := NormaliseUrl(rawUrl);
    fetched := url;
    match load(url)
    case LoadFailed(message) =>
      reply := Raised(InternalServerError, ScrapeFailurePrefix + message);
    case Loaded(page) =>
      var websiteData := ScrapeWebsiteData(page);
      var clonedHtml := GenerateHtmlWithAi(websiteData, ai);
      reply := Cloned(clonedHtml);
  }
}
