# Website cloner: clone page and backend data shaping, in Dafny

The system is a two-part website cloner. A Next.js page (`frontend/src/app/page.tsx`) holds
four state cells: `url`, `clonedHtml`, `isLoading` and `error`. Its click handler
`handleCloneWebsite` validates the url and POSTs `{"url": ...}` to the FastAPI backend
(`backend/app/main.py`), then stores the returned page or a failure message. The endpoint
`clone_website` strips the url and adds a scheme when it has none. It scrapes the page
(`scrape_website_data`), keeping a bounded record, and asks a language model for a
recreated page (`generate_html_with_ai`). When there is no model, the call fails, or the
reply does not look like HTML, it uses a fixed fallback page instead (`create_fallback_html`).

The project models these parts:

- `wrappers.dfy`: `Option`, for JSON fields that may be absent.
- `text.dfy`: whitespace stripping as each runtime defines it. JavaScript's `String.prototype.trim` and Python's `str.strip` strip different character sets. It also holds Python's `s[:n]`, prefix and substring tests, and the concatenation of mapped strings.
- `page.dfy`: the page's state cells as a `Controller` class with `Start`, `Settle` and `HandleCloneWebsite`. Each method is proved against a pure transition function (`AfterStart`, `AfterSettle`, `AfterSubmit`). The file also holds the render conditions of the markup and lemmas about their interplay.
- `scrape.dfy`: the scraped record's defaults and bounds. The nested loops that collect at most three headings per level, levels 1 to 6, are proved against `CollectedHeadings`.
- `fallback.dfy`: the fallback page. Its fixed text is kept verbatim as a `Template`. The loop that renders the first five headings is proved against `HeadingsHtml`. Lemmas cover where the title, the headings and the preview land in the page.
- `generate.dfy`: the acceptance rule, and the choice between the model's reply and the fallback.
- `endpoint.dfy`: url normalisation and the endpoint's reply, a clone or a raised 500.
- `exchange.dfy`: what the page's handler makes of each reply the endpoint can give.

Three behaviours of the page's handler matter for what follows. Its emptiness check is on the untrimmed url, and it sends the url as stored. It has no guard against a second click while a request is in flight. It keeps the previous html when a new submission fails. `BlankUrlPassesHandlerCheck` proves the first, and `FailureAfterSuccessShowsStaleHtml` proves the last.

## Model

| member | source | states |
|---|---|---|
| Text.IsSpace | frontend/src/app/page.tsx:81 | the whitespace each runtime strips: the shared set, plus U+FEFF for JavaScript's `trim`, plus U+0085 and U+001C..U+001F for Python's `strip` (definition) |
| Text.Trim | backend/app/main.py:347 | the stripped string has no whitespace at either end and is no longer than the input |
| Text.TrimIsMiddle | backend/app/main.py:347 | the stripped string is the substring after the leading and before the trailing whitespace, and both removed parts are whitespace only |
| Text.TrimEmptyIffBlank | frontend/src/app/page.tsx:81 | the trim is empty exactly when every character is whitespace |
| Text.TrimOfTrimmed | backend/app/main.py:347 | a string with no whitespace at either end is left unchanged by stripping |
| Text.TrimIdempotent | backend/app/main.py:347 | stripping twice is stripping once |
| Text.TrimOfPadded | backend/app/main.py:206 | whitespace in front of a string does not hide a prefix that neither starts nor ends with whitespace |
| Text.Take | backend/app/main.py:124-127 | `s[:n]` has length `min(n, len(s))` and is a prefix of `s` |
| Text.ConcatMapAppend | backend/app/main.py:218-220 | rendering a list piece by piece distributes over concatenation of lists |
| Text.ConcatMapAt | backend/app/main.py:218-220 | element `i`'s rendering sits between the renderings of the elements before and after it, in input order |
| Page.InputEnabled | frontend/src/app/page.tsx:75 | the url input is editable exactly when not loading (definition) |
| Page.ButtonEnabled | frontend/src/app/page.tsx:81 | the button is enabled exactly when not loading and the url, trimmed the JavaScript way, is non-empty (definition) |
| Page.ErrorBannerShown | frontend/src/app/page.tsx:98 | the error banner shows exactly when the error is non-empty (definition) |
| Page.SuccessBannerShown | frontend/src/app/page.tsx:108 | the success banner shows exactly when there is html and nothing is loading (definition) |
| Page.PreviewShown | frontend/src/app/page.tsx:120 | the preview shows exactly when there is html (definition) |
| Page.LoadingPanelShown | frontend/src/app/page.tsx:184 | the loading panel shows exactly while loading (definition) |
| Page.InfoCardsShown | frontend/src/app/page.tsx:204 | the info cards show exactly when there is no html and nothing is loading (definition) |
| Page.RequestOf | frontend/src/app/page.tsx:12-15 | a click issues no request exactly when the url is the empty string; otherwise the request carries the url as stored, untrimmed |
| Page.AfterStart | frontend/src/app/page.tsx:12-18 | an empty url sets only the validation message; any other url enters loading and clears the error; the previous html is kept either way |
| Page.FailureMessage | frontend/src/app/page.tsx:33-37 | the body's non-empty `error` field, else "Failed to clone website"; "Network error - make sure your backend is running" when the request or the body parse threw; never empty |
| Page.AfterSettle | frontend/src/app/page.tsx:29-40 | success stores the returned html and leaves the error alone; failure stores the failure message and keeps the previous html; loading ends in every case |
| Page.AfterSubmit | frontend/src/app/page.tsx:11-41 | a whole click: validation only for an empty url; otherwise idle afterwards, with the html or the message of the outcome |
| Page.Controller.constructor | frontend/src/app/page.tsx:6-9 | the cells start as empty strings and not loading |
| Page.Controller.SetUrl | frontend/src/app/page.tsx:72 | typing changes the url cell only, and stores the text as typed |
| Page.Controller.Start | frontend/src/app/page.tsx:12-27 | the handler's synchronous part updates the cells as `AfterStart` says and returns the request `RequestOf` says |
| Page.Controller.Settle | frontend/src/app/page.tsx:29-40 | settlement updates the cells as `AfterSettle` says |
| Page.Controller.HandleCloneWebsite | frontend/src/app/page.tsx:11-41 | the whole handler updates the cells as `AfterSubmit` says and issues the request `RequestOf` says |
| Page.EnabledButtonIssuesRequest | frontend/src/app/page.tsx:81 | whenever the button is enabled, a click passes validation, sends the stored url, enters loading and hides the error banner |
| Page.BlankUrlPassesHandlerCheck | frontend/src/app/page.tsx:12 | a non-empty all-whitespace url disables the button, yet the handler's own check lets it through and sends it untrimmed |
| Page.NoBreakSpaceUrl | frontend/src/app/page.tsx:81 | the url made of one no-break space, which a url input keeps, is such a url |
| Page.PanelsPartition | frontend/src/app/page.tsx:184-204 | exactly one of the loading panel, the success banner and the info cards is shown |
| Page.FailureAfterSuccessShowsStaleHtml | frontend/src/app/page.tsx:33-35 | a failed click after a success keeps the old html, so the error banner, the success banner and the preview show together |
| Page.SuccessClearsError | frontend/src/app/page.tsx:18 | a successful click leaves no error banner; the success banner shows exactly when the returned html is non-empty |
| Page.Run | frontend/src/app/page.tsx:11-41 | the cells after a sequence of steps, each typing a url and then making one whole click with a given outcome (definition) |
| Page.CompletedClicksLeavePageIdle | frontend/src/app/page.tsx:38-40 | from idle cells, any run of edits and completed clicks leaves the page idle with the input editable |
| Scrape.PageTitle | backend/app/main.py:123 | "Untitled" when the title string is missing or empty, the stripped title string otherwise |
| Scrape.BlankTitleBecomesEmpty | backend/app/main.py:123 | an all-whitespace title is kept as the empty string, not replaced by "Untitled" |
| Scrape.OfLevel | backend/app/main.py:132 | the headings found for one level all have that level, and there are no more of them than headings |
| Scrape.OfLevelFromPage | backend/app/main.py:132 | every heading found for a level is one of the page's headings |
| Scrape.OfLevelAppend | backend/app/main.py:132 | selecting a level distributes over concatenation |
| Scrape.OfLevelUniform | backend/app/main.py:132-133 | selecting a level from headings of one level keeps all of them or none |
| Scrape.KeptOfOneLevel | backend/app/main.py:133-136 | the headings kept for level `i` all have level `i` |
| Scrape.CollectedUpToBounds | backend/app/main.py:131-137 | after levels 1..n at most 3n headings are kept, each of a level in 1..n |
| Scrape.AscendingAppend | backend/app/main.py:131-137 | appending headings of level n after ascending headings of levels up to n keeps them ascending |
| Scrape.CollectedUpToAscending | backend/app/main.py:131-137 | the kept headings are in ascending order of level |
| Scrape.CollectedUpToPerLevel | backend/app/main.py:131-137 | for each level, the kept headings of that level are the first three of the page's, in document order |
| Scrape.CollectedHeadingsShape | backend/app/main.py:131-137 | at most 18 headings are kept, all of levels 1..6, ascending, and per level the first three of the page's |
| Scrape.CollectedUpTo | backend/app/main.py:131-137 | the headings kept after levels 1..n: for each level in turn, the first three of that level in document order (definition) |
| Scrape.CollectedHeadings | backend/app/main.py:131-137 | the headings kept after levels 1..6 (definition) |
| Scrape.ScrapedFrom | backend/app/main.py:121-137 | the record: title defaulted; markup cut to 8000, text to 3000, links and images to 15, each a prefix of the page's; headings collected |
| Scrape.ScrapeWebsiteData | backend/app/main.py:121-140 | the nested loops build exactly the record `ScrapedFrom` describes |
| Fallback.PageTemplate | backend/app/main.py:222-319 | the fixed text of the fallback page, character for character, cut at the points where values are filled in (definition) |
| Fallback.Digits | backend/app/main.py:220 | at least one character, all of them decimal digits |
| Fallback.Decimal | backend/app/main.py:220 | an integer as an f-string formats it: a leading minus exactly for negatives; a single digit for 0..9 |
| Fallback.DigitsRoundTrip | backend/app/main.py:220 | reading the digits back gives the number |
| Fallback.DecimalRoundTrip | backend/app/main.py:220 | reading the formatted level back gives the level |
| Fallback.RenderHeadingLevel | backend/app/main.py:220 | a heading of level 1..6 is rendered `<hN>text</hN>` and a newline, N that single digit |
| Fallback.RenderHeading | backend/app/main.py:220 | one heading as `<h` level `>` text `</h` level `>` and a newline, with the level formatted in decimal (definition) |
| Fallback.HeadingsHtml | backend/app/main.py:218-220 | the renderings of a list of headings, concatenated in order (definition) |
| Fallback.Preview | backend/app/main.py:314 | the first 400 characters of the text, a prefix of it, then "..." whether or not anything was cut |
| Fallback.Fill | backend/app/main.py:222-319 | the doctype, the fixed text and the filled-in values in order: the title in `<title>`, the title in the header's `<h1>`, the headings' markup, the preview, and the closing `</html>` (definition) |
| Fallback.Render | backend/app/main.py:218-319 | a page filled in with the record's title, its first five headings and the preview of its text (definition) |
| Fallback.FallbackDocument | backend/app/main.py:216-319 | the fallback page: `Render` with the fixed text of `PageTemplate` (definition) |
| Fallback.RenderHeadings | backend/app/main.py:218-220 | the loop's accumulated string is the headings rendered one after another |
| Fallback.CreateFallbackHtml | backend/app/main.py:216-319 | the page built is the template filled in with the title, the first five headings and the preview |
| Fallback.RenderFraming | backend/app/main.py:222-319 | the page starts with "<!DOCTYPE html>" and ends with "</html>", so stripping leaves it unchanged |
| Fallback.RenderShowsTitle | backend/app/main.py:227 | the title appears in the `<title>` element and in the header's `<h1>` |
| Fallback.RenderShowsContent | backend/app/main.py:310-314 | the rendered headings and the preview both appear in the page |
| Fallback.RenderShowsHeading | backend/app/main.py:218-220 | each of the first five headings appears in the page as its own `<hN>` element |
| Generate.LooksLikeHtml | backend/app/main.py:206 | the acceptance rule: once stripped the Python way, the text starts with "<!DOCTYPE html>" or with "<html" (definition) |
| Generate.FallbackLooksLikeHtml | backend/app/main.py:206 | the fallback page passes the acceptance rule it stands in for |
| Generate.GenerateHtmlWithAi | backend/app/main.py:155-214 | the model's reply, unstripped, when there is one and it looks like HTML; the fallback page when there is no client, the call fails or the reply is rejected; the result always looks like HTML |
| Generate.PaddedReplyAccepted | backend/app/main.py:206-210 | a reply of whitespace and then a doctype is accepted, and so handed on with the whitespace |
| Endpoint.HasScheme | backend/app/main.py:348 | a url names its scheme when it starts with "http://" or "https://", case-sensitively (definition) |
| Endpoint.NormaliseUrl | backend/app/main.py:347-349 | the stripped url, with "https://" in front unless it starts with "http://" or "https://"; the result always starts with one of them |
| Endpoint.NormalisedIsTrimmed | backend/app/main.py:347-349 | the normalised url has no whitespace at either end |
| Endpoint.NormaliseIdempotent | backend/app/main.py:347-349 | normalising twice is normalising once |
| Endpoint.UpperCaseSchemeIsPrefixed | backend/app/main.py:348 | the scheme test is case-sensitive: "HTTP://..." gets "https://" in front |
| Endpoint.BlankUrlBecomesBareScheme | backend/app/main.py:347-349 | an all-whitespace url becomes the bare "https://" |
| Endpoint.CloneWebsite | backend/app/main.py:340-364 | the normalised url is fetched; a scrape failure gives a 500 whose detail is "Failed to scrape website: " and the failure; otherwise a clone whose page passes the acceptance rule: the model's reply when accepted, the fallback for the scraped record when not |
| Exchange.Received | frontend/src/app/page.tsx:29-35 | a clone arrives as an ok response carrying the page; a raised reply as a non-ok response with no `error` field |
| Exchange.RaisedReplyShowsGenericMessage | frontend/src/app/page.tsx:34 | whatever the endpoint's detail, a raised reply shows "Failed to clone website" and keeps the previous html |
| Exchange.AcceptedIsNonEmpty | backend/app/main.py:206 | a page that passes the acceptance rule is not empty |
| Exchange.ClonedReplyIsShown | frontend/src/app/page.tsx:108-120 | a clone reply from the endpoint is stored with no error, the success banner and the preview shown, and the info cards hidden |

## Left out

- Loading the page in a browser, waiting for it and parsing it (backend/app/main.py:54-103, 115-119). These are browser and library I/O. Their result is an input: a `LoadOutcome` per url, holding a `ParsedPage` or the failure's message.
- The screenshot, its temporary file and its base64 encoding (backend/app/main.py:105-113, 146-153). These are filesystem work, and nothing downstream reads the screenshot.
- The language-model client, the prompt and the call (backend/app/main.py:45-52, 162-203). These are foreign calls. Only their outcome enters, as `AiOutcome`.
- The FastAPI application, CORS, the root and health endpoints, logging and the server start-up (backend/app/main.py:22-35, 321-338, 372-378). This is framework plumbing.
- The generic exception branch of the endpoint (backend/app/main.py:365-370). None of the modelled steps after scraping can raise, so it is not reached in the model.
- `fetch`, the JSON encoding of replies and `response.json()`. A response whose body lacks `cloned_html` would store `undefined`; `FetchOutcome.Ok` always carries a string.
- The clipboard action, the preview iframe and all markup and styling of the page. These are browser presentation.
- The interleaving of asynchronous clicks. A click is a `Start` followed by its `Settle`; two requests settling in either order are not modelled.
- `e.target.value` is taken as arbitrary text (frontend/src/app/page.tsx:70-72). The value sanitisation of a url input, which removes leading and trailing ASCII whitespace and line breaks, is not modelled. So `Page.Controller.SetUrl` may store text the browser would not leave in the cell.
- Strings are sequences of Unicode code points. UTF-16 surrogate pairs, which JavaScript's `trim` sees as two units, are not modelled.
