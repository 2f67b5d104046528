/**
 * The clone page (frontend/src/app/page.tsx): four state cells, the click handler that
 * validates the url, starts a request and settles it, and the render conditions the
 * markup derives from the cells.
 *
 * The request is not performed here. The handler's awaited `fetch` followed by
 * `response.json()` is summarised by a `FetchOutcome` that the caller supplies.
 */
module Page {
  import opened Wrappers
  import opened Text

  const EmptyUrlMessage := "Please enter a URL"
  const GenericFailureMessage := "Failed to clone website"
  const NetworkErrorMessage := "Network error - make sure your backend is running"

  /** The JSON body `{"url": ...}` that the handler POSTs to the clone endpoint. */
  datatype CloneRequest = CloneRequest(url: string)

  /** How the awaited request settles, as the handler observes it. */
  datatype FetchOutcome =
    | Ok(clonedHtml: string)             // `response.ok`; `data.cloned_html` of the parsed body
    | NotOk(errorField: Option<string>)  // not ok; `data.error` of the parsed body, if present
    | Throws                             // `fetch` rejected, or the body was not JSON

  /** The component's state cells: `url`, `clonedHtml`, `isLoading`, `error`. */
  datatype ViewState = ViewState(url: string, clonedHtml: string, isLoading: bool, error: string)

  /** The cells as `useState` initialises them. */
  const Initial := ViewState("", "", false, "")

  /**
   * The request a click issues from state `s`. The guard is JavaScript truthiness of the
   * untrimmed url, so only the empty string is refused, and the url is sent as stored.
   */
  function RequestOf(s: ViewState): (req: Option<CloneRequest>)
    ensures req.None? <==> s.url == ""
    ensures req.Some? ==> req.value.url == s.url
  {
    if s.url == "" then None else Some(CloneRequest(s.url))
  }

  /**
   * The synchronous part of a click: an empty url only sets the validation message;
   * any other url enters loading and clears the error. The previous html is kept either way.
   */
  function AfterStart(s: ViewState): (t: ViewState)
    ensures t.url == s.url && t.clonedHtml == s.clonedHtml
    ensures s.url == "" ==> t.isLoading == s.isLoading && t.error == EmptyUrlMessage
    ensures s.url != "" ==> t.isLoading && t.error == ""
  {
    if s.url == "" then s.(error := EmptyUrlMessage) else s.(isLoading := true, error := "")
  }

  /**
   * The message shown when a request fails: the body's `error` field when it is a
   * non-empty string, the generic message otherwise, and the connectivity hint when the
   * request or the body parse threw. It is never empty, so every failure shows the banner.
   */
  function FailureMessage(o: FetchOutcome): (m: string)
    requires !o.Ok?
    ensures m != ""
    ensures o.Throws? ==> m == NetworkErrorMessage
    ensures o.NotOk? && o.errorField.Some? && o.errorField.value != "" ==> m == o.errorField.value
    ensures o.NotOk? && (o.errorField.None? || o.errorField.value == "") ==> m == GenericFailureMessage
  {
    match o
    case NotOk(field) => if field.Some? && field.value != "" then field.value else GenericFailureMessage
    case Throws => NetworkErrorMessage
  }

  /**
   * Settlement: success stores the returned html, failure stores a message and keeps the
   * previous html; loading ends in every case (the `finally` block).
   */
  function AfterSettle(s: ViewState, o: FetchOutcome): (t: ViewState)
    ensures !t.isLoading && t.url == s.url
    ensures o.Ok? ==> t.clonedHtml == o.clonedHtml && t.error == s.error
    ensures !o.Ok? ==> t.clonedHtml == s.clonedHtml && t.error == FailureMessage(o) && t.error != ""
  {
    match o
    case Ok(html) => s.(clonedHtml := html, isLoading := false)
    case _ => s.(error := FailureMessage(o), isLoading := false)
  }

  /** One whole click: validation, and when a request is issued, its settlement with `o`. */
  function AfterSubmit(s: ViewState, o: FetchOutcome): (t: ViewState)
    ensures t.url == s.url
    ensures s.url == "" ==> t == s.(error := EmptyUrlMessage)
    ensures s.url != "" ==> !t.isLoading
    ensures s.url != "" && o.Ok? ==> t.clonedHtml == o.clonedHtml && t.error == ""
    ensures s.url != "" && !o.Ok? ==> t.clonedHtml == s.clonedHtml && t.error == FailureMessage(o)
  {
    if RequestOf(s).None? then AfterStart(s) else AfterSettle(AfterStart(s), o)
  }

  // Render conditions of the markup, each a pure function of the cells.

  /** The url input is editable (line 75). */
  predicate InputEnabled(s: ViewState) { !s.isLoading }

  /** The clone button is enabled (line 81): the url is checked trimmed here. */
  predicate ButtonEnabled(s: ViewState) { !s.isLoading && Trim(s.url, JavaScript) != "" }

  /** The error banner (line 98). */
  predicate ErrorBannerShown(s: ViewState) { s.error != "" }

  /** The "cloned successfully" banner (line 108). */
  predicate SuccessBannerShown(s: ViewState) { s.clonedHtml != "" && !s.isLoading }

  /** The preview frame and code view (line 120). */
  predicate PreviewShown(s: ViewState) { s.clonedHtml != "" }

  /** The loading panel (line 184). */
  predicate LoadingPanelShown(s: ViewState) { s.isLoading }

  /** The three info cards (line 204). */
  predicate InfoCardsShown(s: ViewState) { s.clonedHtml == "" && !s.isLoading }

  /** The controller as the component holds it: one field per state cell. */
  class Controller {
    var url: string
    var clonedHtml: string
    var isLoading: bool
    var error: string

    /** The cells as a value. */
    function State(): ViewState
      reads this
    {
      ViewState(url, clonedHtml, isLoading, error)
    }

    constructor ()
      ensures State() == Initial
    {
      url, clonedHtml, isLoading, error := "", "", false, "";
    }

    /** The input's change handler: stores the text as typed. */
    method SetUrl(input: string)
      modifies this`url
      ensures State() == old(State()).(url := input)
    {
      url := input;
    }

    /** Validation and start of the click handler; returns the request it issues, if any. */
    method Start() returns (req: Option<CloneRequest>)
      modifies this`isLoading, this`error
      ensures req == RequestOf(old(State()))
      ensures State() == AfterStart(old(State()))
    {
      if url == "" {
        error := EmptyUrlMessage;
        return None;
      }
      isLoading := true;
      error := "";
      req := Some(CloneRequest(url));
    }

    /** Settlement of the click handler with the request's outcome. */
    method Settle(outcome: FetchOutcome)
      modifies this`clonedHtml, this`error, this`isLoading
      ensures State() == AfterSettle(old(State()), outcome)
    {
      match outcome {
        case Ok(html) =>
          clonedHtml := html;
        case NotOk(field) =>
          error := if field.Some? && field.value != "" then field.value else GenericFailureMessage;
        case Throws =>
          error := NetworkErrorMessage;
      }
      isLoading := false;
    }

    /** The whole click handler, the awaited request settling with `outcome`. */
    method HandleCloneWebsite(outcome: FetchOutcome) returns (req: Option<CloneRequest>)
      modifies this`clonedHtml, this`error, this`isLoading
      ensures req == RequestOf(old(State()))
      ensures State() == AfterSubmit(old(State()), outcome)
    {
      req := Start();
      if req.Some? {
        Settle(outcome);
      }
    }
  }

  /** Whenever the button is enabled, a click passes validation and sends the url as stored. */
  lemma {:induction false} EnabledButtonIssuesRequest(s: ViewState)
    requires ButtonEnabled(s)
    ensures RequestOf(s) == Some(CloneRequest(s.url))
    ensures AfterStart(s).isLoading && !ErrorBannerShown(AfterStart(s))
  {
    NonBlankIsNonEmpty(s.url, JavaScript);
  }

  /**
   * The two checks disagree on blank urls: a non-empty all-whitespace url keeps the
   * button disabled, yet the handler itself would accept it and send it untrimmed.
   */
  lemma {:induction false} BlankUrlPassesHandlerCheck(s: ViewState)
    requires s.url != "" && AllSpace(s.url, JavaScript)
    ensures !ButtonEnabled(s)
    ensures RequestOf(s) == Some(CloneRequest(s.url))
  {
    TrimEmptyIffBlank(s.url, JavaScript);
  }

  /**
   * A concrete instance: a url that is a single no-break space, which a url input does not
   * strip, since its value sanitisation removes ASCII whitespace only.
   */
  lemma NoBreakSpaceUrl()
    ensures !ButtonEnabled(Initial.(url := "\U{00A0}"))
    ensures RequestOf(Initial.(url := "\U{00A0}")) == Some(CloneRequest("\U{00A0}"))
  {
    BlankUrlPassesHandlerCheck(Initial.(url := "\U{00A0}"));
  }

  /** Exactly one of the loading panel, the success banner and the info cards is shown. */
  lemma PanelsPartition(s: ViewState)
    ensures LoadingPanelShown(s) || SuccessBannerShown(s) || InfoCardsShown(s)
    ensures !(LoadingPanelShown(s) && SuccessBannerShown(s))
    ensures !(LoadingPanelShown(s) && InfoCardsShown(s))
    ensures !(SuccessBannerShown(s) && InfoCardsShown(s))
  {
  }

  /**
   * A failure after a success leaves the old html in place: the error banner, the
   * success banner and the preview of the previous result are all shown together.
   */
  lemma {:induction false} FailureAfterSuccessShowsStaleHtml(s: ViewState, o: FetchOutcome)
    requires s.clonedHtml != "" && s.url != "" && !o.Ok?
    ensures AfterSubmit(s, o).clonedHtml == s.clonedHtml
    ensures ErrorBannerShown(AfterSubmit(s, o))
    ensures SuccessBannerShown(AfterSubmit(s, o)) && PreviewShown(AfterSubmit(s, o))
  {
  }

  /** A success clears a previous error, since the start step already did. */
  lemma {:induction false} SuccessClearsError(s: ViewState, html: string)
    requires s.url != ""
    ensures !ErrorBannerShown(AfterSubmit(s, Ok(html)))
    ensures SuccessBannerShown(AfterSubmit(s, Ok(html))) <==> html != ""
  {
  }

  /** The cells after, for each `k`, typing `urls[k]` and clicking with outcome `outcomes[k]`. */
  function Run(s: ViewState, urls: seq<string>, outcomes: seq<FetchOutcome>): ViewState
    requires |urls| == |outcomes|
    decreases |urls|
  {
    if urls == [] then s
    else Run(AfterSubmit(s.(url := urls[0]), outcomes[0]), urls[1..], outcomes[1..])
  }

  /**
   * From idle cells (the initial ones among them), any run of edits and completed clicks
   * leaves the page idle: no loading panel, and an editable input.
   */
  lemma {:induction false} CompletedClicksLeavePageIdle(s: ViewState, urls: seq<string>, outcomes: seq<FetchOutcome>)
    requires |urls| == |outcomes|
    requires !s.isLoading
    ensures !Run(s, urls, outcomes).isLoading && InputEnabled(Run(s, urls, outcomes))
    decreases |urls|
  {
    if urls != [] {
      CompletedClicksLeavePageIdle(AfterSubmit(s.(url := urls[0]), outcomes[0]), urls[1..], outcomes[1..]);
    }
  }
}
