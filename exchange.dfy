/**
 * The two halves joined: what the page (frontend/src/app/page.tsx) makes of the
 * endpoint's reply (backend/app/main.py). A `CloneResponse` arrives as an ok response
 * whose body has `cloned_html`. An `HTTPException` arrives as a non-ok response whose
 * body is `{"detail": ...}`, with no `error` field for the page to show.
 */
module Exchange {
  import opened Wrappers
  import opened Text
  import opened Page
  import opened Generate
  import opened Endpoint

  /** The settled request as the page's handler sees the endpoint's reply. */
  function Received(reply: Reply): (o: FetchOutcome)
    ensures o.Ok? <==> reply.Cloned?
    ensures reply.Cloned? ==> o.clonedHtml == reply.clonedHtml
    ensures reply.Raised? ==> o.NotOk? && o.errorField.None?
    ensures o != Throws
  {
    match reply
    case Cloned(html) => Ok(html)
    case Raised(_, _) => NotOk(None)
  }

  /**
   * The endpoint's failure detail never reaches the page: a raised reply, whatever its
   * status and detail, shows the generic message and keeps the previous html.
   */
  lemma RaisedReplyShowsGenericMessage(s: ViewState, reply: Reply)
    requires s.url != "" && reply.Raised?
    ensures AfterSubmit(s, Received(reply)).error == GenericFailureMessage
    ensures AfterSubmit(s, Received(reply)).clonedHtml == s.clonedHtml
  {
  }

  /** A page that passes the acceptance rule is not empty. */
  lemma AcceptedIsNonEmpty(html: string)
    requires LooksLikeHtml(html)
    ensures html != ""
  {
    assert Trim(html, Python) != "";
    NonBlankIsNonEmpty(html, Python);
  }

  /**
   * A clone reply of a page that passes the acceptance rule, which is every clone reply the
   * endpoint makes, ends the click with that page stored, no error, the success banner and
   * the preview shown, and the info cards hidden.
   */
  lemma ClonedReplyIsShown(s: ViewState, reply: Reply)
    requires s.url != "" && reply.Cloned? && LooksLikeHtml(reply.clonedHtml)
    ensures AfterSubmit(s, Received(reply)).clonedHtml == reply.clonedHtml
    ensures !ErrorBannerShown(AfterSubmit(s, Received(reply)))
    ensures SuccessBannerShown(AfterSubmit(s, Received(reply))) && PreviewShown(AfterSubmit(s, Received(reply)))
    ensures !InfoCardsShown(AfterSubmit(s, Received(reply)))
  {
    AcceptedIsNonEmpty(reply.clonedHtml);
  }
}
