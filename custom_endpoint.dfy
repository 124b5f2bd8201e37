/**
 * helpers/CustomEndpoint.ts: the responses an endpoint of the app can give, and the common
 * failure answer. A failed call is logged and then answered with an HTTP success whose body is
 * the "Internal Error" page.
 */
module CustomEndpoint {
  import opened HtmlTemplate

  /** `HttpStatusCode.OK`. */
  const StatusOk := 200

  /**
   * An HTML page built by `HTMLMessage(title, message)`, kept as its two arguments, or the
   * JSON object `{challenge}`.
   */
  datatype Content = HtmlPage(title: string, message: string) | ChallengeJson(challenge: string)

  datatype Response = Response(status: int, content: Content)

  /** The text of a page. */
  function PageText(c: Content): string
    requires c.HtmlPage?
  {
    HtmlMessage(c.title, c.message)
  }

  /** `this.success(HTMLMessage(title, message))`. */
  function Success(title: string, message: string): Response
  {
    Response(StatusOk, HtmlPage(title, message))
  }

  const InternalError := "Internal Error"
  const SeeLogs := "See application logs for details."

  /**
   * `failRequest`: whatever was wrong with the call, the answer is an HTTP success carrying
   * the "Internal Error" page.
   */
  function FailRequest(): (r: Response)
    ensures r.status == StatusOk && r.content == HtmlPage(InternalError, SeeLogs)
  {
    Success(InternalError, SeeLogs)
  }

  /** The failure page shows "Internal Error" as its title and card title, and points to the logs. */
  lemma FailurePageText()
    ensures PageText(FailRequest().content)
         == Head + (InternalError + (AfterTitle + (InternalError + (AfterCardTitle + (SeeLogs + Tail)))))
  {
    PlainTitleVerbatim(InternalError, SeeLogs);
  }
}
