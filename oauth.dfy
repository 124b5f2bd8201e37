/**
 * endpoints/oauth.ts: the OAuth callback Slack redirects the browser to. With both `code` and
 * `state` present it builds a client without a token, lets it exchange the code, and answers
 * with a greeting or a refusal page; without them it answers with the failure page.
 */
module Oauth {
  import opened Wrappers
  import opened AppsEngine
  import opened HtmlTemplate
  import opened CustomEndpoint
  import opened SlacklineStorage
  import opened SlacklineApp
  import opened SlackApiClient

  /** `request.query`: the two parameters read, each possibly absent. */
  datatype Query = Query(code: Option<string>, state: Option<string>)

  predicate HasCodeAndState(q: Query)
  {
    Truthy(q.code) && Truthy(q.state)
  }

  const LoginSuccessful := "Login successful. You can close this window now."

  function Greeting(me: UserInfo): string
  {
    "Hello " + me.displayName
  }

  function WelcomePage(me: UserInfo): Response
  {
    Success(Greeting(me), LoginSuccessful)
  }

  function RefusalPage(): Response
  {
    Success("Authorization failed", "Invalid link")
  }

  /**
   * The callback's decision, from the query, the outcome of `authorize` and the outcome of
   * the `myInfo` call made after a truthy one: a page (`Done`), or an exception that escapes
   * the handler (`Threw`).
   */
  function CallbackResponse(q: Query, grant: Attempt<Option<string>>, me: Attempt<UserInfo>): (r: Attempt<Response>)
    ensures r.Done? ==> r.value.status == StatusOk
    ensures !HasCodeAndState(q) ==> r == Done(FailRequest())
    ensures HasCodeAndState(q) ==>
      (r.Threw? <==> grant.Threw? || (grant.Done? && Truthy(grant.value) && me.Threw?))
    ensures HasCodeAndState(q) && grant.Done? && !Truthy(grant.value) ==> r == Done(RefusalPage())
    ensures HasCodeAndState(q) && grant.Done? && Truthy(grant.value) && me.Done? ==> r == Done(WelcomePage(me.value))
  {
    if !HasCodeAndState(q) then Done(FailRequest())
    else
      match grant
      case Threw => Threw
      case Done(token) =>
        if !Truthy(token) then Done(RefusalPage())
        else
          match me
          case Threw => Threw
          case Done(info) => Done(WelcomePage(info))
  }

  /** The greeting page names the user as Slack reports them, in both title slots. */
  lemma WelcomeNamesUser(me: UserInfo)
    requires '{' !in me.displayName
    ensures PageText(WelcomePage(me).content)
         == Head + (Greeting(me) + (AfterTitle + (Greeting(me) + (AfterCardTitle + (LoginSuccessful + Tail)))))
  {
    assert '{' !in "Hello ";
    PlainTitleVerbatim(Greeting(me), LoginSuccessful);
  }

  /**
   * An unknown `state` is refused with the "Authorization failed" page, whatever the code
   * and whatever Slack would answer.
   */
  lemma UnknownStateRefused(q: Query, http: Http, env: Environment, db: Db, dir: Directory, me: Attempt<UserInfo>)
    requires HasCodeAndState(q)
    requires UserForLoginIdIn(db, q.state.value, dir).None?
    ensures CallbackResponse(q, AuthorizationOf(http, env, q.code.value, q.state.value, db, dir), me) == Done(RefusalPage())
  {
  }

  /**
   * `get`: the client is built with no token; only `authorize` gives it one, and the greeting
   * asks Slack who that token belongs to.
   */
  method Get(q: Query, env: Environment, http: Http, storage: Storage, dir: Directory, now: int) returns (r: Attempt<Response>)
    modifies storage`db, storage`slackIds
    ensures !HasCodeAndState(q) ==>
      r == Done(FailRequest()) && storage.db == old(storage.db) && storage.slackIds == old(storage.slackIds)
    ensures HasCodeAndState(q) ==>
      var grant := AuthorizationOf(http, env, q.code.value, q.state.value, old(storage.db), dir);
      r == CallbackResponse(q, grant, if grant.Done? && grant.value.Some? then MyInfoOf(http, grant.value) else Threw)
    ensures HasCodeAndState(q) ==>
      storage.db == AuthorizedDb(http, env, q.code.value, q.state.value, old(storage.db), dir, now)
      && storage.slackIds == AuthorizedSlackIds(http, env, q.code.value, q.state.value, old(storage.db), dir, old(storage.slackIds))
    ensures HasCodeAndState(q) && UserForLoginIdIn(old(storage.db), q.state.value, dir).None? ==>
      r == Done(RefusalPage()) && storage.db == old(storage.db) && storage.slackIds == old(storage.slackIds)
  {
    if !HasCodeAndState(q) {
      return Done(FailRequest());
    }
    var api := new Client(env, http, None);
    var grant := api.Authorize(q.code.value, q.state.value, storage, dir, now);
    if grant.Threw? {
      return Threw;
    }
    if !Truthy(grant.value) {
      return Done(RefusalPage());
    }
    var me := api.MyInfo();
    if me.Threw? {
      return Threw;
    }
    return Done(WelcomePage(me.value));
  }
}
