/**
 * helpers/SlackAPIClient.ts: the client of the Slack Web API. Every call goes through
 * `callApi`, which consults a per-client cache, posts the request and caches responses whose
 * `ok` is true. Above it sit the field mappings into the app's own records, the paginated
 * history, and the OAuth code exchange.
 *
 * The HTTP layer is an oracle: a function from the request (URL and form fields) to what the
 * post yields, either no content, content that is not JSON, or a parsed body. For each Slack
 * operation there is a specification function of that oracle and the token, and the client's
 * method is proved to return what it states.
 */
module SlackApiClient {
  import opened Wrappers
  import opened AppsEngine
  import opened SlacklineStorage
  import opened SlacklineApp

  const BaseUrl := "https://slack.com/api/"

  /** A user object as Slack sends it (`id`, `name`, `real_name`). */
  datatype RawUser = RawUser(id: string, name: string, realName: string)

  /**
   * A conversation as `conversations.list` sends it. Flags Slack leaves out are false;
   * `user` is set on direct messages only.
   */
  datatype RawChannel = RawChannel(
    id: string, isGroup: bool, isIm: bool, isMpim: bool,
    user: Option<string>, name: Option<string>, creator: Option<string>, nameNormalized: Option<string>)

  /** A message as `conversations.history` sends it. */
  datatype RawMessage = RawMessage(
    msgType: string, ts: string, user: Option<string>, text: Option<string>, clientMsgId: Option<string>)

  /**
   * A parsed response body: `ok` and every field the client reads. The JSON key `members`
   * holds user ids in `conversations.members` and user objects in `users.list`; the two are
   * kept apart as `memberIds` and `users`.
   */
  datatype Body = Body(
    ok: bool,
    user: Option<RawUser>,
    userId: Option<string>,
    memberIds: Option<seq<string>>,
    users: Option<seq<RawUser>>,
    channels: Option<seq<RawChannel>>,
    messages: Option<seq<RawMessage>>,
    nextCursor: Option<string>,
    accessToken: Option<string>)

  /** What `http.post` yields: empty content, content that `JSON.parse` rejects, or a body. */
  datatype HttpResult = NoContent | Unparsable | Parsed(body: Body)

  /** A form post: the URL and the form fields. */
  datatype ApiRequest = ApiRequest(url: string, params: map<string, string>)

  type Http = ApiRequest -> HttpResult

  /** `ISlackUserInfo`. */
  datatype UserInfo = UserInfo(userId: string, name: string, displayName: string)

  /** `ISlackChannel.userInfo`: unset, one user, or a member list. */
  datatype ChannelUsers = NoUserInfo | OneUser(user: UserInfo) | Members(users: seq<UserInfo>)

  /** `ISlackChannel`. */
  datatype SlackChannel = SlackChannel(
    channelId: string, isChannel: bool, isIm: bool, isMpim: bool,
    otherUser: Option<string>, name: Option<string>, creator: Option<string>, normalizedName: Option<string>,
    userInfo: ChannelUsers)

  /** `ISlackMessage`. */
  datatype SlackMessage = SlackMessage(msgType: string, ts: string, user: Option<string>, text: Option<string>, slackId: Option<string>)

  // ---------------------------------------------------------------------------------------
  // Requests and responses

  /**
   * `Object.assign(params, {token})`: the token joins the form fields; an absent token is
   * `undefined` and is not sent.
   */
  function WithToken(fields: map<string, string>, token: Option<string>): (r: map<string, string>)
    ensures token.Some? ==> "token" in r && r["token"] == token.value
    ensures token.None? ==> "token" !in r
    ensures forall k :: k in fields && k != "token" ==> k in r && r[k] == fields[k]
    ensures forall k :: k in r ==> k in fields || k == "token"
  {
    if token.Some? then fields["token" := token.value] else fields - {"token"}
  }

  function Request(endpoint: string, fields: map<string, string>, token: Option<string>): ApiRequest
  {
    ApiRequest(BaseUrl + endpoint, WithToken(fields, token))
  }

  /** What `callApi` makes of a post: the body when it parses and its `ok` is true, else `undefined`. */
  function Accepted(res: HttpResult): (r: Option<Body>)
    ensures r.Some? <==> res.Parsed? && res.body.ok
    ensures r.Some? ==> r.value == res.body
  {
    if res.Parsed? && res.body.ok then Some(res.body) else None
  }

  /** A call that misses the cache. */
  function Call(http: Http, token: Option<string>, endpoint: string, fields: map<string, string>): Option<Body>
  {
    Accepted(http(Request(endpoint, fields, token)))
  }

  // ---------------------------------------------------------------------------------------
  // Field mappings

  function ToUserInfo(u: RawUser): (r: UserInfo)
    ensures r.userId == u.id && r.name == u.name && r.displayName == u.realName
  {
    UserInfo(u.id, u.name, u.realName)
  }

  /** The mapping of `currentUserChannels`: `is_group` becomes `is_channel`, `user` becomes `otherUser`. */
  function ToChannel(c: RawChannel): (r: SlackChannel)
    ensures r.channelId == c.id && r.isChannel == c.isGroup && r.isIm == c.isIm && r.isMpim == c.isMpim
    ensures r.otherUser == c.user && r.name == c.name && r.creator == c.creator && r.normalizedName == c.nameNormalized
    ensures r.userInfo == NoUserInfo
  {
    SlackChannel(c.id, c.isGroup, c.isIm, c.isMpim, c.user, c.name, c.creator, c.nameNormalized, NoUserInfo)
  }

  function ToChannels(cs: seq<RawChannel>): (r: seq<SlackChannel>)
    ensures |r| == |cs| && forall i :: 0 <= i < |cs| ==> r[i] == ToChannel(cs[i])
  {
    seq(|cs|, i requires 0 <= i < |cs| => ToChannel(cs[i]))
  }

  /** The mapping of `fullChannelHistory`: `client_msg_id` becomes `slackId`. */
  function ToMessage(m: RawMessage): (r: SlackMessage)
    ensures r.msgType == m.msgType && r.ts == m.ts && r.user == m.user && r.text == m.text && r.slackId == m.clientMsgId
  {
    SlackMessage(m.msgType, m.ts, m.user, m.text, m.clientMsgId)
  }

  function ToMessages(ms: seq<RawMessage>): (r: seq<SlackMessage>)
    ensures |r| == |ms| && forall i :: 0 <= i < |ms| ==> r[i] == ToMessage(ms[i])
  {
    seq(|ms|, i requires 0 <= i < |ms| => ToMessage(ms[i]))
  }

  function ToUserInfos(us: seq<RawUser>): (r: seq<UserInfo>)
    ensures |r| == |us| && forall i :: 0 <= i < |us| ==> r[i] == ToUserInfo(us[i])
  {
    seq(|us|, i requires 0 <= i < |us| => ToUserInfo(us[i]))
  }

  // ---------------------------------------------------------------------------------------
  // The operations, as functions of the oracle and the token

  /** The fields of `users.info`; an `undefined` user id is not sent. */
  function UserFields(userId: Option<string>): map<string, string>
  {
    if userId.Some? then map["user" := userId.value] else map[]
  }

  /** `userInfo`: throws when the call fails or the body has no user. */
  function UserInfoOf(http: Http, token: Option<string>, userId: Option<string>): (r: Attempt<UserInfo>)
    ensures r.Done? <==> Call(http, token, "users.info", UserFields(userId)).Some?
                         && Call(http, token, "users.info", UserFields(userId)).value.user.Some?
    ensures r.Done? ==> r.value == ToUserInfo(Call(http, token, "users.info", UserFields(userId)).value.user.value)
  {
    match Call(http, token, "users.info", UserFields(userId))
    case None => Threw
    case Some(b) => if b.user.None? then Threw else Done(ToUserInfo(b.user.value))
  }

  /** `myInfo`: `auth.test`, then `userInfo` of the `user_id` it reports. */
  function MyInfoOf(http: Http, token: Option<string>): (r: Attempt<UserInfo>)
    ensures Call(http, token, "auth.test", map[]).None? ==> r == Threw
    ensures Call(http, token, "auth.test", map[]).Some? ==>
              r == UserInfoOf(http, token, Call(http, token, "auth.test", map[]).value.userId)
  {
    match Call(http, token, "auth.test", map[])
    case None => Threw
    case Some(b) => UserInfoOf(http, token, b.userId)
  }

  /** The callback of `channelMembers`. */
  function MemberLookup(http: Http, token: Option<string>): string -> Attempt<UserInfo>
  {
    (id: string) => UserInfoOf(http, token, Some(id))
  }

  /**
   * `channelMembers`: the user info of every member, in order; a body without `members`
   * gives the empty list.
   */
  function ChannelMembersOf(http: Http, token: Option<string>, channelId: string): (r: Attempt<seq<UserInfo>>)
    ensures Call(http, token, "conversations.members", map["channel" := channelId]).None? ==> r == Threw
    ensures var res := Call(http, token, "conversations.members", map["channel" := channelId]);
      res.Some? && res.value.memberIds.None? ==> r == Done([])
    ensures var res := Call(http, token, "conversations.members", map["channel" := channelId]);
      res.Some? && res.value.memberIds.Some? && r.Done? ==>
        |r.value| == |res.value.memberIds.value|
        && forall i :: 0 <= i < |r.value| ==> UserInfoOf(http, token, Some(res.value.memberIds.value[i])) == Done(r.value[i])
    ensures var res := Call(http, token, "conversations.members", map["channel" := channelId]);
      res.Some? && res.value.memberIds.Some? ==>
        var ids := res.value.memberIds.value;
        (r.Threw? <==> exists i :: 0 <= i < |ids| && UserInfoOf(http, token, Some(ids[i])).Threw?)
  {
    match Call(http, token, "conversations.members", map["channel" := channelId])
    case None => Threw
    case Some(b) =>
      if b.memberIds.Some? then MapAll(b.memberIds.value, MemberLookup(http, token))
      else Done([])
  }

  /**
   * The annotation step of `currentUserChannels`: a direct message gets the other user, a
   * multi-party or private channel gets its members, any other conversation is unchanged.
   */
  function Annotate(http: Http, token: Option<string>, c: SlackChannel): (r: Attempt<SlackChannel>)
    ensures r.Done? ==> r.value == c.(userInfo := r.value.userInfo)
    ensures r.Done? && Truthy(c.otherUser) ==> r.value.userInfo.OneUser?
    ensures r.Done? && !Truthy(c.otherUser) && (c.isMpim || c.isChannel) ==> r.value.userInfo.Members?
    ensures Truthy(c.otherUser) ==>
      (r.Threw? <==> UserInfoOf(http, token, c.otherUser).Threw?)
      && (r.Done? ==> r.value.userInfo == OneUser(UserInfoOf(http, token, c.otherUser).value))
    ensures !Truthy(c.otherUser) && (c.isMpim || c.isChannel) ==>
      (r.Threw? <==> ChannelMembersOf(http, token, c.channelId).Threw?)
      && (r.Done? ==> r.value.userInfo == Members(ChannelMembersOf(http, token, c.channelId).value))
    ensures !Truthy(c.otherUser) && !(c.isMpim || c.isChannel) ==> r == Done(c)
  {
    if Truthy(c.otherUser) then
      match UserInfoOf(http, token, c.otherUser)
      case Threw => Threw
      case Done(u) => Done(c.(userInfo := OneUser(u)))
    else if c.isMpim || c.isChannel then
      match ChannelMembersOf(http, token, c.channelId)
      case Threw => Threw
      case Done(us) => Done(c.(userInfo := Members(us)))
    else Done(c)
  }

  /** The callback of `currentUserChannels`. */
  function Annotator(http: Http, token: Option<string>): SlackChannel -> Attempt<SlackChannel>
  {
    (c: SlackChannel) => Annotate(http, token, c)
  }

  const ConversationTypes := "private_channel,mpim,im"

  /** `currentUserChannels`: the conversation list, mapped and annotated. */
  function CurrentUserChannelsOf(http: Http, token: Option<string>): (r: Attempt<seq<SlackChannel>>)
    ensures var res := Call(http, token, "conversations.list", map["types" := ConversationTypes]);
      res.None? || res.value.channels.None? ==> r == Threw
    ensures var res := Call(http, token, "conversations.list", map["types" := ConversationTypes]);
      res.Some? && res.value.channels.Some? ==>
        var raw := res.value.channels.value;
        (r.Threw? <==> exists i :: 0 <= i < |raw| && Annotate(http, token, ToChannel(raw[i])).Threw?)
        && (r.Done? ==> |r.value| == |raw| && forall i :: 0 <= i < |raw| ==> Annotate(http, token, ToChannel(raw[i])) == Done(r.value[i]))
  {
    match Call(http, token, "conversations.list", map["types" := ConversationTypes])
    case None => Threw
    case Some(b) =>
      if b.channels.None? then Threw
      else
        MapAll(ToChannels(b.channels.value), Annotator(http, token))
  }

  /**
   * The conversations keep their number and order; each carries the fields of its Slack
   * conversation, `is_channel` taken from `is_group`.
   */
  lemma CurrentUserChannelsShape(http: Http, token: Option<string>)
    requires CurrentUserChannelsOf(http, token).Done?
    ensures var raw := Call(http, token, "conversations.list", map["types" := ConversationTypes]).value.channels.value;
      var cs := CurrentUserChannelsOf(http, token).value;
      |cs| == |raw|
      && forall i :: 0 <= i < |raw| ==> cs[i] == ToChannel(raw[i]).(userInfo := cs[i].userInfo)
  {
    var raw := Call(http, token, "conversations.list", map["types" := ConversationTypes]).value.channels.value;
    var cs := CurrentUserChannelsOf(http, token).value;
    forall i | 0 <= i < |raw|
      ensures cs[i] == ToChannel(raw[i]).(userInfo := cs[i].userInfo)
    {
      assert Annotate(http, token, ToChannel(raw[i])) == Done(cs[i]);
    }
  }

  /** `allWorkspaceUsers`: `users.list`, mapped. */
  function AllWorkspaceUsersOf(http: Http, token: Option<string>): (r: Attempt<seq<UserInfo>>)
    ensures r.Done? <==> Call(http, token, "users.list", map[]).Some? && Call(http, token, "users.list", map[]).value.users.Some?
    ensures r.Done? ==> r.value == ToUserInfos(Call(http, token, "users.list", map[]).value.users.value)
  {
    match Call(http, token, "users.list", map[])
    case None => Threw
    case Some(b) => if b.users.None? then Threw else Done(ToUserInfos(b.users.value))
  }

  // ---------------------------------------------------------------------------------------
  // History pagination

  const PageLimit := "500"

  /** The fields of a history request: the channel, a limit of 500, and the cursor only when truthy. */
  function HistoryFields(channelId: string, cursor: Option<string>): (r: map<string, string>)
    ensures "channel" in r && r["channel"] == channelId && "limit" in r && r["limit"] == PageLimit
    ensures "cursor" in r <==> Truthy(cursor)
    ensures "cursor" in r ==> r["cursor"] == cursor.value
    ensures forall k :: k in r ==> k in {"channel", "limit", "cursor"}
  {
    var base := map["channel" := channelId, "limit" := PageLimit];
    if Truthy(cursor) then base["cursor" := cursor.value] else base
  }

  function Page(http: Http, token: Option<string>, channelId: string, cursor: Option<string>): Option<Body>
  {
    Call(http, token, "conversations.history", HistoryFields(channelId, cursor))
  }

  /** A page that carries messages and points to a further page. */
  predicate HasNext(page: Option<Body>)
  {
    page.Some? && page.value.messages.Some? && Truthy(page.value.nextCursor)
  }

  /** Pagination from `cursor` ends within `fuel` pages. */
  predicate HistoryFinishes(http: Http, token: Option<string>, channelId: string, cursor: Option<string>, fuel: nat)
    decreases fuel
  {
    fuel > 0 &&
    var page := Page(http, token, channelId, cursor);
    HasNext(page) ==> HistoryFinishes(http, token, channelId, page.value.nextCursor, fuel - 1)
  }

  /**
   * `fullChannelHistory(channel, cursor)`: the later pages, fetched recursively, followed by
   * this page; a page without a `messages` array yields [] and stops.
   */
  function HistoryFrom(http: Http, token: Option<string>, channelId: string, cursor: Option<string>, fuel: nat): (r: Attempt<seq<SlackMessage>>)
    requires HistoryFinishes(http, token, channelId, cursor, fuel)
    ensures Page(http, token, channelId, cursor).None? ==> r == Threw
    ensures var page := Page(http, token, channelId, cursor);
      page.Some? && page.value.messages.None? ==> r == Done([])
    ensures var page := Page(http, token, channelId, cursor);
      page.Some? && page.value.messages.Some? && !Truthy(page.value.nextCursor) ==> r == Done(ToMessages(page.value.messages.value))
    ensures var page := Page(http, token, channelId, cursor);
      r.Done? && page.Some? && page.value.messages.Some? ==>
        var here := ToMessages(page.value.messages.value);
        |here| <= |r.value| && r.value[|r.value| - |here|..] == here
    decreases fuel
  {
    var page := Page(http, token, channelId, cursor);
    if page.None? then Threw
    else if page.value.messages.None? then Done([])
    else
      var here := ToMessages(page.value.messages.value);
      if Truthy(page.value.nextCursor) then
        match HistoryFrom(http, token, channelId, page.value.nextCursor, fuel - 1)
        case Threw => Threw
        case Done(prev) => Done(prev + here)
      else Done(here)
  }

  /** The pages fetched from `cursor`, in fetch order, each mapped. */
  function Pages(http: Http, token: Option<string>, channelId: string, cursor: Option<string>, fuel: nat): Attempt<seq<seq<SlackMessage>>>
    requires HistoryFinishes(http, token, channelId, cursor, fuel)
    decreases fuel
  {
    var page := Page(http, token, channelId, cursor);
    if page.None? then Threw
    else if page.value.messages.None? then Done([])
    else
      var here := ToMessages(page.value.messages.value);
      if Truthy(page.value.nextCursor) then
        match Pages(http, token, channelId, page.value.nextCursor, fuel - 1)
        case Threw => Threw
        case Done(rest) => Done([here] + rest)
      else Done([here])
  }

  /** The pages, last-fetched first. */
  function ConcatReversed(pages: seq<seq<SlackMessage>>): seq<SlackMessage>
  {
    if pages == [] then [] else ConcatReversed(pages[1..]) + pages[0]
  }

  function TotalLength(pages: seq<seq<SlackMessage>>): nat
  {
    if pages == [] then 0 else |pages[0]| + TotalLength(pages[1..])
  }

  lemma {:induction false} ConcatReversedLength(pages: seq<seq<SlackMessage>>)
    ensures |ConcatReversed(pages)| == TotalLength(pages)
  {
    if pages != [] {
      ConcatReversedLength(pages[1..]);
    }
  }

  /**
   * History order: the history is the fetched pages concatenated with the earliest-fetched
   * page last, so its length is the sum of the page lengths; it throws exactly when a page
   * request fails.
   */
  lemma {:induction false} HistoryIsPagesReversed(http: Http, token: Option<string>, channelId: string, cursor: Option<string>, fuel: nat)
    requires HistoryFinishes(http, token, channelId, cursor, fuel)
    ensures HistoryFrom(http, token, channelId, cursor, fuel).Threw? <==> Pages(http, token, channelId, cursor, fuel).Threw?
    ensures Pages(http, token, channelId, cursor, fuel).Done? ==>
      HistoryFrom(http, token, channelId, cursor, fuel).value == ConcatReversed(Pages(http, token, channelId, cursor, fuel).value)
      && |HistoryFrom(http, token, channelId, cursor, fuel).value| == TotalLength(Pages(http, token, channelId, cursor, fuel).value)
    decreases fuel
  {
    var page := Page(http, token, channelId, cursor);
    if page.Some? && page.value.messages.Some? {
      var here := ToMessages(page.value.messages.value);
      if Truthy(page.value.nextCursor) {
        HistoryIsPagesReversed(http, token, channelId, page.value.nextCursor, fuel - 1);
        var ps := Pages(http, token, channelId, cursor, fuel);
        if ps.Done? {
          assert ps.value[1..] == Pages(http, token, channelId, page.value.nextCursor, fuel - 1).value;
        }
      } else {
        assert ConcatReversed([here]) == ConcatReversed([]) + here;
      }
    }
    if Pages(http, token, channelId, cursor, fuel).Done? {
      ConcatReversedLength(Pages(http, token, channelId, cursor, fuel).value);
    }
  }

  /** The result does not depend on the bound used to show that pagination ends. */
  lemma {:induction false} HistoryFuelIrrelevant(http: Http, token: Option<string>, channelId: string, cursor: Option<string>, f1: nat, f2: nat)
    requires HistoryFinishes(http, token, channelId, cursor, f1)
    requires HistoryFinishes(http, token, channelId, cursor, f2)
    ensures HistoryFrom(http, token, channelId, cursor, f1) == HistoryFrom(http, token, channelId, cursor, f2)
    decreases f1
  {
    var page := Page(http, token, channelId, cursor);
    if HasNext(page) {
      HistoryFuelIrrelevant(http, token, channelId, page.value.nextCursor, f1 - 1, f2 - 1);
    }
  }

  /** Pagination from `cursor` ends at all. */
  ghost predicate PaginationEnds(http: Http, token: Option<string>, channelId: string, cursor: Option<string>)
  {
    exists fuel: nat :: HistoryFinishes(http, token, channelId, cursor, fuel)
  }

  /** `fullChannelHistory(channel)`, for a channel whose pagination ends. */
  ghost function HistoryOf(http: Http, token: Option<string>, channelId: string): Attempt<seq<SlackMessage>>
    requires PaginationEnds(http, token, channelId, None)
  {
    var fuel: nat :| HistoryFinishes(http, token, channelId, None, fuel);
    HistoryFrom(http, token, channelId, None, fuel)
  }

  /** Any fuel that suffices gives the history. */
  lemma HistoryOfWithFuel(http: Http, token: Option<string>, channelId: string, fuel: nat)
    requires HistoryFinishes(http, token, channelId, None, fuel)
    ensures HistoryOf(http, token, channelId) == HistoryFrom(http, token, channelId, None, fuel)
  {
    forall f: nat | HistoryFinishes(http, token, channelId, None, f)
      ensures HistoryFrom(http, token, channelId, None, f) == HistoryFrom(http, token, channelId, None, fuel)
    {
      HistoryFuelIrrelevant(http, token, channelId, None, f, fuel);
    }
  }

  // ---------------------------------------------------------------------------------------
  // The code exchange

  /** The `oauth.access` post: the app's credentials, the code and the callback address; no token. */
  function ExchangeRequest(env: Environment, code: string, redirectUri: string): (r: ApiRequest)
    ensures r.url == BaseUrl + "oauth.access" && "token" !in r.params
    ensures r.params == map["client_id" := env.settings.clientId, "client_secret" := env.settings.clientSecret,
                            "code" := code, "redirect_uri" := redirectUri]
  {
    ApiRequest(BaseUrl + "oauth.access",
      map["client_id" := env.settings.clientId, "client_secret" := env.settings.clientSecret,
          "code" := code, "redirect_uri" := redirectUri])
  }

  /** The access token of an exchange's answer, when the body parses and carries a non-empty one. */
  function GrantedToken(res: HttpResult): (r: Option<string>)
    ensures r.Some? <==> res.Parsed? && Truthy(res.body.accessToken)
    ensures r.Some? ==> r.value != "" && Some(r.value) == res.body.accessToken
  {
    if res.Parsed? && Truthy(res.body.accessToken) then res.body.accessToken else None
  }

  /**
   * `authorize`: an unknown login id, an answer without an access token, or a failure once
   * the token is saved (the `myInfo` call is inside the `try`) give `undefined`; a missing
   * OAuth endpoint throws; otherwise the access token.
   */
  function AuthorizationOf(http: Http, env: Environment, code: string, state: string, db: Db, dir: Directory): (r: Attempt<Option<string>>)
    ensures UserForLoginIdIn(db, state, dir).None? ==> r == Done(None)
    ensures r.Done? && r.value.Some? ==>
      UserForLoginIdIn(db, state, dir).Some? && GetOauthEndpoint(env).Some?
      && GrantedToken(http(ExchangeRequest(env, code, GetOauthEndpoint(env).value))) == r.value
      && MyInfoOf(http, r.value).Done?
    ensures r.Threw? <==> UserForLoginIdIn(db, state, dir).Some? && GetOauthEndpoint(env).None?
    ensures UserForLoginIdIn(db, state, dir).Some? && GetOauthEndpoint(env).Some? ==>
      var granted := GrantedToken(http(ExchangeRequest(env, code, GetOauthEndpoint(env).value)));
      (granted.Some? && MyInfoOf(http, granted).Done? ==> r == Done(granted))
      && (granted.None? || MyInfoOf(http, granted).Threw? ==> r == Done(None))
  {
    match UserForLoginIdIn(db, state, dir)
    case None => Done(None)
    case Some(_) =>
      match GetOauthEndpoint(env)
      case None => Threw
      case Some(redirect) =>
        match GrantedToken(http(ExchangeRequest(env, code, redirect)))
        case None => Done(None)
        case Some(t) => if MyInfoOf(http, Some(t)).Threw? then Done(None) else Done(Some(t))
  }

  /**
   * The persistence after `authorize`: the user's record becomes the granted token (saved
   * before `myInfo` is asked, so it stays when that fails); in every other case nothing is
   * written.
   */
  function AuthorizedDb(http: Http, env: Environment, code: string, state: string, db: Db, dir: Directory, now: int): Db
  {
    match UserForLoginIdIn(db, state, dir)
    case None => db
    case Some(user) =>
      match GetOauthEndpoint(env)
      case None => db
      case Some(redirect) =>
        match GrantedToken(http(ExchangeRequest(env, code, redirect)))
        case None => db
        case Some(t) => Saved(db, UserAssocOf(user), EmptyRecord.(token := Some(t)), now)
  }

  /** The Slack ids after `authorize`: the user's is recorded only when `myInfo` answers. */
  function AuthorizedSlackIds(http: Http, env: Environment, code: string, state: string, db: Db, dir: Directory,
                              slackIds: map<string, string>): map<string, string>
  {
    match UserForLoginIdIn(db, state, dir)
    case None => slackIds
    case Some(user) =>
      match GetOauthEndpoint(env)
      case None => slackIds
      case Some(redirect) =>
        match GrantedToken(http(ExchangeRequest(env, code, redirect)))
        case None => slackIds
        case Some(t) =>
          match MyInfoOf(http, Some(t))
          case Threw => slackIds
          case Done(me) => slackIds[user.id := me.userId]
  }

  /**
   * `authorize` writes only the record of the login id's user, and a token it returns is the
   * one that record now holds; when it returns none, no Slack id is recorded.
   */
  lemma AuthorizationStoresToken(http: Http, env: Environment, code: string, state: string, db: Db, dir: Directory,
                                 slackIds: map<string, string>, now: int)
    ensures var after := AuthorizedDb(http, env, code, state, db, dir, now);
      after != db ==>
        UserForLoginIdIn(db, state, dir).Some?
        && forall a :: a != UserAssocOf(UserForLoginIdIn(db, state, dir).value) ==> StoredRecord(after, a) == StoredRecord(db, a)
    ensures var r := AuthorizationOf(http, env, code, state, db, dir);
      r.Done? && r.value.Some? ==>
        StoredRecord(AuthorizedDb(http, env, code, state, db, dir, now), UserAssocOf(UserForLoginIdIn(db, state, dir).value)).token == r.value
    ensures var r := AuthorizationOf(http, env, code, state, db, dir);
      !(r.Done? && r.value.Some?) ==> AuthorizedSlackIds(http, env, code, state, db, dir, slackIds) == slackIds
  {
    match UserForLoginIdIn(db, state, dir)
    case None =>
    case Some(user) =>
      match GetOauthEndpoint(env)
      case None =>
      case Some(redirect) =>
        match GrantedToken(http(ExchangeRequest(env, code, redirect)))
        case None =>
        case Some(t) =>
          SaveEffect(db, UserAssocOf(user), EmptyRecord.(token := Some(t)), now);
  }

  // ---------------------------------------------------------------------------------------
  // The client

  /** A `params` object. The cache compares these by identity, as `===` does. */
  class Params {
    var fields: map<string, string>

    constructor(fields0: map<string, string>)
      ensures fields == fields0
    {
      fields := fields0;
    }
  }

  /** `IApiCache`: the endpoint, the very params object of the call, and the body. */
  datatype CacheEntry = CacheEntry(endpoint: string, params: Params, response: Body)

  /** The first cache entry for this endpoint and this params object. */
  function Hit(cache: seq<CacheEntry>, endpoint: string, params: Params): Option<CacheEntry>
  {
    First(cache, (e: CacheEntry) => e.endpoint == endpoint && e.params == params)
  }

  class Client {
    /** The environment read at construction: the two settings, and what `getOauthEndpoint` reads. */
    const env: Environment
    const http: Http
    var token: Option<string>
    var apiCache: seq<CacheEntry>
    /** Every request posted, in order. */
    ghost var sent: seq<ApiRequest>

    /** Only successful responses are cached. */
    ghost predicate Valid()
      reads this
    {
      forall i :: 0 <= i < |apiCache| ==> apiCache[i].response.ok
    }

    /** `asyncConstruct(app, token)`: an empty cache, nothing sent, the given token. */
    constructor(env: Environment, http: Http, token: Option<string>)
      ensures Valid()
      ensures this.env == env && this.http == http && this.token == token
      ensures apiCache == [] && sent == []
    {
      this.env := env;
      this.http := http;
      this.token := token;
      apiCache := [];
      sent := [];
    }

    /**
     * `callApi`: a cache hit for the same endpoint and the same params object answers from
     * the cache; otherwise the token joins the params, the request is posted, and a
     * successful body is appended to the cache and returned.
     */
    method CallApi(endpoint: string, params: Params) returns (r: Option<Body>)
      requires Valid()
      modifies this`apiCache, this`sent, params
      ensures Valid()
      ensures Hit(old(apiCache), endpoint, params).Some? ==>
        r == Some(Hit(old(apiCache), endpoint, params).value.response)
        && apiCache == old(apiCache) && sent == old(sent) && params.fields == old(params.fields)
      ensures Hit(old(apiCache), endpoint, params).None? ==>
        params.fields == WithToken(old(params.fields), token)
        && sent == old(sent) + [ApiRequest(BaseUrl + endpoint, params.fields)]
        && r == Accepted(http(ApiRequest(BaseUrl + endpoint, params.fields)))
        && apiCache == old(apiCache) + (if r.Some? then [CacheEntry(endpoint, params, r.value)] else [])
    {
      var cached := Hit(apiCache, endpoint, params);
      if cached.Some? {
        return Some(cached.value.response);
      }
      params.fields := WithToken(params.fields, token);
      var request := ApiRequest(BaseUrl + endpoint, params.fields);
      sent := sent + [request];
      var result := http(request);
      if result.Parsed? {
        if result.body.ok {
          apiCache := apiCache + [CacheEntry(endpoint, params, result.body)];
          return Some(result.body);
        }
      }
      return None;
    }

    /** `callApi` with a params object made for the call: never in the cache, so always posted. */
    method CallFresh(endpoint: string, fields: map<string, string>) returns (r: Option<Body>)
      requires Valid()
      modifies this`apiCache, this`sent
      ensures Valid()
      ensures r == Call(http, token, endpoint, fields)
      ensures sent == old(sent) + [Request(endpoint, fields, token)]
      ensures old(apiCache) <= apiCache
    {
      var params := new Params(fields);
      r := CallApi(endpoint, params);
    }

    method UserInfo(userId: Option<string>) returns (r: Attempt<UserInfo>)
      requires Valid()
      modifies this`apiCache, this`sent
      ensures Valid() && old(apiCache) <= apiCache && old(sent) <= sent
      ensures r == UserInfoOf(http, token, userId)
    {
      var result := CallFresh("users.info", UserFields(userId));
      if result.None? || result.value.user.None? {
        return Threw;
      }
      return Done(ToUserInfo(result.value.user.value));
    }

    method MyInfo() returns (r: Attempt<UserInfo>)
      requires Valid()
      modifies this`apiCache, this`sent
      ensures Valid() && old(apiCache) <= apiCache && old(sent) <= sent
      ensures r == MyInfoOf(http, token)
    {
      var result := CallFresh("auth.test", map[]);
      if result.None? {
        return Threw;
      }
      r := UserInfo(result.value.userId);
    }

    /** `channelMembers`; the member lookups run one after another. */
    method ChannelMembers(channelId: string) returns (r: Attempt<seq<UserInfo>>)
      requires Valid()
      modifies this`apiCache, this`sent
      ensures Valid() && old(apiCache) <= apiCache && old(sent) <= sent
      ensures r == ChannelMembersOf(http, token, channelId)
    {
      var result := CallFresh("conversations.members", map["channel" := channelId]);
      if result.None? {
        return Threw;
      }
      if result.value.memberIds.None? {
        return Done([]);
      }
      r := UsersOf(result.value.memberIds.value);
    }

    /** `Promise.all` of `userInfo` over member ids, one lookup after another. */
    method UsersOf(ids: seq<string>) returns (r: Attempt<seq<UserInfo>>)
      requires Valid()
      modifies this`apiCache, this`sent
      ensures Valid() && old(apiCache) <= apiCache && old(sent) <= sent
      ensures r == MapAll(ids, MemberLookup(http, token))
    {
      ghost var f := MemberLookup(http, token);
      var users: seq<UserInfo> := [];
      var i := 0;
      while i < |ids|
        invariant 0 <= i <= |ids| && |users| == i
        invariant forall j :: 0 <= j < i ==> f(ids[j]) == Done(users[j])
        invariant Valid() && old(apiCache) <= apiCache && old(sent) <= sent
      {
        var u := UserInfo(Some(ids[i]));
        if u.Threw? {
          assert f(ids[i]).Threw?;
          return Threw;
        }
        assert f(ids[i]) == Done(u.value);
        users := users + [u.value];
        i := i + 1;
      }
      MapAllOfValues(ids, f, users);
      return Done(users);
    }

    /** The body of the annotation callback of `currentUserChannels`. */
    method AnnotateChannel(channel: SlackChannel) returns (r: Attempt<SlackChannel>)
      requires Valid()
      modifies this`apiCache, this`sent
      ensures Valid() && old(apiCache) <= apiCache && old(sent) <= sent
      ensures r == Annotate(http, token, channel)
    {
      if Truthy(channel.otherUser) {
        var u := UserInfo(channel.otherUser);
        if u.Threw? {
          return Threw;
        }
        return Done(channel.(userInfo := OneUser(u.value)));
      } else if channel.isMpim || channel.isChannel {
        var us := ChannelMembers(channel.channelId);
        if us.Threw? {
          return Threw;
        }
        return Done(channel.(userInfo := Members(us.value)));
      }
      return Done(channel);
    }

    /** `currentUserChannels`; the annotations run one after another, each set in place. */
    method CurrentUserChannels() returns (r: Attempt<seq<SlackChannel>>)
      requires Valid()
      modifies this`apiCache, this`sent
      ensures Valid() && old(apiCache) <= apiCache && old(sent) <= sent
      ensures r == CurrentUserChannelsOf(http, token)
    {
      var result := CallFresh("conversations.list", map["types" := ConversationTypes]);
      if result.None? || result.value.channels.None? {
        return Threw;
      }
      var raw := result.value.channels.value;
      var channels := ToChannels(raw);
      ghost var mapped := channels;
      var tok := token;
      ghost var f := Annotator(http, tok);
      var i := 0;
      while i < |channels|
        invariant 0 <= i <= |channels| == |mapped|
        invariant forall j :: 0 <= j < i ==> f(mapped[j]) == Done(channels[j])
        invariant forall j :: i <= j < |channels| ==> channels[j] == mapped[j]
        invariant Valid() && old(apiCache) <= apiCache && old(sent) <= sent
      {
        var annotated := AnnotateChannel(channels[i]);
        if annotated.Threw? {
          assert f(mapped[i]).Threw?;
          return Threw;
        }
        channels := channels[i := annotated.value];
        i := i + 1;
      }
      assert MapAll(mapped, f).Done?;
      assert MapAll(mapped, f).value == channels;
      return Done(channels);
    }

    method AllWorkspaceUsers() returns (r: Attempt<seq<UserInfo>>)
      requires Valid()
      modifies this`apiCache, this`sent
      ensures Valid() && old(apiCache) <= apiCache && old(sent) <= sent
      ensures r == AllWorkspaceUsersOf(http, token)
    {
      var result := CallFresh("users.list", map[]);
      if result.None? || result.value.users.None? {
        return Threw;
      }
      return Done(ToUserInfos(result.value.users.value));
    }

    /** `fullChannelHistory(channelId, nextCursor)`. */
    method FullChannelHistory(channelId: string, nextCursor: Option<string>, ghost fuel: nat) returns (r: Attempt<seq<SlackMessage>>)
      requires Valid()
      requires HistoryFinishes(http, token, channelId, nextCursor, fuel)
      modifies this`apiCache, this`sent
      ensures Valid() && old(apiCache) <= apiCache && old(sent) <= sent
      ensures r == HistoryFrom(http, token, channelId, nextCursor, fuel)
      decreases fuel
    {
      var params := new Params(map["channel" := channelId, "limit" := PageLimit]);
      if Truthy(nextCursor) {
        params.fields := params.fields["cursor" := nextCursor.value];
      }
      assert params.fields == HistoryFields(channelId, nextCursor);
      var result := CallApi("conversations.history", params);
      if result.None? {
        return Threw;
      }
      if result.value.messages.None? {
        return Done([]);
      }
      var messages := ToMessages(result.value.messages.value);
      if Truthy(result.value.nextCursor) {
        var prevMessages := FullChannelHistory(channelId, result.value.nextCursor, fuel - 1);
        if prevMessages.Threw? {
          return Threw;
        }
        messages := prevMessages.value + messages;
      }
      return Done(messages);
    }

    /**
     * `authorize(code, state)`: look up the user of the login id; exchange the code; on an
     * access token, keep it as the client's token, save it as the user's record, and record
     * the user's Slack id.
     */
    method Authorize(code: string, state: string, storage: Storage, dir: Directory, now: int) returns (r: Attempt<Option<string>>)
      requires Valid()
      modifies this`token, this`apiCache, this`sent, storage`db, storage`slackIds
      ensures Valid()
      ensures r == AuthorizationOf(http, env, code, state, old(storage.db), dir)
      ensures storage.db == AuthorizedDb(http, env, code, state, old(storage.db), dir, now)
      ensures storage.slackIds == AuthorizedSlackIds(http, env, code, state, old(storage.db), dir, old(storage.slackIds))
      ensures UserForLoginIdIn(old(storage.db), state, dir).Some? && GetOauthEndpoint(env).None? ==>
        token == old(token) && sent == old(sent) && storage.db == old(storage.db) && storage.slackIds == old(storage.slackIds)
      ensures var user := UserForLoginIdIn(old(storage.db), state, dir);
        user.None? ==>
          token == old(token) && sent == old(sent) && storage.db == old(storage.db) && storage.slackIds == old(storage.slackIds)
      ensures var user := UserForLoginIdIn(old(storage.db), state, dir);
        var redirect := GetOauthEndpoint(env);
        user.Some? && redirect.Some? ==>
          var request := ExchangeRequest(env, code, redirect.value);
          |sent| > |old(sent)| && sent[|old(sent)|] == request
          && match GrantedToken(http(request))
             case None =>
               token == old(token) && storage.db == old(storage.db) && storage.slackIds == old(storage.slackIds)
             case Some(t) =>
               token == Some(t)
               && storage.db == Saved(old(storage.db), UserAssocOf(user.value), EmptyRecord.(token := Some(t)), now)
               && (MyInfoOf(http, Some(t)).Done? ==>
                     storage.slackIds == old(storage.slackIds)[user.value.id := MyInfoOf(http, Some(t)).value.userId])
               && (MyInfoOf(http, Some(t)).Threw? ==> storage.slackIds == old(storage.slackIds))
    {
      var user := storage.GetUserForLoginId(state, dir);
      if user.None? {
        return Done(None);
      }
      var redirect := GetOauthEndpoint(env);
      if redirect.None? {
        return Threw;
      }
      var request := ExchangeRequest(env, code, redirect.value);
      sent := sent + [request];
      var result := http(request);
      if result.Parsed? && Truthy(result.body.accessToken) {
        var accessToken := result.body.accessToken.value;
        assert GrantedToken(result) == Some(accessToken);
        token := Some(accessToken);
        storage.SaveUserStorage(user.value, EmptyRecord.(token := Some(accessToken)), now);
        var myInfo := MyInfo();
        assert myInfo == MyInfoOf(http, Some(accessToken));
        if myInfo.Threw? {
          return Done(None);
        }
        storage.SetUserForSlackId(user.value, myInfo.value.userId);
        return Done(Some(accessToken));
      }
      assert GrantedToken(result) == None;
      return Done(None);
    }
  }
}
