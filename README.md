# Slackline, modelled in Dafny

Slackline is a Rocket.Chat app that bridges a Rocket.Chat server to Slack. A user signs in to
Slack with the `/slackline login` slash command, which sends a "Sign in with Slack" link; Slack
redirects the browser to the app's OAuth callback endpoint, where the app exchanges the code
for an access token and stores it in the user's record. With a token, `/slackline import`
copies the history of the matching Slack conversation (a direct message or a private channel)
into the Rocket.Chat room the command was typed in, and `enable`, `disable` and `logout` rewrite
the user's record. A second endpoint answers Slack's Events API: it echoes the URL-verification
challenge and rejects every event. The app keeps the slash command disabled until both the
Slack client id and client secret are configured.

The model has one module per source file:

| module | file | form |
|---|---|---|
| `SlacklineCommand` | commands/SlacklineCommand.ts | functions for routing, preview, login link, room resolution and import decisions; methods for the handlers, over a `Storage` object and a `Client` object |
| `SlackApiClient` | helpers/SlackAPIClient.ts | a class `Client` with the response cache, the token and a log of posted requests; one specification function per Slack operation, of an HTTP oracle and the token |
| `SlacklineStorage` | helpers/SlacklineStorage.ts | a class `Storage` over the persistence, a map from association keys to the records filed under them |
| `SlackEvent` | endpoints/slackevent.ts | functions from the request body to the response |
| `Oauth` | endpoints/oauth.ts | the callback's decision as a function, and the handler as a method |
| `CustomEndpoint` | helpers/CustomEndpoint.ts | the responses and the common failure answer |
| `HtmlTemplate` | helpers/HTMLMessage.ts | the page template and its two global replacements |
| `SlacklineApp` | SlacklineApp.ts | the configuration gate and the OAuth callback address |
| `AppsEngine`, `Wrappers`, `Strings` | — | host types (users, rooms, the user directory); `undefined`, exceptions, `find`/`filter`/`Promise.all`; the JavaScript string operations used |

The host is given to the model as values: the HTTP layer is a function from a request (URL and
form fields) to what the post yields (no content, content that is not JSON, or a parsed body);
the user directory and room members are maps; the persistence is a map held by `Storage`; the
clock (`now`) and the random login id are parameters. An asynchronous call that can throw
returns `Attempt<T>` (`Done(value)` or `Threw`); `undefined` is `None`.

## Behaviour kept as written

Three places in the source do something other than what their surroundings suggest. The model
follows the code in each, and states the consequence:

- `saveStorage` does not merge. `getStorage` is not awaited (helpers/SlacklineStorage.ts:66), so
  the fields are copied onto a pending promise and the saved record holds only the passed fields
  and `updatedAt`. `SlacklineStorage.Saved` and `SlacklineStorage.SaveEffect` state this;
  `SlacklineCommand.SetState` shows its effect: `enable` and `disable` erase the stored token.
- The import's duplicate check never fires. The room's messages are an empty list
  (commands/SlacklineCommand.ts:199), and a date created for the message is compared by `===`
  (commands/SlacklineCommand.ts:217), which is object identity. `SlacklineCommand.SameDateObject`
  is false, and `SlacklineCommand.DuplicateCheckNeverFires` states the consequence.
- The API cache is keyed by the identity of the params object (helpers/SlackAPIClient.ts:171).
  `SlackApiClient.Params` is a class and the cache compares references. Every caller creates a
  new params object, so no call of the client is answered from the cache; `Client.CallFresh`
  states that such a call is always posted.

One place is deliberately not modelled as written:

- `storage.setUserForSlackId` (helpers/SlackAPIClient.ts:154) is not defined in
  helpers/SlacklineStorage.ts. The model gives `Storage` a recorded map `Storage.slackIds` for
  it, so that `authorize` completes and returns the token. As written, the call throws a
  `TypeError` inside the `try`; `authorize` logs it and returns `undefined` after saving the
  token, and the callback (endpoints/oauth.ts:20-24) then answers "Authorization failed" /
  "Invalid link" even though the exchange succeeded.

## Model

| member | source | states |
|---|---|---|
| SlacklineCommand.TextFor | commands/SlacklineCommand.ts:26-39 | every sub-command has a non-empty description |
| SlacklineCommand.TextForDistinct | commands/SlacklineCommand.ts:26-39 | two different sub-commands have different descriptions |
| SlacklineCommand.PreviewItemFor | commands/SlacklineCommand.ts:18-24 | the item's id parses back to its sub-command, and its text is "(<id>) " followed by the description |
| SlacklineCommand.Names | commands/SlacklineCommand.ts:303-309 | the five sub-command names, in declaration order |
| SlacklineCommand.ParseSubCommand | commands/SlacklineCommand.ts:67-68 | an argument is a sub-command exactly when it is one of the five names, and then it names it |
| SlacklineCommand.CommandListIsJoinedNames | commands/SlacklineCommand.ts:64 | the list in the help reply is the five names joined by commas |
| SlacklineCommand.RouteOf | commands/SlacklineCommand.ts:61-73 | a missing or empty first argument lists the commands; a sub-command name executes that command; any other argument is an unknown command (each an if-and-only-if) |
| SlacklineCommand.Executor | commands/SlacklineCommand.ts:61-73 | the help and "Unknown command" replies change nothing and post nothing; a sub-command name runs that command, with the outcome `ExecuteCommand` states |
| SlacklineCommand.ExecuteCommand | commands/SlacklineCommand.ts:105-124 | without a stored token every command except login replies "You must login first" and changes nothing; otherwise import replies and posts as `HandleImport` states and leaves storage alone; login replies and stores as `HandleLogin` states; enable and disable save the flag alone and reply with it; logout saves `enabled: false` alone and replies "Logged out" |
| SlacklineCommand.Matching | commands/SlacklineCommand.ts:78 | the sub-commands whose name starts with the prefix, every one of them, in declaration order |
| SlacklineCommand.AllSubCommandsRanked | commands/SlacklineCommand.ts:303-309 | the declaration order lists each sub-command once, at its rank |
| SlacklineCommand.PreviewItemsFor | commands/SlacklineCommand.ts:84 | one preview item per sub-command, in order |
| SlacklineCommand.PreviewItems | commands/SlacklineCommand.ts:77-97 | without a token only the login item; with one the matching sub-commands in declaration order, or all five when none matches |
| SlacklineCommand.Previewer | commands/SlacklineCommand.ts:75-98 | a sender without a stored token is offered only login |
| SlacklineCommand.PreviewWithoutArgument | commands/SlacklineCommand.ts:77-78 | with no argument typed the prefix is "undefined", which nothing matches, so all five are offered |
| SlacklineCommand.MatchingLog | commands/SlacklineCommand.ts:78 | exactly login and logout start with "log", in that order |
| SlacklineCommand.PreviewOfLog | commands/SlacklineCommand.ts:77-85 | the prefix "log" offers login then logout |
| SlacklineCommand.LoginUrl | commands/SlacklineCommand.ts:145-149 | the link is the Slack authorize address and a query, in which `state` reads back as the login id and `client_id` as the client id when neither holds `&` |
| SlacklineCommand.LoginQueryCarriesState | commands/SlacklineCommand.ts:145-149 | the authorize link carries the login id as `state` and the configured client id, read back unchanged (the CSRF binding of sections 4.1.1 and 10.12 of RFC 6749) |
| SlacklineCommand.HandleLogin | commands/SlacklineCommand.ts:132-159 | the reply is the button whose link has the client id, the login id and the OAuth callback address, and the login id is mapped to the sender; a missing OAuth endpoint throws before anything is stored |
| SlacklineCommand.SetState | commands/SlacklineCommand.ts:252-257 | the user's record becomes only the flag and the save time, so no token is left; the reply reports the flag read back |
| SlacklineCommand.HandleLogout | commands/SlacklineCommand.ts:126-130 | the record becomes `enabled: false` with no token, and the reply is "Logged out" |
| SlacklineCommand.HandleImport | commands/SlacklineCommand.ts:161-194 | any other room type gets "Only private channel and direct messages are supported."; a DM room gets "Couldn't find this direct message channel on slack" when it has not one or two members or no matching DM exists, throws when the conversations or users call fails, and otherwise imports the DM found, with the outcome `ImportChannel` states; a private group throws when the conversations call fails, gets its "Could not find channel" reply without a matching channel, and otherwise imports it; nothing is posted with a notice |
| SlacklineCommand.OtherParticipant | commands/SlacklineCommand.ts:286 | the sole member, or of two distinct members the one that is not the caller |
| SlacklineCommand.DirectMessageChannelOf | commands/SlacklineCommand.ts:278-300 | absent unless the room has one or two members; a result is a direct message among the caller's conversations |
| SlacklineCommand.DirectMessageChannelIsWithOther | commands/SlacklineCommand.ts:285-299 | a DM found has as other user the Slack account named like the other participant |
| SlacklineCommand.DirectMessageChannelIsFirstWithOther | commands/SlacklineCommand.ts:285-299 | the DM found is the first direct message whose other user is the participant's Slack id, and absent when there is none |
| SlacklineCommand.DirectMessageChannelNeedsOther | commands/SlacklineCommand.ts:287-291 | without a Slack user named like the other participant no DM is found |
| SlacklineCommand.GetSlackDirectMessageChannel | commands/SlacklineCommand.ts:278-300 | no Slack call (nothing sent, the cache unchanged) and no channel when the member count is wrong; otherwise the DM of the conversations and users Slack returns, or a throw when either call fails |
| SlacklineCommand.PrivateChannelOf | commands/SlacklineCommand.ts:266-276 | the first conversation that is a private channel or multi-party DM and whose normalised name is the room's slugified name; absent exactly when none is |
| SlacklineCommand.GetSlackPrivateChannel | commands/SlacklineCommand.ts:266-276 | the private channel found among the conversations Slack returns, or a throw when the call fails |
| SlacklineCommand.MessageDate | commands/SlacklineCommand.ts:216 | a valid date is a whole number of seconds in milliseconds, within the range of a JavaScript date |
| SlacklineCommand.MessageDateOfSlackTs | commands/SlacklineCommand.ts:216 | for a Slack `seconds.fraction` timestamp the date is 1000 × the seconds, the fraction dropped |
| SlacklineCommand.SameSecondSameDate | commands/SlacklineCommand.ts:216 | two messages of the same second get the same date |
| SlacklineCommand.Decide | commands/SlacklineCommand.ts:202-229 | an author unknown on Slack is skipped; a posted message has non-empty text, the room, the Slack id, the derived date and the alias "<username> (slack)", from a local user named like its Slack author |
| SlacklineCommand.KnownAuthorPosted | commands/SlacklineCommand.ts:203-228 | a message from a Slack user with a local namesake and with text is posted as that local user, aliased "<username> (slack)", to the room, with its text, date and Slack id; an invalid date crashes instead |
| SlacklineCommand.CrashNeedsInvalidDate | commands/SlacklineCommand.ts:216-228 | a message crashes only when its author is known and mapped, it has text, and its date is invalid |
| SlacklineCommand.UnmappedAuthorSkipped | commands/SlacklineCommand.ts:209-214 | an author with no local namesake is skipped |
| SlacklineCommand.EmptyTextNeverPosted | commands/SlacklineCommand.ts:223-227 | a message with missing or empty text is never posted |
| SlacklineCommand.DuplicateCheckNeverFires | commands/SlacklineCommand.ts:217-222 | no message is ever skipped as already imported |
| SlacklineCommand.ImportTally | commands/SlacklineCommand.ts:201-229 | every message is posted or ignored exactly once (posts + ignored = history length); the import throws exactly when one post throws; every post has text and targets the room |
| SlacklineCommand.ImportTallyDecisions | commands/SlacklineCommand.ts:201-229 | the posts are exactly those of the messages decided Posted, in history order, and the ignored count is the number decided Skipped |
| SlacklineCommand.ReportText | commands/SlacklineCommand.ts:231 | the report reads back, by `parseInt`, the processed count after "Processed " and the ignored count after " messages. Ignored " |
| SlacklineCommand.IgnoredAtMostProcessed | commands/SlacklineCommand.ts:231 | the ignored count never exceeds the processed count |
| SlacklineCommand.UnknownAuthorsAllIgnored | commands/SlacklineCommand.ts:203-208 | with no workspace users every message is ignored and nothing is posted |
| SlacklineCommand.ImportMessages | commands/SlacklineCommand.ts:201-229 | the loop with the ignore counter computes the tally above |
| SlacklineCommand.ImportChannel | commands/SlacklineCommand.ts:196-232 | fetches the whole history and the workspace users; reports "Processed <history length> messages. Ignored <ignored>." and posts the tally's posts; throws when a fetch or a post throws |
| SlackApiClient.WithToken | helpers/SlackAPIClient.ts:173 | the token joins the form fields, replacing any `token` field; an absent token is not sent |
| SlackApiClient.Accepted | helpers/SlackAPIClient.ts:179-196 | a body is returned exactly when the content parses and its `ok` is true; otherwise `undefined` |
| SlackApiClient.Client.CallApi | helpers/SlackAPIClient.ts:170-197 | a hit for the same endpoint and params object returns the cached body with no post; a miss posts once and appends to the cache only an `ok` body, which it returns |
| SlackApiClient.Client.CallFresh | helpers/SlackAPIClient.ts:170-178 | a call with a params object made for it is always posted, and returns what the post yields |
| SlackApiClient.Client.constructor | helpers/SlackAPIClient.ts:7-31 | an empty cache, nothing sent, and the given token |
| SlackApiClient.ToUserInfo | helpers/SlackAPIClient.ts:35-39 | `id`, `name` and `real_name` become user id, name and display name |
| SlackApiClient.ToUserInfos | helpers/SlackAPIClient.ts:88-94 | every workspace user is mapped, in order |
| SlackApiClient.ToChannel | helpers/SlackAPIClient.ts:63-74 | the conversation's fields are copied, `is_group` becoming `is_channel` and `user` becoming `otherUser`, with no user info yet |
| SlackApiClient.ToChannels | helpers/SlackAPIClient.ts:63-74 | every conversation is mapped, in order |
| SlackApiClient.ToMessage | helpers/SlackAPIClient.ts:106-114 | type, ts, user and text are copied and `client_msg_id` becomes `slackId` |
| SlackApiClient.ToMessages | helpers/SlackAPIClient.ts:106-114 | every message of a page is mapped, in order |
| SlackApiClient.UserInfoOf | helpers/SlackAPIClient.ts:33-40 | the mapped user of `users.info`, and a throw exactly when the call fails or has no user |
| SlackApiClient.Client.UserInfo | helpers/SlackAPIClient.ts:33-40 | returns `UserInfoOf` |
| SlackApiClient.MyInfoOf | helpers/SlackAPIClient.ts:42-46 | `auth.test` followed by `users.info` of the `user_id` it reports |
| SlackApiClient.Client.MyInfo | helpers/SlackAPIClient.ts:42-46 | returns `MyInfoOf` |
| SlackApiClient.ChannelMembersOf | helpers/SlackAPIClient.ts:48-57 | a failed call throws; a body without `members` gives []; otherwise a throw exactly when one member's `users.info` throws, else the user info of every member id, in order |
| SlackApiClient.Client.ChannelMembers | helpers/SlackAPIClient.ts:48-57 | the loop over member ids returns `ChannelMembersOf` |
| SlackApiClient.Client.UsersOf | helpers/SlackAPIClient.ts:51-53 | the loop of `userInfo` calls over the member ids returns their `Promise.all` |
| SlackApiClient.Annotate | helpers/SlackAPIClient.ts:76-83 | only `userInfo` changes: with `otherUser` set it is that user's `users.info`, throwing exactly when that does; for a multi-party or private channel the channel's members, throwing exactly when that does; otherwise the conversation unchanged |
| SlackApiClient.Client.AnnotateChannel | helpers/SlackAPIClient.ts:76-83 | returns `Annotate` |
| SlackApiClient.CurrentUserChannelsOf | helpers/SlackAPIClient.ts:59-84 | a throw when `conversations.list` fails or has no channels, or exactly when annotating one conversation throws; otherwise each conversation annotated, in order |
| SlackApiClient.CurrentUserChannelsShape | helpers/SlackAPIClient.ts:59-84 | the conversations keep their number and order, each with its Slack conversation's mapped fields |
| SlackApiClient.Client.CurrentUserChannels | helpers/SlackAPIClient.ts:59-84 | the loop that annotates each conversation in place returns `CurrentUserChannelsOf` |
| SlackApiClient.AllWorkspaceUsersOf | helpers/SlackAPIClient.ts:86-95 | the mapped `members` of `users.list`, a throw exactly when the call fails or has none |
| SlackApiClient.Client.AllWorkspaceUsers | helpers/SlackAPIClient.ts:86-95 | returns `AllWorkspaceUsersOf` |
| SlackApiClient.HistoryFields | helpers/SlackAPIClient.ts:98-102 | channel and a limit of 500, and `cursor` exactly when a cursor is given |
| SlackApiClient.HistoryIsPagesReversed | helpers/SlackAPIClient.ts:116-120 | the history is the fetched pages with the earliest-fetched last, its length the sum of the page lengths; it throws exactly when a page request fails |
| SlackApiClient.HistoryFrom | helpers/SlackAPIClient.ts:97-124 | a failed page throws; a page without messages gives []; a page without a next cursor gives its messages; the first page fetched ends the history |
| SlackApiClient.HistoryFuelIrrelevant | helpers/SlackAPIClient.ts:97-124 | the history does not depend on the bound used to show that pagination ends |
| SlackApiClient.HistoryOfWithFuel | helpers/SlackAPIClient.ts:97-124 | any bound within which pagination ends gives the history |
| SlackApiClient.Client.FullChannelHistory | helpers/SlackAPIClient.ts:97-124 | the recursive fetch returns the history from the cursor |
| SlackApiClient.ExchangeRequest | helpers/SlackAPIClient.ts:136-146 | the code exchange posts the client id, secret, code and callback address to `oauth.access`, without a token |
| SlackApiClient.GrantedToken | helpers/SlackAPIClient.ts:147-150 | a token is granted exactly when the content parses and carries a non-empty `access_token` |
| SlackApiClient.AuthorizationOf | helpers/SlackAPIClient.ts:126-168 | an unknown login id gives `undefined`; a known one throws exactly when the callback address is missing; otherwise the token granted by the exchange is returned when Slack grants one and `myInfo` succeeds, and `undefined` when none is granted or `myInfo` throws |
| SlackApiClient.AuthorizationStoresToken | helpers/SlackAPIClient.ts:147-157 | `authorize` writes only the record of the login id's user; a token it returns is the one that record now holds; when it returns none, no Slack id is recorded |
| SlackApiClient.Client.Authorize | helpers/SlackAPIClient.ts:126-168 | an unknown login id, or a known one without a callback address, sends nothing and changes nothing; otherwise the exchange is posted, and on a token the client keeps it and the user's record becomes that token; the user's Slack id is recorded only when `myInfo` answers; storage ends as `AuthorizedDb` and `AuthorizedSlackIds` say |
| SlacklineStorage.UserAssocOf | helpers/SlacklineStorage.ts:6-8 | a user's key is a user association, distinct from the login record's |
| SlacklineStorage.StoredRecord | helpers/SlacklineStorage.ts:59-63 | `{}` when nothing is filed under the key, else the first record |
| SlacklineStorage.Saved | helpers/SlacklineStorage.ts:65-76 | one record under the key, the passed fields with the save time; every other key unchanged |
| SlacklineStorage.LoginRecord | helpers/SlacklineStorage.ts:32-37 | the stored login record, or one with an empty map when it has none |
| SlacklineStorage.UserForLoginIdIn | helpers/SlacklineStorage.ts:44-51 | a user exactly when the login id maps to a non-empty user id that the directory knows |
| SlacklineStorage.SaveEffect | helpers/SlacklineStorage.ts:65-76 | after a save exactly one record is under the key, with the saved fields and time and nothing else; other keys read as before |
| SlacklineStorage.WithLoginId | helpers/SlacklineStorage.ts:53-57 | the login map gains or overwrites exactly this entry; every other record reads as before |
| SlacklineStorage.LoginIdRoundTrip | helpers/SlacklineStorage.ts:44-57 | a login id set for a user resolves to the directory's user with that id |
| SlacklineStorage.LoginIdIsolation | helpers/SlacklineStorage.ts:53-57 | setting one login id leaves every other login id resolving as before |
| SlacklineStorage.LoginIdLastWriteWins | helpers/SlacklineStorage.ts:53-57 | setting a login id twice keeps the second user |
| SlacklineStorage.LoginIdKeepsUserRecords | helpers/SlacklineStorage.ts:53-57 | login bookkeeping leaves every user's record as it was |
| SlacklineStorage.Storage.constructor | helpers/SlacklineStorage.ts:14-15 | the storage over a given persistence |
| SlacklineStorage.Storage.GetStorage | helpers/SlacklineStorage.ts:59-63 | `{}` when nothing is filed under the key, else the first record |
| SlacklineStorage.Storage.GetUserStorage | helpers/SlacklineStorage.ts:17-20 | `{}` for a user without a record |
| SlacklineStorage.Storage.GetToken | helpers/SlacklineStorage.ts:27-30 | the token of the user's record, absent without a record |
| SlacklineStorage.Storage.GetLoginStorage | helpers/SlacklineStorage.ts:32-37 | always has a map of login ids |
| SlacklineStorage.Storage.GetUserForLoginId | helpers/SlacklineStorage.ts:44-51 | nothing for a login id never set |
| SlacklineStorage.Storage.SaveStorage | helpers/SlacklineStorage.ts:65-76 | removes what is filed under the key, then creates the one new record |
| SlacklineStorage.Storage.SaveUserStorage | helpers/SlacklineStorage.ts:22-25 | the save under the user's key |
| SlacklineStorage.Storage.SaveLoginStorage | helpers/SlacklineStorage.ts:39-42 | the save under the login key |
| SlacklineStorage.Storage.SetUserForLoginId | helpers/SlacklineStorage.ts:53-57 | the map of login ids gains or overwrites exactly this entry, and is saved back |
| SlacklineStorage.Storage.SetUserForSlackId | helpers/SlackAPIClient.ts:154 | records the user's Slack id |
| SlackEvent.HandleRequest | endpoints/slackevent.ts:17-28 | a missing type fails with "No request type"; a challenge is echoed exactly for a URL verification with a challenge; an unknown type fails with "Unknown callback type"; an event callback fails |
| SlackEvent.HandleUrlVerification | endpoints/slackevent.ts:30-37 | a present, non-empty challenge is echoed unchanged; otherwise a failure |
| SlackEvent.HandleEvent | endpoints/slackevent.ts:39-51 | every event fails: "No event type" without one, "Not implemented" for a message, "Unknown event type" otherwise |
| SlackEvent.HandleMessageEvent | endpoints/slackevent.ts:53-65 | a message event fails with "Not implemented" |
| SlackEvent.Respond | endpoints/slackevent.ts:33-36 | status 200 with the JSON challenge for an echo, the failure page otherwise |
| SlackEvent.Post | endpoints/slackevent.ts:12-15 | every answer has status 200; JSON `{challenge}` with the same value exactly for a URL verification with a challenge, the failure page otherwise |
| SlackEvent.EventCallbacksFail | endpoints/slackevent.ts:39-65 | no event is relayed: every event callback gets the failure page, a message event with "Not implemented" |
| CustomEndpoint.FailRequest | helpers/CustomEndpoint.ts:5-11 | status 200 with the "Internal Error" page |
| CustomEndpoint.FailurePageText | helpers/CustomEndpoint.ts:10 | the failure page's text, with "Internal Error" in both title slots and the advice to see the logs as card text |
| Oauth.CallbackResponse | endpoints/oauth.ts:14-28 | without code and state the failure page; a falsy `authorize` gives "Authorization failed"/"Invalid link"; a truthy one the greeting of the user Slack reports; a throw exactly when `authorize` or that lookup throws |
| Oauth.UnknownStateRefused | endpoints/oauth.ts:17-23 | an unknown `state` is refused whatever the code and whatever Slack would answer |
| Oauth.WelcomeNamesUser | endpoints/oauth.ts:21 | the greeting page shows "Hello <display name>" in both title slots with the success text |
| Oauth.Get | endpoints/oauth.ts:14-28 | without code and state nothing is stored or called; otherwise a client without a token authorizes, the greeting uses the token it obtained, and storage ends as `authorize` leaves it (`AuthorizedDb`, `AuthorizedSlackIds`); an unknown `state` leaves storage untouched |
| HtmlTemplate.TitlePassOver | helpers/HTMLMessage.ts:89 | the first replacement puts the title in both `{{title}}` slots and changes nothing else |
| HtmlTemplate.MessagePassOver | helpers/HTMLMessage.ts:89 | the second replacement puts the message in the `{{message}}` slot and also replaces a `{{message}}` the title brought in |
| HtmlTemplate.LiteralsOfTemplate | helpers/HTMLMessage.ts:2-88 | no placeholder hides in the template text around the slots |
| HtmlTemplate.HtmlMessage | helpers/HTMLMessage.ts:1-90 | the page is the template with the title (its `{{message}}` replaced) in both title slots and the message verbatim in the card text, a `{{title}}` in the message surviving, nothing escaped |
| HtmlTemplate.BothPasses | helpers/HTMLMessage.ts:89 | the two global replacements over the template give that page |
| HtmlTemplate.PlainTitleVerbatim | helpers/HTMLMessage.ts:89 | a title without `{` appears in the page exactly as given |
| SlacklineApp.CheckConfigured | SlacklineApp.ts:62-75 | the command is enabled exactly when neither setting is ''; an empty secret disables it whatever the client id, else an empty client id does |
| SlacklineApp.OnEnable | SlacklineApp.ts:18-21 | enabling the app runs the check |
| SlacklineApp.OnSettingUpdated | SlacklineApp.ts:23-26 | every settings update runs the same check |
| SlacklineApp.DefaultsDisable | SlacklineApp.ts:31-48 | with the package values '' the command stays disabled |
| SlacklineApp.GetOauthEndpoint | SlacklineApp.ts:54-60 | ROOT_URL followed by the computed path of the first endpoint whose path is `oauth`; a throw when there is none |
| SlacklineApp.OauthEndpointOfApi | Api.ts:13-16 | with the app's two endpoints the address is ROOT_URL followed by the oauth endpoint's path |
| Wrappers.MapAll | helpers/SlackAPIClient.ts:48-57 | `Promise.all` of a map: a throw exactly when one callback throws; otherwise one result per element, in order |
| Strings.ParseInt | commands/SlacklineCommand.ts:216 | `parseInt(_, 10)` gives a number exactly when the text starts with a digit, or a sign then a digit |

## Left out

- Host I/O: the message builders, the notifier, the logger and the `messageToSelf` plumbing. A reply to the sender is a method result, and a post to the room is an element of the returned list.
- `Promise.all` runs its callbacks concurrently. The model runs them one after another, and a throw ends the run. The source may already have posted some messages when a post throws; the model reports only the throw.
- The HTTP transport, `url.resolve`, `JSON.parse` and form encoding. An HTTP post is a call of the oracle, and a JSON body is a record of the fields the client reads. A network rejection of `http.post` is not modelled.
- The JSON key `members` holds user ids in `conversations.members` and user objects in `users.list`. The model keeps the two apart as separate fields.
- Boolean flags of a conversation that Slack leaves out are false in the model, and a message's `ts` is always a string.
- The random `makeID(10)` in helpers/Util.ts, which is not part of this model. The login id is a parameter.
- `Date.toISOString` formatting of `importTs`. The post carries the date in milliseconds; a date out of range makes the post throw, as `toISOString` does.
- `parseInt` skips leading whitespace; the model does not. The 1000 × seconds product is exact, with no floating-point rounding.
- `$` patterns in the replacement text of `String.prototype.replace`. The title and the message are inserted literally.
- The style rules inside the template's two `<style>` elements, and the i18n strings, settings registration and endpoint wiring of Api.ts.
- `executePreviewItem` (commands/SlacklineCommand.ts:100-103) passes the preview item's id to `executeCommand`, and the reply "Command … not implemented" (commands/SlacklineCommand.ts:123) is reachable only that way.
- Crashes that dereference a failed call are modelled as `Threw`, with no further detail. Examples are `result.user.id` and `result.channels.map`.
- Keys inherited by JavaScript objects, such as `idMappings["constructor"]`, are not modelled. The login map is a plain map.
- A cursor chain that never ends. `SlackApiClient.HistoryOf` and `SlacklineCommand.Paginates` require that pagination ends.
