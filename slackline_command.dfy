/**
 * commands/SlacklineCommand.ts: the `/slackline` slash command. The first argument names a
 * sub-command; every sub-command but `login` needs a stored Slack token. `login` sends a
 * "Sign in with Slack" link whose `state` is a fresh login id, `enable`/`disable`/`logout`
 * rewrite the user's record, and `import` copies a Slack conversation's history into the
 * room the command was typed in.
 *
 * Replies to the sender (`messageToSelf` and the login notification) are results of the
 * methods; the messages the import posts to the room are returned as a list.
 */
module SlacklineCommand {
  import opened Wrappers
  import opened Strings
  import opened AppsEngine
  import opened SlacklineStorage
  import opened SlacklineApp
  import opened SlackApiClient

  // ---------------------------------------------------------------------------------------
  // Sub-commands

  /** `SlacklineSubCommand`, in declaration order. */
  datatype SubCommand = Import | Login | Enable | Disable | Logout

  const AllSubCommands := [Import, Login, Enable, Disable, Logout]

  function Name(c: SubCommand): string
  {
    match c
    case Import => "import"
    case Login => "login"
    case Enable => "enable"
    case Disable => "disable"
    case Logout => "logout"
  }

  /** The position of a sub-command in the declaration. */
  function Rank(c: SubCommand): int
  {
    match c
    case Import => 0
    case Login => 1
    case Enable => 2
    case Disable => 3
    case Logout => 4
  }

  /** `Object.values(SlacklineSubCommand)`. */
  function Names(): (r: seq<string>)
    ensures |r| == |AllSubCommands| && forall i :: 0 <= i < |r| ==> r[i] == Name(AllSubCommands[i])
  {
    ["import", "login", "enable", "disable", "logout"]
  }

  /** `textForCommand`: the description shown after each sub-command in the preview. */
  function TextFor(c: SubCommand): (r: string)
    ensures r != ""
  {
    match c
    case Import => "Import old Slack " + "messages for this channel"
    case Login => "Login to Slack to use Slackline"
    case Enable => "Enable to receive " + "new private messages from Slack"
    case Disable => "Disable receiving " + "new private messages from Slack"
    case Logout => "Logout fro Slack"
  }

  /** A preview entry: the sub-command as id, `(name) text` as value. */
  datatype PreviewItem = PreviewItem(id: string, value: string)

  /** Every sub-command has its own description. */
  lemma TextForDistinct(a: SubCommand, b: SubCommand)
    requires a != b
    ensures TextFor(a) != TextFor(b)
  {
    // the descriptions already differ in their first or fourth letter
    TextForHead(a);
    TextForHead(b);
  }

  /** The first and fourth letters of each description. */
  function Letters(c: SubCommand): (char, char)
  {
    match c
    case Import => ('I', 'o')
    case Login => ('L', 'i')
    case Enable => ('E', 'b')
    case Disable => ('D', 'a')
    case Logout => ('L', 'o')
  }

  lemma TextForHead(c: SubCommand)
    ensures |TextFor(c)| > 3 && (TextFor(c)[0], TextFor(c)[3]) == Letters(c)
  {
    match c
    case Import => assert TextFor(c)[0] == 'I' && TextFor(c)[3] == 'o';
    case Login => assert TextFor(c)[0] == 'L' && TextFor(c)[3] == 'i';
    case Enable => assert TextFor(c)[0] == 'E' && TextFor(c)[3] == 'b';
    case Disable => assert TextFor(c)[0] == 'D' && TextFor(c)[3] == 'a';
    case Logout => assert TextFor(c)[0] == 'L' && TextFor(c)[3] == 'o';
  }

  /**
   * `getPreviewItem`: the id is the sub-command's name, which parses back to the sub-command
   * when the item is executed; the value shows the name in parentheses before its description.
   */
  function PreviewItemFor(c: SubCommand): (r: PreviewItem)
    ensures ParseSubCommand(r.id) == Some(c)
    ensures r.value == "(" + r.id + ") " + TextFor(c)
  {
    PreviewItem(Name(c), "(" + Name(c) + ") " + TextFor(c))
  }

  function PreviewItemsFor(cs: seq<SubCommand>): (r: seq<PreviewItem>)
    ensures |r| == |cs| && forall i :: 0 <= i < |cs| ==> r[i] == PreviewItemFor(cs[i])
  {
    seq(|cs|, i requires 0 <= i < |cs| => PreviewItemFor(cs[i]))
  }

  /** `Object.values(...).includes(arg)`: the sub-command an argument names, if any. */
  function ParseSubCommand(arg: string): (r: Option<SubCommand>)
    ensures r.Some? ==> Name(r.value) == arg
    ensures r.None? <==> arg !in Names()
  {
    if arg == "import" then Some(Import)
    else if arg == "login" then Some(Login)
    else if arg == "enable" then Some(Enable)
    else if arg == "disable" then Some(Disable)
    else if arg == "logout" then Some(Logout)
    else None
  }

  /**
   * The sub-command names joined by commas, as a template literal prints the array:
   * "import,login,enable,disable,logout", written name by name.
   */
  const CommandList := "import" + "," + ("login" + "," + ("enable" + "," + ("disable" + "," + "logout")))

  lemma CommandListIsJoinedNames()
    ensures Join(Names(), ",") == CommandList
  {
    JoinStep("disable", ["logout"]);
    assert ["disable"] + ["logout"] == ["disable", "logout"];
    JoinStep("enable", ["disable", "logout"]);
    assert ["enable"] + ["disable", "logout"] == ["enable", "disable", "logout"];
    JoinStep("login", ["enable", "disable", "logout"]);
    assert ["login"] + ["enable", "disable", "logout"] == ["login", "enable", "disable", "logout"];
    JoinStep("import", ["login", "enable", "disable", "logout"]);
    assert ["import"] + ["login", "enable", "disable", "logout"] == Names();
  }

  /** Joining with commas puts the first name, a comma, then the rest joined. */
  lemma JoinStep(first: string, rest: seq<string>)
    requires rest != []
    ensures Join([first] + rest, ",") == first + "," + Join(rest, ",")
  {
    assert ([first] + rest)[1..] == rest;
  }

  // ---------------------------------------------------------------------------------------
  // Routing and preview

  /** What `executor` does with the arguments. */
  datatype Route = ListCommands | UnknownCommand(arg: string) | Execute(command: SubCommand)

  /**
   * `executor`'s dispatch: no (or an empty) first argument lists the sub-commands, the name
   * of a sub-command executes it, anything else is unknown.
   */
  function RouteOf(args: seq<string>): (r: Route)
    ensures r == ListCommands <==> args == [] || args[0] == ""
    ensures r.Execute? <==> args != [] && args[0] in Names()
    ensures r.Execute? ==> Name(r.command) == args[0]
    ensures r.UnknownCommand? ==> r.arg == args[0] && args[0] != "" && args[0] !in Names()
  {
    if args == [] || args[0] == "" then ListCommands
    else
      match ParseSubCommand(args[0])
      case Some(c) => Execute(c)
      case None => UnknownCommand(args[0])
  }

  /**
   * The prefix the preview matches against: `startsWith(undefined)` looks for the text
   * "undefined" when no argument was typed.
   */
  function CommandStart(args: seq<string>): string
  {
    if args == [] then "undefined" else args[0]
  }

  /** The sub-commands whose name starts with the prefix, in declaration order. */
  function Matching(prefix: string): (r: seq<SubCommand>)
    ensures forall c :: c in r <==> StartsWith(Name(c), prefix)
    ensures forall i, j :: 0 <= i < j < |r| ==> Rank(r[i]) < Rank(r[j])
  {
    var p := (c: SubCommand) => StartsWith(Name(c), prefix);
    AllSubCommandsRanked();
    FilterKeepsOrder(AllSubCommands, p, Rank);
    var r := Filter(AllSubCommands, p);
    assert forall c :: p(c) ==> c in r by {
      forall c | p(c) ensures c in r {
        assert AllSubCommands[Rank(c)] == c;
      }
    }
    r
  }

  /** The declaration order lists every sub-command once, at its rank. */
  lemma AllSubCommandsRanked()
    ensures forall i, j :: 0 <= i < j < |AllSubCommands| ==> Rank(AllSubCommands[i]) < Rank(AllSubCommands[j])
    ensures forall c :: 0 <= Rank(c) < |AllSubCommands| && AllSubCommands[Rank(c)] == c
  {
  }

  /**
   * `previewer` given the stored token: without a token only `login` is offered; with one,
   * the matching sub-commands, or all five when none matches.
   */
  function PreviewItems(args: seq<string>, token: Option<string>): (items: seq<PreviewItem>)
    ensures !Truthy(token) ==> items == [PreviewItemFor(Login)]
    ensures Truthy(token) && Matching(CommandStart(args)) != [] ==> items == PreviewItemsFor(Matching(CommandStart(args)))
    ensures Truthy(token) && Matching(CommandStart(args)) == [] ==> items == PreviewItemsFor(AllSubCommands)
  {
    var matching := Matching(CommandStart(args));
    if Truthy(token) then
      if |matching| > 0 then PreviewItemsFor(matching) else PreviewItemsFor(AllSubCommands)
    else [PreviewItemFor(Login)]
  }

  /** With a token and no argument typed, nothing starts with "undefined": all five are offered. */
  lemma PreviewWithoutArgument(token: Option<string>)
    requires Truthy(token)
    ensures PreviewItems([], token) == PreviewItemsFor(AllSubCommands)
  {
    forall c: SubCommand ensures !StartsWith(Name(c), "undefined") {
    }
  }

  /** The preview offers the sub-commands a prefix selects: "log" gives login and logout, in that order. */
  lemma PreviewOfLog(token: Option<string>)
    requires Truthy(token)
    ensures PreviewItems(["log"], token) == [PreviewItemFor(Login), PreviewItemFor(Logout)]
  {
    MatchingLog();
    PreviewOfMatches(["log"], token, [Login, Logout]);
    PreviewItemsOfPair(Login, Logout);
  }

  lemma PreviewItemsOfPair(a: SubCommand, b: SubCommand)
    ensures PreviewItemsFor([a, b]) == [PreviewItemFor(a), PreviewItemFor(b)]
  {
  }

  /** With a token, the preview is the items of the matching sub-commands when there are any. */
  lemma PreviewOfMatches(args: seq<string>, token: Option<string>, cs: seq<SubCommand>)
    requires Truthy(token) && args != [] && Matching(args[0]) == cs && cs != []
    ensures PreviewItems(args, token) == PreviewItemsFor(cs)
  {
  }

  /** "log" selects login and logout, in that order. */
  lemma MatchingLog()
    ensures Matching("log") == [Login, Logout]
  {
    var m := Matching("log");
    assert forall c :: c in m <==> c == Login || c == Logout by {
      forall c: SubCommand ensures c in m <==> c == Login || c == Logout {
        SelectedByLog(c);
      }
    }
    RankedPair(m);
  }

  /** Of the five names, only "login" and "logout" start with "log". */
  lemma SelectedByLog(c: SubCommand)
    ensures StartsWith(Name(c), "log") <==> c == Login || c == Logout
  {
    match c
    case Import => assert Name(c)[1] != 'o';
    case Enable => assert Name(c)[0] != 'l';
    case Disable => assert Name(c)[0] != 'l';
    case Login => assert Name(c)[..3] == "log";
    case Logout => assert Name(c)[..3] == "log";
  }

  /** A rank-ordered sequence holding exactly login and logout is those two, in that order. */
  lemma RankedPair(m: seq<SubCommand>)
    requires forall c :: c in m <==> c == Login || c == Logout
    requires forall i, j :: 0 <= i < j < |m| ==> Rank(m[i]) < Rank(m[j])
    ensures m == [Login, Logout]
  {
    assert forall i :: 0 <= i < |m| ==> m[i] == Login || m[i] == Logout by {
      forall i | 0 <= i < |m| ensures m[i] == Login || m[i] == Logout {
        assert m[i] in m;
      }
    }
    assert Login in m && Logout in m;
    var i :| 0 <= i < |m| && m[i] == Login;
    var j :| 0 <= j < |m| && m[j] == Logout;
    assert |m| >= 2;
    // after the first element the rank exceeds login's, before the last it is below logout's
    forall k | 1 <= k < |m| ensures m[k] == Logout {
      assert Rank(m[0]) < Rank(m[k]) && Rank(m[0]) >= 1;
    }
    forall k | 0 <= k < |m| - 1 ensures m[k] == Login {
      assert Rank(m[k]) < Rank(m[|m| - 1]) && Rank(m[|m| - 1]) <= 4;
    }
    assert m[1] == Logout;
    assert m[0] == Login;
  }

  // ---------------------------------------------------------------------------------------
  // The login link

  const AuthorizeUrl := "https://slack.com/oauth/authorize"

  const Scopes := "groups:history,groups:read,im:history,im:read,im:write,"
                  + "groups:write,mpim:history,users:read,mpim:read,mpim:write"

  /** A `key=value` field of a query string. */
  function Field(key: string, value: string): string
  {
    key + "=" + value
  }

  /** The query of the authorize link: client id, login id as `state`, redirect and scopes. */
  function LoginQuery(clientId: string, loginId: string, redirectUrl: string): string
  {
    Field("client_id", clientId) + "&" + (Field("state", loginId) + "&" + (Field("redirect_uri", redirectUrl) + "&" + Field("scope", Scopes)))
  }

  /** The link of the "Sign in with Slack" button. */
  function LoginUrl(clientId: string, loginId: string, redirectUrl: string): (r: string)
    ensures |AuthorizeUrl| + 1 <= |r| && r[..|AuthorizeUrl| + 1] == AuthorizeUrl + "?"
    ensures '&' !in clientId && '&' !in loginId ==>
      QueryValue(r[|AuthorizeUrl| + 1..], "state") == Some(loginId)
      && QueryValue(r[|AuthorizeUrl| + 1..], "client_id") == Some(clientId)
  {
    var q := LoginQuery(clientId, loginId, redirectUrl);
    assert (AuthorizeUrl + "?" + q)[|AuthorizeUrl| + 1..] == q;
    assert '&' !in clientId && '&' !in loginId ==>
      QueryValue(q, "state") == Some(loginId) && QueryValue(q, "client_id") == Some(clientId) by {
      if '&' !in clientId && '&' !in loginId {
        LoginQueryCarriesState(clientId, loginId, redirectUrl);
      }
    }
    AuthorizeUrl + "?" + LoginQuery(clientId, loginId, redirectUrl)
  }

  /** The value of the first `key=value` field of a query string, fields separated by '&'. */
  function QueryValue(query: string, key: string): Option<string>
    decreases |query|
  {
    var field := Before(query, '&');
    if StartsWith(field, key + "=") then Some(field[|key| + 1..])
    else if |field| < |query| then QueryValue(query[|field| + 1..], key)
    else None
  }

  /** A first field `key=value` gives `value`. */
  lemma QueryValueAtFront(key: string, value: string, rest: string)
    requires '&' !in key && '&' !in value
    ensures QueryValue(Field(key, value) + "&" + rest, key) == Some(value)
  {
    var field := Field(key, value);
    assert '&' !in field;
    BeforeOfConcat(field, '&', rest);
    assert field[..|key + "="|] == key + "=";
    assert field[|key| + 1..] == value;
  }

  /** A first field for another key is skipped. */
  lemma QueryValueSkip(field: string, rest: string, key: string)
    requires '&' !in field && !StartsWith(field, key + "=")
    ensures QueryValue(field + "&" + rest, key) == QueryValue(rest, key)
  {
    BeforeOfConcat(field, '&', rest);
    assert (field + "&" + rest)[|field| + 1..] == rest;
  }

  /**
   * The authorize request carries the login id as its `state`, and the configured client id:
   * reading the query back gives them unchanged (values without '&').
   */
  lemma LoginQueryCarriesState(clientId: string, loginId: string, redirectUrl: string)
    requires '&' !in clientId && '&' !in loginId
    ensures QueryValue(LoginQuery(clientId, loginId, redirectUrl), "client_id") == Some(clientId)
    ensures QueryValue(LoginQuery(clientId, loginId, redirectUrl), "state") == Some(loginId)
  {
    var tail := Field("redirect_uri", redirectUrl) + "&" + Field("scope", Scopes);
    var rest := Field("state", loginId) + "&" + tail;
    QueryValueAtFront("client_id", clientId, rest);
    QueryValueAtFront("state", loginId, tail);
    var first := Field("client_id", clientId);
    assert first[0] == 'c';
    QueryValueSkip(first, rest, "state");
  }

  // ---------------------------------------------------------------------------------------
  // Room resolution

  /**
   * The other party of a direct message: the sole member, or of two members the one that is
   * not the caller (the second one when the first is the caller).
   */
  function OtherParticipant(members: seq<string>, current: string): (r: string)
    requires |members| == 1 || |members| == 2
    ensures r in members
    ensures |members| == 1 ==> r == members[0]
    ensures |members| == 2 && current in members && members[0] != members[1] ==> r != current
  {
    if |members| == 1 then members[0]
    else if members[0] == current then members[1] else members[0]
  }

  /**
   * `getSlackDirectMessageChannel` on the data it reads: the room's member names, the
   * caller, the caller's Slack conversations and the workspace users. A room without exactly
   * one or two members has none.
   */
  function DirectMessageChannelOf(members: seq<string>, current: string, channels: seq<SlackChannel>, users: seq<UserInfo>): (r: Option<SlackChannel>)
    ensures |members| != 1 && |members| != 2 ==> r == None
    ensures r.Some? ==> r.value in channels && r.value.isIm
  {
    if |members| != 2 && |members| != 1 then None
    else
      var ims := Filter(channels, (c: SlackChannel) => c.isIm);
      var otherName := OtherParticipant(members, current);
      match First(users, (u: UserInfo) => u.name == otherName)
      case None => None
      case Some(otherUser) => First(ims, (c: SlackChannel) => c.otherUser == Some(otherUser.userId))
  }

  /** The DM found is a direct message with the other participant's Slack account. */
  lemma DirectMessageChannelIsWithOther(members: seq<string>, current: string, channels: seq<SlackChannel>, users: seq<UserInfo>)
    requires DirectMessageChannelOf(members, current, channels, users).Some?
    ensures var c := DirectMessageChannelOf(members, current, channels, users).value;
      (|members| == 1 || |members| == 2) && c in channels && c.isIm
      && exists u :: u in users && u.name == OtherParticipant(members, current) && c.otherUser == Some(u.userId)
  {
    var otherName := OtherParticipant(members, current);
    var other := First(users, (u: UserInfo) => u.name == otherName);
    var i :| 0 <= i < |users| && users[i] == other.value;
    assert users[i] in users;
  }

  /**
   * With the other participant's first Slack namesake `u`, the DM found is the first direct
   * message whose other user is `u`; none when there is none.
   */
  lemma DirectMessageChannelIsFirstWithOther(members: seq<string>, current: string, channels: seq<SlackChannel>, users: seq<UserInfo>, u: UserInfo)
    requires |members| == 1 || |members| == 2
    requires First(users, (x: UserInfo) => x.name == OtherParticipant(members, current)) == Some(u)
    ensures DirectMessageChannelOf(members, current, channels, users)
         == First(channels, (c: SlackChannel) => c.isIm && c.otherUser == Some(u.userId))
  {
    FirstOfFilter(channels, (c: SlackChannel) => c.isIm, (c: SlackChannel) => c.otherUser == Some(u.userId));
  }

  /** Without a Slack user named like the other participant, no DM is found. */
  lemma DirectMessageChannelNeedsOther(members: seq<string>, current: string, channels: seq<SlackChannel>, users: seq<UserInfo>)
    requires |members| == 1 || |members| == 2
    requires forall i :: 0 <= i < |users| ==> users[i].name != OtherParticipant(members, current)
    ensures DirectMessageChannelOf(members, current, channels, users) == None
  {
  }

  /**
   * `getSlackPrivateChannel` on the caller's conversations: the first private channel or
   * multi-party DM whose normalised name is the room's slugified name.
   */
  function PrivateChannelOf(channels: seq<SlackChannel>, slugifiedName: string): (r: Option<SlackChannel>)
    ensures r == First(channels, (c: SlackChannel) => (c.isChannel || c.isMpim) && c.normalizedName == Some(slugifiedName))
    ensures r.Some? ==> r.value in channels && (r.value.isChannel || r.value.isMpim) && r.value.normalizedName == Some(slugifiedName)
    ensures r.None? <==> forall i :: 0 <= i < |channels| ==>
              !((channels[i].isChannel || channels[i].isMpim) && channels[i].normalizedName == Some(slugifiedName))
  {
    var candidates := Filter(channels, (c: SlackChannel) => c.isChannel || c.isMpim);
    FirstOfFilter(channels, (c: SlackChannel) => c.isChannel || c.isMpim, (c: SlackChannel) => c.normalizedName == Some(slugifiedName));
    First(candidates, (c: SlackChannel) => c.normalizedName == Some(slugifiedName))
  }

  // ---------------------------------------------------------------------------------------
  // The import pipeline

  /** The largest time value a JavaScript `Date` holds, in milliseconds. */
  const MaxTime := 8_640_000_000_000_000

  /**
   * `new Date(parseInt(ts.split('.')[0], 10) * 1000)`: the whole seconds of Slack's `ts`, in
   * milliseconds; absent for an invalid date (no digits, or out of range).
   */
  function MessageDate(ts: string): (r: Option<int>)
    ensures r.Some? ==> -MaxTime <= r.value <= MaxTime && r.value % 1000 == 0
  {
    match ParseInt(Before(ts, '.'))
    case None => None
    case Some(seconds) =>
      if -MaxTime <= seconds * 1000 <= MaxTime then Some(seconds * 1000) else None
  }

  /** Slack's `seconds.fraction` timestamps give the seconds in milliseconds: the fraction is dropped. */
  lemma {:induction false} MessageDateOfSlackTs(seconds: nat, fraction: string)
    requires seconds * 1000 <= MaxTime
    ensures MessageDate(NatToString(seconds) + "." + fraction) == Some(seconds * 1000)
  {
    var s := NatToString(seconds);
    assert '.' !in s by {
      forall i | 0 <= i < |s| ensures s[i] != '.' {
        assert IsDigit(s[i]);
      }
    }
    BeforeOfConcat(s, '.', fraction);
    assert s + "." + fraction == s + ['.'] + fraction;
    assert LeadingDigits(s) == s by {
      LeadingDigitsOfDigits(s);
    }
    DigitsValueOfNatToString(seconds);
  }

  lemma {:induction false} LeadingDigitsOfDigits(s: string)
    requires forall i :: 0 <= i < |s| ==> IsDigit(s[i])
    ensures LeadingDigits(s) == s
  {
    if s != [] {
      LeadingDigitsOfDigits(s[1..]);
    }
  }

  /** Two messages of the same second get the same date. */
  lemma SameSecondSameDate(seconds: nat, f1: string, f2: string)
    requires seconds * 1000 <= MaxTime
    ensures MessageDate(NatToString(seconds) + "." + f1) == MessageDate(NatToString(seconds) + "." + f2)
  {
    MessageDateOfSlackTs(seconds, f1);
    MessageDateOfSlackTs(seconds, f2);
  }

  /** A message of the room, as the duplicate check reads it. */
  datatype LocalMessage = LocalMessage(createdAt: int, senderName: string)

  /**
   * `messageDate === localm.createdAt`: `===` on objects is identity, and the date was
   * created for this message, so it is never the stored one.
   */
  predicate SameDateObject(messageDate: Option<int>, local: LocalMessage)
  {
    false
  }

  /** A message posted to the room, with its sender, alias and custom fields. */
  datatype Post = Post(sender: LocalUser, alias: string, roomId: string, text: string, importTs: int, slackId: Option<string>)

  datatype Skip = UnknownSlackUser | UnmappedLocalUser | AlreadyImported | EmptyText

  /** What happens to one history message: skipped, posted, or the post throws. */
  datatype Decision = Skipped(reason: Skip) | Posted(post: Post) | Crashed

  /**
   * The callback of `importChannel` for one message: find the author among the workspace
   * users and then locally by username, compute the date, check for a duplicate and for
   * text, and post. `toISOString` throws on an invalid date.
   */
  function Decide(m: SlackMessage, users: seq<UserInfo>, local: seq<LocalMessage>, dir: Directory, room: Room): (d: Decision)
    ensures First(users, (u: UserInfo) => Some(u.userId) == m.user).None? ==> d == Skipped(UnknownSlackUser)
    ensures d.Posted? ==>
      d.post.text != "" && Some(d.post.text) == m.text && d.post.roomId == room.id && d.post.slackId == m.slackId
      && Some(d.post.importTs) == MessageDate(m.ts)
      && d.post.alias == d.post.sender.username + " (slack)"
      && exists u :: u in users && Some(u.userId) == m.user && dir.GetByUsername(u.name) == Some(d.post.sender)
  {
    match First(users, (u: UserInfo) => Some(u.userId) == m.user)
    case None => Skipped(UnknownSlackUser)
    case Some(sender) =>
      match dir.GetByUsername(sender.name)
      case None => Skipped(UnmappedLocalUser)
      case Some(localSender) =>
        var messageDate := MessageDate(m.ts);
        if First(local, (l: LocalMessage) => SameDateObject(messageDate, l) && l.senderName == sender.name).Some? then
          Skipped(AlreadyImported)
        else if !Truthy(m.text) then Skipped(EmptyText)
        else if messageDate.None? then Crashed
        else Posted(Post(localSender, localSender.username + " (slack)", room.id, m.text.value, messageDate.value, m.slackId))
  }

  /**
   * The other half of the skip rules: a message whose Slack author has a local namesake and
   * whose text is present is posted under that user, with the alias, the room, the text,
   * the date and the Slack id; it crashes exactly when its date is invalid.
   */
  lemma KnownAuthorPosted(m: SlackMessage, users: seq<UserInfo>, local: seq<LocalMessage>, dir: Directory, room: Room)
    requires First(users, (u: UserInfo) => Some(u.userId) == m.user).Some?
    requires dir.GetByUsername(First(users, (u: UserInfo) => Some(u.userId) == m.user).value.name).Some?
    requires Truthy(m.text)
    ensures var sender := dir.GetByUsername(First(users, (u: UserInfo) => Some(u.userId) == m.user).value.name).value;
      Decide(m, users, local, dir, room)
      == if MessageDate(m.ts).None? then Crashed
         else Posted(Post(sender, sender.username + " (slack)", room.id, m.text.value, MessageDate(m.ts).value, m.slackId))
  {
  }

  /** A message crashes the import only when its author is known and mapped, it has text, and its date is invalid. */
  lemma CrashNeedsInvalidDate(m: SlackMessage, users: seq<UserInfo>, local: seq<LocalMessage>, dir: Directory, room: Room)
    requires Decide(m, users, local, dir, room).Crashed?
    ensures First(users, (u: UserInfo) => Some(u.userId) == m.user).Some?
    ensures dir.GetByUsername(First(users, (u: UserInfo) => Some(u.userId) == m.user).value.name).Some?
    ensures Truthy(m.text) && MessageDate(m.ts).None?
  {
  }

  /** A message whose author has a Slack account but no local namesake is skipped. */
  lemma UnmappedAuthorSkipped(m: SlackMessage, users: seq<UserInfo>, local: seq<LocalMessage>, dir: Directory, room: Room)
    requires First(users, (u: UserInfo) => Some(u.userId) == m.user).Some?
    requires dir.GetByUsername(First(users, (u: UserInfo) => Some(u.userId) == m.user).value.name).None?
    ensures Decide(m, users, local, dir, room) == Skipped(UnmappedLocalUser)
  {
  }

  /** A message without text is never posted. */
  lemma EmptyTextNeverPosted(m: SlackMessage, users: seq<UserInfo>, local: seq<LocalMessage>, dir: Directory, room: Room)
    requires !Truthy(m.text)
    ensures !Decide(m, users, local, dir, room).Posted?
  {
  }

  /** The duplicate check never skips a message, whatever the room already holds. */
  lemma DuplicateCheckNeverFires(m: SlackMessage, users: seq<UserInfo>, local: seq<LocalMessage>, dir: Directory, room: Room)
    ensures Decide(m, users, local, dir, room) != Skipped(AlreadyImported)
  {
  }

  /** The posts and the number of ignored messages. */
  datatype Tally = Tally(posts: seq<Post>, ignored: nat)

  /**
   * The whole callback over the history (`Promise.all` with the shared `nIgnored` counter):
   * every message is posted or counted as ignored once; it throws when one post does.
   */
  function ImportTally(ms: seq<SlackMessage>, users: seq<UserInfo>, local: seq<LocalMessage>, dir: Directory, room: Room): (r: Attempt<Tally>)
    ensures r.Threw? <==> exists i :: 0 <= i < |ms| && Decide(ms[i], users, local, dir, room).Crashed?
    ensures r.Done? ==> |r.value.posts| + r.value.ignored == |ms|
    ensures r.Done? ==> forall p :: p in r.value.posts ==> p.text != "" && p.roomId == room.id
  {
    if ms == [] then Done(Tally([], 0))
    else
      match ImportTally(ms[..|ms| - 1], users, local, dir, room)
      case Threw => Threw
      case Done(t) =>
        match Decide(ms[|ms| - 1], users, local, dir, room)
        case Crashed => Threw
        case Skipped(_) => Done(Tally(t.posts, t.ignored + 1))
        case Posted(p) => Done(Tally(t.posts + [p], t.ignored))
  }

  /** The decision for each message of the history, in order. */
  function Decisions(ms: seq<SlackMessage>, users: seq<UserInfo>, local: seq<LocalMessage>, dir: Directory, room: Room): seq<Decision>
  {
    seq(|ms|, i requires 0 <= i < |ms| => Decide(ms[i], users, local, dir, room))
  }

  /** The posts of the `Posted` decisions, in order. */
  function PostsOf(ds: seq<Decision>): seq<Post>
  {
    if ds == [] then [] else (if ds[0].Posted? then [ds[0].post] else []) + PostsOf(ds[1..])
  }

  /** How many decisions are `Skipped`. */
  function SkipCount(ds: seq<Decision>): nat
  {
    if ds == [] then 0 else (if ds[0].Skipped? then 1 else 0) + SkipCount(ds[1..])
  }

  lemma {:induction false} PostsOfSnoc(ds: seq<Decision>, d: Decision)
    ensures PostsOf(ds + [d]) == PostsOf(ds) + (if d.Posted? then [d.post] else [])
    ensures SkipCount(ds + [d]) == SkipCount(ds) + (if d.Skipped? then 1 else 0)
  {
    if ds != [] {
      assert (ds + [d])[1..] == ds[1..] + [d];
      PostsOfSnoc(ds[1..], d);
    }
  }

  /**
   * The tally is decided message by message: the posts are exactly those of the messages
   * decided `Posted`, in history order, and the ignored count is the number decided `Skipped`.
   */
  lemma {:induction false} ImportTallyDecisions(ms: seq<SlackMessage>, users: seq<UserInfo>, local: seq<LocalMessage>, dir: Directory, room: Room)
    requires ImportTally(ms, users, local, dir, room).Done?
    ensures var ds := Decisions(ms, users, local, dir, room);
      ImportTally(ms, users, local, dir, room).value == Tally(PostsOf(ds), SkipCount(ds))
  {
    if ms != [] {
      var front := ms[..|ms| - 1];
      ImportTallyDecisions(front, users, local, dir, room);
      var d := Decide(ms[|ms| - 1], users, local, dir, room);
      DecisionsSnoc(ms, users, local, dir, room);
      PostsOfSnoc(Decisions(front, users, local, dir, room), d);
    }
  }

  /** The decisions of a history are those of all but its last message, then the last one's. */
  lemma DecisionsSnoc(ms: seq<SlackMessage>, users: seq<UserInfo>, local: seq<LocalMessage>, dir: Directory, room: Room)
    requires ms != []
    ensures Decisions(ms, users, local, dir, room)
         == Decisions(ms[..|ms| - 1], users, local, dir, room) + [Decide(ms[|ms| - 1], users, local, dir, room)]
  {
  }

  /** The number ignored never exceeds the number processed. */
  lemma IgnoredAtMostProcessed(ms: seq<SlackMessage>, users: seq<UserInfo>, local: seq<LocalMessage>, dir: Directory, room: Room)
    requires ImportTally(ms, users, local, dir, room).Done?
    ensures ImportTally(ms, users, local, dir, room).value.ignored <= |ms|
  {
  }

  /** With no user known on Slack, every message is ignored. */
  lemma {:induction false} UnknownAuthorsAllIgnored(ms: seq<SlackMessage>, local: seq<LocalMessage>, dir: Directory, room: Room)
    ensures ImportTally(ms, [], local, dir, room) == Done(Tally([], |ms|))
  {
    if ms != [] {
      UnknownAuthorsAllIgnored(ms[..|ms| - 1], local, dir, room);
    }
  }

  const ProcessedLabel := "Processed "
  const IgnoredLabel := " messages. Ignored "

  /** "Processed n messages. Ignored k.": both numbers read back from the report. */
  function ReportText(processed: nat, ignored: nat): (r: string)
    ensures |ProcessedLabel| <= |r| && ParseInt(r[|ProcessedLabel|..]) == Some(processed)
    ensures var at := |ProcessedLabel| + |NatToString(processed)| + |IgnoredLabel|;
      at <= |r| && ParseInt(r[at..]) == Some(ignored)
  {
    var p := NatToString(processed);
    var i := NatToString(ignored);
    assert IgnoredLabel[0] == ' ';
    ParseIntInside(ProcessedLabel, processed, IgnoredLabel, i + ".");
    ParseIntAfter(ProcessedLabel + p + IgnoredLabel, ignored, ".");
    ProcessedLabel + p + IgnoredLabel + (i + ".")
  }

  /** A number printed after a prefix and followed by a non-digit is read back after the prefix. */
  lemma ParseIntInside(prefix: string, n: nat, mid: string, tail: string)
    requires mid != [] && !IsDigit(mid[0])
    ensures |prefix| <= |prefix + NatToString(n) + mid + tail|
    ensures ParseInt((prefix + NatToString(n) + mid + tail)[|prefix|..]) == Some(n)
  {
    assert (prefix + NatToString(n) + mid + tail)[|prefix|..] == NatToString(n) + (mid + tail);
    ParseIntOfPrinted(n, mid + tail);
  }

  /** A number printed at the end of a prefix, then a non-digit, is read back after the prefix. */
  lemma ParseIntAfter(prefix: string, n: nat, rest: string)
    requires rest == [] || !IsDigit(rest[0])
    ensures |prefix| <= |prefix + (NatToString(n) + rest)|
    ensures ParseInt((prefix + (NatToString(n) + rest))[|prefix|..]) == Some(n)
  {
    assert (prefix + (NatToString(n) + rest))[|prefix|..] == NatToString(n) + rest;
    ParseIntOfPrinted(n, rest);
  }

  /** One more message extends the tally by its decision. */
  lemma ImportTallyStep(ms: seq<SlackMessage>, i: nat, users: seq<UserInfo>, local: seq<LocalMessage>, dir: Directory, room: Room)
    requires i < |ms|
    ensures ImportTally(ms[..i + 1], users, local, dir, room)
         == match ImportTally(ms[..i], users, local, dir, room)
            case Threw => Threw
            case Done(t) =>
              match Decide(ms[i], users, local, dir, room)
              case Crashed => Threw
              case Skipped(_) => Done(Tally(t.posts, t.ignored + 1))
              case Posted(p) => Done(Tally(t.posts + [p], t.ignored))
  {
    assert ms[..i + 1][..i] == ms[..i];
    assert ms[..i + 1][i] == ms[i];
  }

  /** Once a prefix throws, the whole history does. */
  lemma ImportTallyThrowsOnward(ms: seq<SlackMessage>, i: nat, users: seq<UserInfo>, local: seq<LocalMessage>, dir: Directory, room: Room)
    requires i <= |ms| && ImportTally(ms[..i], users, local, dir, room).Threw?
    ensures ImportTally(ms, users, local, dir, room).Threw?
  {
    var k :| 0 <= k < i && Decide(ms[..i][k], users, local, dir, room).Crashed?;
    assert ms[..i][k] == ms[k];
  }

  /** The loop over the history, with the ignore counter. */
  method ImportMessages(history: seq<SlackMessage>, users: seq<UserInfo>, local: seq<LocalMessage>, dir: Directory, room: Room)
    returns (r: Attempt<Tally>)
    ensures r == ImportTally(history, users, local, dir, room)
  {
    var posts: seq<Post> := [];
    var nIgnored := 0;
    var i := 0;
    while i < |history|
      invariant 0 <= i <= |history|
      invariant ImportTally(history[..i], users, local, dir, room) == Done(Tally(posts, nIgnored))
    {
      ImportTallyStep(history, i, users, local, dir, room);
      var decision := Decide(history[i], users, local, dir, room);
      match decision {
        case Crashed =>
          ImportTallyThrowsOnward(history, i + 1, users, local, dir, room);
          return Threw;
        case Skipped(_) =>
          nIgnored := nIgnored + 1;
        case Posted(p) =>
          posts := posts + [p];
      }
      i := i + 1;
    }
    assert history[..i] == history;
    return Done(Tally(posts, nIgnored));
  }

  // ---------------------------------------------------------------------------------------
  // The handlers

  /** What the sender is told: a notice, or the login button (`notifyUser`). */
  datatype Reply = Notice(text: string) | LoginButton(url: string)

  /** What the host gives the command: the environment, HTTP, the user directory and room members. */
  datatype Host = Host(env: Environment, http: Http, dir: Directory, roomMembers: map<string, seq<string>>)

  /** The context of the slash command. */
  datatype Context = Context(args: seq<string>, sender: LocalUser, room: Room)

  /** Every conversation's history can be fetched to the end. */
  ghost predicate Paginates(http: Http)
  {
    forall token: Option<string>, channelId: string :: PaginationEnds(http, token, channelId, None)
  }

  const MustLogin := "You must login first"
  const LoggedOut := "Logged out"
  const OnlyPrivate := "Only private channel and direct messages are supported."
  const NoDirectMessage := "Couldn't find this direct message channel on slack"

  function ListText(): string
  {
    "Please provide one of these commands: " + CommandList
  }

  function NoChannelText(room: Room): string
  {
    "Could not find channel with name " + room.displayName + " on slack"
  }

  function StateText(state: bool): string
  {
    "Slackline " + (if state then "enabled" else "disabled") + "."
  }

  /** `previewer`. */
  function Previewer(ctx: Context, storage: Storage): (items: seq<PreviewItem>)
    reads storage
    ensures !Truthy(storage.GetToken(ctx.sender)) ==> items == [PreviewItemFor(Login)]
  {
    PreviewItems(ctx.args, storage.GetToken(ctx.sender))
  }

  /** `getRoomReader().getMembers(room.id)`, as usernames. */
  function MembersOf(host: Host, room: Room): seq<string>
  {
    if room.id in host.roomMembers then host.roomMembers[room.id] else []
  }

  /**
   * The outcome of importing a Slack conversation into a room: it throws when fetching the
   * history or the workspace users throws, or when a post does; otherwise the report of how
   * many messages were processed and ignored, with the tally's posts.
   */
  ghost predicate ImportedFrom(reply: Attempt<Reply>, posts: seq<Post>, host: Host, token: Option<string>, channelId: string, room: Room)
    requires Paginates(host.http)
  {
    var history := HistoryOf(host.http, token, channelId);
    var users := AllWorkspaceUsersOf(host.http, token);
    if history.Threw? || users.Threw? then reply == Threw
    else
      var tally := ImportTally(history.value, users.value, [], host.dir, room);
      if tally.Threw? then reply == Threw
      else reply == Done(Notice(ReportText(|history.value|, tally.value.ignored))) && posts == tally.value.posts
  }

  /**
   * `importChannel`: fetch the history and the workspace users, run the callback over the
   * history, and report how many messages were processed and ignored.
   */
  method ImportChannel(channel: SlackChannel, api: Client, host: Host, room: Room) returns (reply: Attempt<Reply>, posts: seq<Post>)
    requires api.Valid() && api.http == host.http && Paginates(host.http)
    modifies api`apiCache, api`sent
    ensures ImportedFrom(reply, posts, host, api.token, channel.channelId, room)
  {
    posts := [];
    assert PaginationEnds(host.http, api.token, channel.channelId, None);
    ghost var fuel: nat :| HistoryFinishes(host.http, api.token, channel.channelId, None, fuel);
    HistoryOfWithFuel(host.http, api.token, channel.channelId, fuel);
    var messageHistory := api.FullChannelHistory(channel.channelId, None, fuel);
    if messageHistory.Threw? {
      return Threw, [];
    }
    var allSlackUsers := api.AllWorkspaceUsers();
    if allSlackUsers.Threw? {
      return Threw, [];
    }
    var localMessages: seq<LocalMessage> := [];
    var tally := ImportMessages(messageHistory.value, allSlackUsers.value, localMessages, host.dir, room);
    if tally.Threw? {
      return Threw, [];
    }
    reply := Done(Notice(ReportText(|messageHistory.value|, tally.value.ignored)));
    posts := tally.value.posts;
  }

  method GetSlackPrivateChannel(room: Room, api: Client) returns (r: Attempt<Option<SlackChannel>>)
    requires api.Valid()
    modifies api`apiCache, api`sent
    ensures api.Valid()
    ensures var channels := CurrentUserChannelsOf(api.http, api.token);
      r == if channels.Threw? then Threw else Done(PrivateChannelOf(channels.value, room.slugifiedName))
  {
    var allChannels := api.CurrentUserChannels();
    if allChannels.Threw? {
      return Threw;
    }
    return Done(PrivateChannelOf(allChannels.value, room.slugifiedName));
  }

  method GetSlackDirectMessageChannel(currentUser: string, room: Room, api: Client, host: Host) returns (r: Attempt<Option<SlackChannel>>)
    requires api.Valid() && api.http == host.http
    modifies api`apiCache, api`sent
    ensures api.Valid()
    ensures var members := MembersOf(host, room);
      var channels := CurrentUserChannelsOf(api.http, api.token);
      var users := AllWorkspaceUsersOf(api.http, api.token);
      r == if |members| != 1 && |members| != 2 then Done(None)
           else if channels.Threw? || users.Threw? then Threw
           else Done(DirectMessageChannelOf(members, currentUser, channels.value, users.value))
    ensures |MembersOf(host, room)| != 1 && |MembersOf(host, room)| != 2 ==>
      api.sent == old(api.sent) && api.apiCache == old(api.apiCache)
  {
    var localMembers := MembersOf(host, room);
    if |localMembers| != 2 && |localMembers| != 1 {
      return Done(None);
    }
    var allChannels := api.CurrentUserChannels();
    if allChannels.Threw? {
      return Threw;
    }
    var allUsers := api.AllWorkspaceUsers();
    if allUsers.Threw? {
      return Threw;
    }
    return Done(DirectMessageChannelOf(localMembers, currentUser, allChannels.value, allUsers.value));
  }

  /**
   * What `/slackline import` does in a room, for the caller's stored token: only direct
   * messages and private groups are imported; a direct message needs one or two members and a
   * Slack IM with the other one, a private group a Slack channel of the same name; the notices
   * post nothing, and a found conversation is imported as `ImportedFrom` says.
   */
  ghost predicate ImportOutcome(ctx: Context, host: Host, token: Option<string>, reply: Attempt<Reply>, posts: seq<Post>)
    requires Paginates(host.http)
  {
    var members := MembersOf(host, ctx.room);
    var channels := CurrentUserChannelsOf(host.http, token);
    var users := AllWorkspaceUsersOf(host.http, token);
    match ctx.room.roomType
    case DirectMessage =>
      if |members| != 1 && |members| != 2 then reply == Done(Notice(NoDirectMessage)) && posts == []
      else if channels.Threw? || users.Threw? then reply == Threw
      else
        (match DirectMessageChannelOf(members, ctx.sender.username, channels.value, users.value)
         case None => reply == Done(Notice(NoDirectMessage)) && posts == []
         case Some(channel) => ImportedFrom(reply, posts, host, token, channel.channelId, ctx.room))
    case PrivateGroup =>
      if channels.Threw? then reply == Threw
      else
        (match PrivateChannelOf(channels.value, ctx.room.slugifiedName)
         case None => reply == Done(Notice(NoChannelText(ctx.room))) && posts == []
         case Some(channel) => ImportedFrom(reply, posts, host, token, channel.channelId, ctx.room))
    case _ => reply == Done(Notice(OnlyPrivate)) && posts == []
  }

  /** `handleImport`: only direct messages and private groups can be imported. */
  method HandleImport(ctx: Context, host: Host, storage: Storage) returns (reply: Attempt<Reply>, posts: seq<Post>)
    requires Paginates(host.http)
    ensures ImportOutcome(ctx, host, storage.GetUserStorage(ctx.sender).token, reply, posts)
  {
    posts := [];
    var userInfo := storage.GetUserStorage(ctx.sender);
    var api := new Client(host.env, host.http, userInfo.token);
    match ctx.room.roomType {
      case DirectMessage =>
        var channel := GetSlackDirectMessageChannel(ctx.sender.username, ctx.room, api, host);
        if channel.Threw? {
          return Threw, [];
        }
        if channel.value.None? {
          return Done(Notice(NoDirectMessage)), [];
        }
        reply, posts := ImportChannel(channel.value.value, api, host, ctx.room);
      case PrivateGroup =>
        var channel := GetSlackPrivateChannel(ctx.room, api);
        if channel.Threw? {
          return Threw, [];
        }
        if channel.value.None? {
          return Done(Notice(NoChannelText(ctx.room))), [];
        }
        reply, posts := ImportChannel(channel.value.value, api, host, ctx.room);
      case _ =>
        reply := Done(Notice(OnlyPrivate));
    }
  }

  /**
   * `handleLogin`: the link carries the client id, the fresh login id as `state`, and the
   * OAuth callback as redirect; the login id is then mapped to the sender.
   */
  method HandleLogin(ctx: Context, host: Host, storage: Storage, loginId: string, now: int) returns (reply: Attempt<Reply>)
    modifies storage`db
    ensures GetOauthEndpoint(host.env).None? ==> reply == Threw && storage.db == old(storage.db)
    ensures GetOauthEndpoint(host.env).Some? ==>
      reply == Done(LoginButton(LoginUrl(host.env.settings.clientId, loginId, GetOauthEndpoint(host.env).value)))
      && storage.db == WithLoginId(old(storage.db), ctx.sender, loginId, now)
  {
    var clientId := host.env.settings.clientId;
    var redirectUrl := GetOauthEndpoint(host.env);
    if redirectUrl.None? {
      return Threw;
    }
    var url := LoginUrl(clientId, loginId, redirectUrl.value);
    storage.SetUserForLoginId(ctx.sender, loginId, now);
    return Done(LoginButton(url));
  }

  /**
   * `setState`: the saved record holds only the flag, so the token is gone afterwards; the
   * reply reads the flag back.
   */
  method SetState(state: bool, ctx: Context, storage: Storage, now: int) returns (reply: Attempt<Reply>)
    modifies storage`db
    ensures storage.db == Saved(old(storage.db), UserAssocOf(ctx.sender), EmptyRecord.(enabled := Some(state)), now)
    ensures storage.GetToken(ctx.sender) == None
    ensures reply == Done(Notice(StateText(state)))
  {
    storage.SaveUserStorage(ctx.sender, EmptyRecord.(enabled := Some(state)), now);
    var newState := storage.GetUserStorage(ctx.sender).enabled == Some(true);
    return Done(Notice(StateText(newState)));
  }

  /** `handleLogout`: the record becomes `{token: undefined, enabled: false}`. */
  method HandleLogout(ctx: Context, storage: Storage, now: int) returns (reply: Attempt<Reply>)
    modifies storage`db
    ensures storage.db == Saved(old(storage.db), UserAssocOf(ctx.sender), EmptyRecord.(enabled := Some(false)), now)
    ensures storage.GetToken(ctx.sender) == None
    ensures reply == Done(Notice(LoggedOut))
  {
    storage.SaveUserStorage(ctx.sender, EmptyRecord.(token := None, enabled := Some(false)), now);
    return Done(Notice(LoggedOut));
  }

  /**
   * What running a sub-command does, from the persistence `db0` before it to `db` after it:
   * without a stored token everything but `login` is refused and nothing changes; otherwise
   * `import` imports, `login` sends the sign-in button and maps the login id, `enable` and
   * `disable` save the flag alone and `logout` saves `enabled: false` alone.
   */
  ghost predicate CommandOutcome(command: SubCommand, ctx: Context, host: Host, db0: Db, db: Db, loginId: string, now: int,
                                 reply: Attempt<Reply>, posts: seq<Post>)
    requires Paginates(host.http)
  {
    var token := StoredRecord(db0, UserAssocOf(ctx.sender)).token;
    if !Truthy(token) && command != Login then
      reply == Done(Notice(MustLogin)) && posts == [] && db == db0
    else
      match command
      case Import => db == db0 && ImportOutcome(ctx, host, token, reply, posts)
      case Login =>
        posts == []
        && (match GetOauthEndpoint(host.env)
            case None => reply == Threw && db == db0
            case Some(redirect) =>
              reply == Done(LoginButton(LoginUrl(host.env.settings.clientId, loginId, redirect)))
              && db == WithLoginId(db0, ctx.sender, loginId, now))
      case Enable =>
        reply == Done(Notice(StateText(true))) && posts == []
        && db == Saved(db0, UserAssocOf(ctx.sender), EmptyRecord.(enabled := Some(true)), now)
      case Disable =>
        reply == Done(Notice(StateText(false))) && posts == []
        && db == Saved(db0, UserAssocOf(ctx.sender), EmptyRecord.(enabled := Some(false)), now)
      case Logout =>
        reply == Done(Notice(LoggedOut)) && posts == []
        && db == Saved(db0, UserAssocOf(ctx.sender), EmptyRecord.(enabled := Some(false)), now)
  }

  /**
   * `executeCommand`: without a stored token, everything but `login` is refused and nothing
   * else happens.
   */
  method ExecuteCommand(command: SubCommand, ctx: Context, host: Host, storage: Storage, loginId: string, now: int)
    returns (reply: Attempt<Reply>, posts: seq<Post>)
    requires Paginates(host.http)
    modifies storage`db
    ensures !Truthy(old(storage.GetToken(ctx.sender))) && command != Login ==>
      reply == Done(Notice(MustLogin)) && posts == [] && storage.db == old(storage.db)
    ensures command == Login || command == Import || posts == []
    ensures command == Import ==> storage.db == old(storage.db)
    ensures Truthy(old(storage.GetToken(ctx.sender))) && (command == Enable || command == Disable) ==>
      reply == Done(Notice(StateText(command == Enable))) && storage.GetToken(ctx.sender) == None
    ensures Truthy(old(storage.GetToken(ctx.sender))) && command == Logout ==>
      reply == Done(Notice(LoggedOut)) && storage.GetToken(ctx.sender) == None
    ensures command == Login && GetOauthEndpoint(host.env).Some? ==>
      storage.db == WithLoginId(old(storage.db), ctx.sender, loginId, now)
    ensures CommandOutcome(command, ctx, host, old(storage.db), storage.db, loginId, now, reply, posts)
  {
    posts := [];
    var token := storage.GetToken(ctx.sender);
    if !Truthy(token) && command != Login {
      return Done(Notice(MustLogin)), [];
    }
    match command {
      case Import =>
        reply, posts := HandleImport(ctx, host, storage);
      case Login =>
        reply := HandleLogin(ctx, host, storage, loginId, now);
      case Enable =>
        reply := SetState(true, ctx, storage, now);
      case Disable =>
        reply := SetState(false, ctx, storage, now);
      case Logout =>
        reply := HandleLogout(ctx, storage, now);
    }
  }

  /** `executor`: route the first argument. */
  method Executor(ctx: Context, host: Host, storage: Storage, loginId: string, now: int)
    returns (reply: Attempt<Reply>, posts: seq<Post>)
    requires Paginates(host.http)
    modifies storage`db
    ensures RouteOf(ctx.args) == ListCommands ==>
      reply == Done(Notice(ListText())) && posts == [] && storage.db == old(storage.db)
    ensures RouteOf(ctx.args).UnknownCommand? ==>
      reply == Done(Notice("Unknown command " + ctx.args[0])) && posts == [] && storage.db == old(storage.db)
    ensures RouteOf(ctx.args).Execute? && RouteOf(ctx.args).command != Login && !Truthy(old(storage.GetToken(ctx.sender))) ==>
      reply == Done(Notice(MustLogin)) && posts == [] && storage.db == old(storage.db)
    ensures RouteOf(ctx.args).Execute? ==>
      CommandOutcome(RouteOf(ctx.args).command, ctx, host, old(storage.db), storage.db, loginId, now, reply, posts)
  {
    match RouteOf(ctx.args) {
      case ListCommands =>
        CommandListIsJoinedNames();
        return Done(Notice(ListText())), [];
      case UnknownCommand(arg) =>
        return Done(Notice("Unknown command " + arg)), [];
      case Execute(command) =>
        reply, posts := ExecuteCommand(command, ctx, host, storage, loginId, now);
    }
  }
}
