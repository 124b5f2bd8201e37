/**
 * SlacklineApp.ts: the configuration gate for the slash command, and the address of the OAuth
 * callback endpoint that the login link and the code exchange send Slack back to.
 */
module SlacklineApp {
  import opened Wrappers

  /** The slash command the app provides (`SlacklineCommand.command`). */
  const CommandName := "slackline"

  /** The path of the OAuth callback endpoint (`OauthEndpoint.path`). */
  const OauthPath := "oauth"

  const ClientIdSetting := "slack_client_id"
  const ClientSecretSetting := "slack_client_secret"

  /** The values of the two settings the app registers. */
  datatype Settings = Settings(clientId: string, clientSecret: string)

  /** Both settings are registered with the package value ''. */
  const DefaultSettings := Settings("", "")

  /**
   * The call made on `configurationModify.slashCommands`: enable the command, or disable it
   * naming the setting blamed in the log.
   */
  datatype CommandSwitch = EnableCommand(command: string) | DisableCommand(command: string, missing: string)

  /**
   * `checkConfigured`: the command is enabled exactly when neither setting is the empty
   * string; the secret is checked first. Only '' counts as unset.
   */
  function CheckConfigured(s: Settings): (r: CommandSwitch)
    ensures r.command == CommandName
    ensures r.EnableCommand? <==> s.clientSecret != "" && s.clientId != ""
    ensures s.clientSecret == "" ==> r == DisableCommand(CommandName, ClientSecretSetting)
    ensures s.clientSecret != "" && s.clientId == "" ==> r == DisableCommand(CommandName, ClientIdSetting)
  {
    if s.clientSecret == "" then DisableCommand(CommandName, ClientSecretSetting)
    else if s.clientId == "" then DisableCommand(CommandName, ClientIdSetting)
    else EnableCommand(CommandName)
  }

  /** `onEnable`: the check runs on the settings as they are when the app is enabled. */
  function OnEnable(s: Settings): (r: CommandSwitch)
    ensures r.EnableCommand? <==> s.clientSecret != "" && s.clientId != ""
  {
    CheckConfigured(s)
  }

  /** `onSettingUpdated`: the same check runs again on the settings after any update. */
  function OnSettingUpdated(s: Settings): (r: CommandSwitch)
    ensures r.EnableCommand? <==> s.clientSecret != "" && s.clientId != ""
  {
    CheckConfigured(s)
  }

  /** An app enabled with its package values keeps the command disabled. */
  lemma DefaultsDisable()
    ensures OnEnable(DefaultSettings) == DisableCommand(CommandName, ClientSecretSetting)
  {
  }

  /** An entry of `providedApiEndpoints`: the endpoint's path and the URL path it is served at. */
  datatype EndpointMeta = EndpointMeta(path: string, computedPath: string)

  /** What the environment gives for the `ROOT_URL` variable and the provided endpoints. */
  datatype Environment = Environment(settings: Settings, rootUrl: Option<string>, endpoints: seq<EndpointMeta>)

  /** A value placed in a string by `+`: an absent one prints as "undefined". */
  function Printed(s: Option<string>): string
  {
    if s.Some? then s.value else "undefined"
  }

  /**
   * `getOauthEndpoint`: ROOT_URL followed by the computed path of the first provided endpoint
   * whose path is `oauth`; absent (the cast result is dereferenced and throws) when there is none.
   */
  function GetOauthEndpoint(env: Environment): (r: Option<string>)
    ensures r.None? <==> forall i :: 0 <= i < |env.endpoints| ==> env.endpoints[i].path != OauthPath
    ensures r.Some? ==>
      (exists i :: 0 <= i < |env.endpoints| && env.endpoints[i].path == OauthPath
         && r.value == Printed(env.rootUrl) + env.endpoints[i].computedPath
         && forall j :: 0 <= j < i ==> env.endpoints[j].path != OauthPath)
  {
    match First(env.endpoints, (e: EndpointMeta) => e.path == OauthPath)
    case None => None
    case Some(e) => Some(Printed(env.rootUrl) + e.computedPath)
  }

  /** With the endpoints of Api.ts, the OAuth URL is the root URL followed by the oauth endpoint's path. */
  lemma OauthEndpointOfApi(root: string, settings: Settings, eventPath: string, oauthPath: string)
    ensures var env := Environment(settings, Some(root),
                                   [EndpointMeta("slackevent", eventPath), EndpointMeta(OauthPath, oauthPath)]);
      GetOauthEndpoint(env) == Some(root + oauthPath)
  {
    var env := Environment(settings, Some(root), [EndpointMeta("slackevent", eventPath), EndpointMeta(OauthPath, oauthPath)]);
    assert env.endpoints[0].path[0] == 's' != OauthPath[0];
    assert env.endpoints[1].path == OauthPath;
    var i :| 0 <= i < |env.endpoints| && env.endpoints[i].path == OauthPath
      && GetOauthEndpoint(env).value == Printed(env.rootUrl) + env.endpoints[i].computedPath;
    assert i == 1;
  }
}
