/** The `POST` handler of `app/api/create-connection/route.ts`: it validates the request, decides
    whether the toolkit's scheme is Composio-managed, and then takes one of five branches, each a
    fixed sequence of platform calls with early returns. Each branch is given first as a function
    of the stored records (what it replies, and what the records are afterwards) and then as a
    method that makes the calls on a `Platform`. */
module CreateConnection {
  import opened Wrappers
  import opened Strings
  import opened Seqs
  import opened Toolkit
  import opened Sdk

  /** The `credentials` object of a request. */
  datatype Credentials = Credentials(clientId: Option<string>, clientSecret: Option<string>, apiKey: Option<string>)

  /** The JSON body of a request. */
  datatype Request = Request(
    toolkitSlug: Option<string>,
    authType: Option<string>,
    credentials: Option<Credentials>,
    userId: Option<string>)

  /** A JSON reply and its HTTP status; absent fields are left out of the JSON. */
  datatype Reply = Reply(
    status: nat,
    success: Option<bool>,
    error: Option<string>,
    details: Option<string>,
    authType: Option<string>,
    connectionId: Option<string>,
    redirectUrl: Option<string>,
    authConfigId: Option<string>)

  function Failure(status: nat, error: string): Reply {
    Reply(status, Some(false), Some(error), None, None, None, None, None)
  }

  function Connected(authType: string, connectionId: string, redirectUrl: Option<string>, authConfigId: Option<string>): Reply {
    Reply(200, Some(true), None, None, Some(authType), Some(connectionId), redirectUrl, authConfigId)
  }

  /** The reply of the outermost `catch`. */
  function Crashed(details: string): Reply {
    Reply(500, Some(false), Some("Failed to create connection"), Some(details), None, None, None, None)
  }

  // ---------------------------------------------------------------------------------------
  // request validation

  const MissingFields := "Missing required fields"

  /** The destructuring default of `userId`. */
  function UserOf(req: Request): string {
    req.userId.GetOr("default")
  }

  /** The early 400 reply: a missing server key, slug or auth type; the message names the key
      only when the key is what is missing. */
  function Validate(key: Option<string>, req: Request): (r: Option<Reply>)
    ensures r.Some? <==> !Truthy(key) || !Truthy(req.toolkitSlug) || !Truthy(req.authType)
    ensures r.Some? ==> r.value.status == 400 && r.value.success.None? && r.value.error.Some?
    ensures r.Some? ==> (r.value.error == Some(NoServerKey) <==> !Truthy(key))
  {
    if !Truthy(key) || !Truthy(req.toolkitSlug) || !Truthy(req.authType) then
      assert |MissingFields| != |NoServerKey|;
      Some(Reply(400, None, Some(if Truthy(key) then MissingFields else NoServerKey), None, None, None, None, None))
    else None
  }

  // ---------------------------------------------------------------------------------------
  // the branch

  /** The scheme counts as managed when the managed list holds it, or holds it with its first
      `_` removed (`replace('_', '')` replaces only the first occurrence), ignoring case. */
  function IsManaged(schemes: seq<string>, authType: string): (r: bool)
    ensures r <==> exists i :: 0 <= i < |schemes| &&
                     (Lower(schemes[i]) == Lower(authType) || Lower(schemes[i]) == RemoveFirstChar(Lower(authType), '_'))
  {
    var lowered := LowerAll(schemes);
    var a := Lower(authType);
    a in lowered || RemoveFirstChar(a, '_') in lowered
  }

  predicate OAuthFamily(a: string) { a == "oauth2" || a == "oauth" }

  predicate ApiKeyFamily(a: string) { a == "api_key" || a == "bearer_token" || a == "apikey" }

  datatype Route = ManagedOAuth | ManagedApiKey | CustomOAuth | CustomApiKey | Unsupported

  /** The five-way branch on the lowercased auth type. */
  function RouteOf(managed: bool, a: string): (r: Route)
    ensures r == ManagedOAuth <==> managed && OAuthFamily(a)
    ensures r == ManagedApiKey <==> managed && ApiKeyFamily(a)
    ensures r == CustomOAuth <==> !managed && OAuthFamily(a)
    ensures r == CustomApiKey <==> !managed && ApiKeyFamily(a)
    ensures r == Unsupported <==> !OAuthFamily(a) && !ApiKeyFamily(a)
  {
    if managed && OAuthFamily(a) then ManagedOAuth
    else if managed && ApiKeyFamily(a) then ManagedApiKey
    else if !managed && OAuthFamily(a) then CustomOAuth
    else if !managed && ApiKeyFamily(a) then CustomApiKey
    else Unsupported
  }

  // ---------------------------------------------------------------------------------------
  // getOrCreateAuthConfig

  const ManagedKind := "use_composio_managed_auth"
  const CustomKind := "use_custom_auth"

  /** The config's toolkit slug equals `slug`, ignoring case; a config without one never matches. */
  predicate SlugMatches(c: AuthConfig, slug: string) {
    c.toolkitSlug.Some? && Lower(c.toolkitSlug.value) == Lower(slug)
  }

  /** The lenient type test: the `type` field, or else words in the config's name. */
  predicate KindMatches(c: AuthConfig, managed: bool) {
    if managed then
      c.kind == Some(ManagedKind) || (c.name.Some? && (Contains(c.name.value, "OAuth Config") || Contains(c.name.value, "Managed")))
    else
      c.kind == Some(CustomKind) || (c.name.Some? && Contains(c.name.value, "Custom"))
  }

  /** The `find` predicate of the resolver. */
  predicate ConfigMatches(c: AuthConfig, slug: string, managed: bool) {
    SlugMatches(c, slug) && KindMatches(c, managed)
  }

  /** The first stored config the resolver accepts. */
  function FindConfig(configs: seq<AuthConfig>, slug: string, managed: bool): (r: Option<AuthConfig>)
    ensures r.None? <==> forall i :: 0 <= i < |configs| ==> !ConfigMatches(configs[i], slug, managed)
    ensures r.Some? ==> exists i :: 0 <= i < |configs| && configs[i] == r.value && ConfigMatches(r.value, slug, managed) &&
                                   forall j :: 0 <= j < i ==> !ConfigMatches(configs[j], slug, managed)
  {
    Find(configs, (c: AuthConfig) => ConfigMatches(c, slug, managed))
  }

  /** The auth scheme of a custom config made by the resolver. */
  function CustomScheme(authType: string): (r: string)
    ensures r == "BEARER_TOKEN" <==> Lower(authType) == "bearer_token"
    ensures r == "OAUTH2" <==> Lower(authType) == "oauth2"
    ensures r == "API_KEY" <==> Lower(authType) != "bearer_token" && Lower(authType) != "oauth2"
  {
    var a := Lower(authType);
    if a == "bearer_token" then "BEARER_TOKEN" else if a == "oauth2" then "OAUTH2" else "API_KEY"
  }

  /** The auth scheme of the config the custom API-key branch makes. */
  function CustomApiScheme(authType: string): (r: string)
    ensures r == "BEARER_TOKEN" <==> Lower(authType) == "bearer_token"
    ensures r == "API_KEY" <==> Lower(authType) != "bearer_token"
  {
    if Lower(authType) == "bearer_token" then "BEARER_TOKEN" else "API_KEY"
  }

  /** The two mappings agree on everything but `oauth2`. */
  lemma SchemesAgree(authType: string)
    ensures Lower(authType) != "oauth2" <==> CustomApiScheme(authType) == CustomScheme(authType)
  {
  }

  function ManagedDraft(toolkitName: string): AuthConfig {
    AuthConfig("", None, Some(ManagedKind), Some(toolkitName + " Managed Config"), None, [])
  }

  function CustomDraft(toolkitName: string, authType: string): AuthConfig {
    AuthConfig("", None, Some(CustomKind), Some(toolkitName + " Custom Config"), Some(CustomScheme(authType)), [])
  }

  function ResolverFailure(message: string): string {
    "Failed to get or create auth config: " + message
  }

  /** `getOrCreateAuthConfig`: the id of the first stored config that matches, or else of a
      config created for the upper-cased slug. The connections are never touched and at most one
      config is added. */
  function ResolveConfig(s: Store, b: Behavior, slug: string, authType: string, managed: bool, toolkitName: string)
    : (r: (Result<string>, Store))
    ensures Extends(s, r.1) && r.1.connections == s.connections && |r.1.configs| <= |s.configs| + 1
  {
    if b.listConfigs.Some? then (Err(ResolverFailure(b.listConfigs.value)), s)
    else
      match FindConfig(s.configs, slug, managed)
      case Some(c) => (Ok(c.id), s)
      case None =>
        var draft := if managed then ManagedDraft(toolkitName) else CustomDraft(toolkitName, authType);
        var (id, s') := CreateConfigOn(s, b, Upper(slug), draft);
        (if id.Err? then Err(ResolverFailure(id.message)) else id, s')
  }

  // ---------------------------------------------------------------------------------------
  // choosing an existing connection

  /** `conn.authConfigId || conn.auth_config_id || conn.auth_config?.id`. */
  function ConfigRef(c: Connection): Option<string> {
    if Truthy(c.authConfigId) then c.authConfigId
    else if Truthy(c.authConfigIdSnake) then c.authConfigIdSnake
    else c.authConfigNestedId
  }

  /** Related for the managed OAuth branch: same auth config, OR same toolkit ignoring case. */
  predicate RelatedOAuth(c: Connection, configId: string, slug: string) {
    ConfigRef(c) == Some(configId) || Lower(c.toolkitSlug.GetOr("")) == Lower(slug)
  }

  /** Related for the managed API-key branch: the `authConfigId` field alone. */
  predicate RelatedByConfig(c: Connection, configId: string) {
    c.authConfigId == Some(configId)
  }

  predicate IsActive(c: Connection) { c.status == "ACTIVE" }

  /** The first active related connection, or else the first related one. */
  function SelectExisting(cs: seq<Connection>, related: Connection -> bool): (r: Option<Connection>)
    ensures Find(cs, (c: Connection) => related(c) && IsActive(c)).Some? ==>
              r == Find(cs, (c: Connection) => related(c) && IsActive(c))
    ensures Find(cs, (c: Connection) => related(c) && IsActive(c)).None? ==> r == Find(cs, related)
    ensures r.Some? <==> exists i :: 0 <= i < |cs| && related(cs[i])
  {
    var rel := Filter(cs, related);
    FindInFilter(cs, related, IsActive, (c: Connection) => related(c) && IsActive(c));
    FilterHead(cs, related);
    match Find(rel, IsActive)
    case Some(c) => Some(c)
    case None => if |rel| > 0 then Some(rel[0]) else None
  }

  /** The recovery choice: the existing choice, or else the user's first connection of any
      toolkit (`|| listResp.items[0]`). */
  function ChooseRecovery(cs: seq<Connection>, related: Connection -> bool): (r: Option<Connection>)
    ensures r.None? <==> |cs| == 0
    ensures r.Some? ==> r.value in cs
    ensures (exists i :: 0 <= i < |cs| && related(cs[i])) ==> r == SelectExisting(cs, related) && related(r.value)
    ensures (forall i :: 0 <= i < |cs| ==> !related(cs[i])) && |cs| > 0 ==> r == Some(cs[0])
  {
    match SelectExisting(cs, related)
    case Some(c) => Some(c)
    case None => if |cs| > 0 then Some(cs[0]) else None
  }

  // ---------------------------------------------------------------------------------------
  // the branches as functions of the stored records

  const MultipleAccounts := "Multiple connected accounts"

  function SdkFailure(message: string): string {
    "Composio SDK error: " + message
  }

  /** `s2` is `s1` with at most one config and at most one connection appended. */
  predicate Grows(s1: Store, s2: Store) {
    Extends(s1, s2) && |s2.configs| <= |s1.configs| + 1 && |s2.connections| <= |s1.connections| + 1
  }

  /** `reply` reports a connection that the call initiated: the one appended last, which is
      waiting for authorization at the link in the reply. */
  predicate Initiated(s1: Store, s2: Store, b: Behavior, reply: Reply) {
    |s2.connections| == |s1.connections| + 1 &&
    reply.connectionId == Some(s2.connections[|s1.connections|].id) &&
    s2.connections[|s1.connections|].status == "INITIATED" &&
    reply.redirectUrl == Some(b.authorizeUrl + reply.connectionId.value)
  }

  /** The `try` block of the managed OAuth branch; a thrown error is an `Err`. */
  function ManagedOAuthTry(s: Store, b: Behavior, slug: string, authType: string, user: string, toolkitName: string)
    : (r: (Result<Reply>, Store))
    ensures Extends(s, r.1) && |r.1.connections| <= |s.connections| + 1
    ensures r.1.configs == ResolveConfig(s, b, slug, authType, true, toolkitName).1.configs
    ensures r.0.Ok? && r.0.value.redirectUrl.Some? ==> Initiated(s, r.1, b, r.0.value)
    ensures r.0.Err? ==> r.1.connections == s.connections
  {
    var (id, s1) := ResolveConfig(s, b, slug, authType, true, toolkitName);
    if id.Err? then (Err(id.message), s1)
    else if b.listConnections.Some? then (Err(b.listConnections.value), s1)
    else
      match SelectExisting(UserConnections(s1, user), (c: Connection) => RelatedOAuth(c, id.value, slug))
      case Some(c) => (Ok(Connected("oauth2", c.id, None, None)), s1)
      case None =>
        var (req, s2) := InitiateOn(s1, b, user, id.value, None);
        if req.Err? then (Err(req.message), s2)
        else (Ok(Connected("oauth2", req.value.id, req.value.redirectUrl, Some(id.value))), s2)
  }

  /** The managed OAuth branch with its recovery from a "Multiple connected accounts" error;
      any other outcome of the `catch` rethrows. */
  function ManagedOAuthFlow(s: Store, b: Behavior, slug: string, authType: string, user: string, toolkitName: string)
    : (r: (Result<Reply>, Store))
    ensures Grows(s, r.1)
    ensures r.0.Ok? && r.0.value.redirectUrl.Some? ==> Initiated(s, r.1, b, r.0.value)
  {
    var (r, s1) := ManagedOAuthTry(s, b, slug, authType, user, toolkitName);
    if r.Ok? then (r, s1)
    else if !Contains(r.message, MultipleAccounts) then (Err(SdkFailure(r.message)), s1)
    else
      ResolveStable(s, b, slug, authType, true, toolkitName);
      ResolveConfigsOnly(s1, ResolveConfig(s, b, slug, authType, true, toolkitName).1, b, slug, authType, true, toolkitName);
      var (id, s2) := ResolveConfig(s1, b, slug, authType, true, toolkitName);
      if id.Err? || b.listConnections.Some? then (Err(SdkFailure(r.message)), s2)
      else
        match ChooseRecovery(UserConnections(s2, user), (c: Connection) => RelatedOAuth(c, id.value, slug))
        case Some(c) => (Ok(Connected("oauth2", c.id, None, None)), s2)
        case None => (Err(SdkFailure(r.message)), s2)
  }

  /** The managed API-key branch; its errors are rethrown. */
  function ManagedApiKeyFlow(s: Store, b: Behavior, slug: string, authType: string, user: string, toolkitName: string,
                             apiKey: Option<string>): (r: (Result<Reply>, Store))
    ensures Grows(s, r.1)
    ensures r.0.Ok? ==> r.0.value.redirectUrl.None?
  {
    var (id, s1) := ResolveConfig(s, b, slug, authType, true, toolkitName);
    if id.Err? then (Err(SdkFailure(id.message)), s1)
    else if b.listConnections.Some? then (Err(SdkFailure(b.listConnections.value)), s1)
    else
      match SelectExisting(UserConnections(s1, user), (c: Connection) => RelatedByConfig(c, id.value))
      case Some(c) => (Ok(Connected(authType, c.id, None, Some(id.value))), s1)
      case None =>
        var (req, s2) := InitiateOn(s1, b, user, id.value, Some(apiKey));
        if req.Err? then (Err(SdkFailure(req.message)), s2)
        else (Ok(Connected(authType, req.value.id, None, Some(id.value))), s2)
  }

  function CustomOAuthDraft(toolkitName: string, clientId: string, clientSecret: string): AuthConfig {
    AuthConfig("", None, Some(CustomKind), Some(toolkitName + " Custom OAuth Config"), Some("OAUTH2"),
               [("client_id", clientId), ("client_secret", clientSecret)])
  }

  function CustomApiKeyDraft(toolkitName: string, authType: string): AuthConfig {
    AuthConfig("", None, Some(CustomKind), Some(toolkitName + " Custom Config"), Some(CustomApiScheme(authType)), [])
  }

  predicate HasClientCredentials(creds: Option<Credentials>) {
    creds.Some? && Truthy(creds.value.clientId) && Truthy(creds.value.clientSecret)
  }

  predicate HasApiKey(creds: Option<Credentials>) {
    creds.Some? && Truthy(creds.value.apiKey)
  }

  /** The custom OAuth branch: a new OAuth2 config holding the client credentials, then an
      initiated connection; its errors give a 500 reply of its own. */
  function CustomOAuthFlow(s: Store, b: Behavior, slug: string, user: string, toolkitName: string, creds: Option<Credentials>)
    : (r: (Reply, Store))
    ensures Grows(s, r.1)
    ensures r.0.redirectUrl.Some? ==> Initiated(s, r.1, b, r.0)
    ensures !HasClientCredentials(creds) ==> r.1 == s && r.0.status == 400
  {
    if !HasClientCredentials(creds) then
      (Failure(400, "Client ID and Client Secret are required for OAuth2 authentication"), s)
    else
      var draft := CustomOAuthDraft(toolkitName, creds.value.clientId.value, creds.value.clientSecret.value);
      var (cid, s1) := CreateConfigOn(s, b, Upper(slug), draft);
      if cid.Err? then (Failure(500, "Failed to create custom OAuth2 connection: " + cid.message), s1)
      else
        var (req, s2) := InitiateOn(s1, b, user, cid.value, None);
        if req.Err? then (Failure(500, "Failed to create custom OAuth2 connection: " + req.message), s2)
        else (Connected("oauth2", req.value.id, req.value.redirectUrl, Some(cid.value)), s2)
  }

  /** The custom API-key branch: a new custom config, then a connection initiated with the key. */
  function CustomApiKeyFlow(s: Store, b: Behavior, slug: string, authType: string, user: string, toolkitName: string,
                            creds: Option<Credentials>): (r: (Reply, Store))
    ensures Grows(s, r.1)
    ensures r.0.redirectUrl.None?
    ensures !HasApiKey(creds) ==> r.1 == s && r.0.status == 400
  {
    if !HasApiKey(creds) then
      (Failure(400, "API Key is required for API key authentication"), s)
    else
      var (cid, s1) := CreateConfigOn(s, b, Upper(slug), CustomApiKeyDraft(toolkitName, authType));
      if cid.Err? then (Failure(500, "Failed to create custom API key connection: " + cid.message), s1)
      else
        var (req, s2) := InitiateOn(s1, b, user, cid.value, Some(creds.value.apiKey));
        if req.Err? then (Failure(500, "Failed to create custom API key connection: " + req.message), s2)
        else (Connected(authType, req.value.id, None, Some(cid.value)), s2)
  }

  function UnsupportedReply(authType: string, toolkitName: string): Reply {
    Failure(200, "Authentication scheme '" + authType + "' is not supported for " + toolkitName)
  }

  /** A rethrown error reaches the outermost `catch`. */
  function Settle(r: (Result<Reply>, Store)): (Reply, Store) {
    (if r.0.Ok? then r.0.value else Crashed(r.0.message), r.1)
  }

  /** The branch a validated request for toolkit `t` takes. */
  function PostRoute(authType: string, t: ToolkitInfo): Route {
    RouteOf(IsManaged(ManagedSchemes(t), authType), Lower(authType))
  }

  /** The handler. `fetched` is the toolkit lookup: the descriptor, or the message of the error
      it throws (`Failed to get toolkit info: <status>`). */
  function PostSpec(s: Store, b: Behavior, key: Option<string>, req: Request, fetched: Result<ToolkitInfo>): (r: (Reply, Store))
    ensures Grows(s, r.1)
    ensures r.0.redirectUrl.Some? ==> Initiated(s, r.1, b, r.0)
  {
    match Validate(key, req)
    case Some(reject) => (reject, s)
    case None =>
      if fetched.Err? then (Crashed(fetched.message), s)
      else
        var t := fetched.value;
        var slug, authType, user := req.toolkitSlug.value, req.authType.value, UserOf(req);
        match PostRoute(authType, t)
        case ManagedOAuth => Settle(ManagedOAuthFlow(s, b, slug, authType, user, t.name))
        case ManagedApiKey =>
          Settle(ManagedApiKeyFlow(s, b, slug, authType, user, t.name, if req.credentials.Some? then req.credentials.value.apiKey else None))
        case CustomOAuth => CustomOAuthFlow(s, b, slug, user, t.name, req.credentials)
        case CustomApiKey => CustomApiKeyFlow(s, b, slug, authType, user, t.name, req.credentials)
        case Unsupported => (UnsupportedReply(authType, t.name), s)
  }

  // ---------------------------------------------------------------------------------------
  // properties of the resolver

  /** A config the resolver creates is one it accepts on a later lookup. */
  lemma CreatedConfigMatches(slug: string, authType: string, managed: bool, toolkitName: string, id: string)
    ensures var draft := if managed then ManagedDraft(toolkitName) else CustomDraft(toolkitName, authType);
            ConfigMatches(draft.(id := id, toolkitSlug := Some(Upper(slug))), slug, managed)
  {
    LowerOfUpper(slug);
  }

  /** The resolver reuses the first accepted config, creates one only when none is accepted,
      and then returns the id of what it created. */
  lemma ResolveConfigSpec(s: Store, b: Behavior, slug: string, authType: string, managed: bool, toolkitName: string)
    ensures var r := ResolveConfig(s, b, slug, authType, managed, toolkitName);
            (b.listConfigs.None? && FindConfig(s.configs, slug, managed).Some? ==>
               r == (Ok(FindConfig(s.configs, slug, managed).value.id), s)) &&
            (r.1 != s <==> b.listConfigs.None? && FindConfig(s.configs, slug, managed).None? && b.createConfig.None?) &&
            (r.1 != s ==> |r.1.configs| == |s.configs| + 1 && r.0 == Ok(r.1.configs[|s.configs|].id) &&
                          ConfigMatches(r.1.configs[|s.configs|], slug, managed))
  {
    var r := ResolveConfig(s, b, slug, authType, managed, toolkitName);
    if b.listConfigs.None? && FindConfig(s.configs, slug, managed).None? && b.createConfig.None? {
      CreatedConfigMatches(slug, authType, managed, toolkitName, r.0.value);
      assert r.1.configs != s.configs;
    }
  }

  /** The resolver looks at the configs only. */
  lemma ResolveConfigsOnly(s: Store, t: Store, b: Behavior, slug: string, authType: string, managed: bool, toolkitName: string)
    requires s.configs == t.configs
    ensures ResolveConfig(s, b, slug, authType, managed, toolkitName).0 == ResolveConfig(t, b, slug, authType, managed, toolkitName).0
    ensures ResolveConfig(s, b, slug, authType, managed, toolkitName).1.configs ==
            ResolveConfig(t, b, slug, authType, managed, toolkitName).1.configs
  {
  }

  /** Resolving again right after resolving returns the same outcome and creates nothing more:
      a created config is accepted by the second lookup. */
  lemma ResolveStable(s: Store, b: Behavior, slug: string, authType: string, managed: bool, toolkitName: string)
    ensures var r := ResolveConfig(s, b, slug, authType, managed, toolkitName);
            ResolveConfig(r.1, b, slug, authType, managed, toolkitName) == r
  {
    var r := ResolveConfig(s, b, slug, authType, managed, toolkitName);
    ResolveConfigSpec(s, b, slug, authType, managed, toolkitName);
    if r.1 != s {
      var c := r.1.configs[|s.configs|];
      assert r.1.configs == s.configs + [c];
      FindAppend(s.configs, c, (x: AuthConfig) => ConfigMatches(x, slug, managed));
      assert FindConfig(r.1.configs, slug, managed) == Some(c);
    }
  }

  /** The name of the config the custom OAuth branch creates contains "OAuth Config", so the
      managed lookup accepts it as well as the custom one. */
  lemma CustomOAuthConfigLooksManaged(slug: string, toolkitName: string, clientId: string, clientSecret: string, id: string)
    ensures var c := CustomOAuthDraft(toolkitName, clientId, clientSecret).(id := id, toolkitSlug := Some(Upper(slug)));
            ConfigMatches(c, slug, true) && ConfigMatches(c, slug, false)
  {
    LowerOfUpper(slug);
    var name := toolkitName + " Custom OAuth Config";
    assert (" Custom OAuth Config")[8..] == "OAuth Config";
    assert name[|toolkitName| + 8..] == "OAuth Config";
    ContainsAt(name, "OAuth Config", |toolkitName| + 8);
  }

  // ---------------------------------------------------------------------------------------
  // properties of the branch decision

  /** The lowercased auth type and what the test compares after removing its first `_`. */
  lemma UnderscoreForms(a: string, b: string)
    requires '_' !in a
    ensures Lower(a + "_" + b) == Lower(a) + "_" + Lower(b)
    ensures RemoveFirstChar(Lower(a + "_" + b), '_') == Lower(a + b)
  {
    LowerAround(a, '_', b);
    LowerKeepsNonLetter(a, '_');
    RemoveFirstCharAfter(Lower(a), '_', Lower(b));
    LowerAppend(a, b);
  }

  /** Removing the first `_` lets `api_key` name the managed scheme `apikey`. */
  lemma FirstUnderscoreDropped(a: string, b: string)
    requires '_' !in a
    ensures IsManaged([a + b], a + "_" + b)
  {
    UnderscoreForms(a, b);
    assert Lower([a + b][0]) == RemoveFirstChar(Lower(a + "_" + b), '_');
  }

  /** Only the first `_` is removed: a second one keeps the scheme from matching a managed
      name without underscores. */
  lemma SecondUnderscoreKept(scheme: string, a: string, b: string)
    requires '_' !in scheme && '_' !in a && '_' in b
    ensures !IsManaged([scheme], a + "_" + b)
  {
    UnderscoreSurvives(a, b);
    LowerKeepsNonLetter(scheme, '_');
    assert LowerAll([scheme]) == [Lower(scheme)];
  }

  /** With a second `_`, both forms the test compares still contain an underscore. */
  lemma UnderscoreSurvives(a: string, b: string)
    requires '_' !in a && '_' in b
    ensures '_' in Lower(a + "_" + b) && '_' in RemoveFirstChar(Lower(a + "_" + b), '_')
  {
    UnderscoreForms(a, b);
    var k :| 0 <= k < |b| && b[k] == '_';
    assert (a + b)[|a| + k] == '_';
    LowerKeepsChar(a + b, '_');
    assert Lower(a + "_" + b)[|a|] == '_';
  }

  // ---------------------------------------------------------------------------------------
  // properties of the handler

  /** A request that fails validation gets its 400 reply before any platform call. */
  lemma PostValidatesFirst(s: Store, b: Behavior, key: Option<string>, req: Request, fetched: Result<ToolkitInfo>)
    ensures !Truthy(key) || !Truthy(req.toolkitSlug) || !Truthy(req.authType) ==>
              PostSpec(s, b, key, req, fetched).1 == s && PostSpec(s, b, key, req, fetched).0.status == 400
  {
  }

  /** An auth type of neither family gets a `success: false` reply and no platform call. */
  lemma PostUnsupported(s: Store, b: Behavior, key: Option<string>, req: Request, t: ToolkitInfo)
    requires Validate(key, req).None?
    requires !OAuthFamily(Lower(req.authType.value)) && !ApiKeyFamily(Lower(req.authType.value))
    ensures var r := PostSpec(s, b, key, req, Ok(t));
            r.1 == s && r.0.status == 200 && r.0.success == Some(false) && r.0.connectionId.None?
  {
  }

  /** The custom branches check their credentials before creating a config or initiating. */
  lemma PostCredentialsFirst(s: Store, b: Behavior, key: Option<string>, req: Request, t: ToolkitInfo)
    requires Validate(key, req).None?
    requires var route := PostRoute(req.authType.value, t);
             (route == CustomOAuth && !HasClientCredentials(req.credentials)) ||
             (route == CustomApiKey && !HasApiKey(req.credentials))
    ensures PostSpec(s, b, key, req, Ok(t)).1 == s && PostSpec(s, b, key, req, Ok(t)).0.status == 400
  {
  }

  /** Managed OAuth: when the user already has a related connection (same auth config or same
      toolkit), that one is reported and nothing is initiated. */
  lemma ManagedOAuthReusesConnection(s: Store, b: Behavior, slug: string, authType: string, user: string, toolkitName: string)
    requires ResolveConfig(s, b, slug, authType, true, toolkitName).0.Ok? && b.listConnections.None?
    requires var (id, s1) := ResolveConfig(s, b, slug, authType, true, toolkitName);
             exists i :: 0 <= i < |UserConnections(s1, user)| && RelatedOAuth(UserConnections(s1, user)[i], id.value, slug)
    ensures var (id, s1) := ResolveConfig(s, b, slug, authType, true, toolkitName);
            var chosen := SelectExisting(UserConnections(s1, user), (c: Connection) => RelatedOAuth(c, id.value, slug));
            var r := ManagedOAuthFlow(s, b, slug, authType, user, toolkitName);
            chosen.Some? && r == (Ok(Connected("oauth2", chosen.value.id, None, None)), s1) &&
            r.1.connections == s.connections
  {
    var (id, s1) := ResolveConfig(s, b, slug, authType, true, toolkitName);
    var chosen := SelectExisting(UserConnections(s1, user), (c: Connection) => RelatedOAuth(c, id.value, slug));
    assert chosen.Some?;
    assert ManagedOAuthTry(s, b, slug, authType, user, toolkitName) == (Ok(Connected("oauth2", chosen.value.id, None, None)), s1);
  }

  /** Managed API key: only the `authConfigId` field relates a connection, so connections of the
      same toolkit under another config do not prevent a new one. */
  lemma ManagedApiKeyMatchesConfigOnly(s: Store, b: Behavior, slug: string, authType: string, user: string, toolkitName: string,
                                       apiKey: Option<string>)
    requires ResolveConfig(s, b, slug, authType, true, toolkitName).0.Ok? && b.listConnections.None? && b.initiate.None?
    requires var (id, s1) := ResolveConfig(s, b, slug, authType, true, toolkitName);
             forall i :: 0 <= i < |UserConnections(s1, user)| ==> UserConnections(s1, user)[i].authConfigId != Some(id.value)
    ensures var r := ManagedApiKeyFlow(s, b, slug, authType, user, toolkitName, apiKey);
            r.0.Ok? && |r.1.connections| == |s.connections| + 1 &&
            r.0.value.connectionId == Some(r.1.connections[|s.connections|].id)
  {
    var (id, s1) := ResolveConfig(s, b, slug, authType, true, toolkitName);
    var related := (c: Connection) => RelatedByConfig(c, id.value);
    var cs := UserConnections(s1, user);
    assert forall i :: 0 <= i < |cs| ==> !related(cs[i]);
    assert Find(cs, (c: Connection) => related(c) && IsActive(c)).None?;
    assert SelectExisting(cs, related).None?;
  }

  /** The recovery after a "Multiple connected accounts" error reports the user's first
      connection, of whatever toolkit, when no connection is related. */
  lemma RecoveryFallsBack(s: Store, b: Behavior, slug: string, authType: string, user: string, toolkitName: string)
    requires var (r, s1) := ManagedOAuthTry(s, b, slug, authType, user, toolkitName);
             r.Err? && Contains(r.message, MultipleAccounts) && b.listConnections.None? &&
             ResolveConfig(s1, b, slug, authType, true, toolkitName).0.Ok?
    requires var (r, s1) := ManagedOAuthTry(s, b, slug, authType, user, toolkitName);
             var (id, s2) := ResolveConfig(s1, b, slug, authType, true, toolkitName);
             |UserConnections(s2, user)| > 0 &&
             forall i :: 0 <= i < |UserConnections(s2, user)| ==> !RelatedOAuth(UserConnections(s2, user)[i], id.value, slug)
    ensures var (r, s1) := ManagedOAuthTry(s, b, slug, authType, user, toolkitName);
            var (id, s2) := ResolveConfig(s1, b, slug, authType, true, toolkitName);
            ManagedOAuthFlow(s, b, slug, authType, user, toolkitName) ==
              (Ok(Connected("oauth2", UserConnections(s2, user)[0].id, None, None)), s2)
  {
  }

  /** A later managed request for the same toolkit reuses the config the custom OAuth branch
      created, because its name satisfies the managed name test. */
  lemma ManagedReusesCustomOAuthConfig(s: Store, b: Behavior, slug: string, user: string, toolkitName: string,
                                       creds: Option<Credentials>, authType: string)
    requires b.listConfigs.None? && b.createConfig.None? && b.initiate.None? && HasClientCredentials(creds)
    requires FindConfig(s.configs, slug, true).None?
    ensures var (reply, s') := CustomOAuthFlow(s, b, slug, user, toolkitName, creds);
            reply.authConfigId.Some? &&
            ResolveConfig(s', b, slug, authType, true, toolkitName) == (Ok(reply.authConfigId.value), s')
  {
    var draft := CustomOAuthDraft(toolkitName, creds.value.clientId.value, creds.value.clientSecret.value);
    var (cid, s1) := CreateConfigOn(s, b, Upper(slug), draft);
    var c := s1.configs[|s.configs|];
    assert c == draft.(id := cid.value, toolkitSlug := Some(Upper(slug)));
    CustomOAuthConfigLooksManaged(slug, toolkitName, creds.value.clientId.value, creds.value.clientSecret.value, cid.value);
    assert s1.configs == s.configs + [c];
    FindAppend(s.configs, c, (x: AuthConfig) => ConfigMatches(x, slug, true));
  }

  // ---------------------------------------------------------------------------------------
  // the handler as calls on the platform

  /** `getOrCreateAuthConfig`: list, look for a match, create if there is none. */
  method GetOrCreateAuthConfig(p: Platform, slug: string, authType: string, managed: bool, toolkitName: string)
    returns (r: Result<string>)
    modifies p
    ensures (r, p.Stored()) == ResolveConfig(old(p.Stored()), p.behavior, slug, authType, managed, toolkitName)
  {
    var listed := p.ListConfigs();
    if listed.Err? {
      return Err(ResolverFailure(listed.message));
    }
    var existing := FindConfig(listed.value, slug, managed);
    if existing.Some? {
      return Ok(existing.value.id);
    }
    var draft := if managed then ManagedDraft(toolkitName) else CustomDraft(toolkitName, authType);
    r := p.CreateConfig(Upper(slug), draft);
    if r.Err? {
      r := Err(ResolverFailure(r.message));
    }
  }

  /** The `try` block of the managed OAuth branch. */
  method ManagedOAuthAttempt(p: Platform, slug: string, authType: string, user: string, toolkitName: string)
    returns (r: Result<Reply>)
    modifies p
    ensures (r, p.Stored()) == ManagedOAuthTry(old(p.Stored()), p.behavior, slug, authType, user, toolkitName)
  {
    var id := GetOrCreateAuthConfig(p, slug, authType, true, toolkitName);
    if id.Err? {
      return Err(id.message);
    }
    var listed := p.ListConnections(user);
    if listed.Err? {
      return Err(listed.message);
    }
    var existing := SelectExisting(listed.value, (c: Connection) => RelatedOAuth(c, id.value, slug));
    if existing.Some? {
      return Ok(Connected("oauth2", existing.value.id, None, None));
    }
    var request := p.Initiate(user, id.value, None);
    if request.Err? {
      return Err(request.message);
    }
    return Ok(Connected("oauth2", request.value.id, request.value.redirectUrl, Some(id.value)));
  }

  /** The managed OAuth branch with its `catch`. */
  method ManagedOAuthConnect(p: Platform, slug: string, authType: string, user: string, toolkitName: string)
    returns (r: Result<Reply>)
    modifies p
    ensures (r, p.Stored()) == ManagedOAuthFlow(old(p.Stored()), p.behavior, slug, authType, user, toolkitName)
  {
    r := ManagedOAuthAttempt(p, slug, authType, user, toolkitName);
    if r.Ok? {
      return;
    }
    var failure := r.message;
    if Contains(failure, MultipleAccounts) {
      var id := GetOrCreateAuthConfig(p, slug, authType, true, toolkitName);
      if id.Ok? {
        var listed := p.ListConnections(user);
        if listed.Ok? {
          var chosen := ChooseRecovery(listed.value, (c: Connection) => RelatedOAuth(c, id.value, slug));
          if chosen.Some? {
            return Ok(Connected("oauth2", chosen.value.id, None, None));
          }
        }
      }
    }
    return Err(SdkFailure(failure));
  }

  /** The managed API-key branch. */
  method ManagedApiKeyConnect(p: Platform, slug: string, authType: string, user: string, toolkitName: string,
                              apiKey: Option<string>) returns (r: Result<Reply>)
    modifies p
    ensures (r, p.Stored()) == ManagedApiKeyFlow(old(p.Stored()), p.behavior, slug, authType, user, toolkitName, apiKey)
  {
    var id := GetOrCreateAuthConfig(p, slug, authType, true, toolkitName);
    if id.Err? {
      return Err(SdkFailure(id.message));
    }
    var listed := p.ListConnections(user);
    if listed.Err? {
      return Err(SdkFailure(listed.message));
    }
    var existing := SelectExisting(listed.value, (c: Connection) => RelatedByConfig(c, id.value));
    if existing.Some? {
      return Ok(Connected(authType, existing.value.id, None, Some(id.value)));
    }
    var request := p.Initiate(user, id.value, Some(apiKey));
    if request.Err? {
      return Err(SdkFailure(request.message));
    }
    return Ok(Connected(authType, request.value.id, None, Some(id.value)));
  }

  /** The custom OAuth branch. */
  method CustomOAuthConnect(p: Platform, slug: string, user: string, toolkitName: string, creds: Option<Credentials>)
    returns (reply: Reply)
    modifies p
    ensures (reply, p.Stored()) == CustomOAuthFlow(old(p.Stored()), p.behavior, slug, user, toolkitName, creds)
  {
    if !HasClientCredentials(creds) {
      return Failure(400, "Client ID and Client Secret are required for OAuth2 authentication");
    }
    var draft := CustomOAuthDraft(toolkitName, creds.value.clientId.value, creds.value.clientSecret.value);
    var cid := p.CreateConfig(Upper(slug), draft);
    if cid.Err? {
      return Failure(500, "Failed to create custom OAuth2 connection: " + cid.message);
    }
    var request := p.Initiate(user, cid.value, None);
    if request.Err? {
      return Failure(500, "Failed to create custom OAuth2 connection: " + request.message);
    }
    return Connected("oauth2", request.value.id, request.value.redirectUrl, Some(cid.value));
  }

  /** The custom API-key branch. */
  method CustomApiKeyConnect(p: Platform, slug: string, authType: string, user: string, toolkitName: string,
                             creds: Option<Credentials>) returns (reply: Reply)
    modifies p
    ensures (reply, p.Stored()) == CustomApiKeyFlow(old(p.Stored()), p.behavior, slug, authType, user, toolkitName, creds)
  {
    if !HasApiKey(creds) {
      return Failure(400, "API Key is required for API key authentication");
    }
    var cid := p.CreateConfig(Upper(slug), CustomApiKeyDraft(toolkitName, authType));
    if cid.Err? {
      return Failure(500, "Failed to create custom API key connection: " + cid.message);
    }
    var request := p.Initiate(user, cid.value, Some(creds.value.apiKey));
    if request.Err? {
      return Failure(500, "Failed to create custom API key connection: " + request.message);
    }
    return Connected(authType, request.value.id, None, Some(cid.value));
  }

  /** `POST`: validation, the toolkit lookup, then the branch. */
  method Post(p: Platform, key: Option<string>, req: Request, fetched: Result<ToolkitInfo>) returns (reply: Reply)
    modifies p
    ensures (reply, p.Stored()) == PostSpec(old(p.Stored()), p.behavior, key, req, fetched)
  {
    var reject := Validate(key, req);
    if reject.Some? {
      return reject.value;
    }
    if fetched.Err? {
      return Crashed(fetched.message);
    }
    var t := fetched.value;
    var slug, authType, user := req.toolkitSlug.value, req.authType.value, UserOf(req);
    match PostRoute(authType, t) {
      case ManagedOAuth =>
        var r := ManagedOAuthConnect(p, slug, authType, user, t.name);
        reply := if r.Ok? then r.value else Crashed(r.message);
      case ManagedApiKey =>
        var apiKey := if req.credentials.Some? then req.credentials.value.apiKey else None;
        var r := ManagedApiKeyConnect(p, slug, authType, user, t.name, apiKey);
        reply := if r.Ok? then r.value else Crashed(r.message);
      case CustomOAuth =>
        reply := CustomOAuthConnect(p, slug, user, t.name, req.credentials);
      case CustomApiKey =>
        reply := CustomApiKeyConnect(p, slug, authType, user, t.name, req.credentials);
      case Unsupported =>
        reply := UnsupportedReply(authType, t.name);
    }
  }
}
