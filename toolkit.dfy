/** Toolkit descriptors as the toolkit-info lookup returns them, the classification of their
    authentication (`lib/toolkit.ts`) and the per-toolkit connection status the client keeps. */
module Toolkit {
  import opened Wrappers
  import opened Strings

  /** One entry of `auth_config_details`. */
  datatype AuthConfigDetail = AuthConfigDetail(mode: Option<string>)

  /** A toolkit descriptor; both lists may be absent. */
  datatype ToolkitInfo = ToolkitInfo(
    name: string,
    managedAuthSchemes: Option<seq<string>>,
    authConfigDetails: Option<seq<AuthConfigDetail>>)

  /** What `analyzeToolkitAuth` reports. */
  datatype AuthAnalysis = AuthAnalysis(
    isComposioManaged: bool,
    isOAuth2: bool,
    isApiKey: bool,
    authScheme: Option<string>)

  /** The `status` field of a connection status. */
  datatype Phase = Connected | Connecting | NotConnected

  /** A `ToolkitConnectionStatus` record. Every field other than `status` may be missing,
      because the client builds entries by spreading a possibly missing previous entry. */
  datatype ConnectionStatus = ConnectionStatus(
    connected: Option<bool>,
    status: Phase,
    authScheme: Option<string>,
    isComposioManaged: Option<bool>,
    isOAuth2: Option<bool>,
    isApiKey: Option<bool>,
    managedSchemes: Option<seq<string>>,
    toolkitSlug: Option<string>,
    connectionId: Option<string>)

  /** The managed-scheme list, an absent one read as empty (`|| []`). */
  function ManagedSchemes(t: ToolkitInfo): seq<string> {
    t.managedAuthSchemes.GetOr([])
  }

  /** `auth_config_details?.[0]?.mode`. */
  function FirstMode(t: ToolkitInfo): Option<string> {
    match t.authConfigDetails
    case None => None
    case Some(ds) => if |ds| == 0 then None else ds[0].mode
  }

  /** The list lowercased element by element, as `map(s => s.toLowerCase())`. */
  function LowerAll(xs: seq<string>): (r: seq<string>)
    ensures |r| == |xs| && forall i :: 0 <= i < |xs| ==> r[i] == Lower(xs[i])
  {
    seq(|xs|, i requires 0 <= i < |xs| => Lower(xs[i]))
  }

  /** `authScheme?.toLowerCase() === expected`. */
  predicate ModeIs(mode: Option<string>, expected: string) {
    mode.Some? && Lower(mode.value) == expected
  }

  /** `analyzeToolkitAuth`. */
  function AnalyzeToolkitAuth(t: ToolkitInfo): (r: AuthAnalysis)
    ensures r.isComposioManaged <==> t.managedAuthSchemes.Some? && |t.managedAuthSchemes.value| > 0
    ensures t.authConfigDetails.None? || |t.authConfigDetails.value| == 0 ==> r.authScheme.None?
    ensures t.authConfigDetails.Some? && |t.authConfigDetails.value| > 0 ==>
              r.authScheme == t.authConfigDetails.value[0].mode
    ensures r.isOAuth2 <==>
              (exists i :: 0 <= i < |ManagedSchemes(t)| &&
                 (Lower(ManagedSchemes(t)[i]) == "oauth2" || Lower(ManagedSchemes(t)[i]) == "oauth")) ||
              (r.authScheme.Some? && Lower(r.authScheme.value) == "oauth2")
    ensures r.isApiKey <==>
              (exists i :: 0 <= i < |ManagedSchemes(t)| &&
                 (Lower(ManagedSchemes(t)[i]) == "api_key" || Lower(ManagedSchemes(t)[i]) == "bearer_token" ||
                  Lower(ManagedSchemes(t)[i]) == "apikey")) ||
              (r.authScheme.Some? && Lower(r.authScheme.value) == "api_key")
  {
    var managed := ManagedSchemes(t);
    var lowered := LowerAll(managed);
    var mode := FirstMode(t);
    AuthAnalysis(
      |managed| > 0,
      "oauth2" in lowered || "oauth" in lowered || ModeIs(mode, "oauth2"),
      "api_key" in lowered || "bearer_token" in lowered || "apikey" in lowered || ModeIs(mode, "api_key"),
      mode)
  }

  /** Only the first `auth_config_details` entry matters: descriptors that agree on the managed
      list and on that entry are classified alike. */
  lemma LaterDetailsIgnored(t: ToolkitInfo, u: ToolkitInfo)
    requires t.managedAuthSchemes == u.managedAuthSchemes
    requires t.authConfigDetails.Some? && u.authConfigDetails.Some?
    requires |t.authConfigDetails.value| > 0 && |u.authConfigDetails.value| > 0
    requires t.authConfigDetails.value[0] == u.authConfigDetails.value[0]
    ensures AnalyzeToolkitAuth(t) == AnalyzeToolkitAuth(u)
  {
  }

  /** The letter case of the managed schemes and of the mode does not affect the flags. */
  lemma CaseInsensitive(t: ToolkitInfo, u: ToolkitInfo)
    requires |ManagedSchemes(t)| == |ManagedSchemes(u)|
    requires forall i :: 0 <= i < |ManagedSchemes(t)| ==> Lower(ManagedSchemes(t)[i]) == Lower(ManagedSchemes(u)[i])
    requires FirstMode(t).Some? <==> FirstMode(u).Some?
    requires FirstMode(t).Some? ==> Lower(FirstMode(t).value) == Lower(FirstMode(u).value)
    ensures AnalyzeToolkitAuth(t).isComposioManaged == AnalyzeToolkitAuth(u).isComposioManaged
    ensures AnalyzeToolkitAuth(t).isOAuth2 == AnalyzeToolkitAuth(u).isOAuth2
    ensures AnalyzeToolkitAuth(t).isApiKey == AnalyzeToolkitAuth(u).isApiKey
  {
    assert LowerAll(ManagedSchemes(t)) == LowerAll(ManagedSchemes(u));
  }

  /** In particular upper-casing every managed scheme changes no flag. */
  lemma UpperCasedSchemes(t: ToolkitInfo, schemes: seq<string>)
    requires t.managedAuthSchemes == Some(schemes)
    ensures var u := t.(managedAuthSchemes := Some(seq(|schemes|, i requires 0 <= i < |schemes| => Upper(schemes[i]))));
            AnalyzeToolkitAuth(u).isOAuth2 == AnalyzeToolkitAuth(t).isOAuth2 &&
            AnalyzeToolkitAuth(u).isApiKey == AnalyzeToolkitAuth(t).isApiKey
  {
    var u := t.(managedAuthSchemes := Some(seq(|schemes|, i requires 0 <= i < |schemes| => Upper(schemes[i]))));
    forall i | 0 <= i < |schemes| ensures Lower(ManagedSchemes(u)[i]) == Lower(ManagedSchemes(t)[i]) {
      LowerOfUpper(schemes[i]);
    }
    CaseInsensitive(u, t);
  }

  /** The two family flags are independent: a toolkit can be both OAuth2 and API-key. */
  lemma BothFamilies()
    ensures var t := ToolkitInfo("Both", Some(["OAUTH2", "API_KEY"]), None);
            AnalyzeToolkitAuth(t).isOAuth2 && AnalyzeToolkitAuth(t).isApiKey &&
            AnalyzeToolkitAuth(t).isComposioManaged
  {
    var t := ToolkitInfo("Both", Some(["OAUTH2", "API_KEY"]), None);
    assert Lower(ManagedSchemes(t)[0]) == "oauth2";
    assert Lower(ManagedSchemes(t)[1]) == "api_key";
  }

  /** The mode alone can make a custom toolkit OAuth2: absent managed list, mode "OAuth2". */
  lemma ModeAloneDecides()
    ensures var t := ToolkitInfo("Custom", None, Some([AuthConfigDetail(Some("OAuth2")), AuthConfigDetail(Some("api_key"))]));
            !AnalyzeToolkitAuth(t).isComposioManaged && AnalyzeToolkitAuth(t).isOAuth2 &&
            !AnalyzeToolkitAuth(t).isApiKey
  {
    var t := ToolkitInfo("Custom", None, Some([AuthConfigDetail(Some("OAuth2")), AuthConfigDetail(Some("api_key"))]));
    assert Lower("OAuth2") == "oauth2";
  }

  /** `createConnectionStatus`: a fresh, unconnected entry carrying the analysis, the raw managed
      list and the slug. */
  function CreateConnectionStatus(t: ToolkitInfo, slug: string): (r: ConnectionStatus)
    ensures r.connected == Some(false) && r.status == NotConnected && r.connectionId.None?
    ensures r.authScheme == FirstMode(t)
    ensures r.isComposioManaged == Some(ManagedSchemes(t) != [])
    ensures r.isOAuth2 == Some(AnalyzeToolkitAuth(t).isOAuth2)
    ensures r.isApiKey == Some(AnalyzeToolkitAuth(t).isApiKey)
    ensures r.managedSchemes == t.managedAuthSchemes && r.toolkitSlug == Some(slug)
  {
    var auth := AnalyzeToolkitAuth(t);
    ConnectionStatus(
      Some(false), NotConnected, auth.authScheme,
      Some(auth.isComposioManaged), Some(auth.isOAuth2), Some(auth.isApiKey),
      t.managedAuthSchemes, Some(slug), None)
  }
}
