/** The connection state that the client page (`app/page.tsx`) keeps for the toolkits of a
    generated agent: a map from toolkit slug to connection status, the open credential form, and
    the handlers that update them.

    Every HTTP exchange is a parameter: the toolkit lookup is `fetched`, and a handler receives the
    JSON reply of its request, or `None` when the request or the decoding of its reply throws.
    Handlers run one at a time; the follow-up wait that a handler starts is returned as the
    connection id to wait for, and is a separate call. */
module Page {
  import opened Wrappers
  import opened Strings
  import opened Seqs
  import opened Toolkit
  import opened ToolNames
  import CreateConnection
  import WaitForConnection
  import Sdk

  /** The kind of credential form: `authType` `"oauth2"` or `"api_key"`. */
  datatype FormKind = OAuth2Form | ApiKeyForm

  function AuthTypeOf(kind: FormKind): string {
    if kind == OAuth2Form then "oauth2" else "api_key"
  }

  /** The open credential form (`credentialCollection`). */
  datatype CredentialForm = CredentialForm(toolkitSlug: string, kind: FormKind, credentials: CreateConnection.Credentials)

  /** The credentials `{}` a form opens with. */
  const NoCredentials := CreateConnection.Credentials(None, None, None)

  /** What `connectToolkit` decides to do. */
  datatype Action = NoAction | RequestOAuth | OpenForm(kind: FormKind) | Unsupported(scheme: Option<string>)

  /** A truthy optional flag. */
  predicate Flag(b: Option<bool>) { b == Some(true) }

  // ---------------------------------------------------------------------------------------
  // checkToolkitConnections

  /** The toolkit slug of each tool. */
  function ToolkitNames(tools: seq<string>): (r: seq<string>)
    ensures |r| == |tools| && forall i :: 0 <= i < |tools| ==> r[i] == ExtractToolkitName(tools[i])
  {
    seq(|tools|, i requires 0 <= i < |tools| => ExtractToolkitName(tools[i]))
  }

  /** The slugs that are checked: `[...new Set(tools.map(extractToolkitName))]`. */
  function Slugs(tools: seq<string>): seq<string> {
    Dedupe(ToolkitNames(tools))
  }

  /** The checked slugs are the toolkit slugs of the tools, each once, in the order in which the
      tools first name them. */
  lemma SlugsSpec(tools: seq<string>)
    ensures forall s :: s in Slugs(tools) <==> s in ToolkitNames(tools)
    ensures forall s :: s in Slugs(tools) <==> exists i :: 0 <= i < |tools| && ExtractToolkitName(tools[i]) == s
    ensures NoDuplicates(Slugs(tools))
    ensures forall i, j :: 0 <= i < j < |Slugs(tools)| ==>
              FirstIndexOf(ToolkitNames(tools), Slugs(tools)[i]) < FirstIndexOf(ToolkitNames(tools), Slugs(tools)[j])
  {
    var names := ToolkitNames(tools);
    DedupeSpec(names);
    forall s ensures s in Slugs(tools) <==> exists i :: 0 <= i < |tools| && ExtractToolkitName(tools[i]) == s {
      if s in Slugs(tools) {
        var k := FirstIndexOf(names, s);
        assert ExtractToolkitName(tools[k]) == s;
      }
      if exists i :: 0 <= i < |tools| && ExtractToolkitName(tools[i]) == s {
        var i :| 0 <= i < |tools| && ExtractToolkitName(tools[i]) == s;
        assert names[i] == s;
      }
    }
  }

  /** The status the page builds inline for a looked-up toolkit: the classification of
      `analyzeToolkitAuth`, repeated in place, with the managed list defaulted to `[]`. */
  function PageStatus(t: ToolkitInfo, slug: string): ConnectionStatus {
    var managedSchemes := t.managedAuthSchemes.GetOr([]);
    var authScheme := if t.authConfigDetails.Some? && |t.authConfigDetails.value| > 0 then t.authConfigDetails.value[0].mode else None;
    var lowered := LowerAll(managedSchemes);
    ConnectionStatus(
      Some(false), NotConnected, authScheme, Some(|managedSchemes| > 0),
      Some("oauth2" in lowered || "oauth" in lowered || ModeIs(authScheme, "oauth2")),
      Some("api_key" in lowered || "bearer_token" in lowered || "apikey" in lowered || ModeIs(authScheme, "api_key")),
      Some(managedSchemes), Some(slug), None)
  }

  /** The inline copy agrees with `createConnectionStatus` except that it stores an absent
      managed list as `[]` where `createConnectionStatus` leaves it absent. */
  lemma PageStatusAgrees(t: ToolkitInfo, slug: string)
    ensures PageStatus(t, slug) == CreateConnectionStatus(t, slug).(managedSchemes := Some(ManagedSchemes(t)))
    ensures t.managedAuthSchemes.None? ==>
              PageStatus(t, slug).managedSchemes == Some([]) && CreateConnectionStatus(t, slug).managedSchemes.None?
  {
  }

  /** The status map after checking: an entry for exactly the slugs whose lookup succeeded. */
  function CheckedStatuses(slugs: seq<string>, fetched: string -> Option<ToolkitInfo>): map<string, ConnectionStatus> {
    map s | s in slugs && fetched(s).Some? :: PageStatus(fetched(s).value, s)
  }

  function CheckedInfos(slugs: seq<string>, fetched: string -> Option<ToolkitInfo>): map<string, ToolkitInfo> {
    map s | s in slugs && fetched(s).Some? :: fetched(s).value
  }

  /** Checking one more slug adds its entry when its lookup succeeds. */
  lemma CheckedSnoc(slugs: seq<string>, slug: string, fetched: string -> Option<ToolkitInfo>)
    ensures CheckedInfos(slugs + [slug], fetched) ==
              if fetched(slug).Some? then CheckedInfos(slugs, fetched)[slug := fetched(slug).value] else CheckedInfos(slugs, fetched)
    ensures CheckedStatuses(slugs + [slug], fetched) ==
              if fetched(slug).Some? then CheckedStatuses(slugs, fetched)[slug := PageStatus(fetched(slug).value, slug)]
              else CheckedStatuses(slugs, fetched)
  {
    assert forall s :: s in slugs + [slug] <==> s in slugs || s == slug;
  }

  /** Every fresh entry is unconnected and carries its own slug. */
  lemma CheckedEntries(tools: seq<string>, fetched: string -> Option<ToolkitInfo>, s: string)
    requires s in CheckedStatuses(Slugs(tools), fetched)
    ensures var e := CheckedStatuses(Slugs(tools), fetched)[s];
            e.connected == Some(false) && e.status == NotConnected && e.toolkitSlug == Some(s) && e.connectionId.None?
    ensures s in CheckedInfos(Slugs(tools), fetched) && fetched(s) == Some(CheckedInfos(Slugs(tools), fetched)[s])
    ensures exists i :: 0 <= i < |tools| && ExtractToolkitName(tools[i]) == s
  {
    SlugsSpec(tools);
  }

  // ---------------------------------------------------------------------------------------
  // per-slug updates

  /** `prev[slug]`, or an entry with no fields when there is none (spreading `undefined`). */
  function Previous(m: map<string, ConnectionStatus>, slug: string): ConnectionStatus {
    if slug in m then m[slug] else ConnectionStatus(None, NotConnected, None, None, None, None, None, None, None)
  }

  /** `r` differs from `m` at most in the entry of `slug`, which it has. */
  predicate OnlyAt(m: map<string, ConnectionStatus>, r: map<string, ConnectionStatus>, slug: string) {
    r.Keys == m.Keys + {slug} && forall k :: k in m && k != slug ==> r[k] == m[k]
  }

  /** `{ ...prev, [slug]: { ...prev[slug], status } }`. */
  function SetPhase(m: map<string, ConnectionStatus>, slug: string, phase: Phase): (r: map<string, ConnectionStatus>)
    ensures OnlyAt(m, r, slug)
    ensures r[slug].status == phase && r[slug].(status := Previous(m, slug).status) == Previous(m, slug)
  {
    m[slug := Previous(m, slug).(status := phase)]
  }

  /** `{ ...prev, [slug]: { ...prev[slug], connected: true, status: "connected", connectionId } }`,
      the connection id being left as it was when `id` is `None`. */
  function MarkConnected(m: map<string, ConnectionStatus>, slug: string, id: Option<string>): (r: map<string, ConnectionStatus>)
    ensures OnlyAt(m, r, slug)
    ensures r[slug].connected == Some(true) && r[slug].status == Connected
    ensures r[slug].connectionId == if id.Some? then id else Previous(m, slug).connectionId
    ensures var p := Previous(m, slug);
            r[slug].(connected := p.connected, status := p.status, connectionId := p.connectionId) == p
  {
    var p := Previous(m, slug);
    m[slug := p.(connected := Some(true), status := Connected, connectionId := if id.Some? then id else p.connectionId)]
  }

  /** What a handler leaves behind: the status map, the credential form, and the connection id
      of the wait it starts, if any. */
  datatype Step = Step(statuses: map<string, ConnectionStatus>, form: Option<CredentialForm>, waitFor: Option<string>)

  /** `response.ok`. */
  predicate ReplyOk(r: CreateConnection.Reply) { 200 <= r.status < 300 }

  // ---------------------------------------------------------------------------------------
  // connectToolkit

  /** The branch of `connectToolkit`: nothing without both toolkit info and status, otherwise the
      first rule whose flags hold. */
  function Dispatch(infos: map<string, ToolkitInfo>, statuses: map<string, ConnectionStatus>, slug: string): (r: Action)
    ensures r.NoAction? <==> slug !in infos || slug !in statuses
  {
    if slug !in infos || slug !in statuses then NoAction
    else
      var st := statuses[slug];
      if Flag(st.isComposioManaged) && Flag(st.isOAuth2) then RequestOAuth
      else if Flag(st.isComposioManaged) && Flag(st.isApiKey) then OpenForm(ApiKeyForm)
      else if !Flag(st.isComposioManaged) && Flag(st.isOAuth2) then OpenForm(OAuth2Form)
      else if !Flag(st.isComposioManaged) && Flag(st.isApiKey) then OpenForm(ApiKeyForm)
      else Unsupported(st.authScheme)
  }

  /** The managed OAuth request: `{ toolkitSlug, authType: "oauth2", userId }`. */
  function OAuthRequest(slug: string, userId: string): CreateConnection.Request {
    CreateConnection.Request(Some(slug), Some("oauth2"), None, Some(userId))
  }

  /** The reply to the managed OAuth request: a redirect link with a connection id starts the
      wait, a connection id alone marks the toolkit connected, anything else changes nothing. */
  function OAuthReplied(m: map<string, ConnectionStatus>, slug: string, reply: Option<CreateConnection.Reply>)
    : (r: (map<string, ConnectionStatus>, Option<string>))
    ensures r.1.Some? ==> r.0 == SetPhase(m, slug, Connecting) && reply.Some? && r.1 == reply.value.connectionId
    ensures r.0 != m ==> OnlyAt(m, r.0, slug)
    ensures reply.None? || !ReplyOk(reply.value) || !Truthy(reply.value.connectionId) ==> r == (m, None)
  {
    match reply
    case None => (m, None)
    case Some(data) =>
      if !ReplyOk(data) then (m, None)
      else if Truthy(data.redirectUrl) && Truthy(data.connectionId) then (SetPhase(m, slug, Connecting), data.connectionId)
      else if Truthy(data.connectionId) then (MarkConnected(m, slug, data.connectionId), None)
      else (m, None)
  }

  /** `connectToolkit`. */
  function ConnectSpec(infos: map<string, ToolkitInfo>, statuses: map<string, ConnectionStatus>, form: Option<CredentialForm>,
                       slug: string, reply: Option<CreateConnection.Reply>): (r: Step)
    ensures r.statuses != statuses ==> OnlyAt(statuses, r.statuses, slug)
    ensures r.form != form ==> r.form.Some? && r.form.value.toolkitSlug == slug && r.form.value.credentials == NoCredentials
    ensures r.waitFor.Some? ==> slug in r.statuses && r.statuses[slug].status == Connecting
    ensures Dispatch(infos, statuses, slug) != RequestOAuth ==> r.statuses == statuses && r.waitFor.None?
  {
    match Dispatch(infos, statuses, slug)
    case RequestOAuth =>
      var (m, w) := OAuthReplied(statuses, slug, reply);
      Step(m, form, w)
    case OpenForm(kind) => Step(statuses, Some(CredentialForm(slug, kind, NoCredentials)), None)
    case _ => Step(statuses, form, None)
  }

  // ---------------------------------------------------------------------------------------
  // the credential form

  datatype Field = ClientIdField | ClientSecretField | ApiKeyField

  /** An `onChange` of a form input: `prev ? { ...prev, credentials: { ...prev.credentials, f } } : null`. */
  function Typed(form: Option<CredentialForm>, field: Field, value: string): (r: Option<CredentialForm>)
    ensures r.Some? <==> form.Some?
    ensures r.Some? ==> r.value.toolkitSlug == form.value.toolkitSlug && r.value.kind == form.value.kind
    ensures r.Some? ==> var c, d := r.value.credentials, form.value.credentials;
              c.clientId == (if field == ClientIdField then Some(value) else d.clientId) &&
              c.clientSecret == (if field == ClientSecretField then Some(value) else d.clientSecret) &&
              c.apiKey == (if field == ApiKeyField then Some(value) else d.apiKey)
  {
    match form
    case None => None
    case Some(f) =>
      var c := f.credentials;
      Some(f.(credentials := match field
        case ClientIdField => c.(clientId := Some(value))
        case ClientSecretField => c.(clientSecret := Some(value))
        case ApiKeyField => c.(apiKey := Some(value))))
  }

  /** The `disabled` test of the Connect button. */
  predicate SubmitDisabled(form: CredentialForm) {
    if form.kind == OAuth2Form then !Truthy(form.credentials.clientId) || !Truthy(form.credentials.clientSecret)
    else !Truthy(form.credentials.apiKey)
  }

  /** The request a submit posts: `{ toolkitSlug, authType, credentials, userId }`. */
  function SubmitRequest(form: CredentialForm, userId: string): CreateConnection.Request {
    CreateConnection.Request(Some(form.toolkitSlug), Some(AuthTypeOf(form.kind)), Some(form.credentials), Some(userId))
  }

  /** `handleCredentialSubmit`: the form is closed before the request; an OAuth2 reply with a
      redirect link marks the toolkit connecting and starts the wait when it names a connection,
      any other successful reply marks it connected, and a failure changes no status. */
  function SubmitSpec(statuses: map<string, ConnectionStatus>, form: CredentialForm, reply: Option<CreateConnection.Reply>)
    : (r: Step)
    ensures r.form.None?
    ensures r.statuses != statuses ==> OnlyAt(statuses, r.statuses, form.toolkitSlug)
    ensures reply.None? || !ReplyOk(reply.value) ==> r.statuses == statuses && r.waitFor.None?
    ensures reply.Some? && ReplyOk(reply.value) ==>
              (form.kind == OAuth2Form && Truthy(reply.value.redirectUrl) <==>
                 r.statuses == SetPhase(statuses, form.toolkitSlug, Connecting)) &&
              (!(form.kind == OAuth2Form && Truthy(reply.value.redirectUrl)) <==>
                 r.statuses == MarkConnected(statuses, form.toolkitSlug, None))
    ensures r.waitFor.Some? ==> r.waitFor == reply.value.connectionId && r.statuses[form.toolkitSlug].status == Connecting
  {
    var slug := form.toolkitSlug;
    match reply
    case None => Step(statuses, None, None)
    case Some(data) =>
      if !ReplyOk(data) then Step(statuses, None, None)
      else if form.kind == OAuth2Form && Truthy(data.redirectUrl) then
        Step(SetPhase(statuses, slug, Connecting), None, if Truthy(data.connectionId) then data.connectionId else None)
      else
        Step(MarkConnected(statuses, slug, None), None, None)
  }

  // ---------------------------------------------------------------------------------------
  // waitForOAuthConnection

  const WaitTimeout := 300000

  /** The wait request: `{ connectionId, timeout: 300000 }`, without a user id. */
  function WaitRequestFor(id: string): WaitForConnection.WaitRequest {
    WaitForConnection.WaitRequest(Some(id), None, Some(WaitTimeout))
  }

  /** Whether a wait reply ends the attempt without a connection. */
  predicate GaveUp(reply: WaitForConnection.WaitReply) {
    reply.status == Some("EXPIRED") || reply.status == Some("INACTIVE") || reply.status == Some("TIMEOUT")
  }

  /** `waitForOAuthConnection`: an ACTIVE success marks the toolkit connected with the connection
      id, EXPIRED, INACTIVE, TIMEOUT and a thrown request mark it not connected, and every other
      reply changes nothing. */
  function AfterWait(m: map<string, ConnectionStatus>, slug: string, id: string, reply: Option<WaitForConnection.WaitReply>)
    : (r: map<string, ConnectionStatus>)
    ensures r == m || OnlyAt(m, r, slug)
    ensures slug in r && r[slug].status == Connected && (slug !in m || m[slug].status != Connected) ==>
              reply.Some? && reply.value.status == Some("ACTIVE")
  {
    match reply
    case None => SetPhase(m, slug, NotConnected)
    case Some(data) =>
      if Flag(data.success) && data.status == Some("ACTIVE") then MarkConnected(m, slug, Some(id))
      else if GaveUp(data) then SetPhase(m, slug, NotConnected)
      else m
  }

  // ---------------------------------------------------------------------------------------
  // the page state

  class Home {
    const userId: string
    var toolkitInfos: map<string, ToolkitInfo>
    var statuses: map<string, ConnectionStatus>
    var form: Option<CredentialForm>

    /** The page with a user id and nothing checked yet. */
    constructor(userId: string)
      ensures this.userId == userId && toolkitInfos == map[] && statuses == map[] && form.None?
    {
      this.userId := userId;
      toolkitInfos := map[];
      statuses := map[];
      form := None;
    }

    /** `checkToolkitConnections`: look every slug up and replace both maps with what was found. */
    method CheckToolkitConnections(tools: seq<string>, fetched: string -> Option<ToolkitInfo>)
      modifies this
      ensures toolkitInfos == CheckedInfos(Slugs(tools), fetched)
      ensures statuses == CheckedStatuses(Slugs(tools), fetched)
      ensures form == old(form)
    {
      var slugs := Slugs(tools);
      var infos: map<string, ToolkitInfo> := map[];
      var found: map<string, ConnectionStatus> := map[];
      for i := 0 to |slugs|
        invariant infos == CheckedInfos(slugs[..i], fetched)
        invariant found == CheckedStatuses(slugs[..i], fetched)
        invariant form == old(form)
      {
        var slug := slugs[i];
        assert slugs[..i + 1] == slugs[..i] + [slug];
        CheckedSnoc(slugs[..i], slug, fetched);
        var t := fetched(slug);
        if t.Some? {
          infos := infos[slug := t.value];
          found := found[slug := PageStatus(t.value, slug)];
        }
      }
      assert slugs[..|slugs|] == slugs;
      toolkitInfos := infos;
      statuses := found;
    }

    /** `connectToolkit`; `reply` answers the managed OAuth request when one is made. */
    method ConnectToolkit(slug: string, reply: Option<CreateConnection.Reply>) returns (action: Action, waitFor: Option<string>)
      modifies this
      ensures action == Dispatch(toolkitInfos, old(statuses), slug)
      ensures Step(statuses, form, waitFor) == ConnectSpec(toolkitInfos, old(statuses), old(form), slug, reply)
      ensures toolkitInfos == old(toolkitInfos)
    {
      action := Dispatch(toolkitInfos, statuses, slug);
      waitFor := None;
      match action {
        case RequestOAuth =>
          if reply.Some? && ReplyOk(reply.value) {
            var data := reply.value;
            if Truthy(data.redirectUrl) && Truthy(data.connectionId) {
              statuses := SetPhase(statuses, slug, Connecting);
              waitFor := data.connectionId;
            } else if Truthy(data.connectionId) {
              statuses := MarkConnected(statuses, slug, data.connectionId);
            }
          }
        case OpenForm(kind) =>
          form := Some(CredentialForm(slug, kind, NoCredentials));
        case _ =>
      }
    }

    /** Typing into an input of the open form. */
    method Type(field: Field, value: string)
      modifies this
      ensures form == Typed(old(form), field, value)
      ensures statuses == old(statuses) && toolkitInfos == old(toolkitInfos)
    {
      form := Typed(form, field, value);
    }

    /** The Cancel button. */
    method Cancel()
      modifies this
      ensures form.None? && statuses == old(statuses) && toolkitInfos == old(toolkitInfos)
    {
      form := None;
    }

    /** `handleCredentialSubmit`: nothing without an open form; otherwise the posted request is
        returned beside the new state. */
    method HandleCredentialSubmit(reply: Option<CreateConnection.Reply>) returns (sent: Option<CreateConnection.Request>, waitFor: Option<string>)
      modifies this
      ensures old(form).None? ==> sent.None? && waitFor.None? && form.None? && statuses == old(statuses)
      ensures old(form).Some? ==>
                sent == Some(SubmitRequest(old(form).value, userId)) &&
                Step(statuses, form, waitFor) == SubmitSpec(old(statuses), old(form).value, reply)
      ensures toolkitInfos == old(toolkitInfos)
    {
      if form.None? {
        return None, None;
      }
      var f := form.value;
      form := None;
      sent := Some(SubmitRequest(f, userId));
      waitFor := None;
      if reply.Some? && ReplyOk(reply.value) {
        var data := reply.value;
        if f.kind == OAuth2Form && Truthy(data.redirectUrl) {
          statuses := SetPhase(statuses, f.toolkitSlug, Connecting);
          if Truthy(data.connectionId) {
            waitFor := data.connectionId;
          }
        } else {
          statuses := MarkConnected(statuses, f.toolkitSlug, None);
        }
      }
    }

    /** `waitForOAuthConnection`; `reply` answers the wait request. */
    method WaitForOAuthConnection(id: string, slug: string, reply: Option<WaitForConnection.WaitReply>)
      returns (sent: WaitForConnection.WaitRequest)
      modifies this
      ensures sent == WaitRequestFor(id)
      ensures statuses == AfterWait(old(statuses), slug, id, reply)
      ensures form == old(form) && toolkitInfos == old(toolkitInfos)
    {
      sent := WaitRequestFor(id);
      if reply.None? {
        statuses := SetPhase(statuses, slug, NotConnected);
      } else if Flag(reply.value.success) && reply.value.status == Some("ACTIVE") {
        statuses := MarkConnected(statuses, slug, Some(id));
      } else if GaveUp(reply.value) {
        statuses := SetPhase(statuses, slug, NotConnected);
      }
    }
  }

  // ---------------------------------------------------------------------------------------
  // properties

  /** For a freshly checked toolkit the branch follows `analyzeToolkitAuth`. */
  lemma DispatchOfChecked(infos: map<string, ToolkitInfo>, t: ToolkitInfo, slug: string)
    requires slug in infos
    ensures var a := AnalyzeToolkitAuth(t);
            var d := Dispatch(infos, map[slug := PageStatus(t, slug)], slug);
            (d == RequestOAuth <==> a.isComposioManaged && a.isOAuth2) &&
            (d == OpenForm(OAuth2Form) <==> !a.isComposioManaged && a.isOAuth2) &&
            (d == OpenForm(ApiKeyForm) <==> !a.isOAuth2 && a.isApiKey) &&
            (d == Unsupported(a.authScheme) <==> !a.isOAuth2 && !a.isApiKey)
  {
    PageStatusAgrees(t, slug);
  }

  /** A toolkit that lists OAUTH2 among its managed schemes is sent down the managed OAuth
      branch, and the server takes that branch too. */
  lemma ManagedOAuthAgrees(infos: map<string, ToolkitInfo>, t: ToolkitInfo, slug: string, i: nat)
    requires slug in infos && i < |ManagedSchemes(t)| && Lower(ManagedSchemes(t)[i]) == "oauth2"
    ensures Dispatch(infos, map[slug := PageStatus(t, slug)], slug) == RequestOAuth
    ensures CreateConnection.PostRoute("oauth2", t) == CreateConnection.ManagedOAuth
  {
    LowerOfLower("oauth2");
    assert LowerAll(ManagedSchemes(t))[i] == "oauth2";
    DispatchOfChecked(infos, t, slug);
  }

  /** Without OAUTH2 in the managed list the server does not count OAuth2 as managed, whatever
      the rest of the descriptor says. */
  lemma ServerRoutesCustomOAuth(t: ToolkitInfo)
    requires forall i :: 0 <= i < |ManagedSchemes(t)| ==> Lower(ManagedSchemes(t)[i]) != "oauth2"
    ensures CreateConnection.PostRoute("oauth2", t) == CreateConnection.CustomOAuth
  {
    LowerOfLower("oauth2");
    assert RemoveFirstChar("oauth2", '_') == "oauth2";
  }

  /** The client and the server disagree when the client classifies a toolkit as managed OAuth2
      but its managed list does not name OAUTH2 (it names OAUTH, say, or only API_KEY while the
      first auth config's mode is OAuth2): the client sends the managed OAuth request, which
      carries no credentials, the server takes the custom OAuth branch and rejects it with 400. */
  lemma ManagedOAuthMismatch(infos: map<string, ToolkitInfo>, t: ToolkitInfo, s: Sdk.Store, b: Sdk.Behavior,
                             key: string, slug: string, user: string)
    requires slug != "" && key != "" && slug in infos
    requires AnalyzeToolkitAuth(t).isComposioManaged && AnalyzeToolkitAuth(t).isOAuth2
    requires forall i :: 0 <= i < |ManagedSchemes(t)| ==> Lower(ManagedSchemes(t)[i]) != "oauth2"
    ensures Dispatch(infos, map[slug := PageStatus(t, slug)], slug) == RequestOAuth
    ensures CreateConnection.PostRoute("oauth2", t) == CreateConnection.CustomOAuth
    ensures var r := CreateConnection.PostSpec(s, b, Some(key), OAuthRequest(slug, user), Ok(t));
            r.0.status == 400 && r.1 == s
  {
    DispatchOfChecked(infos, t, slug);
    ServerRoutesCustomOAuth(t);
  }

  /** Such toolkits exist: a managed list with only API_KEY and an OAuth2 mode. */
  lemma MismatchExample()
    ensures var t := ToolkitInfo("Docs", Some(["API_KEY"]), Some([AuthConfigDetail(Some("OAUTH2"))]));
            AnalyzeToolkitAuth(t).isComposioManaged && AnalyzeToolkitAuth(t).isOAuth2 &&
            forall i :: 0 <= i < |ManagedSchemes(t)| ==> Lower(ManagedSchemes(t)[i]) != "oauth2"
  {
    assert Lower("OAUTH2") == "oauth2";
    assert |Lower("API_KEY")| == 7;
  }

  /** Every form opens empty, so its Connect button starts disabled. */
  lemma FormOpensDisabled(infos: map<string, ToolkitInfo>, statuses: map<string, ConnectionStatus>,
                          form: Option<CredentialForm>, slug: string, reply: Option<CreateConnection.Reply>)
    requires ConnectSpec(infos, statuses, form, slug, reply).form != form
    ensures SubmitDisabled(ConnectSpec(infos, statuses, form, slug, reply).form.value)
  {
  }

  /** The Connect button is enabled exactly when the request it posts passes the server's
      credential check for the form's kind. */
  lemma SubmitEnabledMatchesServer(form: CredentialForm, userId: string)
    ensures var creds := SubmitRequest(form, userId).credentials;
            !SubmitDisabled(form) <==>
              if form.kind == OAuth2Form then CreateConnection.HasClientCredentials(creds) else CreateConnection.HasApiKey(creds)
  {
  }

  /** Filling both OAuth2 fields with non-empty text enables Connect, whatever else was typed. */
  lemma TypingEnables(form: CredentialForm, id: string, secret: string)
    requires form.kind == OAuth2Form && id != "" && secret != ""
    ensures var f := Typed(Typed(Some(form), ClientIdField, id), ClientSecretField, secret);
            f.Some? && !SubmitDisabled(f.value)
  {
  }

  /** How the server's wait reply moves an entry that is connecting: connected only after a read
      reported ACTIVE, not connected after EXPIRED, INACTIVE or a timeout, and left connecting on
      every other reply. */
  lemma WaitMovesConnecting(m: map<string, ConnectionStatus>, slug: string, id: string, key: Option<string>,
                            read: nat -> WaitForConnection.Read, clock: nat -> int)
    requires WaitForConnection.Ticking(clock) && slug in m && m[slug].status == Connecting
    ensures var reply := WaitForConnection.WaitSpec(key, WaitRequestFor(id), read, clock);
            var r := AfterWait(m, slug, id, Some(reply));
            OnlyAt(m, r, slug) &&
            (r[slug].status == Connected ==>
               r[slug].connectionId == Some(id) && exists n :: 0 <= n && read(n) == WaitForConnection.Status("ACTIVE")) &&
            (r[slug].status == NotConnected <==> GaveUp(reply)) &&
            (r[slug].status == Connecting ==> r[slug] == m[slug])
  {
    var reply := WaitForConnection.WaitSpec(key, WaitRequestFor(id), read, clock);
    WaitForConnection.WaitReplies(key, WaitRequestFor(id), read, clock);
  }

  /** A connection the server reports as not found leaves the entry connecting. */
  lemma NotFoundStaysConnecting(m: map<string, ConnectionStatus>, slug: string, id: string, key: string,
                                read: nat -> WaitForConnection.Read, clock: nat -> int, message: string)
    requires WaitForConnection.Ticking(clock) && key != "" && id != "" && slug in m && m[slug].status == Connecting
    requires read(0) == WaitForConnection.Failed(message) && Contains(message, "not found")
    ensures WaitForConnection.WaitSpec(Some(key), WaitRequestFor(id), read, clock).status == Some("NOT_FOUND")
    ensures AfterWait(m, slug, id, Some(WaitForConnection.WaitSpec(Some(key), WaitRequestFor(id), read, clock))) == m
  {
  }

  /** A failed wait request marks the entry not connected and keeps all its other fields. */
  lemma ThrownWaitGivesUp(m: map<string, ConnectionStatus>, slug: string, id: string)
    requires slug in m
    ensures var r := AfterWait(m, slug, id, None);
            r[slug] == m[slug].(status := NotConnected) && OnlyAt(m, r, slug)
  {
  }
}
