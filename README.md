# lovable-ai-agent: a verified model of its decision logic

The application turns an agent idea into a generated agent. Its server asks a language model for
a use case, a list of Composio tools, a system prompt and a web page, and fills a backend template
with the results. Its client page then checks which Composio toolkits those tools belong to and
lets the user connect each one. A connection uses either OAuth2 or an API key, and either
Composio-managed credentials or the user's own. The server side of connecting is a
create-connection route, which picks one of five branches against the Composio platform, and a
wait-for-connection route, which polls a connection until it becomes active.

This project models that logic in Dafny and proves what it promises:

- `toolkit.dfy`: the authentication classifier of a toolkit descriptor and the initial
  connection status.
- `tool_names.dfy`, `labels.dfy`, `frontend_code.dfy`, `shims.dfy`: the string utilities.
  These are tool name to toolkit slug, the display form of a tool name, the auth-type and
  managed-status labels, the clean-up of the generated page, and the insertion of the iframe
  shims after the page's head tag.
- `sdk.dfy`: the Composio platform as a class. It stores auth configs and connected accounts,
  and the SDK calls only append to them. Which calls fail, and how the platform names new
  records and authorization links, are fixed parameters of the platform.
- `create_connection.dfy`: the create-connection handler. Each branch is written twice:
  - as a function of the stored records, giving the reply and the records afterwards;
  - as a method that makes the same calls on a `Platform` and is proved equal to that function.
- `wait_for_connection.dfy`: the polling loop as a method with a `while` loop. It is proved
  equal to a recursive function over a status oracle and a clock that advances at least
  2000 ms per round.
- `page.dfy`: the client page as a class `Home`. It holds the toolkit descriptors, the map from
  slug to connection status, and the open credential form. Its handlers update one slug at a
  time.
- `generate_agent.dfy`: the generate-agent handler. It covers the checks, the parsing of the
  discovered tool list with its fallback, and the pieces the backend template substitutes.
- `strings.dfy`, `seqs.dfy`, `replace.dfy`, `patterns.dfy`, `wrappers.dfy`: the JavaScript
  built-ins the code relies on. These are `toLowerCase`, `trim`, `split`, `join`, `find`,
  `filter`, `[...new Set(xs)]`, and `replace` and `test` for the handful of regular expressions
  used. The regular expressions are written as small token patterns.

What the model takes as parameters:

- Every foreign call is an input. A language-model answer is a string, or `None` when the call
  throws. The toolkit lookup is a result. A client request gets back its JSON reply, or `None`
  when the request throws.
- The platform's stored records and failure modes are the state and constants of `Platform`.
- A connection's successive statuses are a function `read: nat -> Read`.
- The clock is a function `clock: nat -> int`.
- A JavaScript value that may be missing or empty is an `Option`. `Truthy` is JavaScript
  truthiness for strings and flags.

## Model

| member | source | states |
|---|---|---|
| Toolkit.LowerAll | lib/toolkit.ts:16-18 | the managed schemes lowercased one by one, same length and order |
| Toolkit.AnalyzeToolkitAuth | lib/toolkit.ts:7-37 | "managed" iff the managed list is present and non-empty; the auth scheme is the first detail entry's mode, absent when that list is absent or empty; OAuth2 iff some lowercased scheme is `oauth2`/`oauth` or the lowercased mode is `oauth2`; API key iff some lowercased scheme is `api_key`/`bearer_token`/`apikey` or the lowercased mode is `api_key` |
| Toolkit.LaterDetailsIgnored | lib/toolkit.ts:15 | two descriptors that agree on the managed list and on the first detail entry get the same analysis, whatever their later entries |
| Toolkit.CaseInsensitive | lib/toolkit.ts:16-29 | the letter case of the schemes and of the mode changes none of the three flags |
| Toolkit.UpperCasedSchemes | lib/toolkit.ts:16-18 | upper-casing every managed scheme changes neither family flag |
| Toolkit.BothFamilies | lib/toolkit.ts:20-29 | the family flags are independent: `["OAUTH2", "API_KEY"]` is both OAuth2 and API key |
| Toolkit.ModeAloneDecides | lib/toolkit.ts:13-29 | with no managed list, a first mode `OAuth2` alone makes a custom toolkit OAuth2, and a later `api_key` entry does not make it API key |
| Toolkit.CreateConnectionStatus | lib/toolkit.ts:39-55 | a fresh status is unconnected, `not_connected`, without a connection id; it carries the analysis's scheme and flags, the raw (possibly absent) managed list and the given slug |
| Labels.GetAuthType | lib/utils.ts:41-49 | OAuth2 wins over API key, which wins over the scheme, which wins over `unknown`; the label is never empty |
| Labels.AuthTypeOfNewStatus | lib/utils.ts:41-49 | the label of a fresh status follows the same precedence applied directly to the toolkit's analysis |
| Labels.GetManagedStatus | lib/utils.ts:54-56 | the managed label exactly when managed, the custom-setup label exactly when not |
| ToolNames.ExtractToolkitName | lib/utils.ts:10-19 | the slug never contains `_` and is all lowercase |
| ToolNames.ExtractPlain | lib/utils.ts:17-18 | a name not starting with `_` gives its lowercased text before the first `_`, or all of it lowercased |
| ToolNames.ExtractLeading | lib/utils.ts:11-18 | a name starting with `_` gives the lowercased text between the first two `_`, and `""` when there is no second `_` |
| ToolNames.ExtractExample | lib/utils.ts:10-19 | `GMAIL_SEND_EMAIL` gives `gmail` |
| ToolNames.SpaceUnderscores | lib/utils.ts:33 | same length, every `_` a space, everything else kept |
| ToolNames.CapitalizeWords | lib/utils.ts:35 | same length, exactly the word characters after a word boundary uppercased |
| ToolNames.FormatToolName | lib/utils.ts:31-36 | same length as the input, no `_`, each `_` a space, every other character equal up to case; a character is uppercase exactly when it is a letter starting a name |
| ToolNames.CapitalAt | lib/utils.ts:33-35 | after the first two steps, `\b\w` holds at a position exactly when the original character there is a letter that starts a name |
| ToolNames.FormatIdempotent | lib/utils.ts:31-36 | formatting twice equals formatting once |
| Shims.HeadTagDeterministic | lib/utils.ts:96 | greedy matching of `/<head[^>]*>/i` loses no match |
| Shims.InsertionPoint | lib/utils.ts:96-97 | the insertion point lies within the page |
| Shims.InjectShims | lib/utils.ts:95-100 | with a head tag, a newline and the shims go right after the first tag the test found; without one, the shims and a newline go in front of the page |
| Shims.InjectShimsRoundTrip | lib/utils.ts:95-100 | deleting the inserted block from the output gives back the page |
| Shims.HeadTagAt | lib/utils.ts:96 | the pattern matches at the start of a text iff the text starts with `<head` in any case with a `>` somewhere after it; the match ends at the first such `>` |
| Shims.InjectShimsPlacement | lib/utils.ts:96 | a page has a head tag iff some position starts `<head` in any case with a later `>` |
| Shims.HeadPrefixMatch | lib/utils.ts:96 | the pattern also matches `<header>` and any tag whose name only starts with `head` |
| Shims.HeadPrefixTag | lib/utils.ts:95-97 | a page starting with such a tag gets the shims right after that tag |
| FrontendCode.BaseUrlDeterministic | lib/utils.ts:74 | greedy matching of the base-URL assignment pattern loses no match |
| FrontendCode.QuotedKeepsAbsent | lib/utils.ts:70 | quoting a user id adds no placeholder |
| FrontendCode.BaseUrlReplacementShape | lib/utils.ts:75 | the base-URL replacement text starts with `c`, ends with `;` and has no `K` and no `D` |
| FrontendCode.PlaceholderShape | lib/utils.ts:68-75 | neither `""` nor the base-URL text can help form a placeholder |
| FrontendCode.BlankKeysRemovesKeys | lib/utils.ts:68-69 | after the two key steps no key placeholder is left |
| FrontendCode.FillUserIdRemoves | lib/utils.ts:70 | filling in a placeholder-free user id removes the user-id placeholder and brings back no other |
| FrontendCode.RewriteKeepsAbsent | lib/utils.ts:73-76 | the base-URL rewrite brings back no placeholder |
| FrontendCode.PlaceholdersRemoved | lib/utils.ts:61-79 | no key or user-id placeholder survives the clean-up when the user id contains none |
| FrontendCode.StripFencesUnchanged | lib/utils.ts:66-67 | a page without fences passes the fence steps unchanged |
| FrontendCode.PlaceholderStepsUnchanged | lib/utils.ts:68-70 | a text without placeholders passes the placeholder steps unchanged |
| FrontendCode.RewriteUnchanged | lib/utils.ts:73-76 | a page without a base-URL assignment passes the rewrite unchanged |
| FrontendCode.CleanPageUnchanged | lib/utils.ts:61-79 | a page with no fence, placeholder or assignment comes out as it went in |
| FrontendCode.ProcessFrontendCode | lib/utils.ts:61-79 | defined as the fence steps, the key blanking, the user-id fill and the base-URL rewrite in that order; its properties are `PlaceholdersRemoved` and `CleanPageUnchanged` |
| Sdk.UserConnections | app/api/create-connection/route.ts:125 | the listed connections are exactly the stored ones of the user |
| Sdk.UserConnectionsSnoc | app/api/create-connection/route.ts:125 | the listing keeps store order and multiplicity: an empty store lists nothing, and a newly stored connection is listed last exactly when it is the user's |
| Sdk.CreateConfigOn | app/api/create-connection/route.ts:81-85 | a failing create changes nothing; otherwise exactly one config is appended, and it is the draft (name, type, scheme, credentials) under the returned id for the given toolkit |
| Sdk.InitiateOn | app/api/create-connection/route.ts:151-155 | a failing initiate changes nothing; otherwise exactly one connection is appended: the returned id, the user, the given config id and that config's toolkit, INITIATED without an API key and ACTIVE with one; there is a redirect link iff no API key was passed, and then the account waits for authorization at that link |
| Sdk.Platform.constructor | app/api/create-connection/route.ts:44-47 | the platform starts with the given records and behaviour |
| Sdk.Platform.ListConfigs | app/api/create-connection/route.ts:51 | the stored configs, or the call's failure |
| Sdk.Platform.CreateConfig | app/api/create-connection/route.ts:81-84 | reply and new records are those of `CreateConfigOn` |
| Sdk.Platform.ListConnections | app/api/create-connection/route.ts:125 | the user's connections, or the call's failure |
| Sdk.Platform.Initiate | app/api/create-connection/route.ts:151-155 | reply and new records are those of `InitiateOn` |
| CreateConnection.Validate | app/api/create-connection/route.ts:15-24 | a 400 reply iff the server key, the slug or the auth type is missing or empty; it names the server key iff the key is what is missing |
| CreateConnection.IsManaged | app/api/create-connection/route.ts:106-111 | managed iff the lowercased managed list holds the lowercased auth type, or that with only its first `_` removed |
| CreateConnection.RouteOf | app/api/create-connection/route.ts:113-375 | exactly one of five branches: managed or custom, crossed with the OAuth family (`oauth2`, `oauth`) or the API-key family (`api_key`, `bearer_token`, `apikey`), or unsupported when neither family |
| CreateConnection.PostRoute | app/api/create-connection/route.ts:106-113 | defined as `RouteOf` applied to the managed test and the lowercased auth type; its properties are `RouteOf`, `IsManaged` and `Page.ServerRoutesCustomOAuth` |
| CreateConnection.FindConfig | app/api/create-connection/route.ts:54-71 | none iff no config matches (slug equal ignoring case, and the type or name test for managed or custom); otherwise the first that matches |
| CreateConnection.CustomScheme | app/api/create-connection/route.ts:88-89 | `bearer_token` gives BEARER_TOKEN, `oauth2` gives OAUTH2, anything else gives API_KEY, ignoring case |
| CreateConnection.CustomApiScheme | app/api/create-connection/route.ts:330 | `bearer_token` gives BEARER_TOKEN, anything else gives API_KEY, ignoring case |
| CreateConnection.SchemesAgree | app/api/create-connection/route.ts:88-89 | the resolver's mapping and the custom API-key branch's mapping (line 330) differ exactly on `oauth2` |
| CreateConnection.ResolveConfig | app/api/create-connection/route.ts:43-103 | the resolver never touches connections and adds at most one config |
| CreateConnection.SelectExisting | app/api/create-connection/route.ts:131-148 | the first active related connection, else the first related one; some connection iff some is related |
| CreateConnection.ChooseRecovery | app/api/create-connection/route.ts:174-188 | the existing choice when some connection is related, else the user's first connection of any toolkit, and nothing only when the user has none |
| CreateConnection.ManagedOAuthTry | app/api/create-connection/route.ts:120-165 | configs as the resolver leaves them, at most one connection added, a thrown error adds none, and a redirect link comes only from a connection it initiated |
| CreateConnection.ManagedOAuthFlow | app/api/create-connection/route.ts:113-194 | with the recovery, still at most one config and one connection added, and a redirect link only for a connection it initiated |
| CreateConnection.ManagedApiKeyFlow | app/api/create-connection/route.ts:196-251 | at most one config and one connection added, and no redirect link |
| CreateConnection.CustomOAuthFlow | app/api/create-connection/route.ts:253-309 | without both client id and secret, 400 and no platform change; a redirect link only for a connection it initiated |
| CreateConnection.CustomApiKeyFlow | app/api/create-connection/route.ts:311-366 | without an API key, 400 and no platform change; never a redirect link |
| CreateConnection.PostSpec | app/api/create-connection/route.ts:5-387 | whatever the branch, at most one config and one connection are added, and a redirect link in the reply is that of the connection the call initiated |
| CreateConnection.CreatedConfigMatches | app/api/create-connection/route.ts:79-98 | a config the resolver creates is one its lookup accepts |
| CreateConnection.ResolveConfigSpec | app/api/create-connection/route.ts:54-98 | the first matching config is reused; the records change iff none matches and creation succeeds, and then the new config is the one returned and it matches |
| CreateConnection.ResolveConfigsOnly | app/api/create-connection/route.ts:43-103 | the resolver's outcome depends only on the stored configs |
| CreateConnection.ResolveStable | app/api/create-connection/route.ts:172 | resolving again right after resolving gives the same id and creates nothing |
| CreateConnection.CustomOAuthConfigLooksManaged | app/api/create-connection/route.ts:279-284 | the config named "… Custom OAuth Config" passes the managed name test (line 63) as well as the custom one |
| CreateConnection.FirstUnderscoreDropped | app/api/create-connection/route.ts:111 | removing the first `_` lets `api_key` name the managed scheme `apikey` |
| CreateConnection.SecondUnderscoreKept | app/api/create-connection/route.ts:111 | a second `_` survives, so such an auth type never matches a managed scheme without underscores |
| CreateConnection.PostValidatesFirst | app/api/create-connection/route.ts:15-24 | a request failing validation gets 400 and the platform is untouched |
| CreateConnection.PostUnsupported | app/api/create-connection/route.ts:368-375 | an auth type of neither family gets a 200 `success: false` reply, no connection id, and no platform change |
| CreateConnection.PostCredentialsFirst | app/api/create-connection/route.ts:261-269 | the custom branches reject missing credentials (also lines 319-327) with 400 before creating or initiating anything |
| CreateConnection.ManagedOAuthReusesConnection | app/api/create-connection/route.ts:126-148 | in managed OAuth, a connection related by config id or by toolkit is reported and nothing is initiated |
| CreateConnection.ManagedApiKeyMatchesConfigOnly | app/api/create-connection/route.ts:209-237 | in managed API key, connections under another config id do not count, and a new connection is initiated and reported |
| CreateConnection.RecoveryFallsBack | app/api/create-connection/route.ts:170-188 | after "Multiple connected accounts" with no related connection, the user's first connection of any toolkit is reported |
| CreateConnection.ManagedReusesCustomOAuthConfig | app/api/create-connection/route.ts:279-284 | a later managed lookup for the toolkit accepts the config the custom OAuth branch created |
| CreateConnection.GetOrCreateAuthConfig | app/api/create-connection/route.ts:43-103 | the calls made on the platform give the reply and the records of `ResolveConfig` |
| CreateConnection.ManagedOAuthAttempt | app/api/create-connection/route.ts:120-165 | the calls give the reply and the records of `ManagedOAuthTry` |
| CreateConnection.ManagedOAuthConnect | app/api/create-connection/route.ts:113-194 | the calls give the reply and the records of `ManagedOAuthFlow` |
| CreateConnection.ManagedApiKeyConnect | app/api/create-connection/route.ts:196-251 | the calls give the reply and the records of `ManagedApiKeyFlow` |
| CreateConnection.CustomOAuthConnect | app/api/create-connection/route.ts:253-309 | the calls give the reply and the records of `CustomOAuthFlow` |
| CreateConnection.CustomApiKeyConnect | app/api/create-connection/route.ts:311-366 | the calls give the reply and the records of `CustomApiKeyFlow` |
| CreateConnection.Post | app/api/create-connection/route.ts:5-387 | the handler's calls give the reply and the records of `PostSpec` |
| WaitForConnection.Poll | app/api/wait-for-connection/route.ts:53-78 | the poll never ends before the round it started from; how it ends is stated by `PollSpec` and `WaitReplies` |
| WaitForConnection.CatchReply | app/api/wait-for-connection/route.ts:88-113 | 404 with NOT_FOUND iff the message contains "not found", otherwise 500; always `success: false` with the message as details |
| WaitForConnection.Wait | app/api/wait-for-connection/route.ts:5-115 | the loop's reply is `WaitSpec` of the request, the oracle and the clock |
| WaitForConnection.WaitSpec | app/api/wait-for-connection/route.ts:5-115 | the reply status is 200, 400, 404 or 500, and a successful reply is the ACTIVE reply; its other properties are `WaitValidatesFirst`, `FirstReadActive`, `FirstReadNotFinal` and `WaitReplies` |
| WaitForConnection.PollSpec | app/api/wait-for-connection/route.ts:53-78 | every loop test before the end passed (elapsed < timeout) and every earlier read was pending; TIMEOUT follows a failed test, and every other ending follows the read that caused it |
| WaitForConnection.ClockAtLeast | app/api/wait-for-connection/route.ts:77 | the `k`-th loop test comes at least 2000·k ms after the start |
| WaitForConnection.ReadBound | app/api/wait-for-connection/route.ts:50-78 | with timeout ≤ 0 there is no read in the loop; otherwise at most ⌈timeout / 2000⌉ |
| WaitForConnection.DefaultReadBound | app/api/wait-for-connection/route.ts:10-77 | with the default timeout of 300000 ms, at most 150 reads in the loop |
| WaitForConnection.WaitValidatesFirst | app/api/wait-for-connection/route.ts:14-23 | 400 iff the server key or the connection id is missing; it names the key iff the key is missing |
| WaitForConnection.FirstReadActive | app/api/wait-for-connection/route.ts:36-46 | an account active at the first read is reported ACTIVE at once, whatever the timeout |
| WaitForConnection.FirstReadNotFinal | app/api/wait-for-connection/route.ts:36-65 | a non-active first read, even EXPIRED, does not end the call: an ACTIVE read in the loop still succeeds |
| WaitForConnection.WaitReplies | app/api/wait-for-connection/route.ts:53-86 | ACTIVE only if some read was; EXPIRED or INACTIVE only if the in-loop read that ended the loop was, after pending reads; TIMEOUT with `success: false` only once the clock reached the timeout |
| Page.ToolkitNames | app/page.tsx:315 | the slug of each tool, in order |
| Page.SlugsSpec | app/page.tsx:315 | the checked slugs are exactly the tools' slugs, each once, in first-occurrence order |
| Page.PageStatusAgrees | app/page.tsx:349-374 | the page's inline status equals `createConnectionStatus`, except that an absent managed list is stored as `[]` |
| Page.CheckedSnoc | app/page.tsx:345-388 | one more looked-up slug adds exactly its entry to both maps when the lookup succeeded |
| Page.CheckedEntries | app/page.tsx:345-391 | every entry after checking is unconnected with its own slug, belongs to some tool, and comes from a successful lookup |
| Page.SetPhase | app/page.tsx:441-444 | only the slug's entry changes: its status is the given one and its other fields are the previous entry's |
| Page.MarkConnected | app/page.tsx:452-459 | only the slug's entry changes: connected, status `connected`, the new connection id or else the old one, other fields kept |
| Page.OAuthReplied | app/page.tsx:504-540 | a link and a connection id start the wait and mark the slug connecting; a failed, thrown or id-less reply changes nothing; otherwise at most the slug's entry changes |
| Page.ConnectSpec | app/page.tsx:481-579 | only the slug's entry may change, only the managed OAuth rule changes statuses or starts a wait, and a newly opened form is for the slug with empty credentials |
| Page.Typed | app/page.tsx:835-901 | typing keeps the form's slug and kind, sets only the typed field, and does nothing without an open form |
| Page.SubmitSpec | app/page.tsx:410-479 | the form is cleared; a failed or thrown request changes no status; an OK OAuth2 reply with a link marks the slug connecting, and any other OK reply marks it connected; a wait starts only for a connecting slug |
| Page.Home.constructor | app/page.tsx:75-89 | a page starts with no descriptors, no statuses and no form |
| Page.Home.CheckToolkitConnections | app/page.tsx:306-391 | both maps are replaced by those built from the distinct slugs whose lookup succeeded; the form is kept |
| Page.Home.ConnectToolkit | app/page.tsx:481-579 | the action is the dispatch rule on the old state, and the new state is `ConnectSpec` |
| Page.Home.Type | app/page.tsx:836-900 | the form becomes `Typed`, nothing else changes |
| Page.Home.Cancel | app/page.tsx:922 | the form is closed, nothing else changes |
| Page.Home.HandleCredentialSubmit | app/page.tsx:410-479 | nothing without a form; otherwise it posts the form's slug, kind, credentials and user id, and the new state is `SubmitSpec` |
| Page.Home.WaitForOAuthConnection | app/page.tsx:581-662 | it posts the id with timeout 300000 and no user id, and the statuses become `AfterWait` of the reply |
| Page.AfterWait | app/page.tsx:598-653 | only the waited slug's entry may change, and it becomes connected only on an ACTIVE reply; its properties are `WaitMovesConnecting`, `NotFoundStaysConnecting` and `ThrownWaitGivesUp` |
| Page.DispatchOfChecked | app/page.tsx:487-571 | for a freshly checked toolkit: OAuth request iff managed and OAuth2, OAuth2 form iff custom and OAuth2, API-key form iff API key without OAuth2, unsupported iff neither |
| Page.Dispatch | app/page.tsx:481-571 | no action exactly when the slug lacks toolkit info or a status; otherwise the first branch whose flags hold, as `DispatchOfChecked` states |
| Page.ManagedOAuthAgrees | app/page.tsx:487-502 | a toolkit listing OAUTH2 as managed gets the OAuth request, and the server takes its managed OAuth branch |
| Page.ServerRoutesCustomOAuth | app/api/create-connection/route.ts:106-113 | without OAUTH2 in the managed list, the server treats an `oauth2` request as custom |
| Page.ManagedOAuthMismatch | app/page.tsx:487-502 | when the page counts a toolkit as managed OAuth2 but its managed list lacks OAUTH2, the page sends a credential-less OAuth request and the server answers 400 without touching the platform |
| Page.MismatchExample | app/page.tsx:349-358 | such toolkits exist: managed list `["API_KEY"]` with first mode `OAUTH2` |
| Page.FormOpensDisabled | app/page.tsx:543-564 | every newly opened form starts with its Connect button disabled |
| Page.SubmitEnabledMatchesServer | app/page.tsx:911-916 | Connect is enabled exactly when the posted credentials pass the server's check for that kind |
| Page.TypingEnables | app/page.tsx:911-916 | typing a non-empty client id and secret into an OAuth2 form enables Connect |
| Page.WaitMovesConnecting | app/page.tsx:598-645 | on the server's reply a connecting entry becomes connected (with the id) only after some ACTIVE read, not connected exactly on EXPIRED, INACTIVE or TIMEOUT, and otherwise stays as it was; no other entry changes |
| Page.NotFoundStaysConnecting | app/page.tsx:598-645 | a connection the server reports NOT_FOUND leaves the statuses as they were, so the entry stays connecting |
| Page.ThrownWaitGivesUp | app/page.tsx:646-653 | a thrown wait marks the entry not connected and keeps its other fields and all other entries |
| GenerateAgent.TrimAll | app/api/generate-agent/route.ts:95 | every piece trimmed, same length and order |
| GenerateAgent.SegmentsSpec | app/api/generate-agent/route.ts:93-96 | every segment is a trimmed, non-empty, comma-free piece without space at either end, and every non-empty trimmed piece is a segment |
| GenerateAgent.ParseToolsSpec | app/api/generate-agent/route.ts:93-98 | the tools are exactly the non-empty trimmed pieces, without duplicates, in first-occurrence order |
| GenerateAgent.ParseTools | app/api/generate-agent/route.ts:93-98 | defined as the de-duplicated trimmed non-empty comma pieces; its properties are `ParseToolsSpec`, `BlankAnswer` and `ParseJoined` |
| GenerateAgent.BlankAnswer | app/api/generate-agent/route.ts:93-98 | a blank answer gives the empty list |
| GenerateAgent.FailedDiscovery | app/api/generate-agent/route.ts:71-102 | a throwing discovery gives exactly `["COMPOSIO"]` |
| GenerateAgent.DiscoveredTools | app/api/generate-agent/route.ts:71-98 | defined as the parsed answer, or `["COMPOSIO"]` when discovery throws; its properties are `FailedDiscovery` and `ParseToolsSpec` |
| GenerateAgent.ParseJoined | app/api/generate-agent/route.ts:93-109 | parsing the `join(", ")` of distinct tool names gives the names back |
| GenerateAgent.ParseJoinParse | app/api/generate-agent/route.ts:93-109 | the list the system prompt names parses back to the discovered list |
| GenerateAgent.Quoted | app/api/generate-agent/route.ts:239 | each name in double quotes, same order |
| GenerateAgent.UpperAll | app/api/generate-agent/route.ts:210 | each name uppercased, same order |
| GenerateAgent.QuotedListReadsBack | app/api/generate-agent/route.ts:239 | the `toolsUsed` array reads back as the names and has one entry per tool |
| GenerateAgent.ToolsLiteralReadsBack | app/api/generate-agent/route.ts:210 | the `tools:` array reads back as the names uppercased |
| GenerateAgent.EscapeTemplateSafe | app/api/generate-agent/route.ts:214 | with backslashes escaped first, any prompt stays inside the backend's template literal and its value is the prompt |
| GenerateAgent.EscapeAsWrittenBreaks | app/api/generate-agent/route.ts:214 | as written, the prompt text backslash-backtick becomes backslash-backslash-backtick, which ends the literal early |
| GenerateAgent.Build | app/api/generate-agent/route.ts:187-273 | `toolCount` is the list's length; the two arrays are the template's forms of the list; the embedded prompt stays inside the literal and its value is the prompt; the embedded text equals the route's own escaping exactly when the prompt has no backslash |
| GenerateAgent.EscapeAgreement | app/api/generate-agent/route.ts:214 | the escaping as written and the corrected escaping agree exactly on texts without a backslash |
| GenerateAgent.GenerateSpec | app/api/generate-agent/route.ts:10-282 | 400 iff no idea; otherwise 200 or 500; 200 iff the idea, both keys and the three needed answers are present, and then the tools are the discovered list and the use case is the trimmed answer |
| GenerateAgent.ChecksBeforeModel | app/api/generate-agent/route.ts:14-60 | a request rejected for the idea or a key gets a reply that no model answer affects; a missing Composio key gives the 500 naming it |
| GenerateAgent.FallbackAgent | app/api/generate-agent/route.ts:71-102 | a throwing discovery yields an agent for `COMPOSIO` alone, with `toolCount` 1 and `tools: ["COMPOSIO"]` |
| Strings.Lower | lib/toolkit.ts:16-18 | `toLowerCase`: same length, each character lowered |
| Strings.TrimSpec | app/api/generate-agent/route.ts:95 | `trim` keeps characters of the input, leaves no space at either end, and gives `""` iff the input is all space; the result is the input with some leading and some trailing characters dropped, all of them spaces |
| Strings.Split | lib/utils.ts:12 | `split` gives at least one piece and no piece holds the separator |
| Strings.SplitJoin | app/api/generate-agent/route.ts:94 | splitting separator-free pieces joined by the separator gives the pieces back |
| Strings.RemoveFirstChar | app/api/create-connection/route.ts:111 | `replace('_', '')` removes exactly one character when there is a `_`, and none otherwise; the one removed is the first `_` |
| Seqs.Find | app/api/create-connection/route.ts:54-71 | `find`: none iff nothing passes; otherwise the first element that passes |
| Seqs.Filter | app/api/create-connection/route.ts:126-130 | `filter` keeps only elements that pass and every element that passes |
| Seqs.FilterAppend | app/api/create-connection/route.ts:126-130 | `filter` of a concatenation is the concatenation of the filters, so order and multiplicity are kept |
| Seqs.FilterOne | app/api/create-connection/route.ts:126-130 | a single element is kept exactly when it passes |
| Seqs.DedupeSpec | app/api/generate-agent/route.ts:98 | `[...new Set(xs)]` keeps exactly the elements, once each, in first-occurrence order |
| Replace.FirstMatchSpec | lib/utils.ts:96 | `test` and `exec` find the leftmost position where the pattern matches, and nothing iff it matches nowhere |
| Replace.ReplaceFirst | lib/utils.ts:73-76 | a non-global `replace` changes only the leftmost match |
| Replace.ReplaceAllAtMatch | lib/utils.ts:66-70 | a global `replace` copies up to the leftmost match, replaces it and resumes after it |
| Replace.ReplaceAllRemoves | lib/utils.ts:68-70 | replacing every occurrence of a literal by a text that cannot help form it leaves none |
| Patterns.MatchSound | lib/utils.ts:66-74 | every match the matcher reports is one the pattern accepts |
| Patterns.MatchLongest | lib/utils.ts:66-74 | for the patterns used, the matcher finds a match wherever one exists and reports the longest, as a greedy backtracking engine does |
| Patterns.FirstMatchAccepts | lib/utils.ts:96 | the reported match is the leftmost accepted one, with the longest accepted length there |

## Left out

- Language-model calls, prompts and the generated page: each answer is an arbitrary string, or a failure.
- Composio SDK and REST calls are modelled as the `Platform` records with a fixed failure per kind of call.
- The platform's own record ids and links are not modelled. New records get numbered ids (`Sdk.NewConfigId`, `Sdk.NewConnectionId`), and links are a fixed prefix (`authorizeUrl`) followed by the id.
- A connection initiated with an API key is taken to be ACTIVE at once; the platform's real behaviour is not part of this model.
- The toolkit lookup is a single result, so HTTP, JSON decoding and non-JSON bodies are left out.
- Fields that only carry text to the user are left out: `message` texts, the `connectedAccount` object, and the chat messages with their ids and timestamps.
- Real time becomes the abstract `clock`, and the `setTimeout` sleep is the at-least-2000 ms step between two loop tests.
- A `timeout` that is not a number is left out; it is an `Option<int>`.
- `checkToolkitConnections` looks toolkits up one after another; the `Promise.all` concurrency is not modelled, and the results do not depend on order.
- The page's handlers run one at a time. The wait that a handler starts is returned as a connection id, not run concurrently.
- `window.open`, `reloadIframe`, the iframe and blob handling, React rendering, the hooks, `generateUserId` and `sessionStorage` are left out. The user id is a parameter.
- The routes `toolkit-info`, `preview` and `execute-generated-agent` are not part of this model.
- `createIframeShims`: the two shim scripts are opaque text, and `injectShims` takes the shims as a parameter.
- The fixed text of the backend template is left out. `GenerateAgent.Backend` holds only the pieces it substitutes; the idea, the use case and the tool names go in unescaped, as in the code.
- GenerateAgent.Build: embeds the system prompt with the corrected escaping of the finding below, not with the route's own escaping at app/api/generate-agent/route.ts:214. The two agree exactly on prompts without a backslash (`GenerateAgent.EscapeAgreement`). For a prompt with a backslash, the program's literal does not read back as the prompt, and in the worst case ends early.
- GenerateAgent.Unescape reads a backslash and the next character as that character. This matches JavaScript only for the `\\`, `` \` `` and `\$` escapes, so `GenerateAgent.EscapeTemplateSafe` also proves `PlainEscapes`: every backslash in the escaped text starts one of those three.
- Strings.Lower: case mapping is ASCII only, while JavaScript maps all of Unicode.
- FrontendCode.FillUserId inserts the user id literally. JavaScript `replace` would expand `$&`, `$$` and the like in a replacement text; ids from `generateUserId` contain no `$`.
- Regular expressions are fixed token patterns. Support for `\s` is JavaScript's whitespace set, and only the five expressions the code uses are modelled.

## Findings

| source | as written | input that shows it | evidently intended | confidence | as-written member | corrected member |
|---|---|---|---|---|---|---|
| app/api/generate-agent/route.ts:214 | the system prompt is put into the backend's template literal with backticks and `$` escaped, but not backslashes | a prompt holding a backslash followed by a backtick: the output is two backslashes and a backtick, and that backtick closes the literal | escape backslashes first, so the literal holds the prompt text exactly | not executed | GenerateAgent.EscapeAsWrittenBreaks | GenerateAgent.EscapeTemplateSafe |

`GenerateAgent.EscapeAsWritten` is the escaping as written. `GenerateAgent.Build` uses the corrected
`GenerateAgent.EscapeTemplate`. Its contract also states where it departs from the program: its
embedded text equals the as-written escaping exactly when the prompt has no backslash.

A second mismatch follows from the code as written and is modelled as it behaves:
`Page.ManagedOAuthMismatch`. The page counts a toolkit as managed OAuth2 when its managed list is
non-empty and any OAuth2 sign appears (an `oauth` scheme, or an OAuth2 first mode). The server
counts `oauth2` as managed only when the managed list names `oauth2` itself. For such toolkits
the page's OAuth request is answered with 400.
