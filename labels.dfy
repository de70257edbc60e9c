/** The display labels of `lib/utils.ts` for a connection status. */
module Labels {
  import opened Wrappers
  import opened Toolkit


  /** `getAuthType`: the OAuth2 flag wins over the API-key flag, which wins over the scheme
      itself; the label is never empty. */
  function GetAuthType(status: ConnectionStatus): (r: string)
    ensures r != ""
    ensures status.isOAuth2 == Some(true) ==> r == "OAuth2"
    ensures status.isOAuth2 != Some(true) && status.isApiKey == Some(true) ==> r == "API Key"
    ensures status.isOAuth2 != Some(true) && status.isApiKey != Some(true) ==>
              r == if Truthy(status.authScheme) then status.authScheme.value else "unknown"
  {
    if status.isOAuth2 == Some(true) then "OAuth2"
    else if status.isApiKey == Some(true) then "API Key"
    else if Truthy(status.authScheme) then status.authScheme.value
    else "unknown"
  }

  /** The label of a freshly created status follows the toolkit's analysis. */
  lemma AuthTypeOfNewStatus(t: ToolkitInfo, slug: string)
    ensures var a := AnalyzeToolkitAuth(t);
            GetAuthType(CreateConnectionStatus(t, slug)) ==
              if a.isOAuth2 then "OAuth2"
              else if a.isApiKey then "API Key"
              else if Truthy(a.authScheme) then a.authScheme.value
              else "unknown"
  {
  }

  const ManagedLabel := "\U{1F7E2} Composio Managed"
  const CustomLabel := "\U{1F7E1} Custom Setup Required"

  /** `getManagedStatus`. */
  function GetManagedStatus(isComposioManaged: bool): (r: string)
    ensures isComposioManaged <==> r == ManagedLabel
    ensures !isComposioManaged <==> r == CustomLabel
  {
    if isComposioManaged then ManagedLabel else CustomLabel
  }
}
