/** The Composio platform as the connection route sees it: stored auth configs and connected
    accounts, and the SDK calls that list and extend them. Which calls fail, and how the platform
    names new records and authorization links, are fixed parameters. */
module Sdk {
  import opened Wrappers
  import opened Strings
  import opened Seqs

  /** An auth config: `id`, `toolkit.slug`, `type`, `name`, the auth scheme and the credentials
      it was created with. */
  datatype AuthConfig = AuthConfig(
    id: string,
    toolkitSlug: Option<string>,
    kind: Option<string>,
    name: Option<string>,
    scheme: Option<string>,
    credentials: seq<(string, string)>)

  /** A connected account; the platform may report its auth config under any of three names
      (`authConfigId`, `auth_config_id`, `auth_config.id`). */
  datatype Connection = Connection(
    id: string,
    userId: string,
    authConfigId: Option<string>,
    authConfigIdSnake: Option<string>,
    authConfigNestedId: Option<string>,
    toolkitSlug: Option<string>,
    status: string)

  /** The failure message of each kind of call (none when the call succeeds) and the prefix of
      the authorization links the platform hands out. */
  datatype Behavior = Behavior(
    listConfigs: Option<string>,
    createConfig: Option<string>,
    listConnections: Option<string>,
    initiate: Option<string>,
    authorizeUrl: string)

  /** The stored records. */
  datatype Store = Store(configs: seq<AuthConfig>, connections: seq<Connection>)

  /** What `connectedAccounts.initiate` returns. */
  datatype ConnectionRequest = ConnectionRequest(id: string, redirectUrl: Option<string>)

  /** What both connection routes answer when the server has no Composio key. */
  const NoServerKey := "Composio API key not configured on the server"

  /** How the platform names the `n`-th record. */
  function NewConfigId(n: nat): string { "ac_" + NatToString(n) }
  function NewConnectionId(n: nat): string { "ca_" + NatToString(n) }

  /** `connectedAccounts.list({ userIds: [user] }).items`: the user's connections in store order. */
  function UserConnections(s: Store, user: string): (r: seq<Connection>)
    ensures forall i :: 0 <= i < |r| ==> r[i].userId == user && r[i] in s.connections
    ensures forall c :: c in s.connections && c.userId == user ==> c in r
  {
    Filter(s.connections, (c: Connection) => c.userId == user)
  }

  /** The listing keeps store order: a new connection of the user comes last, and one of
      another user is not listed. */
  lemma UserConnectionsSnoc(s: Store, c: Connection, user: string)
    ensures UserConnections(s.(connections := []), user) == []
    ensures UserConnections(s.(connections := s.connections + [c]), user) ==
              UserConnections(s, user) + (if c.userId == user then [c] else [])
  {
    FilterAppend(s.connections, [c], (c: Connection) => c.userId == user);
    FilterOne(c, (c: Connection) => c.userId == user);
  }

  /** The toolkit of the stored auth config `id`, if there is one. */
  function ToolkitOf(configs: seq<AuthConfig>, id: string): Option<string> {
    match Find(configs, (c: AuthConfig) => c.id == id)
    case Some(c) => c.toolkitSlug
    case None => None
  }

  /** `authConfigs.create(toolkit, draft)`: the draft is stored under a fresh id for `toolkit`. */
  function CreateConfigOn(s: Store, b: Behavior, toolkit: string, draft: AuthConfig): (r: (Result<string>, Store))
    ensures r.0.Err? ==> r.1 == s
    ensures r.0.Ok? ==> r.1.connections == s.connections && |r.1.configs| == |s.configs| + 1 &&
                        r.1.configs[..|s.configs|] == s.configs &&
                        r.1.configs[|s.configs|] == draft.(id := r.0.value, toolkitSlug := Some(toolkit))
  {
    if b.createConfig.Some? then (Err(b.createConfig.value), s)
    else
      var id := NewConfigId(|s.configs|);
      (Ok(id), s.(configs := s.configs + [draft.(id := id, toolkitSlug := Some(toolkit))]))
  }

  /** `connectedAccounts.initiate(user, configId, options)`: without an API-key option the new
      account waits for authorization at a link; with one it is active at once. */
  function InitiateOn(s: Store, b: Behavior, user: string, configId: string, apiKey: Option<Option<string>>)
    : (r: (Result<ConnectionRequest>, Store))
    ensures r.0.Err? ==> r.1 == s
    ensures r.0.Ok? ==> r.1.configs == s.configs && |r.1.connections| == |s.connections| + 1 &&
                        r.1.connections[..|s.connections|] == s.connections &&
                        r.1.connections[|s.connections|] ==
                          Connection(r.0.value.id, user, Some(configId), None, None, ToolkitOf(s.configs, configId),
                                     if apiKey.None? then "INITIATED" else "ACTIVE")
    ensures r.0.Ok? ==> (r.0.value.redirectUrl.Some? <==> apiKey.None?)
    ensures r.0.Ok? && apiKey.None? ==>
              r.1.connections[|s.connections|].status == "INITIATED" && r.0.value.redirectUrl == Some(b.authorizeUrl + r.0.value.id)
  {
    if b.initiate.Some? then (Err(b.initiate.value), s)
    else
      var id := NewConnectionId(|s.connections|);
      var c := Connection(id, user, Some(configId), None, None, ToolkitOf(s.configs, configId),
                          if apiKey.None? then "INITIATED" else "ACTIVE");
      var link := if apiKey.None? then Some(b.authorizeUrl + id) else None;
      (Ok(ConnectionRequest(id, link)), s.(connections := s.connections + [c]))
  }

  /** `s2` extends `s1` by appending records only. */
  predicate Extends(s1: Store, s2: Store) {
    s1.configs <= s2.configs && s1.connections <= s2.connections
  }

  /** The platform: its stored records change only through `CreateConfig` and `Initiate`. */
  class Platform {
    var configs: seq<AuthConfig>
    var connections: seq<Connection>
    const behavior: Behavior

    function Stored(): Store
      reads this
    {
      Store(configs, connections)
    }

    constructor (s: Store, b: Behavior)
      ensures Stored() == s && behavior == b
    {
      configs := s.configs;
      connections := s.connections;
      behavior := b;
    }

    /** `authConfigs.list().items`. */
    method ListConfigs() returns (r: Result<seq<AuthConfig>>)
      ensures behavior.listConfigs.Some? ==> r == Err(behavior.listConfigs.value)
      ensures behavior.listConfigs.None? ==> r == Ok(configs)
    {
      if behavior.listConfigs.Some? {
        return Err(behavior.listConfigs.value);
      }
      return Ok(configs);
    }

    method CreateConfig(toolkit: string, draft: AuthConfig) returns (r: Result<string>)
      modifies this
      ensures (r, Stored()) == CreateConfigOn(old(Stored()), behavior, toolkit, draft)
    {
      if behavior.createConfig.Some? {
        return Err(behavior.createConfig.value);
      }
      var id := NewConfigId(|configs|);
      configs := configs + [draft.(id := id, toolkitSlug := Some(toolkit))];
      return Ok(id);
    }

    method ListConnections(user: string) returns (r: Result<seq<Connection>>)
      ensures behavior.listConnections.Some? ==> r == Err(behavior.listConnections.value)
      ensures behavior.listConnections.None? ==> r == Ok(UserConnections(Stored(), user))
    {
      if behavior.listConnections.Some? {
        return Err(behavior.listConnections.value);
      }
      return Ok(UserConnections(Stored(), user));
    }

    method Initiate(user: string, configId: string, apiKey: Option<Option<string>>) returns (r: Result<ConnectionRequest>)
      modifies this
      ensures (r, Stored()) == InitiateOn(old(Stored()), behavior, user, configId, apiKey)
    {
      if behavior.initiate.Some? {
        return Err(behavior.initiate.value);
      }
      var id := NewConnectionId(|connections|);
      var c := Connection(id, user, Some(configId), None, None, ToolkitOf(configs, configId),
                          if apiKey.None? then "INITIATED" else "ACTIVE");
      connections := connections + [c];
      return Ok(ConnectionRequest(id, if apiKey.None? then Some(behavior.authorizeUrl + id) else None));
    }
  }
}
