// What the config store (pkg/config/memstore.go) holds: flat maps, the writes on them, and the flat map that a
// two-level one stands for.
module Store {
  import opened Types
  import opened Validate

  // One flat map for each collection. The audit log is kept beside it.
  datatype Config = Config(
    tenants: map<string, Tenant>, conns: map<Key, ConnectorConfig>, agents: map<Key, AgentProfile>,
    swarms: map<Key, SwarmDef>, admins: map<string, AdminUser>)

  datatype State = State(config: Config, audit: seq<AuditEntry>)

  const EMPTY_CONFIG := Config(map[], map[], map[], map[], map[])

  // The writes of the store. A put keys the document by its own fields.
  datatype Write =
    | SetTenant(tenant: Tenant)
    | DisableTenant(tid: string)
    | SetConnector(connector: ConnectorConfig)
    | SetAgent(agent: AgentProfile)
    | DropAgent(agentKey: Key)
    | SetSwarm(swarm: SwarmDef)
    | DropSwarm(swarmKey: Key)
    | SetAdmin(user: AdminUser)
    | DropAdmin(email: string)

  function ConnKey(c: ConnectorConfig): Key { Key(c.tenantId, c.platform) }
  function AgentKey(a: AgentProfile): Key { Key(a.tenantId, a.id) }
  function SwarmKey(s: SwarmDef): Key { Key(s.tenantId, s.id) }

  // The configuration after a write; None is ErrNotFound.
  function Apply(c: Config, w: Write): Option<Config>
  {
    match w
    case SetTenant(t) => Some(c.(tenants := c.tenants[t.id := t]))
    case DisableTenant(tid) =>
      if tid !in c.tenants then None
      else Some(c.(tenants := c.tenants[tid := c.tenants[tid].(disabled := true)]))
    case SetConnector(k) => Some(c.(conns := c.conns[ConnKey(k) := k]))
    case SetAgent(a) => Some(c.(agents := c.agents[AgentKey(a) := a]))
    case DropAgent(k) => if k !in c.agents then None else Some(c.(agents := c.agents - {k}))
    case SetSwarm(s) => Some(c.(swarms := c.swarms[SwarmKey(s) := s]))
    case DropSwarm(k) => if k !in c.swarms then None else Some(c.(swarms := c.swarms - {k}))
    case SetAdmin(u) => Some(c.(admins := c.admins[u.email := u]))
    case DropAdmin(e) => if e !in c.admins then None else Some(c.(admins := c.admins - {e}))
  }

  // Every document passes its check and lies under its own key.
  ghost predicate WellFormed(c: Config)
  {
    && (forall t <- c.tenants :: c.tenants[t].id == t && ValidTenant(c.tenants[t]))
    && (forall k <- c.conns :: ConnKey(c.conns[k]) == k && GoodConnector(c.conns[k]))
    && (forall k <- c.agents :: AgentKey(c.agents[k]) == k && ValidAgent(c.agents[k]))
    && (forall k <- c.swarms :: SwarmKey(c.swarms[k]) == k && ValidSwarm(c.swarms[k]))
    && (forall e <- c.admins :: c.admins[e].email == e && ValidAdminUser(c.admins[e]))
  }

  predicate GoodConnector(c: ConnectorConfig) { ValidConnector(c) && c.webhookPath == WebhookPath(c.platform) }

  // A write that brings in a document brings in a checked one.
  predicate GoodWrite(w: Write)
  {
    match w
    case SetTenant(t) => ValidTenant(t)
    case SetConnector(c) => GoodConnector(c)
    case SetAgent(a) => ValidAgent(a)
    case SetSwarm(s) => ValidSwarm(s)
    case SetAdmin(u) => ValidAdminUser(u)
    case _ => true
  }

  lemma ApplyKeepsWellFormed(c: Config, w: Write)
    requires WellFormed(c) && GoodWrite(w) && Apply(c, w).Some?
    ensures WellFormed(Apply(c, w).value)
  {
  }

  // ---- Nested maps ----

  function Placed<V>(t: string, inner: map<string, V>): map<Key, V> { map i | i in inner :: Key(t, i) := inner[i] }

  // The flat map a two-level map stands for; an empty inner map stands for nothing.
  ghost function Flatten<V>(m: map<string, map<string, V>>): map<Key, V>
    decreases m.Keys
  {
    if m == map[] then map[]
    else
      var t :| t in m;
      Flatten(m - {t}) + Placed(t, m[t])
  }

  lemma PlacedAt<V>(t: string, inner: map<string, V>, k: Key)
    ensures k in Placed(t, inner) <==> k.tenant == t && k.id in inner
    ensures k in Placed(t, inner) ==> Placed(t, inner)[k] == inner[k.id]
  {
    if k.tenant == t && k.id in inner { assert Key(t, k.id) in Placed(t, inner); }
  }

  lemma {:induction false} FlattenAt<V>(m: map<string, map<string, V>>, k: Key)
    ensures k in Flatten(m) <==> k.tenant in m && k.id in m[k.tenant]
    ensures k in Flatten(m) ==> Flatten(m)[k] == m[k.tenant][k.id]
    decreases m.Keys
  {
    if m != map[] {
      var t :| t in m && Flatten(m) == Flatten(m - {t}) + Placed(t, m[t]);
      FlattenAt(m - {t}, k);
      PlacedAt(t, m[t], k);
    }
  }

  // Creating an empty inner map changes nothing.
  lemma FlattenCreate<V>(m: map<string, map<string, V>>, t: string)
    requires t !in m
    ensures Flatten(m[t := map[]]) == Flatten(m)
  {
    var n := m[t := map[]];
    forall j: Key
      ensures j in Flatten(n) <==> j in Flatten(m)
      ensures j in Flatten(n) ==> Flatten(n)[j] == Flatten(m)[j]
    {
      FlattenAt(m, j);
      FlattenAt(n, j);
    }
  }

  lemma FlattenInsert<V>(m: map<string, map<string, V>>, t: string, id: string, v: V)
    requires t in m
    ensures Flatten(m[t := m[t][id := v]]) == Flatten(m)[Key(t, id) := v]
  {
    var n := m[t := m[t][id := v]];
    forall j: Key
      ensures j in Flatten(n) <==> j in Flatten(m)[Key(t, id) := v]
      ensures j in Flatten(n) ==> Flatten(n)[j] == Flatten(m)[Key(t, id) := v][j]
    {
      FlattenAt(m, j);
      FlattenAt(n, j);
      if j.tenant == t { assert n[t] == m[t][id := v]; } else { assert j.tenant in m ==> n[j.tenant] == m[j.tenant]; }
    }
  }

  lemma FlattenDelete<V>(m: map<string, map<string, V>>, k: Key)
    requires k.tenant in m
    ensures Flatten(m[k.tenant := m[k.tenant] - {k.id}]) == Flatten(m) - {k}
  {
    var n := m[k.tenant := m[k.tenant] - {k.id}];
    forall j: Key ensures j in Flatten(n) <==> j in Flatten(m) - {k}
      ensures j in Flatten(n) ==> Flatten(n)[j] == Flatten(m)[j]
    {
      FlattenAt(m, j);
      FlattenAt(n, j);
    }
  }
}
