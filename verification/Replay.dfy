// The audit log as an event log: folding it over the seed rebuilds the configuration.
module Replay {
  import opened Types
  import opened Store
  import opened Secrets
  import opened Routing
  import opened Service
  import opened Runs

  // ---- What a JSON snapshot shows ----

  // omitempty drops an empty list, so a snapshot does not tell it from a nil one.
  function Shown(s: Strings): Strings { if s == Some([]) then None else s }

  function ShownConnector(c: ConnectorConfig): ConnectorConfig { c.(allowedChannels := Shown(c.allowedChannels)) }

  function ShownAgent(a: AgentProfile): AgentProfile
  {
    a.(mcpServers := Shown(a.mcpServers), skills := Shown(a.skills))
  }

  // The configuration as its JSON shows it.
  function ShownConfig(c: Config): Config
  {
    c.(conns := map k | k in c.conns :: ShownConnector(c.conns[k]),
      agents := map k | k in c.agents :: ShownAgent(c.agents[k]))
  }

  // ---- Folding the log ----

  // One entry alone, read without the store that produced it: an After snapshot replaces the document it names,
  // a delete goes by resource id, deleting a tenant disables it, and a rotation names its secret anew.
  function ReplayEntry(projectId: string, c: Config, e: AuditEntry): Config
  {
    var k := Key(e.tenantId, e.resourceId);
    match e.after
    case OfTenant(t) => c.(tenants := c.tenants[e.resourceId := t])
    case OfConnector(d) => c.(conns := c.conns[k := ShownConnector(d)])
    case OfAgent(a) => c.(agents := c.agents[k := ShownAgent(a)])
    case OfSwarm(s) => c.(swarms := c.swarms[k := s])
    case OfAdminUser(u) => c.(admins := c.admins[e.resourceId := u])
    case OfRotation(kind, _, version) =>
      if k !in c.conns then c
      else
        var ref := SecretRef(SecretNamer(projectId, e.tenantId, e.resourceId, kind), version);
        c.(conns := c.conns[k := WithRef(c.conns[k], kind, ref)])
    case NoSnapshot =>
      match e.resource
      case TenantRes =>
        if e.resourceId !in c.tenants then c
        else c.(tenants := c.tenants[e.resourceId := c.tenants[e.resourceId].(disabled := true)])
      case ConnectorRes => c
      case AgentRes => c.(agents := c.agents - {k})
      case SwarmRes => c.(swarms := c.swarms - {k})
      case AdminUserRes => c.(admins := c.admins - {e.resourceId})
  }

  function ReplayLog(projectId: string, seed: Config, log: seq<AuditEntry>): Config
  {
    if log == [] then seed else ReplayEntry(projectId, ReplayLog(projectId, seed, log[..|log| - 1]), log[|log| - 1])
  }

  // ---- The log rebuilds the store ----

  // The reference a rotation may write: some version of the slot's own secret.
  ghost predicate RefForSlot(env: Env, cmd: Command, r: Request, ref: SecretRef)
  {
    cmd.RotateSecret? && r.body.rotate.Some? ==>
      ref.name == SecretNamer(env.projectId, cmd.tid, cmd.id, r.body.rotate.value.kind)
  }

  // What an entry must hold to stand for a write on configuration c.
  ghost predicate Describes(projectId: string, c: Config, e: AuditEntry, w: Write)
  {
    var k := Key(e.tenantId, e.resourceId);
    match w
    case SetTenant(t) => e.after == OfTenant(t) && e.resourceId == t.id
    case DisableTenant(tid) => e.after == NoSnapshot && e.resource == TenantRes && e.resourceId == tid
    case SetConnector(d) => k == ConnKey(d) && (e.after == OfConnector(d) || IsRotationOf(projectId, c, e, d))
    case SetAgent(a) => e.after == OfAgent(a) && k == AgentKey(a)
    case DropAgent(j) => e.after == NoSnapshot && e.resource == AgentRes && k == j
    case SetSwarm(x) => e.after == OfSwarm(x) && k == SwarmKey(x)
    case DropSwarm(j) => e.after == NoSnapshot && e.resource == SwarmRes && k == j
    case SetAdmin(u) => e.after == OfAdminUser(u) && e.resourceId == u.email
    case DropAdmin(email) => e.after == NoSnapshot && e.resource == AdminUserRes && e.resourceId == email
  }

  ghost predicate IsRotationOf(projectId: string, c: Config, e: AuditEntry, d: ConnectorConfig)
  {
    var k := Key(e.tenantId, e.resourceId);
    && e.after.OfRotation? && k in c.conns
    && d == WithRef(c.conns[k], e.after.kind,
                    SecretRef(SecretNamer(projectId, e.tenantId, e.resourceId, e.after.kind), e.after.version))
  }

  lemma DecisionDescribes(env: Env, c: Config, cmd: Command, who: Caller, r: Request, ref: SecretRef)
    requires WellFormed(c) && cmd.Mutates() && RefForSlot(env, cmd, r, ref)
    requires Decide(c, cmd, who, r, ref).Proceed?
    ensures var d := Decide(c, cmd, who, r, ref); Describes(env.projectId, c, d.entry, d.write)
  {
  }

  lemma ShownPutConnector(c: Config, k: Key, d: ConnectorConfig)
    ensures ShownConfig(c.(conns := c.conns[k := d])).conns == ShownConfig(c).conns[k := ShownConnector(d)]
  {
  }

  lemma ShownAgents(c: Config, k: Key, a: AgentProfile)
    ensures ShownConfig(c.(agents := c.agents[k := a])).agents == ShownConfig(c).agents[k := ShownAgent(a)]
    ensures ShownConfig(c.(agents := c.agents - {k})).agents == ShownConfig(c).agents - {k}
  {
  }

  lemma ConnectorEntryRedoes(projectId: string, c: Config, e: AuditEntry, d: ConnectorConfig)
    requires Describes(projectId, c, e, SetConnector(d))
    ensures ReplayEntry(projectId, ShownConfig(c), e) == ShownConfig(Apply(c, SetConnector(d)).value)
  {
    var k := Key(e.tenantId, e.resourceId);
    ShownPutConnector(c, k, d);
    if IsRotationOf(projectId, c, e, d) {
      var ref := SecretRef(SecretNamer(projectId, e.tenantId, e.resourceId, e.after.kind), e.after.version);
      assert ShownConnector(d) == WithRef(ShownConfig(c).conns[k], e.after.kind, ref);
    }
  }

  lemma AgentEntryRedoes(projectId: string, c: Config, e: AuditEntry, w: Write)
    requires w.SetAgent? || w.DropAgent?
    requires Describes(projectId, c, e, w) && Apply(c, w).Some?
    ensures ReplayEntry(projectId, ShownConfig(c), e) == ShownConfig(Apply(c, w).value)
  {
    ShownAgents(c, Key(e.tenantId, e.resourceId), if w.SetAgent? then w.agent else c.agents[w.agentKey]);
  }

  // The entry of a committed write redoes the write.
  lemma EntryRedoesWrite(projectId: string, c: Config, e: AuditEntry, w: Write)
    requires Describes(projectId, c, e, w) && Apply(c, w).Some?
    ensures ReplayEntry(projectId, ShownConfig(c), e) == ShownConfig(Apply(c, w).value)
  {
    match w
    case SetConnector(d) => ConnectorEntryRedoes(projectId, c, e, d);
    case SetAgent(_) => AgentEntryRedoes(projectId, c, e, w);
    case DropAgent(_) => AgentEntryRedoes(projectId, c, e, w);
    case _ =>
  }

  lemma StepReplays(env: Env, p: Plane, r: Request)
    requires WellFormed(p.store.config)
    ensures var q := Next(env, p, r).store;
      || q == p.store
      || (|q.audit| == |p.store.audit| + 1 && q.audit[..|p.store.audit|] == p.store.audit &&
          ReplayEntry(env.projectId, ShownConfig(p.store.config), q.audit[|p.store.audit|]) == ShownConfig(q.config))
  {
    var c, cmd := p.store.config, Route(r.httpMethod, r.path);
    if Authenticate(env, c, r).Ok? && cmd.Mutates() {
      var who := Authenticate(env, c, r).value;
      var (w, minted) := Mint(env, p.writer, cmd, r);
      if who.role == OWNER && minted.Ok? {
        var d := Decide(c, cmd, who, r, minted.value);
        if d.Proceed? && Apply(c, d.write).Some? {
          DecisionDescribes(env, c, cmd, who, r, minted.value);
          EntryRedoesWrite(env.projectId, c, d.entry, d.write);
        }
      }
    }
  }

  // The part of a log recorded after the seed's.
  function Since(seed: seq<AuditEntry>, log: seq<AuditEntry>): seq<AuditEntry>
  {
    if |seed| <= |log| then log[|seed|..] else []
  }

  lemma SinceGrows(seed: seq<AuditEntry>, p: seq<AuditEntry>, q: seq<AuditEntry>)
    requires seed <= p && |q| == |p| + 1 && q[..|p|] == p
    ensures seed <= q && Since(seed, q) == Since(seed, p) + [q[|p|]]
  {
    assert q == p + [q[|p|]];
  }

  lemma ReplayAppend(projectId: string, c: Config, log: seq<AuditEntry>, e: AuditEntry)
    ensures ReplayLog(projectId, c, log + [e]) == ReplayEntry(projectId, ReplayLog(projectId, c, log), e)
  {
    assert (log + [e])[..|log|] == log;
  }

  // In every sequential run from a valid seed, the entries recorded since the seed rebuild exactly the live
  // tenants, connectors, agents, swarms and admins, as JSON shows them.
  lemma {:induction false} LogRebuildsStore(env: Env, seed: Plane, rs: seq<Request>)
    requires WellFormed(seed.store.config)
    ensures seed.store.audit <= Run(env, seed, rs).store.audit
    ensures var final := Run(env, seed, rs).store;
      ReplayLog(env.projectId, ShownConfig(seed.store.config), Since(seed.store.audit, final.audit))
      == ShownConfig(final.config)
  {
    if rs != [] {
      var before := rs[..|rs| - 1];
      LogRebuildsStore(env, seed, before);
      RunKeepsWellFormed(env, seed, before);
      var p, q := Run(env, seed, before).store, Run(env, seed, rs).store;
      StepReplays(env, Run(env, seed, before), rs[|rs| - 1]);
      if q != p {
        SinceGrows(seed.store.audit, p.audit, q.audit);
        ReplayAppend(env.projectId, ShownConfig(seed.store.config), Since(seed.store.audit, p.audit),
          q.audit[|p.audit|]);
      }
    }
  }
}
