// What one request does to the plane when nothing runs beside it: authenticate, gate, decide, write, record.
// The decisions are those of the handlers; the class AdminApi carries them out on the mutable store.
module Service {
  import opened Types
  import opened Validate
  import opened Store
  import opened Secrets
  import opened Listing
  import opened AuditLog
  import opened Routing

  datatype Plane = Plane(store: State, writer: Writer)

  // ---- Caller (pkg/config/rbac.go) ----

  function ResolveEmail(env: Env, r: Request): Option<string>
  {
    if env.dev && env.bypassEmail != "" then Some(env.bypassEmail)
    else if r.jwt == "" || !env.hasVerifier then None
    else r.claims
  }

  function Authenticate(env: Env, c: Config, r: Request): Result<Caller, Response>
  {
    match ResolveEmail(env, r)
    case None => Err(Status(401))
    case Some(email) => if email in c.admins then Ok(Caller(email, c.admins[email].role)) else Err(Status(403))
  }

  function StatusFor(e: Error): int
  {
    match e
    case ErrNotFound => 404
    case ErrInvalid => 400
    case ErrSecretMissing => 409
    case ErrOther => 500
  }

  // ---- Reads ----

  // The documents of one tenant, by their id.
  function Submap<V>(m: map<Key, V>, tid: string): map<string, V>
  {
    map k | k in m && k.tenant == tid :: k.id := m[k]
  }

  lemma SubmapAt<V>(m: map<Key, V>, tid: string, id: string)
    ensures id in Submap(m, tid) <==> Key(tid, id) in m
    ensures id in Submap(m, tid) ==> Submap(m, tid)[id] == m[Key(tid, id)]
  {
    if Key(tid, id) in m { assert Key(tid, id).id in Submap(m, tid); }
  }

  ghost function Read(c: Config, cmd: Command, q: Query): Response
    requires !cmd.Mutates()
  {
    match cmd
    case ListTenants => Response(200, TenantRows(Rows(c.tenants)))
    case GetTenant(tid) => if tid in c.tenants then Response(200, TenantDoc(c.tenants[tid])) else Status(404)
    case ListConnectors(tid) => Response(200, ConnectorRows(Rows(Submap(c.conns, tid))))
    case GetConnector(tid, p) =>
      if Key(tid, p) in c.conns then Response(200, ConnectorDoc(c.conns[Key(tid, p)])) else Status(404)
    case ListAgents(tid) => Response(200, AgentRows(Rows(Submap(c.agents, tid))))
    case GetAgent(tid, id) =>
      if Key(tid, id) in c.agents then Response(200, AgentDoc(c.agents[Key(tid, id)])) else Status(404)
    case ListSwarms(tid) => Response(200, SwarmRows(Rows(Submap(c.swarms, tid))))
    case GetSwarm(tid, id) =>
      if Key(tid, id) in c.swarms then Response(200, SwarmDoc(c.swarms[Key(tid, id)])) else Status(404)
    case ListAdminUsers => Response(200, AdminUserRows(Rows(c.admins)))
    case ListAudit => Response(200, AuditRows(AuditFilter(q.tenant, q.actor, q.resource, EffectiveLimit(q))))
    case MethodNotAllowed => Status(405)
    case _ => Status(404)
  }

  // ---- Merges ----

  function Override(old_: string, new_: string): string { if new_ != "" then new_ else old_ }
  function OverrideInt(old_: int, new_: int): int { if new_ != 0 then new_ else old_ }
  function OverrideReal(old_: real, new_: real): real { if new_ != 0.0 then new_ else old_ }
  function OverrideStrings(old_: Strings, new_: Strings): Strings { if new_.Some? then new_ else old_ }

  function MergeTenant(t: Tenant, patch: Tenant): Tenant
  {
    t.(displayName := Override(t.displayName, patch.displayName), disabled := patch.disabled)
  }

  function MergeAgent(a: AgentProfile, patch: AgentProfile): AgentProfile
  {
    a.(name := Override(a.name, patch.name), model := Override(a.model, patch.model),
       mcpServers := OverrideStrings(a.mcpServers, patch.mcpServers), skills := OverrideStrings(a.skills, patch.skills),
       memoryScope := Override(a.memoryScope, patch.memoryScope),
       budgetUSDPerHour := OverrideReal(a.budgetUSDPerHour, patch.budgetUSDPerHour))
  }

  function MergeSwarm(s: SwarmDef, patch: SwarmDef): SwarmDef
  {
    s.(topology := Override(s.topology, patch.topology), roster := OverrideStrings(s.roster, patch.roster),
       budget := BudgetEnvelope(OverrideInt(s.budget.maxTokens, patch.budget.maxTokens),
                                OverrideInt(s.budget.maxWallClock, patch.budget.maxWallClock),
                                OverrideInt(s.budget.maxDeploys, patch.budget.maxDeploys)))
  }

  // ---- Writes ----

  // Either an answer without a write, or the write, the entry to record after it, and the answer then.
  datatype Decision = Reject(reply: Response) | Proceed(write: Write, entry: AuditEntry, reply: Response)

  function Entry(r: Request, who: Caller, res: Resource, verb: Verb, id: string, tid: string, before: Snapshot,
      after: Snapshot): AuditEntry
  {
    AuditEntry(r.auditId, who.email, who.role, res, verb, id, tid, before, after, r.at, "success")
  }

  function DecideCreateTenant(who: Caller, r: Request): Decision
  {
    match r.body.tenant
    case None => Reject(Status(400))
    case Some(t) =>
      if !ValidTenant(t) then Reject(Status(400))
      else
        var doc := t.(createdAt := r.now, updatedAt := r.now);
        Proceed(SetTenant(doc), Entry(r, who, TenantRes, Create, t.id, t.id, NoSnapshot, OfTenant(doc)),
                Response(201, TenantDoc(doc)))
  }

  function DecidePatchTenant(c: Config, tid: string, who: Caller, r: Request): Decision
  {
    if tid !in c.tenants then Reject(Status(404))
    else match r.body.tenant
      case None => Reject(Status(400))
      case Some(patch) =>
        var doc := MergeTenant(c.tenants[tid], patch).(updatedAt := r.now);
        if !ValidTenant(doc) then Reject(Status(400))
        else Proceed(SetTenant(doc), Entry(r, who, TenantRes, Patch, tid, tid, OfTenant(c.tenants[tid]), OfTenant(doc)),
                     Response(200, TenantDoc(doc)))
  }

  // The body of a PUT with its identity set from the path and its webhook path defaulted.
  function Addressed(d: ConnectorConfig, tid: string, p: string): ConnectorConfig
  {
    d.(tenantId := tid, platform := p, webhookPath := if d.webhookPath == "" then WebhookPath(p) else d.webhookPath)
  }

  // A PUT keeps the stored secret refs; a first PUT keeps those of its body.
  function DecidePutConnector(c: Config, tid: string, p: string, who: Caller, r: Request): Decision
  {
    match r.body.connector
    case None => Reject(Status(400))
    case Some(d) =>
      var doc := Addressed(d, tid, p);
      if !ValidConnector(doc) then Reject(Status(400))
      else
        var kept := if Key(tid, p) in c.conns
          then doc.(signingRef := c.conns[Key(tid, p)].signingRef, oauthRef := c.conns[Key(tid, p)].oauthRef)
          else doc;
        var stamped := kept.(updatedAt := r.now, updatedBy := who.email);
        Proceed(SetConnector(stamped), Entry(r, who, ConnectorRes, Put, p, tid, NoSnapshot, OfConnector(stamped)),
                Response(200, ConnectorDoc(stamped)))
  }

  function RefOf(c: ConnectorConfig, k: Kind): SecretRef { if k == Signing then c.signingRef else c.oauthRef }

  function WithRef(c: ConnectorConfig, k: Kind, ref: SecretRef): ConnectorConfig
  {
    if k == Signing then c.(signingRef := ref) else c.(oauthRef := ref)
  }

  function DecideRotate(c: Config, tid: string, p: string, who: Caller, r: Request, ref: SecretRef): Decision
  {
    match r.body.rotate
    case None => Reject(Status(400))
    case Some(q) =>
      if Key(tid, p) !in c.conns then Reject(Status(404))
      else if q.kind !in KINDS then Reject(Status(500))
      else
        Proceed(SetConnector(WithRef(c.conns[Key(tid, p)], q.kind, ref)),
                Entry(r, who, ConnectorRes, Verb.RotateSecret, p, tid, NoSnapshot,
                  OfRotation(q.kind, q.reason, ref.version)),
                Response(200, Rotated(ref, r.now)))
  }

  function DecideCreateAgent(tid: string, who: Caller, r: Request): Decision
  {
    match r.body.agent
    case None => Reject(Status(400))
    case Some(a) =>
      if !ValidAgent(a.(tenantId := tid)) then Reject(Status(400))
      else
        var doc := a.(tenantId := tid, updatedAt := r.now, updatedBy := who.email);
        Proceed(SetAgent(doc), Entry(r, who, AgentRes, Create, a.id, tid, NoSnapshot, OfAgent(doc)),
          Response(201, AgentDoc(doc)))
  }

  function DecidePatchAgent(c: Config, k: Key, who: Caller, r: Request): Decision
  {
    if k !in c.agents then Reject(Status(404))
    else match r.body.agent
      case None => Reject(Status(400))
      case Some(patch) =>
        var doc := MergeAgent(c.agents[k], patch).(updatedAt := r.now, updatedBy := who.email);
        if !ValidAgent(doc) then Reject(Status(400))
        else Proceed(SetAgent(doc), Entry(r, who, AgentRes, Patch, k.id, k.tenant, OfAgent(c.agents[k]), OfAgent(doc)),
                     Response(200, AgentDoc(doc)))
  }

  function DecideCreateSwarm(tid: string, who: Caller, r: Request): Decision
  {
    match r.body.swarm
    case None => Reject(Status(400))
    case Some(s) =>
      if !ValidSwarm(s.(tenantId := tid)) then Reject(Status(400))
      else
        var doc := s.(tenantId := tid, updatedAt := r.now, updatedBy := who.email);
        Proceed(SetSwarm(doc), Entry(r, who, SwarmRes, Create, s.id, tid, NoSnapshot, OfSwarm(doc)),
          Response(201, SwarmDoc(doc)))
  }

  function DecidePatchSwarm(c: Config, k: Key, who: Caller, r: Request): Decision
  {
    if k !in c.swarms then Reject(Status(404))
    else match r.body.swarm
      case None => Reject(Status(400))
      case Some(patch) =>
        var doc := MergeSwarm(c.swarms[k], patch).(updatedAt := r.now, updatedBy := who.email);
        if !ValidSwarm(doc) then Reject(Status(400))
        else Proceed(SetSwarm(doc), Entry(r, who, SwarmRes, Patch, k.id, k.tenant, OfSwarm(c.swarms[k]), OfSwarm(doc)),
                     Response(200, SwarmDoc(doc)))
  }

  function DecidePutAdminUser(email: string, who: Caller, r: Request): Decision
  {
    match r.body.adminUser
    case None => Reject(Status(400))
    case Some(u) =>
      var added := if u.addedAt == ZERO_TIME then r.now else u.addedAt;
      var doc := u.(email := email, addedAt := added, addedBy := who.email);
      if !ValidAdminUser(doc) then Reject(Status(400))
      else Proceed(SetAdmin(doc), Entry(r, who, AdminUserRes, Put, email, "", NoSnapshot, OfAdminUser(doc)),
                   Response(200, AdminUserDoc(doc)))
  }

  function Removal(w: Write, r: Request, who: Caller, res: Resource, id: string, tid: string): Decision
  {
    Proceed(w, Entry(r, who, res, Delete, id, tid, NoSnapshot, NoSnapshot), Status(204))
  }

  // What a writing handler decides from the configuration it reads; ref is the version a rotation minted.
  function Decide(c: Config, cmd: Command, who: Caller, r: Request, ref: SecretRef): Decision
    requires cmd.Mutates()
  {
    match cmd
    case CreateTenant => DecideCreateTenant(who, r)
    case PatchTenant(tid) => DecidePatchTenant(c, tid, who, r)
    case DeleteTenant(tid) => Removal(DisableTenant(tid), r, who, TenantRes, tid, tid)
    case PutConnector(tid, p) => DecidePutConnector(c, tid, p, who, r)
    case RotateSecret(tid, p) => DecideRotate(c, tid, p, who, r, ref)
    case CreateAgent(tid) => DecideCreateAgent(tid, who, r)
    case PatchAgent(tid, id) => DecidePatchAgent(c, Key(tid, id), who, r)
    case DeleteAgent(tid, id) => Removal(DropAgent(Key(tid, id)), r, who, AgentRes, id, tid)
    case CreateSwarm(tid) => DecideCreateSwarm(tid, who, r)
    case PatchSwarm(tid, id) => DecidePatchSwarm(c, Key(tid, id), who, r)
    case DeleteSwarm(tid, id) => Removal(DropSwarm(Key(tid, id)), r, who, SwarmRes, id, tid)
    case PutAdminUser(email) => DecidePutAdminUser(email, who, r)
    case DeleteAdminUser(email) => Removal(DropAdmin(email), r, who, AdminUserRes, email, "")
  }

  // ---- Rotation: the version is minted before the connector is looked up ----

  // The name whose counter a rotate request advances; None when it stops before the writer or is refused there.
  function Minted(env: Env, tid: string, p: string, r: Request): Result<string, Response>
  {
    match r.body.rotate
    case None => Err(Status(400))
    case Some(q) =>
      if q.kind !in KINDS then Err(Status(400))
      else if q.value == "" then Err(Status(400))
      else if !env.writerReady then Err(Status(503))
      else if r.writerFault.Some? then Err(Status(StatusFor(r.writerFault.value)))
      else Ok(SecretNamer(env.projectId, tid, p, q.kind))
  }

  const NO_REF := SecretRef("", "")

  function Mint(env: Env, w: Writer, cmd: Command, r: Request): (Writer, Result<SecretRef, Response>)
  {
    if !cmd.RotateSecret? then (w, Ok(NO_REF))
    else match Minted(env, cmd.tid, cmd.id, r)
      case Err(reply) => (w, Err(reply))
      case Ok(name) =>
        var w' := WithVersion(w, name, r.body.rotate.value.value);
        (w', Ok(LatestRef(w', name)))
  }

  // ---- One request ----

  function Commit(p: Plane, d: Decision): (Plane, Response)
  {
    match d
    case Reject(reply) => (p, reply)
    case Proceed(write, entry, reply) =>
      match Apply(p.store.config, write)
      case None => (p, Status(404))
      case Some(c) => (p.(store := State(c, p.store.audit + [entry])), reply)
  }

  function Mutate(env: Env, p: Plane, cmd: Command, who: Caller, r: Request): (Plane, Response)
    requires cmd.Mutates()
  {
    var (w, minted) := Mint(env, p.writer, cmd, r);
    match minted
    case Err(reply) => (p.(writer := w), reply)
    case Ok(ref) => Commit(p.(writer := w), Decide(p.store.config, cmd, who, r, ref))
  }

  ghost function Handle(env: Env, p: Plane, cmd: Command, who: Caller, r: Request): (Plane, Response)
  {
    if cmd.OwnerOnly() && who.role != OWNER then (p, Status(403))
    else if !cmd.Mutates() then (p, Read(p.store.config, cmd, r.query))
    else Mutate(env, p, cmd, who, r)
  }

  ghost function Serve(env: Env, p: Plane, r: Request): (Plane, Response)
  {
    match Authenticate(env, p.store.config, r)
    case Err(reply) => (p, reply)
    case Ok(who) => Handle(env, p, Route(r.httpMethod, r.path), who, r)
  }

  ghost function Next(env: Env, p: Plane, r: Request): Plane { Serve(env, p, r).0 }

  // Requests served one after another.
  ghost function Run(env: Env, p: Plane, rs: seq<Request>): Plane
  {
    if rs == [] then p else Next(env, Run(env, p, rs[..|rs| - 1]), rs[|rs| - 1])
  }

  // The answers of such a run.
  ghost function Answers(env: Env, p: Plane, rs: seq<Request>): seq<Response>
  {
    if rs == [] then []
    else
      var before := rs[..|rs| - 1];
      Answers(env, p, before) + [Serve(env, Run(env, p, before), rs[|rs| - 1]).1]
  }
}
