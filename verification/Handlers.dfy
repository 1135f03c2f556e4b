// The handlers on the mutable store (cmd/admin-api/handlers, SecretRotator and IAPAuth of pkg/config).
// Each does to the plane, and answers, what module Service says for its command.
module Handlers {
  import opened Types
  import opened Validate
  import opened Store
  import opened Secrets
  import opened AuditLog
  import opened Routing
  import opened Service
  import opened Runs
  import opened Currency
  import opened InMemory

  class SecretRotator {
    const projectId: string
    const writer: StubWriter?
    const store: MemStore

    constructor (projectId: string, writer: StubWriter?, store: MemStore)
      ensures this.projectId == projectId && this.writer == writer && this.store == store
    {
      this.projectId, this.writer, this.store := projectId, writer, store;
    }

    // AddVersion comes first: a rotation that then finds no connector, or is of an unknown kind, fails after
    // the counter has moved.
    method Rotate(tid: string, p: string, kind: Kind, value: string, fault: Option<Error>)
      returns (r: Result<SecretRef, Error>)
      requires writer != null && VersionOf(writer.Contents(), SecretNamer(projectId, tid, p, kind)) < MAX_INT64
      modifies writer, store
      ensures fault.Some? ==>
        && r == Err(fault.value)
        && writer.Contents() == old(writer.Contents()) && store.Contents() == old(store.Contents())
      ensures fault.None? ==>
        var name := SecretNamer(projectId, tid, p, kind);
        var ref := LatestRef(writer.Contents(), name);
        var before := old(store.Configured());
        && writer.Contents() == WithVersion(old(writer.Contents()), name, value)
        && r == (if Key(tid, p) !in before.conns then Err(ErrNotFound)
                 else if kind !in KINDS then Err(ErrOther)
                 else Ok(ref))
        && store.Contents() == if r.Ok?
             then
               var d := WithRef(before.conns[Key(tid, p)], kind, ref);
               State(Apply(before, SetConnector(d)).value, old(store.audit))
             else old(store.Contents())
    {
      var name := SecretNamer(projectId, tid, p, kind);
      var added := writer.AddVersion(name, value, fault);
      if added.Err? { return added; }
      var ref := added.value;
      var c := store.GetConnector(tid, p);
      if c == null { return Err(ErrNotFound); }
      match kind {
        case Signing => c.v := c.v.(signingRef := ref);
        case OAuth => c.v := c.v.(oauthRef := ref);
        case Other(_) => return Err(ErrOther);
      }
      store.PutConnector(c);
      r := Ok(ref);
    }
  }

  // An audit listing: the filter, and the entries written out for it.
  datatype Page = Page(filter: AuditFilter, rows: seq<AuditEntry>)

  // A delete either finds its document, removes it and records the removal, or answers 404.
  lemma RemovalCommits(p: Plane, w: Write, r: Request, who: Caller, res: Resource, id: string, tid: string)
    ensures Commit(p, Removal(w, r, who, res, id, tid)) ==
      match Apply(p.store.config, w)
      case None => (p, Status(404))
      case Some(c) =>
        var e := Entry(r, who, res, Delete, id, tid, NoSnapshot, NoSnapshot);
        (Plane(State(c, p.store.audit + [e]), p.writer), Status(204))
  {
  }

  // What a rotation past its checks leaves and answers.
  lemma RotationMutates(env: Env, p: Plane, tid: string, pl: string, who: Caller, r: Request)
    requires r.body.rotate.Some? && r.body.rotate.value.kind in KINDS && r.body.rotate.value.value != "" &&
      env.writerReady
    ensures Mutate(env, p, Command.RotateSecret(tid, pl), who, r) ==
      var q, c, k := r.body.rotate.value, p.store.config, Key(tid, pl);
      var name := SecretNamer(env.projectId, tid, pl, q.kind);
      var w := WithVersion(p.writer, name, q.value);
      var ref := LatestRef(w, name);
      if r.writerFault.Some? then (p, Status(StatusFor(r.writerFault.value)))
      else if k !in c.conns then (Plane(p.store, w), Status(404))
      else
        var e := Entry(r, who, ConnectorRes, Verb.RotateSecret, pl, tid, NoSnapshot,
          OfRotation(q.kind, q.reason, ref.version));
        (Plane(State(Apply(c, SetConnector(WithRef(c.conns[k], q.kind, ref))).value, p.store.audit + [e]), w),
         Response(200, Rotated(ref, r.now)))
  {
  }

  class AdminApi {
    const store: MemStore
    const recorder: Recorder
    const rotator: SecretRotator?
    const projectId: string
    const dev: bool
    const bypassEmail: string
    const hasVerifier: bool

    constructor (store: MemStore, writer: StubWriter?, projectId: string, dev: bool, bypassEmail: string,
        hasVerifier: bool)
      ensures Valid() && this.store == store && Counter() == writer
      ensures Environment() == Env(dev, bypassEmail, hasVerifier, projectId, writer != null)
    {
      this.store, this.projectId := store, projectId;
      this.dev, this.bypassEmail, this.hasVerifier := dev, bypassEmail, hasVerifier;
      recorder := new Recorder(store);
      rotator := new SecretRotator(projectId, writer, store);
    }

    ghost predicate Valid()
    {
      recorder.store == store && (rotator != null ==> rotator.store == store && rotator.projectId == projectId)
    }

    function Counter(): StubWriter? { if rotator == null then null else rotator.writer }

    function Environment(): Env { Env(dev, bypassEmail, hasVerifier, projectId, Counter() != null) }

    ghost function Now(): Plane
      reads store, Counter()
    {
      Plane(store.Contents(), if Counter() == null then Writer(map[], []) else Counter().Contents())
    }

    // ---- Recording ----

    // A handler's last step before it answers.
    method Record(who: Caller, res: Resource, verb: Verb, id: string, tid: string, before: Snapshot,
        after: Snapshot, r: Request)
      requires Valid()
      modifies store
      ensures store.Contents() ==
        State(old(store.Configured()), old(store.audit) + [Entry(r, who, res, verb, id, tid, before, after)])
    {
      var e := new Ref(Draft(who.email, who.role, res, verb, id, tid, before, after));
      recorder.Record(e, r.auditId, r.at);
    }

    // ---- Tenants (tenants.go) ----

    method CreateTenant(who: Caller, r: Request) returns (reply: Response)
      requires Valid()
      modifies store
      ensures (Now(), reply) == Commit(old(Now()), DecideCreateTenant(who, r))
    {
      if r.body.tenant.None? { return Status(400); }
      var t := new Ref(r.body.tenant.value);
      if !ValidTenant(t.v) { return Status(400); }
      t.v := t.v.(createdAt := r.now, updatedAt := r.now);
      store.PutTenant(t);
      Record(who, TenantRes, Create, t.v.id, t.v.id, NoSnapshot, OfTenant(t.v), r);
      reply := Response(201, TenantDoc(t.v));
    }

    method PatchTenant(tid: string, who: Caller, r: Request) returns (reply: Response)
      requires Valid()
      modifies store
      ensures (Now(), reply) == Commit(old(Now()), DecidePatchTenant(old(store.Configured()), tid, who, r))
    {
      var existing := store.GetTenant(tid);
      if existing == null { return Status(404); }
      var before := existing.v;
      if r.body.tenant.None? { return Status(400); }
      var patch := r.body.tenant.value;
      if patch.displayName != "" { existing.v := existing.v.(displayName := patch.displayName); }
      existing.v := existing.v.(disabled := patch.disabled);
      existing.v := existing.v.(updatedAt := r.now);
      if !ValidTenant(existing.v) { return Status(400); }
      store.PutTenant(existing);
      Record(who, TenantRes, Patch, tid, tid, OfTenant(before), OfTenant(existing.v), r);
      reply := Response(200, TenantDoc(existing.v));
    }

    method DeleteTenant(tid: string, who: Caller, r: Request) returns (reply: Response)
      requires Valid()
      modifies store
      ensures (Now(), reply) == Commit(old(Now()), Removal(DisableTenant(tid), r, who, TenantRes, tid, tid))
    {
      RemovalCommits(Now(), DisableTenant(tid), r, who, TenantRes, tid, tid);
      var err := store.DeleteTenant(tid);
      if err.Some? { return Status(StatusFor(err.value)); }
      Record(who, TenantRes, Delete, tid, tid, NoSnapshot, NoSnapshot, r);
      reply := Status(204);
    }

    // ---- Connectors (connectors.go) ----

    // Writes the document and records the write.
    method SaveConnector(doc: Ref<ConnectorConfig>, verb: Verb, id: string, tid: string, before: Snapshot,
        who: Caller, r: Request, ghost reply: Response)
      requires Valid()
      modifies store
      ensures (Now(), reply) ==
        Commit(old(Now()),
               Proceed(SetConnector(doc.v),
                       Entry(r, who, ConnectorRes, verb, id, tid, before, OfConnector(doc.v)), reply))
    {
      store.PutConnector(doc);
      Record(who, ConnectorRes, verb, id, tid, before, OfConnector(doc.v), r);
    }

    // The identity comes from the path; the webhook path is defaulted.
    static method Address(d: Ref<ConnectorConfig>, tid: string, p: string)
      modifies d
      ensures d.v == Addressed(old(d.v), tid, p)
    {
      d.v := d.v.(tenantId := tid);
      d.v := d.v.(platform := p);
      if d.v.webhookPath == "" { d.v := d.v.(webhookPath := WebhookPath(p)); }
    }

    // The document to write: the body with its identity and stamps, and the stored secret refs if there are any.
    method PreparedConnector(tid: string, p: string, who: Caller, r: Request)
      returns (d: Ref?<ConnectorConfig>, reply: Response)
      requires Valid()
      ensures d == null ==> DecidePutConnector(store.Configured(), tid, p, who, r) == Reject(reply)
      ensures d != null ==>
        fresh(d) &&
        DecidePutConnector(store.Configured(), tid, p, who, r) ==
          Proceed(SetConnector(d.v), Entry(r, who, ConnectorRes, Put, p, tid, NoSnapshot, OfConnector(d.v)), reply)
    {
      if r.body.connector.None? { return null, Status(400); }
      d := new Ref(r.body.connector.value);
      Address(d, tid, p);
      if !ValidConnector(d.v) { return null, Status(400); }
      var existing := store.GetConnector(tid, p);
      if existing != null {
        d.v := d.v.(signingRef := existing.v.signingRef);
        d.v := d.v.(oauthRef := existing.v.oauthRef);
      }
      d.v := d.v.(updatedAt := r.now, updatedBy := who.email);
      reply := Response(200, ConnectorDoc(d.v));
    }

    method PutConnector(tid: string, p: string, who: Caller, r: Request) returns (reply: Response)
      requires Valid()
      modifies store
      ensures (Now(), reply) == Commit(old(Now()), DecidePutConnector(old(store.Configured()), tid, p, who, r))
    {
      var d;
      d, reply := PreparedConnector(tid, p, who, r);
      if d != null { SaveConnector(d, Put, p, tid, NoSnapshot, who, r, reply); }
    }

    method RotateSecret(tid: string, p: string, who: Caller, r: Request) returns (reply: Response)
      requires Valid()
      requires Counter() != null ==> forall name :: VersionOf(Counter().Contents(), name) < MAX_INT64
      modifies store, Counter()
      ensures (Now(), reply) == Mutate(Environment(), old(Now()), Command.RotateSecret(tid, p), who, r)
    {
      if r.body.rotate.None? { return Status(400); }
      var q := r.body.rotate.value;
      if q.kind != Signing && q.kind != OAuth { return Status(400); }
      if q.value == "" { return Status(400); }
      if rotator == null || rotator.writer == null { return Status(503); }
      RotationMutates(Environment(), Now(), tid, p, who, r);
      var ref := rotator.Rotate(tid, p, q.kind, q.value, r.writerFault);
      if ref.Err? { return Status(StatusFor(ref.error)); }
      var after := OfRotation(q.kind, q.reason, ref.value.version);
      Record(who, ConnectorRes, Verb.RotateSecret, p, tid, NoSnapshot, after, r);
      reply := Response(200, Rotated(ref.value, r.now));
    }

    // ---- Agents (agents.go) ----

    // Writes the document and records the write.
    method SaveAgent(doc: Ref<AgentProfile>, verb: Verb, id: string, tid: string, before: Snapshot, who: Caller,
        r: Request, ghost reply: Response)
      requires Valid()
      modifies store
      ensures (Now(), reply) ==
        Commit(old(Now()),
               Proceed(SetAgent(doc.v), Entry(r, who, AgentRes, verb, id, tid, before, OfAgent(doc.v)), reply))
    {
      store.PutAgent(doc);
      Record(who, AgentRes, verb, id, tid, before, OfAgent(doc.v), r);
    }

    method CreateAgent(tid: string, who: Caller, r: Request) returns (reply: Response)
      requires Valid()
      modifies store
      ensures (Now(), reply) == Commit(old(Now()), DecideCreateAgent(tid, who, r))
    {
      if r.body.agent.None? { return Status(400); }
      var a := new Ref(r.body.agent.value);
      a.v := a.v.(tenantId := tid);
      if !ValidAgent(a.v) { return Status(400); }
      a.v := a.v.(updatedAt := r.now, updatedBy := who.email);
      reply := Response(201, AgentDoc(a.v));
      SaveAgent(a, Create, a.v.id, tid, NoSnapshot, who, r, reply);
    }

    static method MergeAgentInto(dst: Ref<AgentProfile>, src: AgentProfile)
      modifies dst
      ensures dst.v == MergeAgent(old(dst.v), src)
    {
      if src.name != "" { dst.v := dst.v.(name := src.name); }
      if src.model != "" { dst.v := dst.v.(model := src.model); }
      if src.mcpServers.Some? { dst.v := dst.v.(mcpServers := src.mcpServers); }
      if src.skills.Some? { dst.v := dst.v.(skills := src.skills); }
      if src.memoryScope != "" { dst.v := dst.v.(memoryScope := src.memoryScope); }
      if src.budgetUSDPerHour != 0.0 { dst.v := dst.v.(budgetUSDPerHour := src.budgetUSDPerHour); }
    }

    // The patched copy; the stored document is not touched yet.
    method PatchedAgent(tid: string, id: string, who: Caller, r: Request)
      returns (existing: Ref?<AgentProfile>, before: AgentProfile, reply: Response)
      requires Valid()
      ensures existing == null ==> DecidePatchAgent(store.Configured(), Key(tid, id), who, r) == Reject(reply)
      ensures existing != null ==>
        fresh(existing) &&
        DecidePatchAgent(store.Configured(), Key(tid, id), who, r) ==
          Proceed(SetAgent(existing.v), Entry(r, who, AgentRes, Patch, id, tid, OfAgent(before), OfAgent(existing.v)),
            reply)
    {
      before := *;
      existing := store.GetAgent(tid, id);
      if existing == null { return null, before, Status(404); }
      before := existing.v;
      if r.body.agent.None? { return null, before, Status(400); }
      MergeAgentInto(existing, r.body.agent.value);
      existing.v := existing.v.(updatedAt := r.now, updatedBy := who.email);
      if !ValidAgent(existing.v) { return null, before, Status(400); }
      reply := Response(200, AgentDoc(existing.v));
    }

    method PatchAgent(tid: string, id: string, who: Caller, r: Request) returns (reply: Response)
      requires Valid()
      modifies store
      ensures (Now(), reply) == Commit(old(Now()), DecidePatchAgent(old(store.Configured()), Key(tid, id), who, r))
    {
      var existing, before;
      existing, before, reply := PatchedAgent(tid, id, who, r);
      if existing != null { SaveAgent(existing, Patch, id, tid, OfAgent(before), who, r, reply); }
    }

    method DeleteAgent(tid: string, id: string, who: Caller, r: Request) returns (reply: Response)
      requires Valid()
      modifies store
      ensures (Now(), reply) == Commit(old(Now()), Removal(DropAgent(Key(tid, id)), r, who, AgentRes, id, tid))
    {
      RemovalCommits(Now(), DropAgent(Key(tid, id)), r, who, AgentRes, id, tid);
      var err := store.DeleteAgent(tid, id);
      if err.Some? { return Status(StatusFor(err.value)); }
      Record(who, AgentRes, Delete, id, tid, NoSnapshot, NoSnapshot, r);
      reply := Status(204);
    }

    // ---- Swarms (swarms.go) ----

    // Writes the document and records the write.
    method SaveSwarm(doc: Ref<SwarmDef>, verb: Verb, id: string, tid: string, before: Snapshot, who: Caller,
        r: Request, ghost reply: Response)
      requires Valid()
      modifies store
      ensures (Now(), reply) ==
        Commit(old(Now()),
               Proceed(SetSwarm(doc.v), Entry(r, who, SwarmRes, verb, id, tid, before, OfSwarm(doc.v)), reply))
    {
      store.PutSwarm(doc);
      Record(who, SwarmRes, verb, id, tid, before, OfSwarm(doc.v), r);
    }

    method CreateSwarm(tid: string, who: Caller, r: Request) returns (reply: Response)
      requires Valid()
      modifies store
      ensures (Now(), reply) == Commit(old(Now()), DecideCreateSwarm(tid, who, r))
    {
      if r.body.swarm.None? { return Status(400); }
      var s := new Ref(r.body.swarm.value);
      s.v := s.v.(tenantId := tid);
      if !ValidSwarm(s.v) { return Status(400); }
      s.v := s.v.(updatedAt := r.now, updatedBy := who.email);
      reply := Response(201, SwarmDoc(s.v));
      SaveSwarm(s, Create, s.v.id, tid, NoSnapshot, who, r, reply);
    }

    static method MergeSwarmInto(dst: Ref<SwarmDef>, src: SwarmDef)
      modifies dst
      ensures dst.v == MergeSwarm(old(dst.v), src)
    {
      if src.topology != "" { dst.v := dst.v.(topology := src.topology); }
      if src.roster.Some? { dst.v := dst.v.(roster := src.roster); }
      if src.budget.maxTokens != 0 { dst.v := dst.v.(budget := dst.v.budget.(maxTokens := src.budget.maxTokens)); }
      if src.budget.maxWallClock != 0 {
        dst.v := dst.v.(budget := dst.v.budget.(maxWallClock := src.budget.maxWallClock));
      }
      if src.budget.maxDeploys != 0 { dst.v := dst.v.(budget := dst.v.budget.(maxDeploys := src.budget.maxDeploys)); }
    }

    // The patched copy; the stored document is not touched yet.
    method PatchedSwarm(tid: string, id: string, who: Caller, r: Request)
      returns (existing: Ref?<SwarmDef>, before: SwarmDef, reply: Response)
      requires Valid()
      ensures existing == null ==> DecidePatchSwarm(store.Configured(), Key(tid, id), who, r) == Reject(reply)
      ensures existing != null ==>
        fresh(existing) &&
        DecidePatchSwarm(store.Configured(), Key(tid, id), who, r) ==
          Proceed(SetSwarm(existing.v), Entry(r, who, SwarmRes, Patch, id, tid, OfSwarm(before), OfSwarm(existing.v)),
            reply)
    {
      before := *;
      existing := store.GetSwarm(tid, id);
      if existing == null { return null, before, Status(404); }
      before := existing.v;
      if r.body.swarm.None? { return null, before, Status(400); }
      MergeSwarmInto(existing, r.body.swarm.value);
      existing.v := existing.v.(updatedAt := r.now, updatedBy := who.email);
      if !ValidSwarm(existing.v) { return null, before, Status(400); }
      reply := Response(200, SwarmDoc(existing.v));
    }

    method PatchSwarm(tid: string, id: string, who: Caller, r: Request) returns (reply: Response)
      requires Valid()
      modifies store
      ensures (Now(), reply) == Commit(old(Now()), DecidePatchSwarm(old(store.Configured()), Key(tid, id), who, r))
    {
      var existing, before;
      existing, before, reply := PatchedSwarm(tid, id, who, r);
      if existing != null { SaveSwarm(existing, Patch, id, tid, OfSwarm(before), who, r, reply); }
    }

    method DeleteSwarm(tid: string, id: string, who: Caller, r: Request) returns (reply: Response)
      requires Valid()
      modifies store
      ensures (Now(), reply) == Commit(old(Now()), Removal(DropSwarm(Key(tid, id)), r, who, SwarmRes, id, tid))
    {
      RemovalCommits(Now(), DropSwarm(Key(tid, id)), r, who, SwarmRes, id, tid);
      var err := store.DeleteSwarm(tid, id);
      if err.Some? { return Status(StatusFor(err.value)); }
      Record(who, SwarmRes, Delete, id, tid, NoSnapshot, NoSnapshot, r);
      reply := Status(204);
    }

    // ---- Admin users (admin_users.go) ----

    method PutAdminUser(email: string, who: Caller, r: Request) returns (reply: Response)
      requires Valid()
      modifies store
      ensures (Now(), reply) == Commit(old(Now()), DecidePutAdminUser(email, who, r))
    {
      if r.body.adminUser.None? { return Status(400); }
      var u := new Ref(r.body.adminUser.value);
      u.v := u.v.(email := email);
      if u.v.addedAt == ZERO_TIME { u.v := u.v.(addedAt := r.now); }
      if !ValidAdminUser(u.v) { return Status(400); }
      u.v := u.v.(addedBy := who.email);
      store.PutAdminUser(u);
      Record(who, AdminUserRes, Put, email, "", NoSnapshot, OfAdminUser(u.v), r);
      reply := Response(200, AdminUserDoc(u.v));
    }

    method DeleteAdminUser(email: string, who: Caller, r: Request) returns (reply: Response)
      requires Valid()
      modifies store
      ensures (Now(), reply) == Commit(old(Now()), Removal(DropAdmin(email), r, who, AdminUserRes, email, ""))
    {
      RemovalCommits(Now(), DropAdmin(email), r, who, AdminUserRes, email, "");
      var err := store.DeleteAdminUser(email);
      if err.Some? { return Status(StatusFor(err.value)); }
      Record(who, AdminUserRes, Delete, email, "", NoSnapshot, NoSnapshot, r);
      reply := Status(204);
    }

    // ---- Reads ----

    method Answer(cmd: Command, q: Query) returns (reply: Response, page: Option<Page>)
      requires !cmd.Mutates() && WellFormed(store.Configured())
      ensures reply == Read(store.Configured(), cmd, q)
      ensures page.Some? <==> cmd.ListAudit?
      ensures page.Some? ==>
        reply == Response(200, AuditRows(page.value.filter)) &&
        IsPage(store.audit, page.value.filter, page.value.rows)
    {
      page := None;
      match cmd {
        case ListTenants => var ts := store.ListTenants(); reply := Response(200, TenantRows(ts));
        case GetTenant(tid) =>
          var t := store.GetTenant(tid);
          reply := if t == null then Status(404) else Response(200, TenantDoc(t.v));
        case ListConnectors(tid) => var cs := store.ListConnectors(tid); reply := Response(200, ConnectorRows(cs));
        case GetConnector(tid, p) =>
          var c := store.GetConnector(tid, p);
          reply := if c == null then Status(404) else Response(200, ConnectorDoc(c.v));
        case ListAgents(tid) => var agents := store.ListAgents(tid); reply := Response(200, AgentRows(agents));
        case GetAgent(tid, id) =>
          var a := store.GetAgent(tid, id);
          reply := if a == null then Status(404) else Response(200, AgentDoc(a.v));
        case ListSwarms(tid) => var ss := store.ListSwarms(tid); reply := Response(200, SwarmRows(ss));
        case GetSwarm(tid, id) =>
          var s := store.GetSwarm(tid, id);
          reply := if s == null then Status(404) else Response(200, SwarmDoc(s.v));
        case ListAdminUsers => var us := store.ListAdminUsers(); reply := Response(200, AdminUserRows(us));
        case ListAudit =>
          var f := AuditFilter(q.tenant, q.actor, q.resource, 0);
          if q.limit.Some? { f := f.(limit := q.limit.value); }
          if f.limit == 0 { f := f.(limit := 200); }
          var rows := store.ListAudit(f);
          page := Some(Page(f, rows));
          reply := Response(200, AuditRows(f));
        case MethodNotAllowed => reply := Status(405);
        case _ => reply := Status(404);
      }
    }

    // ---- Dispatch (handlers.go) ----

    method Write(cmd: Command, who: Caller, r: Request) returns (reply: Response)
      requires Valid() && cmd.Mutates()
      requires Counter() != null ==> forall name :: VersionOf(Counter().Contents(), name) < MAX_INT64
      modifies store, Counter()
      ensures (Now(), reply) == Mutate(Environment(), old(Now()), cmd, who, r)
    {
      match cmd {
        case CreateTenant => reply := CreateTenant(who, r);
        case PatchTenant(tid) => reply := PatchTenant(tid, who, r);
        case DeleteTenant(tid) => reply := DeleteTenant(tid, who, r);
        case PutConnector(tid, p) => reply := PutConnector(tid, p, who, r);
        case RotateSecret(tid, p) => reply := RotateSecret(tid, p, who, r);
        case CreateAgent(tid) => reply := CreateAgent(tid, who, r);
        case PatchAgent(tid, id) => reply := PatchAgent(tid, id, who, r);
        case DeleteAgent(tid, id) => reply := DeleteAgent(tid, id, who, r);
        case CreateSwarm(tid) => reply := CreateSwarm(tid, who, r);
        case PatchSwarm(tid, id) => reply := PatchSwarm(tid, id, who, r);
        case DeleteSwarm(tid, id) => reply := DeleteSwarm(tid, id, who, r);
        case PutAdminUser(email) => reply := PutAdminUser(email, who, r);
        case DeleteAdminUser(email) => reply := DeleteAdminUser(email, who, r);
      }
    }

    // What follows the IAP check: the gate, then the handler.
    method Dispatch(cmd: Command, who: Caller, r: Request) returns (reply: Response, page: Option<Page>)
      requires Valid() && WellFormed(store.Configured())
      requires Counter() != null ==> forall name :: VersionOf(Counter().Contents(), name) < MAX_INT64
      modifies store, Counter()
      ensures (Now(), reply) == Handle(Environment(), old(Now()), cmd, who, r)
      ensures page.Some? <==> cmd.ListAudit?
      ensures page.Some? ==>
        reply == Response(200, AuditRows(page.value.filter)) &&
        IsPage(store.audit, page.value.filter, page.value.rows)
    {
      page := None;
      if cmd.OwnerOnly() && who.role != OWNER { return Status(403), None; }
      if cmd.Mutates() {
        reply := Write(cmd, who, r);
      } else {
        reply, page := Answer(cmd, r.query);
      }
    }

    // One request from the IAP check to the answer. The store stays well formed.
    method ServeHTTP(r: Request) returns (reply: Response, page: Option<Page>)
      requires Valid() && WellFormed(store.Configured())
      requires Counter() != null ==> forall name :: VersionOf(Counter().Contents(), name) < MAX_INT64
      modifies store, Counter()
      ensures (Now(), reply) == Serve(Environment(), old(Now()), r)
      ensures WellFormed(store.Configured())
      ensures page.Some? <==> Route(r.httpMethod, r.path).ListAudit? && reply.status == 200
      ensures page.Some? ==>
        reply == Response(200, AuditRows(page.value.filter)) &&
        IsPage(store.audit, page.value.filter, page.value.rows)
    {
      StepKeepsWellFormed(Environment(), Now(), r);
      var email := ResolveEmail(Environment(), r);
      if email.None? { return Status(401), None; }
      var user := store.GetAdminUser(email.value);
      if user == null { return Status(403), None; }
      reply, page := Dispatch(Route(r.httpMethod, r.path), Caller(email.value, user.v.role), r);
    }

    ghost predicate CountersAtMost(bound: int)
      reads Counter()
    {
      Counter() != null ==> forall name :: VersionOf(Counter().Contents(), name) <= bound
    }

    method ServeNext(r: Request, ghost bound: int) returns (reply: Response)
      requires Valid() && WellFormed(store.Configured()) && CountersAtMost(bound) && bound < MAX_INT64
      modifies store, Counter()
      ensures (Now(), reply) == Serve(Environment(), old(Now()), r)
      ensures WellFormed(store.Configured()) && CountersAtMost(bound + 1)
    {
      ghost var p := Now();
      var page;
      reply, page := ServeHTTP(r);
      forall name ensures VersionOf(Now().writer, name) <= VersionOf(p.writer, name) + 1 {
        CounterStep(Environment(), p, r, name);
      }
    }

    // A server that takes one request after another goes through the states of Run and answers as Serve says.
    method ServeAll(rs: seq<Request>) returns (replies: seq<Response>)
      requires Valid() && WellFormed(store.Configured()) && CountersAtMost(MAX_INT64 - |rs|)
      modifies store, Counter()
      ensures Now() == Run(Environment(), old(Now()), rs) && WellFormed(store.Configured())
      ensures replies == Answers(Environment(), old(Now()), rs)
    {
      ghost var env, p := Environment(), Now();
      replies := [];
      for n := 0 to |rs|
        invariant WellFormed(store.Configured()) && CountersAtMost(MAX_INT64 - |rs| + n)
        invariant Now() == Run(env, p, rs[..n]) && replies == Answers(env, p, rs[..n])
      {
        var reply := ServeNext(rs[n], MAX_INT64 - |rs| + n);
        replies := replies + [reply];
        assert rs[..n + 1][..n] == rs[..n];
      }
      assert rs[..|rs|] == rs;
    }
  }
}
