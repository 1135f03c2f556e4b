// What each writing request does and answers, said of Serve from the request and the stored documents alone.
module Served {
  import opened Types
  import opened Validate
  import opened Patterns
  import opened Store
  import opened Secrets
  import opened Routing
  import opened Service
  import opened Runs

  // No owner sent it: nothing changes.
  ghost predicate TurnedAway(env: Env, p: Plane, r: Request)
  {
    Next(env, p, r) == p && (Serve(env, p, r).1 == Response(401, NoPayload) ||
      Serve(env, p, r).1 == Response(403, NoPayload))
  }

  // It is answered with this code, and nothing changes.
  ghost predicate Refused(env: Env, p: Plane, r: Request, code: int)
  {
    Serve(env, p, r) == (p, Response(code, NoPayload))
  }

  // The configuration becomes c, e is appended to the log, nothing else changes, and this is the answer.
  ghost predicate Carried(env: Env, p: Plane, r: Request, c: Config, e: AuditEntry, reply: Response)
  {
    Serve(env, p, r) == (Plane(State(c, p.store.audit + [e]), p.writer), reply)
  }

  lemma OthersTurnedAway(env: Env, p: Plane, r: Request)
    requires Route(r.httpMethod, r.path).OwnerOnly() && !ByOwner(env, p, r)
    ensures TurnedAway(env, p, r)
  {
    IdentityExact(env, p, r);
  }

  lemma OwnerServed(env: Env, p: Plane, r: Request, cmd: Command)
    requires Route(r.httpMethod, r.path) == cmd && cmd.Mutates() && ByOwner(env, p, r)
    ensures Serve(env, p, r) == Mutate(env, p, cmd, Caller(Sender(env, r), "owner"), r)
    ensures !cmd.RotateSecret? ==>
      Serve(env, p, r) == Commit(p, Decide(p.store.config, cmd, Caller(Sender(env, r), "owner"), r, NO_REF))
  {
  }

  // ---- Tenants ----

  lemma CreateTenantServed(env: Env, p: Plane, r: Request)
    requires Route(r.httpMethod, r.path) == CreateTenant
    ensures !ByOwner(env, p, r) ==> TurnedAway(env, p, r)
    ensures ByOwner(env, p, r) ==>
      match r.body.tenant
      case None => Refused(env, p, r, 400)
      case Some(t) =>
        if !ValidId(t.id) || TrimSpace(t.displayName) == "" then Refused(env, p, r, 400)
        else
          var c, who := p.store.config, Sender(env, r);
          var doc := Tenant(t.id, t.displayName, r.now, r.now, t.disabled);
          Carried(env, p, r, c.(tenants := c.tenants[t.id := doc]),
                  AuditEntry(r.auditId, who, "owner", TenantRes, Create, t.id, t.id, NoSnapshot, OfTenant(doc), r.at,
                    "success"),
                  Response(201, TenantDoc(doc)))
  {
    if ByOwner(env, p, r) {
      OwnerServed(env, p, r, CreateTenant);
      if r.body.tenant.Some? { BlankIsTrimmed(r.body.tenant.value.displayName); }
    } else {
      OthersTurnedAway(env, p, r);
    }
  }

  // A display name is taken over when it is not empty, the disabled flag always.
  lemma PatchTenantServed(env: Env, p: Plane, r: Request, tid: string)
    requires Route(r.httpMethod, r.path) == PatchTenant(tid)
    ensures !ByOwner(env, p, r) ==> TurnedAway(env, p, r)
    ensures ByOwner(env, p, r) ==>
      var c, who := p.store.config, Sender(env, r);
      if tid !in c.tenants then Refused(env, p, r, 404)
      else if r.body.tenant.None? then Refused(env, p, r, 400)
      else
        var t, patch := c.tenants[tid], r.body.tenant.value;
        var name := if patch.displayName != "" then patch.displayName else t.displayName;
        if !ValidId(t.id) || TrimSpace(name) == "" then Refused(env, p, r, 400)
        else
          var doc := Tenant(t.id, name, t.createdAt, r.now, patch.disabled);
          Carried(env, p, r, c.(tenants := c.tenants[t.id := doc]),
                  AuditEntry(r.auditId, who, "owner", TenantRes, Patch, tid, tid, OfTenant(t), OfTenant(doc), r.at,
                    "success"),
                  Response(200, TenantDoc(doc)))
  {
    if ByOwner(env, p, r) {
      var c := p.store.config;
      OwnerServed(env, p, r, PatchTenant(tid));
      if tid in c.tenants && r.body.tenant.Some? {
        BlankIsTrimmed(c.tenants[tid].displayName);
        BlankIsTrimmed(r.body.tenant.value.displayName);
      }
    } else {
      OthersTurnedAway(env, p, r);
    }
  }

  lemma DeleteTenantServed(env: Env, p: Plane, r: Request, tid: string)
    requires Route(r.httpMethod, r.path) == DeleteTenant(tid)
    ensures !ByOwner(env, p, r) ==> TurnedAway(env, p, r)
    ensures ByOwner(env, p, r) ==>
      var c, who := p.store.config, Sender(env, r);
      if tid !in c.tenants then Refused(env, p, r, 404)
      else
        var t := c.tenants[tid];
        var doc := Tenant(t.id, t.displayName, t.createdAt, t.updatedAt, true);
        Carried(env, p, r, c.(tenants := c.tenants[tid := doc]),
                AuditEntry(r.auditId, who, "owner", TenantRes, Delete, tid, tid, NoSnapshot, NoSnapshot, r.at,
                  "success"),
                Response(204, NoPayload))
  {
    if ByOwner(env, p, r) { OwnerServed(env, p, r, DeleteTenant(tid)); } else { OthersTurnedAway(env, p, r); }
  }

  // ---- Connectors ----

  predicate OnePlatform(pl: string)
  {
    pl == "slack" || pl == "discord" || pl == "gchat" || pl == "whatsapp" || pl == "imessage"
  }

  // The stored document is the body's, but for its identity, which is the path's, its webhook path, its stamps and,
  // if the connector exists, its secret references.
  lemma PutConnectorServed(env: Env, p: Plane, r: Request, tid: string, pl: string)
    requires Route(r.httpMethod, r.path) == PutConnector(tid, pl)
    ensures !ByOwner(env, p, r) ==> TurnedAway(env, p, r)
    ensures ByOwner(env, p, r) ==>
      match r.body.connector
      case None => Refused(env, p, r, 400)
      case Some(d) =>
        if !ValidId(tid) || !OnePlatform(pl) || (d.webhookPath != "" && d.webhookPath != "/v1/" + pl)
           || d.rateLimitPerConv < 0 || d.rateLimitPerConv > 600
        then Refused(env, p, r, 400)
        else
          var c, who, k := p.store.config, Sender(env, r), Key(tid, pl);
          var from := if k in c.conns then c.conns[k] else d;
          var doc := ConnectorConfig(tid, pl, "/v1/" + pl, d.allowedChannels, from.signingRef, from.oauthRef,
                                     d.rateLimitPerConv, d.replayCacheEnabled, r.now, who);
          Carried(env, p, r, c.(conns := c.conns[k := doc]),
                  AuditEntry(r.auditId, who, "owner", ConnectorRes, Put, pl, tid, NoSnapshot, OfConnector(doc), r.at,
                    "success"),
                  Response(200, ConnectorDoc(doc)))
  {
    if ByOwner(env, p, r) { OwnerServed(env, p, r, PutConnector(tid, pl)); } else { OthersTurnedAway(env, p, r); }
  }

  // The answer to an error of the secret service.
  function FaultCode(e: Error): int
  {
    if e == ErrNotFound then 404 else if e == ErrInvalid then 400 else if e == ErrSecretMissing then 409 else 500
  }

  // The checks come in this order. A version is minted for the printed name once they are passed, and the connector
  // looked up after it; when it is found, the reference of the named kind is replaced and nothing else of it.
  lemma RotateServed(env: Env, p: Plane, r: Request, tid: string, pl: string)
    requires Route(r.httpMethod, r.path) == Command.RotateSecret(tid, pl)
    ensures !ByOwner(env, p, r) ==> TurnedAway(env, p, r)
    ensures ByOwner(env, p, r) ==>
      match r.body.rotate
      case None => Refused(env, p, r, 400)
      case Some(q) =>
        if q.kind.Other? || q.value == "" then Refused(env, p, r, 400)
        else if !env.writerReady then Refused(env, p, r, 503)
        else if r.writerFault.Some? then Refused(env, p, r, FaultCode(r.writerFault.value))
        else
          var c, who, k := p.store.config, Sender(env, r), Key(tid, pl);
          var name := "projects/" + env.projectId + "/secrets/sclawion-" + tid + "-" + pl + "-" +
                      (if q.kind == Signing then "signing" else "oauth");
          var n: nat := 1 + if name in p.writer.versions then p.writer.versions[name] else 0;
          var w := Writer(p.writer.versions[name := n], p.writer.calls + [Call(name, q.value)]);
          if k !in c.conns then Serve(env, p, r) == (Plane(p.store, w), Response(404, NoPayload))
          else
            var ref := SecretRef(name, Decimal(n));
            var doc := if q.kind == Signing then c.conns[k].(signingRef := ref) else c.conns[k].(oauthRef := ref);
            var e := AuditEntry(r.auditId, who, "owner", ConnectorRes, Verb.RotateSecret, pl, tid, NoSnapshot,
                                OfRotation(q.kind, q.reason, Decimal(n)), r.at, "success");
            Serve(env, p, r) ==
              (Plane(State(c.(conns := c.conns[Key(doc.tenantId, doc.platform) := doc]), p.store.audit + [e]), w),
               Response(200, Rotated(ref, r.now)))
  {
    if ByOwner(env, p, r) {
      OwnerServed(env, p, r, Command.RotateSecret(tid, pl));
      RotationMinted(env, p.writer, tid, pl, r);
    } else {
      OthersTurnedAway(env, p, r);
    }
  }

  lemma RotationMinted(env: Env, w: Writer, tid: string, pl: string, r: Request)
    ensures
      var (x, minted) := Mint(env, w, Command.RotateSecret(tid, pl), r);
      match r.body.rotate
      case None => x == w && minted == Err(Response(400, NoPayload))
      case Some(q) =>
        if q.kind.Other? || q.value == "" then x == w && minted == Err(Response(400, NoPayload))
        else if !env.writerReady then x == w && minted == Err(Response(503, NoPayload))
        else if r.writerFault.Some? then x == w && minted == Err(Response(FaultCode(r.writerFault.value), NoPayload))
        else
          var name := "projects/" + env.projectId + "/secrets/sclawion-" + tid + "-" + pl + "-" +
                      (if q.kind == Signing then "signing" else "oauth");
          var n: nat := 1 + if name in w.versions then w.versions[name] else 0;
          x == Writer(w.versions[name := n], w.calls + [Call(name, q.value)]) &&
            minted == Ok(SecretRef(name, Decimal(n)))
  {
  }

  // ---- Agents ----

  predicate AgentAccepted(tid: string, id: string, name: string, model: string, scope: string, budget: real)
  {
    ValidId(tid) && ValidId(id) && TrimSpace(name) != "" && TrimSpace(model) != "" &&
    (scope == "" || scope == "conversation" || scope == "user") && budget >= 0.0
  }

  lemma AgentAcceptedIsValid(a: AgentProfile)
    ensures ValidAgent(a) <==> AgentAccepted(a.tenantId, a.id, a.name, a.model, a.memoryScope, a.budgetUSDPerHour)
  {
    BlankIsTrimmed(a.name);
    BlankIsTrimmed(a.model);
  }

  // The stored document is the body's, but for its tenant, which is the path's, and its stamps.
  lemma CreateAgentServed(env: Env, p: Plane, r: Request, tid: string)
    requires Route(r.httpMethod, r.path) == CreateAgent(tid)
    ensures !ByOwner(env, p, r) ==> TurnedAway(env, p, r)
    ensures ByOwner(env, p, r) ==>
      match r.body.agent
      case None => Refused(env, p, r, 400)
      case Some(a) =>
        if !AgentAccepted(tid, a.id, a.name, a.model, a.memoryScope, a.budgetUSDPerHour) then Refused(env, p, r, 400)
        else
          var c, who := p.store.config, Sender(env, r);
          var doc := AgentProfile(tid, a.id, a.name, a.model, a.mcpServers, a.skills, a.memoryScope, a.budgetUSDPerHour,
                                  r.now, who);
          Carried(env, p, r, c.(agents := c.agents[Key(tid, a.id) := doc]),
                  AuditEntry(r.auditId, who, "owner", AgentRes, Create, a.id, tid, NoSnapshot, OfAgent(doc), r.at,
                    "success"),
                  Response(201, AgentDoc(doc)))
  {
    if ByOwner(env, p, r) {
      OwnerServed(env, p, r, CreateAgent(tid));
      if r.body.agent.Some? { AgentAcceptedIsValid(r.body.agent.value.(tenantId := tid)); }
    } else {
      OthersTurnedAway(env, p, r);
    }
  }

  // A field of the patch is taken over when it is neither empty, nil nor zero.
  lemma PatchAgentServed(env: Env, p: Plane, r: Request, tid: string, id: string)
    requires Route(r.httpMethod, r.path) == PatchAgent(tid, id)
    ensures !ByOwner(env, p, r) ==> TurnedAway(env, p, r)
    ensures ByOwner(env, p, r) ==>
      var c, who, k := p.store.config, Sender(env, r), Key(tid, id);
      if k !in c.agents then Refused(env, p, r, 404)
      else if r.body.agent.None? then Refused(env, p, r, 400)
      else
        var a, b := c.agents[k], r.body.agent.value;
        var doc := AgentProfile(
          a.tenantId, a.id,
          if b.name != "" then b.name else a.name,
          if b.model != "" then b.model else a.model,
          if b.mcpServers != None then b.mcpServers else a.mcpServers,
          if b.skills != None then b.skills else a.skills,
          if b.memoryScope != "" then b.memoryScope else a.memoryScope,
          if b.budgetUSDPerHour != 0.0 then b.budgetUSDPerHour else a.budgetUSDPerHour,
          r.now, who);
        if !AgentAccepted(doc.tenantId, doc.id, doc.name, doc.model, doc.memoryScope, doc.budgetUSDPerHour)
        then Refused(env, p, r, 400)
        else
          Carried(env, p, r, c.(agents := c.agents[Key(doc.tenantId, doc.id) := doc]),
                  AuditEntry(r.auditId, who, "owner", AgentRes, Patch, id, tid, OfAgent(a), OfAgent(doc), r.at,
                    "success"),
                  Response(200, AgentDoc(doc)))
  {
    if ByOwner(env, p, r) {
      var c, k := p.store.config, Key(tid, id);
      OwnerServed(env, p, r, PatchAgent(tid, id));
      if k in c.agents && r.body.agent.Some? {
        AgentAcceptedIsValid(MergeAgent(c.agents[k], r.body.agent.value).(updatedAt := r.now,
          updatedBy := Sender(env, r)));
      }
    } else {
      OthersTurnedAway(env, p, r);
    }
  }

  lemma DeleteAgentServed(env: Env, p: Plane, r: Request, tid: string, id: string)
    requires Route(r.httpMethod, r.path) == DeleteAgent(tid, id)
    ensures !ByOwner(env, p, r) ==> TurnedAway(env, p, r)
    ensures ByOwner(env, p, r) ==>
      var c, who, k := p.store.config, Sender(env, r), Key(tid, id);
      if k !in c.agents then Refused(env, p, r, 404)
      else
        Carried(env, p, r, c.(agents := c.agents - {k}),
                AuditEntry(r.auditId, who, "owner", AgentRes, Delete, id, tid, NoSnapshot, NoSnapshot, r.at, "success"),
                Response(204, NoPayload))
  {
    if ByOwner(env, p, r) { OwnerServed(env, p, r, DeleteAgent(tid, id)); } else { OthersTurnedAway(env, p, r); }
  }

  // ---- Swarms ----

  predicate OneRole(role: string)
  {
    role == "planner" || role == "coder" || role == "reviewer" || role == "deployer" || role == "monitor"
  }

  predicate SwarmAccepted(tid: string, id: string, topology: string, roster: Strings, tokens: int, deploys: int)
  {
    && ValidId(tid) && ValidId(id)
    && (topology == "pipeline" || topology == "fanout" || topology == "mesh" || topology == "hierarchical")
    && roster.Some? && roster.value != [] && (forall i :: 0 <= i < |roster.value| ==> OneRole(roster.value[i]))
    && tokens >= 0 && deploys >= 0
  }

  lemma SwarmAcceptedIsValid(s: SwarmDef)
    ensures ValidSwarm(s) <==>
      SwarmAccepted(s.tenantId, s.id, s.topology, s.roster, s.budget.maxTokens, s.budget.maxDeploys)
  {
  }

  lemma CreateSwarmServed(env: Env, p: Plane, r: Request, tid: string)
    requires Route(r.httpMethod, r.path) == CreateSwarm(tid)
    ensures !ByOwner(env, p, r) ==> TurnedAway(env, p, r)
    ensures ByOwner(env, p, r) ==>
      match r.body.swarm
      case None => Refused(env, p, r, 400)
      case Some(s) =>
        if !SwarmAccepted(tid, s.id, s.topology, s.roster, s.budget.maxTokens, s.budget.maxDeploys)
        then Refused(env, p, r, 400)
        else
          var c, who := p.store.config, Sender(env, r);
          var doc := SwarmDef(tid, s.id, s.topology, s.roster, s.budget, r.now, who);
          Carried(env, p, r, c.(swarms := c.swarms[Key(tid, s.id) := doc]),
                  AuditEntry(r.auditId, who, "owner", SwarmRes, Create, s.id, tid, NoSnapshot, OfSwarm(doc), r.at,
                    "success"),
                  Response(201, SwarmDoc(doc)))
  {
    if ByOwner(env, p, r) {
      OwnerServed(env, p, r, CreateSwarm(tid));
      if r.body.swarm.Some? { SwarmAcceptedIsValid(r.body.swarm.value.(tenantId := tid)); }
    } else {
      OthersTurnedAway(env, p, r);
    }
  }

  lemma PatchSwarmDecided(c: Config, k: Key, who: Caller, r: Request, doc: SwarmDef)
    requires k in c.swarms && r.body.swarm.Some?
    requires doc == MergeSwarm(c.swarms[k], r.body.swarm.value).(updatedAt := r.now, updatedBy := who.email)
    ensures DecidePatchSwarm(c, k, who, r) ==
      if !ValidSwarm(doc) then Reject(Response(400, NoPayload))
      else
        Proceed(SetSwarm(doc),
                AuditEntry(r.auditId, who.email, who.role, SwarmRes, Patch, k.id, k.tenant, OfSwarm(c.swarms[k]),
                  OfSwarm(doc),
                           r.at, "success"),
                Response(200, SwarmDoc(doc)))
  {
  }

  lemma SwarmFields(a: SwarmDef, b: SwarmDef, now: Time, who: string)
    ensures MergeSwarm(a, b).(updatedAt := now, updatedBy := who) ==
      SwarmDef(
        a.tenantId, a.id,
        if b.topology != "" then b.topology else a.topology,
        if b.roster != None then b.roster else a.roster,
        BudgetEnvelope(if b.budget.maxTokens != 0 then b.budget.maxTokens else a.budget.maxTokens,
                       if b.budget.maxWallClock != 0 then b.budget.maxWallClock else a.budget.maxWallClock,
                       if b.budget.maxDeploys != 0 then b.budget.maxDeploys else a.budget.maxDeploys),
        now, who)
  {
  }

  // A field of the patch is taken over when it is neither empty, nil nor zero, each limit of the budget by itself.
  lemma PatchSwarmServed(env: Env, p: Plane, r: Request, tid: string, id: string)
    requires Route(r.httpMethod, r.path) == PatchSwarm(tid, id)
    ensures !ByOwner(env, p, r) ==> TurnedAway(env, p, r)
    ensures ByOwner(env, p, r) ==>
      var c, who, k := p.store.config, Sender(env, r), Key(tid, id);
      if k !in c.swarms then Refused(env, p, r, 404)
      else if r.body.swarm.None? then Refused(env, p, r, 400)
      else
        var a, b := c.swarms[k], r.body.swarm.value;
        var doc := SwarmDef(
          a.tenantId, a.id,
          if b.topology != "" then b.topology else a.topology,
          if b.roster != None then b.roster else a.roster,
          BudgetEnvelope(if b.budget.maxTokens != 0 then b.budget.maxTokens else a.budget.maxTokens,
                         if b.budget.maxWallClock != 0 then b.budget.maxWallClock else a.budget.maxWallClock,
                         if b.budget.maxDeploys != 0 then b.budget.maxDeploys else a.budget.maxDeploys),
          r.now, who);
        if !SwarmAccepted(doc.tenantId, doc.id, doc.topology, doc.roster, doc.budget.maxTokens, doc.budget.maxDeploys)
        then Refused(env, p, r, 400)
        else
          Carried(env, p, r, c.(swarms := c.swarms[Key(doc.tenantId, doc.id) := doc]),
                  AuditEntry(r.auditId, who, "owner", SwarmRes, Patch, id, tid, OfSwarm(a), OfSwarm(doc), r.at,
                    "success"),
                  Response(200, SwarmDoc(doc)))
  {
    if ByOwner(env, p, r) {
      var c, k := p.store.config, Key(tid, id);
      OwnerServed(env, p, r, PatchSwarm(tid, id));
      if k in c.swarms && r.body.swarm.Some? {
        var doc := MergeSwarm(c.swarms[k], r.body.swarm.value).(updatedAt := r.now, updatedBy := Sender(env, r));
        SwarmFields(c.swarms[k], r.body.swarm.value, r.now, Sender(env, r));
        SwarmAcceptedIsValid(doc);
        PatchSwarmDecided(c, k, Caller(Sender(env, r), "owner"), r, doc);
      }
    } else {
      OthersTurnedAway(env, p, r);
    }
  }

  lemma DeleteSwarmServed(env: Env, p: Plane, r: Request, tid: string, id: string)
    requires Route(r.httpMethod, r.path) == DeleteSwarm(tid, id)
    ensures !ByOwner(env, p, r) ==> TurnedAway(env, p, r)
    ensures ByOwner(env, p, r) ==>
      var c, who, k := p.store.config, Sender(env, r), Key(tid, id);
      if k !in c.swarms then Refused(env, p, r, 404)
      else
        Carried(env, p, r, c.(swarms := c.swarms - {k}),
                AuditEntry(r.auditId, who, "owner", SwarmRes, Delete, id, tid, NoSnapshot, NoSnapshot, r.at, "success"),
                Response(204, NoPayload))
  {
    if ByOwner(env, p, r) { OwnerServed(env, p, r, DeleteSwarm(tid, id)); } else { OthersTurnedAway(env, p, r); }
  }

  // ---- Admin users ----

  // The role is the body's, the email the path's, the one who added it the caller, and the time the body's or, if it
  // has none, the clock.
  lemma PutAdminUserServed(env: Env, p: Plane, r: Request, email: string)
    requires Route(r.httpMethod, r.path) == PutAdminUser(email)
    ensures !ByOwner(env, p, r) ==> TurnedAway(env, p, r)
    ensures ByOwner(env, p, r) ==>
      match r.body.adminUser
      case None => Refused(env, p, r, 400)
      case Some(u) =>
        if !ValidEmail(email) || (u.role != "owner" && u.role != "operator" && u.role != "viewer")
          then Refused(env, p, r, 400)
        else
          var c, who := p.store.config, Sender(env, r);
          var doc := AdminUser(email, u.role, who, if u.addedAt == ZERO_TIME then r.now else u.addedAt);
          Carried(env, p, r, c.(admins := c.admins[email := doc]),
                  AuditEntry(r.auditId, who, "owner", AdminUserRes, Put, email, "", NoSnapshot, OfAdminUser(doc), r.at,
                    "success"),
                  Response(200, AdminUserDoc(doc)))
  {
    if ByOwner(env, p, r) { OwnerServed(env, p, r, PutAdminUser(email)); } else { OthersTurnedAway(env, p, r); }
  }

  lemma DeleteAdminUserServed(env: Env, p: Plane, r: Request, email: string)
    requires Route(r.httpMethod, r.path) == DeleteAdminUser(email)
    ensures !ByOwner(env, p, r) ==> TurnedAway(env, p, r)
    ensures ByOwner(env, p, r) ==>
      var c, who := p.store.config, Sender(env, r);
      if email !in c.admins then Refused(env, p, r, 404)
      else
        Carried(env, p, r, c.(admins := c.admins - {email}),
                AuditEntry(r.auditId, who, "owner", AdminUserRes, Delete, email, "", NoSnapshot, NoSnapshot, r.at,
                  "success"),
                Response(204, NoPayload))
  {
    if ByOwner(env, p, r) { OwnerServed(env, p, r, DeleteAdminUser(email)); } else { OthersTurnedAway(env, p, r); }
  }
}
