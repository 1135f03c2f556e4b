// Tenants do not interfere: what one tenant holds does not depend on requests addressed to others.
module Isolation {
  import opened Types
  import opened Validate
  import opened Store
  import opened Secrets
  import opened AuditLog
  import opened Routing
  import opened Service
  import opened Runs
  import opened Currency

  // The tenant an operation is addressed to: by its path, or by its body for a create. None for the admin
  // routes, the global lists and paths that lead nowhere.
  function Addressee(cmd: Command, body: Body): Option<string>
  {
    match cmd
    case CreateTenant => if body.tenant.Some? then Some(body.tenant.value.id) else None
    case ListTenants => None
    case ListAdminUsers => None
    case PutAdminUser(_) => None
    case DeleteAdminUser(_) => None
    case ListAudit => None
    case NoSuchPath => None
    case MethodNotAllowed => None
    case _ => Some(cmd.tid)
  }

  function Target(r: Request): Option<string> { Addressee(Route(r.httpMethod, r.path), r.body) }

  predicate ForAdminsOr(cmd: Command, body: Body, b: string)
  {
    Addressee(cmd, body) == None || Addressee(cmd, body) == Some(b)
  }

  predicate Kept(r: Request, b: string) { ForAdminsOr(Route(r.httpMethod, r.path), r.body, b) }

  // The run without the requests addressed to other tenants.
  function Without(rs: seq<Request>, b: string): seq<Request>
  {
    if rs == [] then [] else Without(rs[..|rs| - 1], b) + if Kept(rs[|rs| - 1], b) then [rs[|rs| - 1]] else []
  }

  function ForTenant(b: string): AuditFilter { AuditFilter(b, "", "", 0) }

  // The two planes agree on everything tenant b can see: its document, connectors, agents and swarms,
  // its entries of the audit log, and the counters of its secrets.
  ghost predicate SameConfig(c: Config, d: Config, b: string)
  {
    && c.admins == d.admins
    && (b in c.tenants <==> b in d.tenants) && (b in c.tenants ==> c.tenants[b] == d.tenants[b])
    && Submap(c.conns, b) == Submap(d.conns, b)
    && Submap(c.agents, b) == Submap(d.agents, b)
    && Submap(c.swarms, b) == Submap(d.swarms, b)
  }

  ghost predicate SameCounters(env: Env, w: Writer, x: Writer, b: string)
  {
    forall f, k :: KnownPlatform(f) && k in KINDS ==>
      VersionOf(w, SecretNamer(env.projectId, b, f, k)) == VersionOf(x, SecretNamer(env.projectId, b, f, k))
  }

  ghost predicate SameView(env: Env, p: Plane, q: Plane, b: string)
  {
    && SameConfig(p.store.config, q.store.config, b)
    && Matching(p.store.audit, ForTenant(b)) == Matching(q.store.audit, ForTenant(b))
    && SameCounters(env, p.writer, q.writer, b)
  }

  // ---- Writes and the view of a tenant ----

  // The tenant a write belongs to; None for the admins.
  function Owner(w: Write): Option<string>
  {
    match w
    case SetTenant(t) => Some(t.id)
    case DisableTenant(tid) => Some(tid)
    case SetConnector(c) => Some(c.tenantId)
    case SetAgent(a) => Some(a.tenantId)
    case DropAgent(k) => Some(k.tenant)
    case SetSwarm(s) => Some(s.tenantId)
    case DropSwarm(k) => Some(k.tenant)
    case SetAdmin(_) => None
    case DropAdmin(_) => None
  }

  lemma SameLookup<V>(m: map<Key, V>, n: map<Key, V>, tid: string, id: string)
    requires Submap(m, tid) == Submap(n, tid)
    ensures Key(tid, id) in m <==> Key(tid, id) in n
    ensures Key(tid, id) in m ==> m[Key(tid, id)] == n[Key(tid, id)]
  {
    SubmapAt(m, tid, id);
    SubmapAt(n, tid, id);
  }

  lemma SubmapPut<V>(m: map<Key, V>, k: Key, v: V, tid: string)
    ensures Submap(m[k := v], tid) == if k.tenant == tid then Submap(m, tid)[k.id := v] else Submap(m, tid)
  {
    var n := m[k := v];
    forall id ensures id in Submap(n, tid) <==> Key(tid, id) in n
      ensures id in Submap(m, tid) <==> Key(tid, id) in m
    {
      SubmapAt(n, tid, id);
      SubmapAt(m, tid, id);
    }
  }

  lemma SubmapDrop<V>(m: map<Key, V>, k: Key, tid: string)
    ensures Submap(m - {k}, tid) == if k.tenant == tid then Submap(m, tid) - {k.id} else Submap(m, tid)
  {
    var n := m - {k};
    forall id ensures id in Submap(n, tid) <==> Key(tid, id) in n
      ensures id in Submap(m, tid) <==> Key(tid, id) in m
    {
      SubmapAt(n, tid, id);
      SubmapAt(m, tid, id);
    }
  }

  // A write of another tenant leaves the view of b alone.
  lemma OtherWrite(c: Config, w: Write, b: string)
    requires Apply(c, w).Some? && Owner(w).Some? && Owner(w) != Some(b)
    ensures SameConfig(c, Apply(c, w).value, b)
  {
    match w
    case SetConnector(d) => SubmapPut(c.conns, ConnKey(d), d, b);
    case SetAgent(a) => SubmapPut(c.agents, AgentKey(a), a, b);
    case DropAgent(k) => SubmapDrop(c.agents, k, b);
    case SetSwarm(s) => SubmapPut(c.swarms, SwarmKey(s), s, b);
    case DropSwarm(k) => SubmapDrop(c.swarms, k, b);
    case _ =>
  }

  lemma SameAgentWrite(c: Config, d: Config, w: Write, b: string)
    requires SameConfig(c, d, b) && (w.SetAgent? || w.DropAgent?) && Owner(w) == Some(b)
    ensures Apply(c, w).Some? <==> Apply(d, w).Some?
    ensures Apply(c, w).Some? ==> SameConfig(Apply(c, w).value, Apply(d, w).value, b)
  {
    match w
    case SetAgent(a) =>
      SubmapPut(c.agents, AgentKey(a), a, b);
      SubmapPut(d.agents, AgentKey(a), a, b);
    case DropAgent(k) =>
      SameLookup(c.agents, d.agents, b, k.id);
      SubmapDrop(c.agents, k, b);
      SubmapDrop(d.agents, k, b);
  }

  lemma SameSwarmWrite(c: Config, d: Config, w: Write, b: string)
    requires SameConfig(c, d, b) && (w.SetSwarm? || w.DropSwarm?) && Owner(w) == Some(b)
    ensures Apply(c, w).Some? <==> Apply(d, w).Some?
    ensures Apply(c, w).Some? ==> SameConfig(Apply(c, w).value, Apply(d, w).value, b)
  {
    match w
    case SetSwarm(s) =>
      SubmapPut(c.swarms, SwarmKey(s), s, b);
      SubmapPut(d.swarms, SwarmKey(s), s, b);
    case DropSwarm(k) =>
      SameLookup(c.swarms, d.swarms, b, k.id);
      SubmapDrop(c.swarms, k, b);
      SubmapDrop(d.swarms, k, b);
  }

  lemma SameConnectorWrite(c: Config, d: Config, x: ConnectorConfig)
    requires SameConfig(c, d, x.tenantId)
    ensures SameConfig(Apply(c, SetConnector(x)).value, Apply(d, SetConnector(x)).value, x.tenantId)
  {
    SubmapPut(c.conns, ConnKey(x), x, x.tenantId);
    SubmapPut(d.conns, ConnKey(x), x, x.tenantId);
  }

  // A write of b, or of the admins, keeps two configurations agreeing on b.
  lemma SameWrite(c: Config, d: Config, w: Write, b: string)
    requires SameConfig(c, d, b) && (Owner(w) == None || Owner(w) == Some(b))
    ensures Apply(c, w).Some? <==> Apply(d, w).Some?
    ensures Apply(c, w).Some? ==> SameConfig(Apply(c, w).value, Apply(d, w).value, b)
  {
    match w
    case SetConnector(x) => SameConnectorWrite(c, d, x);
    case SetAgent(_) => SameAgentWrite(c, d, w, b);
    case DropAgent(_) => SameAgentWrite(c, d, w, b);
    case SetSwarm(_) => SameSwarmWrite(c, d, w, b);
    case DropSwarm(_) => SameSwarmWrite(c, d, w, b);
    case _ =>
  }

  // ---- Requests and the view of a tenant ----

  // The document an update starts from lies under its own key.
  predicate FiledUnderKey(c: Config, cmd: Command)
  {
    match cmd
    case PatchTenant(tid) => tid in c.tenants ==> c.tenants[tid].id == tid
    case RotateSecret(tid, p) => Key(tid, p) in c.conns ==> c.conns[Key(tid, p)].tenantId == tid
    case PatchAgent(tid, id) => Key(tid, id) in c.agents ==> c.agents[Key(tid, id)].tenantId == tid
    case PatchSwarm(tid, id) => Key(tid, id) in c.swarms ==> c.swarms[Key(tid, id)].tenantId == tid
    case _ => true
  }

  lemma WellFormedFiles(c: Config, cmd: Command)
    requires WellFormed(c)
    ensures FiledUnderKey(c, cmd)
  {
    match cmd
    case RotateSecret(tid, p) => if Key(tid, p) in c.conns { assert ConnKey(c.conns[Key(tid, p)]) == Key(tid, p); }
    case PatchAgent(tid, id) => if Key(tid, id) in c.agents { assert AgentKey(c.agents[Key(tid, id)]) == Key(tid, id); }
    case PatchSwarm(tid, id) => if Key(tid, id) in c.swarms { assert SwarmKey(c.swarms[Key(tid, id)]) == Key(tid, id); }
    case _ =>
  }

  // A decision writes and records only for the tenant its request is addressed to.
  lemma DecisionWritesForTarget(c: Config, cmd: Command, who: Caller, r: Request, ref: SecretRef)
    requires FiledUnderKey(c, cmd) && cmd.Mutates() && Decide(c, cmd, who, r, ref).Proceed?
    ensures Owner(Decide(c, cmd, who, r, ref).write) == Addressee(cmd, r.body)
  {
  }

  lemma DecisionRecordsForTarget(c: Config, cmd: Command, who: Caller, r: Request, ref: SecretRef)
    requires cmd.Mutates() && Decide(c, cmd, who, r, ref).Proceed? && Addressee(cmd, r.body).Some?
    ensures Decide(c, cmd, who, r, ref).entry.tenantId == Addressee(cmd, r.body).value
  {
  }

  lemma SameConnectorDecision(c: Config, d: Config, cmd: Command, who: Caller, r: Request, ref: SecretRef)
    requires cmd.PutConnector? || cmd.RotateSecret?
    requires SameConfig(c, d, cmd.tid)
    ensures Decide(c, cmd, who, r, ref) == Decide(d, cmd, who, r, ref)
  {
    SameLookup(c.conns, d.conns, cmd.tid, cmd.id);
  }

  lemma SamePatchDecision(c: Config, d: Config, cmd: Command, who: Caller, r: Request, ref: SecretRef)
    requires cmd.PatchAgent? || cmd.PatchSwarm?
    requires SameConfig(c, d, cmd.tid)
    ensures Decide(c, cmd, who, r, ref) == Decide(d, cmd, who, r, ref)
  {
    SameLookup(c.agents, d.agents, cmd.tid, cmd.id);
    SameLookup(c.swarms, d.swarms, cmd.tid, cmd.id);
  }

  // Two configurations that agree on b lead a request for b, or for the admins, to the same decision.
  lemma SameDecision(c: Config, d: Config, cmd: Command, who: Caller, r: Request, ref: SecretRef, b: string)
    requires SameConfig(c, d, b) && cmd.Mutates() && ForAdminsOr(cmd, r.body, b)
    ensures Decide(c, cmd, who, r, ref) == Decide(d, cmd, who, r, ref)
  {
    if cmd.PutConnector? || cmd.RotateSecret? {
      SameConnectorDecision(c, d, cmd, who, r, ref);
    } else if cmd.PatchAgent? || cmd.PatchSwarm? {
      SamePatchDecision(c, d, cmd, who, r, ref);
    }
  }

  lemma SameRead(c: Config, d: Config, cmd: Command, q: Query, body: Body, b: string)
    requires SameConfig(c, d, b) && !cmd.Mutates() && Addressee(cmd, body) == Some(b)
    ensures Read(c, cmd, q) == Read(d, cmd, q)
  {
    match cmd
    case GetConnector(_, id) => SameLookup(c.conns, d.conns, b, id);
    case GetAgent(_, id) => SameLookup(c.agents, d.agents, b, id);
    case GetSwarm(_, id) => SameLookup(c.swarms, d.swarms, b, id);
    case _ =>
  }

  lemma MatchingAppend(log: seq<AuditEntry>, e: AuditEntry, f: AuditFilter)
    ensures Matching(log + [e], f) == Matching(log, f) + if Matches(f, e) then [e] else []
  {
    assert (log + [e])[..|log|] == log;
  }

  // A request addressed to another tenant, its rotations naming known platforms, cannot be seen by b.
  lemma OtherRequestUnseen(env: Env, p: Plane, r: Request, b: string)
    requires WellFormed(p.store.config) && b != "" && !Kept(r, b) && NamesKnownPlatform(r)
    ensures SameView(env, p, Next(env, p, r), b)
  {
    var c, cmd := p.store.config, Route(r.httpMethod, r.path);
    OtherCounters(env, p, r, b);
    AllOrNothing(env, p, r);
    if Accepted(env, p, r) {
      var who := Authenticate(env, c, r).value;
      var (w, minted) := Mint(env, p.writer, cmd, r);
      var d := Decide(c, cmd, who, r, minted.value);
      DecisionShape(c, cmd, who, r, minted.value);
      CommitShape(p.(writer := w), d);
      WellFormedFiles(c, cmd);
      DecisionWritesForTarget(c, cmd, who, r, minted.value);
      DecisionRecordsForTarget(c, cmd, who, r, minted.value);
      OtherWrite(c, d.write, b);
      MatchingAppend(p.store.audit, d.entry, ForTenant(b));
    }
  }

  lemma OtherCounters(env: Env, p: Plane, r: Request, b: string)
    requires !Kept(r, b) && NamesKnownPlatform(r)
    ensures SameCounters(env, p.writer, Next(env, p, r).writer, b)
  {
    var cmd := Route(r.httpMethod, r.path);
    forall f, k | KnownPlatform(f) && k in KINDS
      ensures VersionOf(p.writer, SecretNamer(env.projectId, b, f, k)) ==
              VersionOf(Next(env, p, r).writer, SecretNamer(env.projectId, b, f, k))
    {
      CounterStep(env, p, r, SecretNamer(env.projectId, b, f, k));
      if Advances(env, p, r) == Some(SecretNamer(env.projectId, b, f, k)) {
        NamesInjectiveInProject(env.projectId, b, f, k, cmd.tid, cmd.id, r.body.rotate.value.kind);
      }
    }
  }

  // The answers b can compare: those to its own requests, and to writes of the admin users.
  ghost predicate Answered(r: Request, b: string)
  {
    Target(r) == Some(b) || (Target(r) == None && Route(r.httpMethod, r.path).Mutates())
  }

  lemma SameAuthentication(env: Env, p: Plane, q: Plane, r: Request, b: string)
    requires SameConfig(p.store.config, q.store.config, b)
    ensures Authenticate(env, p.store.config, r) == Authenticate(env, q.store.config, r)
    ensures Advances(env, p, r) == Advances(env, q, r)
  {
  }

  lemma SameMint(env: Env, w: Writer, x: Writer, cmd: Command, r: Request, b: string)
    requires SameCounters(env, w, x, b) && (cmd.RotateSecret? ==> cmd.tid == b)
    ensures Mint(env, w, cmd, r).1.Ok? <==> Mint(env, x, cmd, r).1.Ok?
    ensures Mint(env, w, cmd, r).1.Err? || (cmd.RotateSecret? ==> KnownPlatform(cmd.id)) ==>
      Mint(env, w, cmd, r).1 == Mint(env, x, cmd, r).1
  {
    if cmd.RotateSecret? && Minted(env, cmd.tid, cmd.id, r).Ok? && KnownPlatform(cmd.id) {
      var name := SecretNamer(env.projectId, b, cmd.id, r.body.rotate.value.kind);
      assert VersionOf(w, name) == VersionOf(x, name);
    }
  }

  // A rotation at an unknown platform finds no connector.
  lemma UnknownPlatformRejected(c: Config, cmd: Command, who: Caller, r: Request, ref: SecretRef)
    requires WellFormed(c) && cmd.RotateSecret? && !KnownPlatform(cmd.id) && r.body.rotate.Some?
    ensures Decide(c, cmd, who, r, ref) == Reject(Status(404))
  {
  }

  lemma SameMutate(env: Env, p: Plane, q: Plane, cmd: Command, who: Caller, r: Request, b: string)
    requires WellFormed(p.store.config) && WellFormed(q.store.config) && SameView(env, p, q, b)
    requires cmd.Mutates() && ForAdminsOr(cmd, r.body, b)
    ensures Mutate(env, p, cmd, who, r).1 == Mutate(env, q, cmd, who, r).1
    ensures SameConfig(Mutate(env, p, cmd, who, r).0.store.config, Mutate(env, q, cmd, who, r).0.store.config, b)
    ensures Matching(Mutate(env, p, cmd, who, r).0.store.audit, ForTenant(b)) ==
            Matching(Mutate(env, q, cmd, who, r).0.store.audit, ForTenant(b))
  {
    SameMint(env, p.writer, q.writer, cmd, r, b);
    var (w, m) := Mint(env, p.writer, cmd, r);
    var (x, n) := Mint(env, q.writer, cmd, r);
    if m.Ok? {
      if cmd.RotateSecret? && !KnownPlatform(cmd.id) {
        UnknownPlatformRejected(p.store.config, cmd, who, r, m.value);
        UnknownPlatformRejected(q.store.config, cmd, who, r, n.value);
      } else {
        SameDecision(p.store.config, q.store.config, cmd, who, r, m.value, b);
        SameCommit(p.(writer := w), q.(writer := x), cmd, who, r, m.value, b);
      }
    }
  }

  lemma SameCommit(p: Plane, q: Plane, cmd: Command, who: Caller, r: Request, ref: SecretRef, b: string)
    requires WellFormed(p.store.config) && SameConfig(p.store.config, q.store.config, b)
    requires Matching(p.store.audit, ForTenant(b)) == Matching(q.store.audit, ForTenant(b))
    requires cmd.Mutates() && ForAdminsOr(cmd, r.body, b)
    ensures var d := Decide(p.store.config, cmd, who, r, ref);
      && Commit(p, d).1 == Commit(q, d).1
      && SameConfig(Commit(p, d).0.store.config, Commit(q, d).0.store.config, b)
      && Matching(Commit(p, d).0.store.audit, ForTenant(b)) == Matching(Commit(q, d).0.store.audit, ForTenant(b))
  {
    var d := Decide(p.store.config, cmd, who, r, ref);
    if d.Proceed? {
      WellFormedFiles(p.store.config, cmd);
      DecisionWritesForTarget(p.store.config, cmd, who, r, ref);
      SameWrite(p.store.config, q.store.config, d.write, b);
      MatchingAppend(p.store.audit, d.entry, ForTenant(b));
      MatchingAppend(q.store.audit, d.entry, ForTenant(b));
    }
  }

  lemma KeptCounters(env: Env, p: Plane, q: Plane, r: Request, b: string)
    requires SameConfig(p.store.config, q.store.config, b) && SameCounters(env, p.writer, q.writer, b)
    ensures SameCounters(env, Next(env, p, r).writer, Next(env, q, r).writer, b)
  {
    SameAuthentication(env, p, q, r, b);
    forall f, k | KnownPlatform(f) && k in KINDS
      ensures VersionOf(Next(env, p, r).writer, SecretNamer(env.projectId, b, f, k)) ==
              VersionOf(Next(env, q, r).writer, SecretNamer(env.projectId, b, f, k))
    {
      CounterStep(env, p, r, SecretNamer(env.projectId, b, f, k));
      CounterStep(env, q, r, SecretNamer(env.projectId, b, f, k));
    }
  }

  // A kept request keeps two planes agreeing on b, and answers b alike.
  lemma KeptRequestAgrees(env: Env, p: Plane, q: Plane, r: Request, b: string)
    requires WellFormed(p.store.config) && WellFormed(q.store.config) && SameView(env, p, q, b) && Kept(r, b)
    ensures SameView(env, Next(env, p, r), Next(env, q, r), b)
    ensures Answered(r, b) ==> Serve(env, p, r).1 == Serve(env, q, r).1
  {
    var cmd := Route(r.httpMethod, r.path);
    SameAuthentication(env, p, q, r, b);
    KeptCounters(env, p, q, r, b);
    if Authenticate(env, p.store.config, r).Ok? {
      var who := Authenticate(env, p.store.config, r).value;
      if cmd.Mutates() {
        SameMutate(env, p, q, cmd, who, r, b);
      } else if Target(r) == Some(b) {
        SameRead(p.store.config, q.store.config, cmd, r.query, r.body, b);
      }
    }
  }

  lemma SameViewThrough(env: Env, p: Plane, q: Plane, x: Plane, b: string)
    requires SameView(env, p, q, b) && SameView(env, p, x, b)
    ensures SameView(env, x, q, b)
  {
  }

  lemma ThinnedStep(env: Env, p: Plane, q: Plane, r: Request, b: string)
    requires WellFormed(p.store.config) && WellFormed(q.store.config) && b != "" && SameView(env, p, q, b)
    requires Kept(r, b) || NamesKnownPlatform(r)
    ensures SameView(env, Next(env, p, r), if Kept(r, b) then Next(env, q, r) else q, b)
  {
    if Kept(r, b) {
      KeptRequestAgrees(env, p, q, r, b);
    } else {
      OtherRequestUnseen(env, p, r, b);
      SameViewThrough(env, p, q, Next(env, p, r), b);
    }
  }

  // The thinned run serves a kept request last, or stops where it was.
  lemma WithoutStep(env: Env, seed: Plane, rs: seq<Request>, b: string)
    requires rs != []
    ensures var q := Run(env, seed, Without(rs[..|rs| - 1], b)); var r := rs[|rs| - 1];
      Run(env, seed, Without(rs, b)) == if Kept(r, b) then Next(env, q, r) else q
  {
    var front, r := Without(rs[..|rs| - 1], b), rs[|rs| - 1];
    if Kept(r, b) { assert (front + [r])[..|front|] == front; } else { assert Without(rs, b) == front; }
  }

  // Deleting from a sequential run every request addressed to other tenants leaves everything b can see
  // unchanged. Rotations of other tenants must name known platforms; those of b need not.
  lemma {:induction false} TenantsDoNotInterfere(env: Env, seed: Plane, rs: seq<Request>, b: string)
    requires WellFormed(seed.store.config) && b != ""
    requires forall r <- rs :: Kept(r, b) || NamesKnownPlatform(r)
    ensures SameView(env, Run(env, seed, rs), Run(env, seed, Without(rs, b)), b)
  {
    if rs != [] {
      var n := |rs| - 1;
      TenantsDoNotInterfere(env, seed, rs[..n], b);
      RunKeepsWellFormed(env, seed, rs[..n]);
      RunKeepsWellFormed(env, seed, Without(rs[..n], b));
      assert rs[n] in rs;
      ThinnedStep(env, Run(env, seed, rs[..n]), Run(env, seed, Without(rs[..n], b)), rs[n], b);
      WithoutStep(env, seed, rs, b);
    }
  }

  // So the next request of b gets the same answer after the whole run as after the thinned one.
  lemma SameAnswers(env: Env, seed: Plane, rs: seq<Request>, r: Request, b: string)
    requires WellFormed(seed.store.config) && b != "" && Answered(r, b)
    requires forall x <- rs :: Kept(x, b) || NamesKnownPlatform(x)
    ensures Serve(env, Run(env, seed, rs), r).1 == Serve(env, Run(env, seed, Without(rs, b)), r).1
  {
    TenantsDoNotInterfere(env, seed, rs, b);
    RunKeepsWellFormed(env, seed, rs);
    RunKeepsWellFormed(env, seed, Without(rs, b));
    KeptRequestAgrees(env, Run(env, seed, rs), Run(env, seed, Without(rs, b)), r, b);
  }

  // A listing filtered by b sees the log only through b's entries.
  lemma {:induction false} MatchingThroughTenant(log: seq<AuditEntry>, f: AuditFilter)
    ensures Matching(log, f) == Matching(Matching(log, ForTenant(f.tenantId)), f)
  {
    if log != [] {
      var n, e := |log| - 1, log[|log| - 1];
      MatchingThroughTenant(log[..n], f);
      var inner := Matching(log[..n], ForTenant(f.tenantId));
      if Matches(ForTenant(f.tenantId), e) {
        assert Matching(log, ForTenant(f.tenantId)) == inner + [e];
        MatchingAppend(inner, e, f);
      } else {
        assert Matching(log, ForTenant(f.tenantId)) == inner;
      }
    }
  }

  // Whatever else it filters by and whatever its limit, an audit listing filtered by b selects the same pages.
  lemma SameAuditPages(env: Env, seed: Plane, rs: seq<Request>, b: string, f: AuditFilter, out: seq<AuditEntry>)
    requires WellFormed(seed.store.config) && b != "" && f.tenantId == b
    requires forall r <- rs :: Kept(r, b) || NamesKnownPlatform(r)
    ensures IsPage(Run(env, seed, rs).store.audit, f, out) <==>
      IsPage(Run(env, seed, Without(rs, b)).store.audit, f, out)
  {
    TenantsDoNotInterfere(env, seed, rs, b);
    var l, m := Run(env, seed, rs).store.audit, Run(env, seed, Without(rs, b)).store.audit;
    MatchingThroughTenant(l, f);
    MatchingThroughTenant(m, f);
    forall full ensures Ordering(l, f, full) <==> Ordering(m, f, full) {}
  }
}
