// The canonical path of a document leads back to it.
module Routes {
  import opened Types
  import opened Text
  import opened Validate
  import opened Store
  import opened Routing
  import opened Service
  import opened Runs

  function ItemPath(tid: string, collection: string, id: string): string
  {
    TENANT_ITEM + Join([tid, collection, id], '/')
  }

  // Under /v1/tenants/ the segments of a path are those it was joined from.
  lemma TenantItemRoute(m: Method, segs: seq<string>)
    requires |segs| >= 1 && forall s <- segs :: '/' !in s
    ensures Route(m, TENANT_ITEM + Join(segs, '/')) == RouteTenantItem(m, segs)
  {
    var path := TENANT_ITEM + Join(segs, '/');
    assert path[|TENANT_ITEM| - 1] == '/' && |TENANTS| == |TENANT_ITEM| - 1;
    assert path != TENANTS;
    assert path[|TENANT_ITEM|..] == Join(segs, '/');
    SplitJoin(segs, '/');
  }

  // And every path below /v1/tenants/ is routed by segments that join to it.
  lemma TenantItemRouteIsJoin(m: Method, rest: string)
    ensures var segs := Split(rest, '/');
      Join(segs, '/') == rest && Route(m, TENANT_ITEM + rest) == RouteTenantItem(m, segs)
  {
    JoinSplit(rest, '/');
    TenantItemRoute(m, Split(rest, '/'));
  }

  lemma CollectionsDiffer()
    ensures "connectors" != "agents" && "connectors" != "swarms" && "agents" != "swarms"
  {
    assert |"connectors"| == 10 && |"agents"| == 6;
    assert "agents"[0] == 'a' && "swarms"[0] == 's';
  }

  lemma ItemRoute(m: Method, tid: string, id: string)
    requires tid != "" && '/' !in tid && '/' !in id
    ensures Route(m, ItemPath(tid, "connectors", id)) == RouteConnector(m, tid, [id])
    ensures Route(m, ItemPath(tid, "agents", id)) == RouteAgent(m, tid, [id])
    ensures Route(m, ItemPath(tid, "swarms", id)) == RouteSwarm(m, tid, [id])
  {
    CollectionsDiffer();
    assert '/' !in "connectors" && '/' !in "agents" && '/' !in "swarms";
    TenantItemRoute(m, [tid, "connectors", id]);
    TenantItemRoute(m, [tid, "agents", id]);
    TenantItemRoute(m, [tid, "swarms", id]);
    assert [tid, "connectors", id][2..] == [id] && [tid, "agents", id][2..] == [id] && [tid, "swarms", id][2..] == [id];
  }

  function RotatePath(tid: string, p: string): string
  {
    TENANT_ITEM + Join([tid, "connectors", p, "secrets:rotate"], '/')
  }

  lemma RotateRoute(tid: string, p: string)
    requires tid != "" && '/' !in tid && '/' !in p
    ensures Route(POST, RotatePath(tid, p)) == Command.RotateSecret(tid, p)
  {
    var segs := [tid, "connectors", p, "secrets:rotate"];
    assert '/' !in "connectors" && '/' !in "secrets:rotate";
    TenantItemRoute(POST, segs);
    assert segs[2..] == [p, "secrets:rotate"];
  }

  lemma ItemCommands(tid: string, id: string)
    ensures RouteConnector(GET, tid, [id]) == GetConnector(tid, id) &&
      RouteConnector(PUT, tid, [id]) == PutConnector(tid, id)
    ensures RouteAgent(GET, tid, [id]) == GetAgent(tid, id) && RouteAgent(PATCH, tid, [id]) == PatchAgent(tid, id)
    ensures RouteSwarm(GET, tid, [id]) == GetSwarm(tid, id) && RouteSwarm(PATCH, tid, [id]) == PatchSwarm(tid, id)
    ensures RouteAgent(DELETE, tid, [id]) == DeleteAgent(tid, id) &&
      RouteSwarm(DELETE, tid, [id]) == DeleteSwarm(tid, id)
  {
  }

  lemma CanonicalPaths(tid: string, id: string)
    requires tid != "" && '/' !in tid && '/' !in id
    ensures Route(GET, ItemPath(tid, "connectors", id)) == GetConnector(tid, id)
    ensures Route(PUT, ItemPath(tid, "connectors", id)) == PutConnector(tid, id)
    ensures Route(GET, ItemPath(tid, "agents", id)) == GetAgent(tid, id)
    ensures Route(PATCH, ItemPath(tid, "agents", id)) == PatchAgent(tid, id)
    ensures Route(DELETE, ItemPath(tid, "agents", id)) == DeleteAgent(tid, id)
    ensures Route(GET, ItemPath(tid, "swarms", id)) == GetSwarm(tid, id)
    ensures Route(PATCH, ItemPath(tid, "swarms", id)) == PatchSwarm(tid, id)
    ensures Route(DELETE, ItemPath(tid, "swarms", id)) == DeleteSwarm(tid, id)
  {
    ItemCommands(tid, id);
    ItemRoute(GET, tid, id);
    ItemRoute(PUT, tid, id);
    ItemRoute(PATCH, tid, id);
    ItemRoute(DELETE, tid, id);
  }

  // The path of a tenant, which is one segment.
  lemma TenantRoute(tid: string)
    requires tid != "" && '/' !in tid
    ensures Route(GET, TENANT_ITEM + tid) == GetTenant(tid)
    ensures Route(PATCH, TENANT_ITEM + tid) == PatchTenant(tid)
    ensures Route(DELETE, TENANT_ITEM + tid) == DeleteTenant(tid)
  {
    TenantItemRoute(GET, [tid]);
    TenantItemRoute(PATCH, [tid]);
    TenantItemRoute(DELETE, [tid]);
  }

  lemma ConnectorPath(tid: string, id: string)
    requires tid != "" && '/' !in tid && '/' !in id
    ensures Route(GET, ItemPath(tid, "connectors", id)) == GetConnector(tid, id)
  {
    CanonicalPaths(tid, id);
  }

  lemma AgentPath(tid: string, id: string)
    requires tid != "" && '/' !in tid && '/' !in id
    ensures Route(GET, ItemPath(tid, "agents", id)) == GetAgent(tid, id)
  {
    CanonicalPaths(tid, id);
  }

  lemma SwarmPath(tid: string, id: string)
    requires tid != "" && '/' !in tid && '/' !in id
    ensures Route(GET, ItemPath(tid, "swarms", id)) == GetSwarm(tid, id)
  {
    CanonicalPaths(tid, id);
  }

  lemma TenantPath(tid: string)
    requires tid != "" && '/' !in tid
    ensures Route(GET, TENANT_ITEM + tid) == GetTenant(tid)
  {
    TenantRoute(tid);
  }

  // The canonical path of every stored connector, agent and swarm leads back to its own tenant and id.
  lemma StoredPathsRoute(c: Config, k: Key)
    requires WellFormed(c)
    ensures k in c.conns ==> Route(GET, ItemPath(k.tenant, "connectors", k.id)) == GetConnector(k.tenant, k.id)
    ensures k in c.conns ==> Route(PUT, ItemPath(k.tenant, "connectors", k.id)) == PutConnector(k.tenant, k.id)
    ensures k in c.conns ==> Route(POST, RotatePath(k.tenant, k.id)) == Command.RotateSecret(k.tenant, k.id)
    ensures k in c.agents ==> Route(GET, ItemPath(k.tenant, "agents", k.id)) == GetAgent(k.tenant, k.id)
    ensures k in c.agents ==> Route(PATCH, ItemPath(k.tenant, "agents", k.id)) == PatchAgent(k.tenant, k.id)
    ensures k in c.agents ==> Route(DELETE, ItemPath(k.tenant, "agents", k.id)) == DeleteAgent(k.tenant, k.id)
    ensures k in c.swarms ==> Route(GET, ItemPath(k.tenant, "swarms", k.id)) == GetSwarm(k.tenant, k.id)
    ensures k in c.swarms ==> Route(PATCH, ItemPath(k.tenant, "swarms", k.id)) == PatchSwarm(k.tenant, k.id)
    ensures k in c.swarms ==> Route(DELETE, ItemPath(k.tenant, "swarms", k.id)) == DeleteSwarm(k.tenant, k.id)
  {
    if k in c.conns || k in c.agents || k in c.swarms {
      KeyIsSegments(c, k);
      CanonicalPaths(k.tenant, k.id);
      RotateRoute(k.tenant, k.id);
    }
  }

  lemma KeyIsSegments(c: Config, k: Key)
    requires WellFormed(c) && (k in c.conns || k in c.agents || k in c.swarms)
    ensures k.tenant != "" && '/' !in k.tenant && k.id != "" && '/' !in k.id
  {
    if k in c.conns {
      assert ConnKey(c.conns[k]) == k;
      ValidIdIsSegment(k.tenant);
      KnownPlatformIsWord(k.id);
    } else if k in c.agents {
      assert AgentKey(c.agents[k]) == k;
      ValidIdIsSegment(k.tenant);
      ValidIdIsSegment(k.id);
    } else {
      assert SwarmKey(c.swarms[k]) == k;
      ValidIdIsSegment(k.tenant);
      ValidIdIsSegment(k.id);
    }
  }

  // ---- What was written is what is read ----

  // A GET by a known caller answers from the store and changes nothing.
  lemma ReadServed(env: Env, p: Plane, r: Request, cmd: Command)
    requires Route(r.httpMethod, r.path) == cmd && !cmd.OwnerOnly() && Authenticate(env, p.store.config, r).Ok?
    ensures Serve(env, p, r) == (p, Read(p.store.config, cmd, r.query))
  {
  }

  // A GET that is routed to a stored document returns it.
  lemma StoredIsRead(env: Env, p: Plane, r: Request, path: string, cmd: Command)
    requires r.httpMethod == GET && r.path == path && Route(GET, path) == cmd &&
      Authenticate(env, p.store.config, r).Ok?
    ensures var c := p.store.config;
      match cmd
      case GetTenant(tid) => tid in c.tenants ==> Serve(env, p, r) == (p, Response(200, TenantDoc(c.tenants[tid])))
      case GetConnector(tid, id) =>
        Key(tid, id) in c.conns ==> Serve(env, p, r) == (p, Response(200, ConnectorDoc(c.conns[Key(tid, id)])))
      case GetAgent(tid, id) =>
        Key(tid, id) in c.agents ==> Serve(env, p, r) == (p, Response(200, AgentDoc(c.agents[Key(tid, id)])))
      case GetSwarm(tid, id) =>
        Key(tid, id) in c.swarms ==> Serve(env, p, r) == (p, Response(200, SwarmDoc(c.swarms[Key(tid, id)])))
      case _ => true
  {
  }

  // A GET of the canonical path of a stored document by any known caller returns it and changes nothing.
  lemma StoredAgentIsRead(env: Env, p: Plane, r: Request, k: Key)
    requires WellFormed(p.store.config) && k in p.store.config.agents && Authenticate(env, p.store.config, r).Ok?
    requires r.httpMethod == GET && r.path == ItemPath(k.tenant, "agents", k.id)
    ensures Serve(env, p, r) == (p, Response(200, AgentDoc(p.store.config.agents[k])))
  {
    KeyIsSegments(p.store.config, k);
    AgentPath(k.tenant, k.id);
    StoredIsRead(env, p, r, r.path, GetAgent(k.tenant, k.id));
  }

  lemma StoredConnectorIsRead(env: Env, p: Plane, r: Request, k: Key)
    requires WellFormed(p.store.config) && k in p.store.config.conns && Authenticate(env, p.store.config, r).Ok?
    requires r.httpMethod == GET && r.path == ItemPath(k.tenant, "connectors", k.id)
    ensures Serve(env, p, r) == (p, Response(200, ConnectorDoc(p.store.config.conns[k])))
  {
    KeyIsSegments(p.store.config, k);
    ConnectorPath(k.tenant, k.id);
    StoredIsRead(env, p, r, r.path, GetConnector(k.tenant, k.id));
  }

  lemma StoredSwarmIsRead(env: Env, p: Plane, r: Request, k: Key)
    requires WellFormed(p.store.config) && k in p.store.config.swarms && Authenticate(env, p.store.config, r).Ok?
    requires r.httpMethod == GET && r.path == ItemPath(k.tenant, "swarms", k.id)
    ensures Serve(env, p, r) == (p, Response(200, SwarmDoc(p.store.config.swarms[k])))
  {
    KeyIsSegments(p.store.config, k);
    SwarmPath(k.tenant, k.id);
    StoredIsRead(env, p, r, r.path, GetSwarm(k.tenant, k.id));
  }

  lemma StoredTenantIsRead(env: Env, p: Plane, r: Request, tid: string)
    requires WellFormed(p.store.config) && tid in p.store.config.tenants && Authenticate(env, p.store.config, r).Ok?
    requires r.httpMethod == GET && r.path == TENANT_ITEM + tid
    ensures Serve(env, p, r) == (p, Response(200, TenantDoc(p.store.config.tenants[tid])))
  {
    assert p.store.config.tenants[tid].id == tid;
    ValidIdIsSegment(tid);
    TenantPath(tid);
    StoredIsRead(env, p, r, r.path, GetTenant(tid));
  }

  ghost predicate Stored(c: Config, doc: Payload)
  {
    match doc
    case TenantDoc(t) => t.id in c.tenants && c.tenants[t.id] == t
    case ConnectorDoc(d) => ConnKey(d) in c.conns && c.conns[ConnKey(d)] == d
    case AgentDoc(a) => AgentKey(a) in c.agents && c.agents[AgentKey(a)] == a
    case SwarmDoc(s) => SwarmKey(s) in c.swarms && c.swarms[SwarmKey(s)] == s
    case AdminUserDoc(u) => u.email in c.admins && c.admins[u.email] == u
    case _ => true
  }

  lemma DecisionStores(c: Config, cmd: Command, who: Caller, r: Request, ref: SecretRef)
    requires cmd.Mutates() && var d := Decide(c, cmd, who, r, ref); d.Proceed? && Apply(c, d.write).Some?
    ensures var d := Decide(c, cmd, who, r, ref); Stored(Apply(c, d.write).value, d.reply.payload)
  {
  }

  // The document an accepted write answers with is the one stored under its key.
  lemma AcceptedWriteIsStored(env: Env, p: Plane, w: Request)
    requires Accepted(env, p, w)
    ensures Stored(Next(env, p, w).store.config, Serve(env, p, w).1.payload)
  {
    var c, cmd := p.store.config, Route(w.httpMethod, w.path);
    AllOrNothing(env, p, w);
    var who := Authenticate(env, c, w).value;
    var (x, minted) := Mint(env, p.writer, cmd, w);
    var d := Decide(c, cmd, who, w, minted.value);
    DecisionShape(c, cmd, who, w, minted.value);
    CommitShape(p.(writer := x), d);
    DecisionStores(c, cmd, who, w, minted.value);
  }

  // A GET of an agent right after an accepted POST or PATCH answers with the document the write answered with.
  lemma AgentWriteThenRead(env: Env, p: Plane, w: Request, r: Request)
    requires Accepted(env, p, w) && Serve(env, p, w).1.payload.AgentDoc?
    requires var a := Serve(env, p, w).1.payload.agent; Route(r.httpMethod, r.path) == GetAgent(a.tenantId, a.id)
    requires Authenticate(env, Next(env, p, w).store.config, r).Ok?
    ensures Serve(env, Next(env, p, w), r).1 == Response(200, Serve(env, p, w).1.payload)
  {
    AcceptedWriteIsStored(env, p, w);
    var a := Serve(env, p, w).1.payload.agent;
    ReadServed(env, Next(env, p, w), r, GetAgent(a.tenantId, a.id));
  }

  // The same for a connector after a PUT.
  lemma ConnectorWriteThenRead(env: Env, p: Plane, w: Request, r: Request)
    requires Accepted(env, p, w) && Serve(env, p, w).1.payload.ConnectorDoc?
    requires var d := Serve(env, p, w).1.payload.connector;
      Route(r.httpMethod, r.path) == GetConnector(d.tenantId, d.platform)
    requires Authenticate(env, Next(env, p, w).store.config, r).Ok?
    ensures Serve(env, Next(env, p, w), r).1 == Response(200, Serve(env, p, w).1.payload)
  {
    AcceptedWriteIsStored(env, p, w);
    var d := Serve(env, p, w).1.payload.connector;
    ReadServed(env, Next(env, p, w), r, GetConnector(d.tenantId, d.platform));
  }

  // And a deleted agent is gone until it is created again.
  lemma DeletedAgentIsGone(env: Env, p: Plane, w: Request, r: Request, k: Key)
    requires Accepted(env, p, w) && Route(w.httpMethod, w.path) == DeleteAgent(k.tenant, k.id)
    requires Route(r.httpMethod, r.path) == GetAgent(k.tenant, k.id) &&
      Authenticate(env, Next(env, p, w).store.config, r).Ok?
    ensures Serve(env, Next(env, p, w), r).1 == Status(404)
  {
    ReadServed(env, Next(env, p, w), r, GetAgent(k.tenant, k.id));
  }
}
