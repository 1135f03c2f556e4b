// What each reading request answers, said of Serve from the request and the stored documents alone.
module Reads {
  import opened Types
  import opened Text
  import opened Store
  import opened Listing
  import opened AuditLog
  import opened Routing
  import opened Service
  import opened Runs

  // Any admin may read.
  ghost predicate ByAdmin(env: Env, p: Plane, r: Request)
  {
    Identified(env, r) && Sender(env, r) in p.store.config.admins
  }

  // Nothing changes, and this is the answer.
  ghost predicate Answers200(env: Env, p: Plane, r: Request, payload: Payload)
  {
    Serve(env, p, r) == (p, Response(200, payload))
  }

  lemma ReadIs(env: Env, p: Plane, r: Request, cmd: Command)
    requires Route(r.httpMethod, r.path) == cmd && !cmd.OwnerOnly() && ByAdmin(env, p, r)
    ensures Serve(env, p, r) == (p, Read(p.store.config, cmd, r.query))
  {
  }

  // ---- One document ----

  lemma GetServed(env: Env, p: Plane, r: Request)
    requires ByAdmin(env, p, r)
    ensures var c := p.store.config;
      match Route(r.httpMethod, r.path)
      case GetTenant(tid) =>
        if tid in c.tenants then Answers200(env, p, r, TenantDoc(c.tenants[tid]))
        else Serve(env, p, r) == (p, Response(404, NoPayload))
      case GetConnector(tid, id) =>
        if Key(tid, id) in c.conns then Answers200(env, p, r, ConnectorDoc(c.conns[Key(tid, id)]))
        else Serve(env, p, r) == (p, Response(404, NoPayload))
      case GetAgent(tid, id) =>
        if Key(tid, id) in c.agents then Answers200(env, p, r, AgentDoc(c.agents[Key(tid, id)]))
        else Serve(env, p, r) == (p, Response(404, NoPayload))
      case GetSwarm(tid, id) =>
        if Key(tid, id) in c.swarms then Answers200(env, p, r, SwarmDoc(c.swarms[Key(tid, id)]))
        else Serve(env, p, r) == (p, Response(404, NoPayload))
      case NoSuchPath => Serve(env, p, r) == (p, Response(404, NoPayload))
      case MethodNotAllowed => Serve(env, p, r) == (p, Response(405, NoPayload))
      case _ => true
  {
  }

  // ---- Listings ----

  ghost predicate InOrder<T>(rows: seq<T>, idOf: T -> string)
  {
    forall i, j :: 0 <= i < j < |rows| ==> Less(idOf(rows[i]), idOf(rows[j]))
  }

  // Every tenant once, by id.
  lemma TenantsListed(env: Env, p: Plane, r: Request) returns (rows: seq<Tenant>)
    requires WellFormed(p.store.config) && ByAdmin(env, p, r) && Route(r.httpMethod, r.path) == ListTenants
    ensures Answers200(env, p, r, TenantRows(rows)) && InOrder(rows, (t: Tenant) => t.id)
    ensures forall t :: t in rows <==> t.id in p.store.config.tenants && p.store.config.tenants[t.id] == t
  {
    var m := p.store.config.tenants;
    rows := Rows(m);
    ReadIs(env, p, r, ListTenants);
    RowsInOrder(m, (t: Tenant) => t.id);
  }

  // Every connector of the tenant once, by platform.
  lemma ConnectorsListed(env: Env, p: Plane, r: Request, tid: string) returns (rows: seq<ConnectorConfig>)
    requires WellFormed(p.store.config) && ByAdmin(env, p, r) && Route(r.httpMethod, r.path) == ListConnectors(tid)
    ensures Answers200(env, p, r, ConnectorRows(rows)) && InOrder(rows, (d: ConnectorConfig) => d.platform)
    ensures forall d :: d in rows <==>
      d.tenantId == tid && Key(tid, d.platform) in p.store.config.conns &&
        p.store.config.conns[Key(tid, d.platform)] == d
  {
    var c := p.store.config;
    var m := Submap(c.conns, tid);
    forall id ensures id in m ==> m[id].platform == id && m[id].tenantId == tid {
      SubmapAt(c.conns, tid, id);
      if id in m { assert ConnKey(c.conns[Key(tid, id)]) == Key(tid, id); }
    }
    rows := Rows(m);
    ReadIs(env, p, r, ListConnectors(tid));
    RowsInOrder(m, (d: ConnectorConfig) => d.platform);
    forall d ensures d in rows <==>
      d.tenantId == tid && Key(tid, d.platform) in c.conns && c.conns[Key(tid, d.platform)] == d {
      SubmapAt(c.conns, tid, d.platform);
    }
  }

  // Every agent of the tenant once, by id.
  lemma AgentsListed(env: Env, p: Plane, r: Request, tid: string) returns (rows: seq<AgentProfile>)
    requires WellFormed(p.store.config) && ByAdmin(env, p, r) && Route(r.httpMethod, r.path) == ListAgents(tid)
    ensures Answers200(env, p, r, AgentRows(rows)) && InOrder(rows, (a: AgentProfile) => a.id)
    ensures forall a :: a in rows <==>
      a.tenantId == tid && Key(tid, a.id) in p.store.config.agents && p.store.config.agents[Key(tid, a.id)] == a
  {
    var c := p.store.config;
    var m := Submap(c.agents, tid);
    forall id ensures id in m ==> m[id].id == id && m[id].tenantId == tid {
      SubmapAt(c.agents, tid, id);
      if id in m { assert AgentKey(c.agents[Key(tid, id)]) == Key(tid, id); }
    }
    rows := Rows(m);
    ReadIs(env, p, r, ListAgents(tid));
    RowsInOrder(m, (a: AgentProfile) => a.id);
    forall a ensures a in rows <==> a.tenantId == tid && Key(tid, a.id) in c.agents && c.agents[Key(tid, a.id)] == a {
      SubmapAt(c.agents, tid, a.id);
    }
  }

  // Every swarm of the tenant once, by id.
  lemma SwarmsListed(env: Env, p: Plane, r: Request, tid: string) returns (rows: seq<SwarmDef>)
    requires WellFormed(p.store.config) && ByAdmin(env, p, r) && Route(r.httpMethod, r.path) == ListSwarms(tid)
    ensures Answers200(env, p, r, SwarmRows(rows)) && InOrder(rows, (s: SwarmDef) => s.id)
    ensures forall s :: s in rows <==>
      s.tenantId == tid && Key(tid, s.id) in p.store.config.swarms && p.store.config.swarms[Key(tid, s.id)] == s
  {
    var c := p.store.config;
    var m := Submap(c.swarms, tid);
    forall id ensures id in m ==> m[id].id == id && m[id].tenantId == tid {
      SubmapAt(c.swarms, tid, id);
      if id in m { assert SwarmKey(c.swarms[Key(tid, id)]) == Key(tid, id); }
    }
    rows := Rows(m);
    ReadIs(env, p, r, ListSwarms(tid));
    RowsInOrder(m, (s: SwarmDef) => s.id);
    forall s ensures s in rows <==> s.tenantId == tid && Key(tid, s.id) in c.swarms && c.swarms[Key(tid, s.id)] == s {
      SubmapAt(c.swarms, tid, s.id);
    }
  }

  // The list of admins is for owners.
  lemma AdminUsersGated(env: Env, p: Plane, r: Request)
    requires ByAdmin(env, p, r) && Route(r.httpMethod, r.path) == ListAdminUsers
    ensures var admins := p.store.config.admins;
      if admins[Sender(env, r)].role == "owner" then Answers200(env, p, r, AdminUserRows(Rows(admins)))
      else Serve(env, p, r) == (p, Response(403, NoPayload))
  {
  }

  // Every admin once, by email.
  lemma AdminUsersListed(env: Env, p: Plane, r: Request) returns (rows: seq<AdminUser>)
    requires WellFormed(p.store.config) && ByOwner(env, p, r) && Route(r.httpMethod, r.path) == ListAdminUsers
    ensures Answers200(env, p, r, AdminUserRows(rows)) && InOrder(rows, (u: AdminUser) => u.email)
    ensures forall u :: u in rows <==> u.email in p.store.config.admins && p.store.config.admins[u.email] == u
  {
    rows := Rows(p.store.config.admins);
    AdminUsersGated(env, p, r);
    AdminRows(p.store.config, rows);
  }

  lemma AdminRows(c: Config, rows: seq<AdminUser>)
    requires WellFormed(c) && rows == Rows(c.admins)
    ensures InOrder(rows, (u: AdminUser) => u.email)
    ensures forall u :: u in rows <==> u.email in c.admins && c.admins[u.email] == u
  {
    RowsInOrder(c.admins, (u: AdminUser) => u.email);
  }

  // ---- The audit log ----

  // What the query asks of an entry.
  predicate Asked(q: Query, e: AuditEntry)
  {
    var kind := match e.resource
      case TenantRes => "tenant"
      case ConnectorRes => "connector"
      case AgentRes => "agent"
      case SwarmRes => "swarm"
      case AdminUserRes => "admin_user";
    (q.tenant == "" || q.tenant == e.tenantId) && (q.actor == "" || q.actor == e.actor) &&
      (q.resource == "" || q.resource == kind)
  }

  // Without a number, or with zero, 200.
  function Asks(q: Query): int { if q.limit.Some? && q.limit.value != 0 then q.limit.value else 200 }

  // Whatever page of the log the answer stands for: it is made of logged entries that the query asks for, each at most
  // as often as logged, newest first, no more than asked for; an entry it leaves out is no newer than those it shows,
  // and it leaves none out unless it is full.
  lemma AuditServed(env: Env, p: Plane, r: Request, out: seq<AuditEntry>)
    requires ByAdmin(env, p, r) && Route(r.httpMethod, r.path) == ListAudit
    ensures Serve(env, p, r).0 == p && Serve(env, p, r).1.status == 200 && Serve(env, p, r).1.payload.AuditRows?
    ensures IsPage(p.store.audit, Serve(env, p, r).1.payload.filter, out) ==>
      && (forall e <- out :: Asked(r.query, e))
      && (forall e :: multiset(out)[e] <= multiset(p.store.audit)[e])
      && (forall i, j :: 0 <= i < j < |out| ==> out[i].at >= out[j].at)
      && (Asks(r.query) > 0 ==> |out| <= Asks(r.query))
      && (forall o, e :: o in out && Asked(r.query, e) && multiset(out)[e] < multiset(p.store.audit)[e] ==>
        o.at >= e.at)
      && (Asks(r.query) < 0 || |out| < Asks(r.query) ==>
            forall e :: Asked(r.query, e) ==> multiset(out)[e] == multiset(p.store.audit)[e])
  {
    var f := AuditFilter(r.query.tenant, r.query.actor, r.query.resource, Asks(r.query));
    ReadIs(env, p, r, ListAudit);
    assert Serve(env, p, r).1.payload.filter == f;
    if IsPage(p.store.audit, f, out) { PageAnswers(p.store.audit, r.query, f, out); }
  }

  lemma AskedMatches(log: seq<AuditEntry>, q: Query, f: AuditFilter, e: AuditEntry)
    requires f == AuditFilter(q.tenant, q.actor, q.resource, Asks(q))
    ensures multiset(Matching(log, f))[e] == if Asked(q, e) then multiset(log)[e] else 0
  {
    MatchingCounts(log, f, e);
  }

  lemma RowsAreAsked(log: seq<AuditEntry>, q: Query, f: AuditFilter, out: seq<AuditEntry>)
    requires f == AuditFilter(q.tenant, q.actor, q.resource, Asks(q)) && multiset(out) <= multiset(Matching(log, f))
    ensures forall e <- out :: Asked(q, e)
    ensures forall e :: multiset(out)[e] <= multiset(log)[e]
  {
    forall e ensures multiset(out)[e] <= multiset(log)[e] && (e in out ==> Asked(q, e)) {
      AskedMatches(log, q, f, e);
      assert multiset(out)[e] <= multiset(Matching(log, f))[e];
      if e in out { assert e in multiset(out); }
    }
  }

  lemma PageAnswers(log: seq<AuditEntry>, q: Query, f: AuditFilter, out: seq<AuditEntry>)
    requires f == AuditFilter(q.tenant, q.actor, q.resource, Asks(q)) && IsPage(log, f, out)
    ensures forall e <- out :: Asked(q, e)
    ensures forall e :: multiset(out)[e] <= multiset(log)[e]
    ensures forall i, j :: 0 <= i < j < |out| ==> out[i].at >= out[j].at
    ensures Asks(q) > 0 ==> |out| <= Asks(q)
    ensures forall o, e :: o in out && Asked(q, e) && multiset(out)[e] < multiset(log)[e] ==> o.at >= e.at
    ensures Asks(q) < 0 || |out| < Asks(q) ==> forall e :: Asked(q, e) ==> multiset(out)[e] == multiset(log)[e]
  {
    PageIsTopOfLog(log, f, out);
    var all := Matching(log, f);
    RowsAreAsked(log, q, f, out);
    forall i, j | 0 <= i < j < |out| ensures out[i].at >= out[j].at { assert NotOlder(out[i], out[j]); }
    forall o, e | o in out && Asked(q, e) && multiset(out)[e] < multiset(log)[e] ensures o.at >= e.at {
      AskedMatches(log, q, f, e);
      assert NotOlder(o, e);
    }
    if Asks(q) < 0 || |out| < Asks(q) {
      SameSizeBags(out, all);
      forall e | Asked(q, e) ensures multiset(out)[e] == multiset(log)[e] { AskedMatches(log, q, f, e); }
    }
  }

  lemma SameSizeBags(out: seq<AuditEntry>, all: seq<AuditEntry>)
    requires multiset(out) <= multiset(all) && |out| == |all|
    ensures multiset(out) == multiset(all)
  {
    var rest := multiset(all) - multiset(out);
    assert |rest| == |multiset(all)| - |multiset(out)|;
    assert multiset(all) == multiset(out) + rest;
  }
}
