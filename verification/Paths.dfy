// The whole table of paths and methods (cmd/admin-api/handlers/handlers.go, routeAdminUsers and routeAdminUserItem).
module Paths {
  import opened Types
  import opened Text
  import opened Routing
  import opened Routes

  lemma TenantsPath(m: Method)
    ensures Route(m, "/v1/tenants") ==
      if m == GET then ListTenants else if m == POST then CreateTenant else MethodNotAllowed
  {
  }

  lemma AdminUsersPath(m: Method)
    ensures Route(m, "/v1/admin-users") == if m == GET then ListAdminUsers else MethodNotAllowed
  {
    FixedPathsDiffer();
  }

  // The audit log answers to every method.
  lemma AuditPath(m: Method)
    ensures Route(m, "/v1/audit") == ListAudit
  {
    FixedPathsDiffer();
  }

  lemma FixedPathsDiffer()
    ensures var users, audit := "/v1/admin-users", "/v1/audit";
      && users != TENANTS && !HasPrefix(users, TENANT_ITEM)
      && audit != TENANTS && audit != ADMIN_USERS && !HasPrefix(audit, TENANT_ITEM) &&
        !HasPrefix(audit, ADMIN_USER_ITEM)
  {
    assert "/v1/admin-users"[4] == 'a' && TENANT_ITEM[4] == 't';
    assert |"/v1/audit"| == 9 && |ADMIN_USERS| == 15 && |ADMIN_USER_ITEM| == 16 && |TENANT_ITEM| == 12;
  }

  // All that follows /v1/admin-users/ is the email, slashes and all.
  lemma AdminUserPath(m: Method, email: string)
    ensures Route(m, "/v1/admin-users/" + email) ==
      if email == "" then NoSuchPath
      else if m == PUT then PutAdminUser(email)
      else if m == DELETE then DeleteAdminUser(email)
      else MethodNotAllowed
  {
    var path := ADMIN_USER_ITEM + email;
    assert path[4] == 'a' && TENANT_ITEM[4] == 't' && TENANTS[4] == 't';
    assert |ADMIN_USERS| == 15 && |ADMIN_USER_ITEM| == 16;
    assert path[|ADMIN_USER_ITEM|..] == email;
  }

  lemma OtherPath(m: Method, path: string)
    requires path != "/v1/tenants" && path != "/v1/admin-users" && path != "/v1/audit"
    requires !("/v1/tenants/" <= path) && !("/v1/admin-users/" <= path)
    ensures Route(m, path) == NoSuchPath
  {
  }

  // Below /v1/tenants/ without a tenant there is nothing.
  lemma NoTenantPath(m: Method, rest: seq<string>)
    requires forall part <- rest :: '/' !in part
    ensures Route(m, "/v1/tenants/" + Join([""] + rest, '/')) == NoSuchPath
  {
    TenantItemRoute(m, [""] + rest);
  }

  lemma TenantPath(m: Method, tid: string)
    requires tid != "" && '/' !in tid
    ensures Route(m, "/v1/tenants/" + tid) ==
      if m == GET then GetTenant(tid)
      else if m == PATCH then PatchTenant(tid)
      else if m == DELETE then DeleteTenant(tid)
      else MethodNotAllowed
  {
    TenantItemRoute(m, [tid]);
  }

  // The segments below a tenant: the collection and what follows it.
  lemma BelowTenant(m: Method, tid: string, collection: string, rest: seq<string>)
    requires tid != "" && '/' !in tid && '/' !in collection && forall part <- rest :: '/' !in part
    ensures Route(m, "/v1/tenants/" + Join([tid, collection] + rest, '/')) ==
      if collection == "connectors" then RouteConnector(m, tid, rest)
      else if collection == "agents" then RouteAgent(m, tid, rest)
      else if collection == "swarms" then RouteSwarm(m, tid, rest)
      else NoSuchPath
  {
    var segs := [tid, collection] + rest;
    TenantItemRoute(m, segs);
    assert segs[2..] == rest;
  }

  lemma OtherCollectionPath(m: Method, tid: string, collection: string, rest: seq<string>)
    requires tid != "" && '/' !in tid && '/' !in collection && forall part <- rest :: '/' !in part
    requires collection != "connectors" && collection != "agents" && collection != "swarms"
    ensures Route(m, "/v1/tenants/" + Join([tid, collection] + rest, '/')) == NoSuchPath
  {
    BelowTenant(m, tid, collection, rest);
  }

  lemma ConnectorPaths(m: Method, tid: string, rest: seq<string>)
    requires tid != "" && '/' !in tid && forall part <- rest :: '/' !in part
    ensures Route(m, "/v1/tenants/" + Join([tid, "connectors"] + rest, '/')) ==
      if |rest| == 0 then if m == GET then ListConnectors(tid) else MethodNotAllowed
      else if |rest| == 1 then
        if m == GET then GetConnector(tid, rest[0])
        else if m == PUT then PutConnector(tid, rest[0])
        else MethodNotAllowed
      else if rest[1] == "secrets:rotate" && m == POST then Command.RotateSecret(tid, rest[0])
      else NoSuchPath
  {
    NoSlashes();
    BelowTenant(m, tid, "connectors", rest);
  }

  // What follows the id of an agent or a swarm is ignored.
  lemma AgentPaths(m: Method, tid: string, rest: seq<string>)
    requires tid != "" && '/' !in tid && forall part <- rest :: '/' !in part
    ensures Route(m, "/v1/tenants/" + Join([tid, "agents"] + rest, '/')) ==
      if |rest| == 0 then if m == GET then ListAgents(tid) else if m == POST then CreateAgent(tid) else MethodNotAllowed
      else if m == GET then GetAgent(tid, rest[0])
      else if m == PATCH then PatchAgent(tid, rest[0])
      else if m == DELETE then DeleteAgent(tid, rest[0])
      else MethodNotAllowed
  {
    NoSlashes();
    BelowTenant(m, tid, "agents", rest);
  }

  lemma SwarmPaths(m: Method, tid: string, rest: seq<string>)
    requires tid != "" && '/' !in tid && forall part <- rest :: '/' !in part
    ensures Route(m, "/v1/tenants/" + Join([tid, "swarms"] + rest, '/')) ==
      if |rest| == 0 then if m == GET then ListSwarms(tid) else if m == POST then CreateSwarm(tid) else MethodNotAllowed
      else if m == GET then GetSwarm(tid, rest[0])
      else if m == PATCH then PatchSwarm(tid, rest[0])
      else if m == DELETE then DeleteSwarm(tid, rest[0])
      else MethodNotAllowed
  {
    NoSlashes();
    BelowTenant(m, tid, "swarms", rest);
  }

  lemma NoSlashes()
    ensures '/' !in "connectors" && '/' !in "agents" && '/' !in "swarms"
    ensures "connectors" != "agents" && "connectors" != "swarms" && "agents" != "swarms"
  {
    CollectionsDiffer();
  }
}
