// From method and path to the operation a request asks for (cmd/admin-api/handlers/handlers.go).
module Routing {
  import opened Types
  import opened Text

  datatype Command =
    | ListTenants | CreateTenant | GetTenant(tid: string) | PatchTenant(tid: string) | DeleteTenant(tid: string)
    | ListConnectors(tid: string) | GetConnector(tid: string, id: string) | PutConnector(tid: string, id: string)
    | RotateSecret(tid: string, id: string)
    | ListAgents(tid: string) | CreateAgent(tid: string) | GetAgent(tid: string, id: string)
    | PatchAgent(tid: string, id: string) | DeleteAgent(tid: string, id: string)
    | ListSwarms(tid: string) | CreateSwarm(tid: string) | GetSwarm(tid: string, id: string)
    | PatchSwarm(tid: string, id: string) | DeleteSwarm(tid: string, id: string)
    | ListAdminUsers | PutAdminUser(email: string) | DeleteAdminUser(email: string)
    | ListAudit
    | NoSuchPath | MethodNotAllowed
  {
    predicate Mutates()
    {
      CreateTenant? || PatchTenant? || DeleteTenant? || PutConnector? || RotateSecret? || CreateAgent? || PatchAgent? ||
      DeleteAgent? || CreateSwarm? || PatchSwarm? || DeleteSwarm? || PutAdminUser? || DeleteAdminUser?
    }

    // The routes behind ownerOnly: every write, and the list of admins.
    predicate OwnerOnly() { Mutates() || ListAdminUsers? }
  }

  const TENANTS := "/v1/tenants"
  const TENANT_ITEM := "/v1/tenants/"
  const ADMIN_USERS := "/v1/admin-users"
  const ADMIN_USER_ITEM := "/v1/admin-users/"
  const AUDIT := "/v1/audit"

  function Route(m: Method, path: string): Command
  {
    if path == TENANTS then RouteTenants(m)
    else if HasPrefix(path, TENANT_ITEM) then RouteTenantItem(m, Split(TrimPrefix(path, TENANT_ITEM), '/'))
    else if path == ADMIN_USERS then (if m == GET then ListAdminUsers else MethodNotAllowed)
    else if HasPrefix(path, ADMIN_USER_ITEM) then RouteAdminUser(m, TrimPrefix(path, ADMIN_USER_ITEM))
    else if path == AUDIT then ListAudit
    else NoSuchPath
  }

  function RouteTenants(m: Method): Command
  {
    match m
    case GET => ListTenants
    case POST => CreateTenant
    case _ => MethodNotAllowed
  }

  function RouteTenantItem(m: Method, segs: seq<string>): Command
    requires |segs| >= 1
  {
    var tid := segs[0];
    if tid == "" then NoSuchPath
    else if |segs| == 1 then
      match m
      case GET => GetTenant(tid)
      case PATCH => PatchTenant(tid)
      case DELETE => DeleteTenant(tid)
      case _ => MethodNotAllowed
    else if segs[1] == "connectors" then RouteConnector(m, tid, segs[2..])
    else if segs[1] == "agents" then RouteAgent(m, tid, segs[2..])
    else if segs[1] == "swarms" then RouteSwarm(m, tid, segs[2..])
    else NoSuchPath
  }

  function RouteConnector(m: Method, tid: string, rest: seq<string>): Command
  {
    if rest == [] then (if m == GET then ListConnectors(tid) else MethodNotAllowed)
    else if |rest| == 1 then
      match m
      case GET => GetConnector(tid, rest[0])
      case PUT => PutConnector(tid, rest[0])
      case _ => MethodNotAllowed
    else if rest[1] == "secrets:rotate" && m == POST then Command.RotateSecret(tid, rest[0])
    else NoSuchPath
  }

  // Segments after the id are ignored for agents and swarms.
  function RouteAgent(m: Method, tid: string, rest: seq<string>): Command
  {
    if rest == [] then
      match m
      case GET => ListAgents(tid)
      case POST => CreateAgent(tid)
      case _ => MethodNotAllowed
    else
      match m
      case GET => GetAgent(tid, rest[0])
      case PATCH => PatchAgent(tid, rest[0])
      case DELETE => DeleteAgent(tid, rest[0])
      case _ => MethodNotAllowed
  }

  function RouteSwarm(m: Method, tid: string, rest: seq<string>): Command
  {
    if rest == [] then
      match m
      case GET => ListSwarms(tid)
      case POST => CreateSwarm(tid)
      case _ => MethodNotAllowed
    else
      match m
      case GET => GetSwarm(tid, rest[0])
      case PATCH => PatchSwarm(tid, rest[0])
      case DELETE => DeleteSwarm(tid, rest[0])
      case _ => MethodNotAllowed
  }

  function RouteAdminUser(m: Method, email: string): Command
  {
    if email == "" then NoSuchPath
    else match m
      case PUT => PutAdminUser(email)
      case DELETE => DeleteAdminUser(email)
      case _ => MethodNotAllowed
  }
}
