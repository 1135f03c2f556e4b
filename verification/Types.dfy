// Documents of the admin config plane (pkg/config/types.go), what a request carries, and what it answers.
module Types {
  datatype Option<+T> = None | Some(value: T)
  datatype Result<+T, +E> = Ok(value: T) | Err(error: E)

  // A Go slice of strings: nil, or the elements. The merges tell nil from empty.
  type Strings = Option<seq<string>>

  // An instant. ZERO_TIME stands for the zero time.Time.
  type Time = int
  const ZERO_TIME: Time := 0

  const OWNER := "owner"
  const OPERATOR := "operator"
  const VIEWER := "viewer"

  datatype SecretRef = SecretRef(name: string, version: string)

  // The two kinds the rotate endpoint knows; any other string of the body is Other.
  datatype Kind = Signing | OAuth | Other(name: string)

  datatype Tenant = Tenant(id: string, displayName: string, createdAt: Time, updatedAt: Time, disabled: bool)

  datatype ConnectorConfig = ConnectorConfig(
    tenantId: string, platform: string, webhookPath: string, allowedChannels: Strings,
    signingRef: SecretRef, oauthRef: SecretRef,
    rateLimitPerConv: int, replayCacheEnabled: bool, updatedAt: Time, updatedBy: string)

  datatype AgentProfile = AgentProfile(
    tenantId: string, id: string, name: string, model: string, mcpServers: Strings, skills: Strings,
    memoryScope: string, budgetUSDPerHour: real, updatedAt: Time, updatedBy: string)

  datatype BudgetEnvelope = BudgetEnvelope(maxTokens: int, maxWallClock: int, maxDeploys: int)

  datatype SwarmDef = SwarmDef(
    tenantId: string, id: string, topology: string, roster: Strings, budget: BudgetEnvelope,
    updatedAt: Time, updatedBy: string)

  datatype AdminUser = AdminUser(email: string, role: string, addedBy: string, addedAt: Time)

  datatype Caller = Caller(email: string, role: string)

  datatype Resource = TenantRes | ConnectorRes | AgentRes | SwarmRes | AdminUserRes
  datatype Verb = Create | Patch | Put | Delete | RotateSecret

  // The JSON snapshot of an audit entry, kept structured.
  datatype Snapshot =
    | NoSnapshot
    | OfTenant(tenant: Tenant)
    | OfConnector(connector: ConnectorConfig)
    | OfAgent(agent: AgentProfile)
    | OfSwarm(swarm: SwarmDef)
    | OfAdminUser(user: AdminUser)
    | OfRotation(kind: Kind, reason: string, version: string)

  datatype AuditEntry = AuditEntry(
    id: string, actor: string, actorRole: string, resource: Resource, verb: Verb,
    resourceId: string, tenantId: string, before: Snapshot, after: Snapshot, at: Time, outcome: string)

  datatype AuditFilter = AuditFilter(tenantId: string, actor: string, resourceType: string, limit: int)

  datatype Error = ErrNotFound | ErrInvalid | ErrSecretMissing | ErrOther

  // The documents are addressed by tenant and id (for a connector, the platform).
  datatype Key = Key(tenant: string, id: string)

  datatype Method = GET | POST | PUT | PATCH | DELETE | OTHER(token: string)

  datatype RotateRequest = RotateRequest(kind: Kind, value: string, reason: string)

  // The request body as each handler would decode it; None is a decoding error.
  datatype Body = Body(
    tenant: Option<Tenant>, connector: Option<ConnectorConfig>, agent: Option<AgentProfile>,
    swarm: Option<SwarmDef>, adminUser: Option<AdminUser>, rotate: Option<RotateRequest>)

  // The query of GET /v1/audit; limit is None when absent or not a number.
  datatype Query = Query(tenant: string, actor: string, resource: string, limit: Option<int>)

  // A request with everything the outside decides for it: the IAP verdict on its token, the clock
  // readings for the document and for the audit entry, the random entry id, and the secret writer's fault.
  datatype Request = Request(
    httpMethod: Method, path: string, jwt: string, claims: Option<string>, body: Body, query: Query,
    now: Time, at: Time, auditId: string, writerFault: Option<Error>)

  datatype Payload =
    | NoPayload
    | TenantDoc(tenant: Tenant)
    | ConnectorDoc(connector: ConnectorConfig)
    | AgentDoc(agent: AgentProfile)
    | SwarmDoc(swarm: SwarmDef)
    | AdminUserDoc(user: AdminUser)
    | Rotated(ref: SecretRef, at: Time)
    | TenantRows(tenants: seq<Tenant>)
    | ConnectorRows(connectors: seq<ConnectorConfig>)
    | AgentRows(agents: seq<AgentProfile>)
    | SwarmRows(swarms: seq<SwarmDef>)
    | AdminUserRows(users: seq<AdminUser>)
    | AuditRows(filter: AuditFilter)  // the page this filter selects

  datatype Response = Response(status: int, payload: Payload)

  // How the service is started: the IAP settings, the project and whether a secret writer is wired.
  datatype Env = Env(dev: bool, bypassEmail: string, hasVerifier: bool, projectId: string, writerReady: bool)

  function Status(code: int): Response { Response(code, NoPayload) }
}
