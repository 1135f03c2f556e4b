# The admin config plane, verified

A Dafny model of the service that keeps sclawion's tenants, connectors, agent profiles, swarms, admin users and
audit log, with the secret rotator, the names and version numbers it relies on, and the Slack webhook's checks.

`dafny verify dfyconfig.toml` checks the whole project.

## How it is built

**Documents and checks.** `Types` holds the documents, requests and answers; `Validate` the checks of
`pkg/config/validate.go`; `Text` splitting, joining, cutting and ordering of strings.

**A mutable layer.** `InMemory.MemStore` has the two-level maps, created on demand, that the source has, and its
`Get` methods hand out fresh `Ref`s to copies. `Secrets.StubWriter` is the versioned writer with its 20-byte digit
buffer. `Handlers` holds `SecretRotator` and `AdminApi`, whose methods change a fetched document step by step, check
it, put it and record it, in the order of the source. Each is proved to do exactly what a function of `Service` says.

**A sequential model.** `Service.Serve` is one request from the IAP check to the answer: `ResolveEmail`,
`Authenticate`, `Routing.Route`, `Decide` (one function a handler), `Mint` for the secret writer, and `Commit` for
the write and its audit entry. `Run` folds it over any sequence of requests. The store's abstract state is
`Store.Config`: one flat map a collection, keyed by tenant and id.

**An interleaved model.** `Interleaving.Exec` runs any number of requests in flight, one step for each call that
takes a lock (role lookup; `AddVersion`; the read that a handler decides from; the write; the audit append), in any
order. A request whose steps are not interrupted is exactly `Serve` (`AloneIsServe`), and requests one after another
are exactly `Run` (`SerialIsRun`), so the two models agree where both apply.

**What each operation promises.** `Served` says of every writing request what it answers and the whole state it leaves,
`Reads` the same of every reading one, `Paths` where every method and path leads, and `Runs.IdentityExact` who a
request is served as: all four from the request and the stored documents, without the functions that compute it.
`Patterns` matches the two regular expressions as written.

What the outside decides is part of a request: the verdict of the IAP verifier, the clock readings, the random audit
id, each handler's decoding of the body, and whether the secret service refuses. All theorems hold for every value of
these. The seed is any state whose documents are valid and lie under their own keys.

## Where the code and its comments differ

The model follows the code.

- `pkg/config/types.go:94` says an audit entry is written for every mutating call, success or failure. The handlers
  record only after a write succeeded (`Runs.AllOrNothing`).
- `pkg/config/audit.go:61` says `Redact` replaces secret-bearing fields. It is the plain JSON form. No plaintext
  reaches the log all the same, because none reaches the documents (`Runs.PlaintextNeverStored`).
- `pkg/config/secretwriter.go:43` says a rotation leaves the connector at the new version. A rotation that names an
  unknown platform is answered 404 after it has advanced a counter, which may be that of another tenant's connector:
  tenant `a` at platform `b-slack` prints the name of tenant `a-b` at `slack` (`Currency.UnknownPlatformCollides`).
  `Currency.CurrentIffUndisturbed` gives the exact condition under which a connector stays current.
- `pkg/auth/hmac.go:35` says a difference above five minutes is refused. The difference saturates at the least
  64-bit count of nanoseconds, whose negation is itself, so a timestamp more than 292 years ahead is let through to
  the signature check (`Slack.FarFutureHeaderPasses`). `Slack.WindowExact` says which differences pass, and
  `Slack.HeaderWindow` which headers.
- `pkg/config/validate.go:16` calls the id pattern a DNS label. It takes a trailing hyphen
  (`Patterns.TrailingHyphenPasses`).
- `cmd/admin-api/handlers/swarms.go:83-85` takes any wall clock but zero, and `pkg/config/validate.go:128-131` checks the
  counts of a budget but not its wall clock: a PATCH with a negative one is accepted
  (`Patches.WallClockMayTurnNegative`), and a positive one stays positive exactly when the last PATCH that sets it sets
  a positive one (`Patches.WallClockStaysPositiveIff`).
- A tenant PATCH without `disabled` enables a soft-deleted tenant again (`Patches.TenantPatchSetsDisabled`).
- A negative `limit` on the audit listing is kept and lists everything; zero and unreadable ones mean 200.

The audit log as an event log, and a connector at the latest version, are promises of requests served one after
another. With requests in flight together `Races` shows for arbitrary requests how each fails: two creations recorded
in the other order than written, two rotations that cross, a rotation that undoes a PUT. `CommitOrder` says exactly
when the entries in the order of their writes still rebuild the store, and when the log lists them in that order.
`InFlight` shows that it is enough, for the store and for the latest version, that no PUT or rotation of a connector
starts while another of it is between its read and its write. What does hold under every interleaving is in `Safety`,
and for tenants in `Separation`.

## Model

| member | source | states |
|---|---|---|
| Runs.RunKeepsWellFormed | pkg/config/validate.go:53-146 | from a valid seed, every state of every sequential run holds only documents that pass their checks, each under the key made of its own fields, and every webhook path is `/v1/` and the platform |
| Runs.StepKeepsWellFormed | pkg/config/memstore.go:100-108 | one request of any kind, accepted or not, keeps that invariant |
| Runs.DecisionIsGood | cmd/admin-api/handlers/connectors.go:43-51 | no handler ever writes a document that fails its check, nor a connector with an empty webhook path |
| Store.ApplyKeepsWellFormed | pkg/config/memstore.go:186-194 | a checked write, delete or disabling keeps all documents valid and under their own keys |
| Validate.ValidIdIsSegment | pkg/config/validate.go:15-21 | an accepted id is a non-empty path segment |
| Patterns.ValidIdIsPattern | pkg/config/validate.go:15-19 | the id check accepts exactly the texts the regular expression matches |
| Patterns.ValidEmailIsPattern | pkg/config/validate.go:20-20 | the email check accepts exactly the texts the regular expression matches, over all ways to split them |
| Patterns.BlankIsTrimmed | pkg/config/validate.go:58-60 | a name is refused as blank exactly when trimming leaves nothing of it |
| Patterns.TrailingHyphenPasses | pkg/config/validate.go:16-19 | an id that ends in a hyphen, which no DNS label does, is accepted |
| Runs.AllOrNothing | cmd/admin-api/handlers/handlers.go:177-191 | for every method and path, store and log change if and only if the request is a write that got a success answer; then whom its token or the bypass shows as sender is a current owner and exactly one entry in their name is appended; the secret writer moves only for an owner's rotation |
| Runs.IdentityExact | pkg/config/rbac.go:46-87 | in dev a bypass email is who sends a request, whatever its token; otherwise it takes a token, a verifier and its acceptance, and the email the verifier returns; anything less is 401, an email that is no admin 403, and the sender is the actor of what is recorded |
| Served.RotateServed | cmd/admin-api/handlers/connectors.go:85-126 | a rotation by anyone but an owner changes nothing; an owner's is 400 for an unreadable body, another kind or an empty value, 503 without a writer, the fault's code when the writer refuses; then the counter of the printed name is one up, a missing connector is 404, and a stored one gets exactly that reference, one entry and 200 |
| Served.PutConnectorServed | cmd/admin-api/handlers/connectors.go:33-72 | an owner's PUT is 200 exactly when tenant, platform, webhook path and rate limit are in order; then channels, rate limit and replay flag are the body's, identity the path's, the references the stored ones or else the body's, the stamps the clock and the sender, and nothing else changes but one entry |
| Served.PutAdminUserServed | cmd/admin-api/handlers/admin_users.go:51-79 | an owner's PUT is 200 exactly when the path's email matches the pattern and the body's role is one of three; then that email has the body's role, the sender as AddedBy and the body's time or else the clock, and nothing else changes but one entry |
| Served.DeleteAdminUserServed | cmd/admin-api/handlers/admin_users.go:81-94 | an owner's DELETE of a stored admin removes that entry, records it and is 204; of another it is 404 and changes nothing |
| Served.CreateTenantServed | cmd/admin-api/handlers/tenants.go:32-58 | an owner's POST is 201 exactly when the id matches the pattern and the name is not blank; then the tenant is the body's with both stamps at the clock, over an existing one too |
| Served.PatchTenantServed | cmd/admin-api/handlers/tenants.go:60-94 | an owner's PATCH takes over a name that is not empty and the disabled flag always, keeps id and creation time, stamps the clock, and records before and after; 404 and 400 change nothing |
| Served.DeleteTenantServed | cmd/admin-api/handlers/tenants.go:96-109 | an owner's DELETE only sets the disabled flag of the tenant |
| Served.CreateAgentServed | cmd/admin-api/handlers/agents.go:32-59 | an owner's POST is 201 exactly when the body passes the checks under the path's tenant; then every other field of the agent is the body's, with the clock and the sender |
| Served.PatchAgentServed | cmd/admin-api/handlers/agents.go:61-131 | an owner's PATCH takes over each field of the body that is neither empty, nil nor zero and no other, and stores the result exactly when it passes the checks |
| Served.DeleteAgentServed | cmd/admin-api/handlers/agents.go:96-110 | an owner's DELETE removes that agent only |
| Served.CreateSwarmServed | cmd/admin-api/handlers/swarms.go:32-59 | an owner's POST is 201 exactly when the body passes the checks under the path's tenant; then every other field of the swarm is the body's, with the clock and the sender |
| Served.PatchSwarmServed | cmd/admin-api/handlers/swarms.go:61-108 | an owner's PATCH takes over topology, roster and each limit of the budget that is neither empty, nil nor zero and no other, and stores the result exactly when it passes the checks |
| Served.DeleteSwarmServed | cmd/admin-api/handlers/swarms.go:110-124 | an owner's DELETE removes that swarm only |
| Served.AgentAcceptedIsValid | pkg/config/validate.go:84-107 | the check of an agent, with names compared after trimming and the scopes written out |
| Served.SwarmAcceptedIsValid | pkg/config/validate.go:109-133 | the check of a swarm, with topologies and roles written out |
| Reads.GetServed | cmd/admin-api/handlers/handlers.go:62-175 | a read of one document by any admin returns it as stored or is 404, a path that leads nowhere 404, a method it does not take 405; nothing changes |
| Reads.TenantsListed | cmd/admin-api/handlers/tenants.go:10-19 | GET of the tenants returns every stored tenant once, strictly by id |
| Reads.ConnectorsListed | cmd/admin-api/handlers/connectors.go:11-20 | GET of a tenant's connectors returns every connector of that tenant once, strictly by platform, and no other |
| Reads.AgentsListed | cmd/admin-api/handlers/agents.go:10-19 | GET of a tenant's agents returns every agent of that tenant once, strictly by id, and no other |
| Reads.SwarmsListed | cmd/admin-api/handlers/swarms.go:10-19 | GET of a tenant's swarms returns every swarm of that tenant once, strictly by id, and no other |
| Reads.AdminUsersListed | cmd/admin-api/handlers/admin_users.go:40-49 | an owner's GET of the admins returns every admin once, strictly by email |
| Reads.AdminUsersGated | cmd/admin-api/handlers/admin_users.go:11-20 | for any other admin it is 403 |
| Reads.AuditServed | cmd/admin-api/handlers/audit.go:10-33 | the page the audit answer stands for shows only logged entries of the asked tenant, actor and resource, newest first, at most as many as asked for or 200; what it leaves out is no newer, and it leaves nothing out unless it is full |
| Runs.DecisionShape | cmd/admin-api/handlers/handlers.go:210-222 | a handler either answers an error and writes nothing, or answers success and records the caller with their role |
| Runs.LogGrowsByAccepted | pkg/config/memstore.go:248-253 | over any run the log is the seed's with one entry more for each accepted write |
| Runs.LogKeepsPrefix | pkg/config/memstore.go:248-253 | what was logged by any point of a run is still there in place at its end |
| Runs.PlaintextStep | cmd/admin-api/handlers/connectors.go:85-125 | the answer, documents, log and counters of one request do not depend on the plaintext it rotates in |
| Runs.PlaintextNeverStored | pkg/config/secretwriter.go:34-41 | two runs that differ only in their plaintexts end with the same documents, log and version counters |
| Replay.LogRebuildsStore | pkg/config/types.go:94-113 | in every sequential run from a valid seed, folding the recorded entries over the seed rebuilds exactly the live tenants, connectors, agents, swarms and admins |
| Replay.StepReplays | cmd/admin-api/handlers/connectors.go:60-69 | one request changes nothing, or appends one entry that alone redoes what it did to the store |
| Replay.EntryRedoesWrite | cmd/admin-api/handlers/connectors.go:104-120 | an entry that describes a write has its effect when replayed, a rotation by naming its secret anew from kind and version |
| Replay.DecisionDescribes | cmd/admin-api/handlers/swarms.go:96-105 | the entry each handler records names the document it wrote by tenant and id, and shows it whole |
| CommitOrder.CommitOrderRebuildsIff | pkg/config/memstore.go:100-108 | under any interleaving, the entries in the order of their writes rebuild exactly the live configuration in every state if and only if every rotation writes the connector as it read it |
| CommitOrder.StepRebuildsIff | pkg/config/secretwriter.go:51-66 | from a state that its entries rebuild, a step leads to another such state if and only if it is no write of a rotation whose connector has changed since it was read |
| CommitOrder.LogOrderIff | pkg/config/memstore.go:248-253 | the log lists the writes in their order in every state if and only if each entry is recorded in its turn |
| CommitOrder.LogRebuildsStoreInFlight | pkg/config/memstore.go:248-253 | with both conditions the log itself rebuilds the store whenever no request stands between write and record |
| InFlight.ExclusiveRebuildsStore | cmd/admin-api/handlers/connectors.go:52-69 | when no PUT or rotation of any connector starts while another of that connector is between its read and its write, the entries in the order of their writes rebuild the store in every state, and the log does too if each is recorded in its turn |
| Races.RotationUndoesPut | pkg/config/secretwriter.go:51-66 | a PUT of another rate limit answered 200 between the read and the write of a rotation of that connector, answered 200 too, is undone by it, and the log no longer rebuilds the store |
| Races.RecordsRace | cmd/admin-api/handlers/agents.go:47-56 | any two creations of one agent with different names can both be answered 201 and be recorded in the other order than written, and then the log no longer rebuilds the store |
| Races.RotationsRace | pkg/config/secretwriter.go:45-68 | any two rotations of one slot can both be answered 200 and leave the connector at the older version |
| InFlight.StaysCurrentInFlight | pkg/config/secretwriter.go:45-68 | with requests in flight, when rotations name supported platforms and no PUT or rotation of a connector starts while another of it is between read and write, a slot that was current is current in every later state in which none is between |
| InFlight.RotationMakesCurrentInFlight | pkg/config/secretwriter.go:45-68 | under the same condition a slot is current so from the rotation on that mints a version for it, whatever it was before |
| Currency.RotatedStaysCurrent | pkg/config/secretwriter.go:43-68 | when a run's rotations name supported platforms, a slot once rotated points at the latest version ever after, through PUTs and rotations of other slots, platforms and tenants |
| Currency.CurrentIffUndisturbed | pkg/config/secretwriter.go:14-28 | after its last rotation a slot is current at the end of any run exactly when no later request advanced its counter from another address; otherwise it points at an older version of itself |
| Currency.CurrentStep | cmd/admin-api/handlers/connectors.go:52-56 | a current slot stays current under a request if and only if the request does not collide with it, and one that fell behind stays behind until rotated |
| Currency.RefStep | cmd/admin-api/handlers/connectors.go:85-126 | a slot's reference moves only when that slot is rotated, and then to the latest version |
| Currency.DecisionRef | cmd/admin-api/handlers/connectors.go:36-72 | no PUT replaces a stored reference, and a rotation replaces that of its own slot and kind only |
| Currency.CounterStep | test/integration/admin_api_test.go:46-52 | a counter moves by one for a request that advances its name and stays otherwise |
| Currency.KnownPlatformNeverCollides | pkg/config/secretwriter.go:14-17 | a rotation at a supported platform cannot advance the counter of another stored connector |
| Currency.UnknownPlatformCollides | cmd/admin-api/handlers/connectors.go:85-108 | an owner's rotation of tenant t at platform x-f is answered 404 and takes connector f of tenant t-x out of date |
| Secrets.ParsePrinted | pkg/config/secretwriter.go:14-28 | a printed secret name parses back to project, tenant, platform and slot, whatever hyphens the tenant holds |
| Secrets.NamesInjective | pkg/config/secretwriter.go:14-28 | over slash-free projects, all tenant strings, supported platforms and both kinds, equal names mean equal parts |
| Secrets.NamesInjectiveInProject | pkg/config/secretwriter.go:14-28 | inside one project of any name, equal names mean equal kinds, equal tenants and platforms if both platforms are supported, and equal platforms if the tenants are equal |
| Secrets.NamesCollide | pkg/config/secretwriter.go:14-17 | without the restriction on platforms, names of two tenants coincide |
| Secrets.Itoa | test/integration/admin_api_test.go:54-67 | the digit loop stays inside its 20 bytes for every 64-bit integer and gives the decimal text of a non-negative one |
| Secrets.DecimalRoundTrip | test/integration/admin_api_test.go:54-67 | version text is all digits, has no leading zero and reads back as the number |
| Secrets.DecimalInjective | test/integration/admin_api_test.go:54-67 | two counters never print alike |
| Secrets.VersionsAreFresh | test/integration/admin_api_test.go:46-52 | a call returns a reference no earlier state of the writer could have returned for that name |
| Secrets.StubWriter.AddVersion | test/integration/admin_api_test.go:46-52 | the named counter advances by one and no other, the call is kept, and the reference is the new latest; a refusal changes nothing |
| Handlers.SecretRotator.Rotate | pkg/config/secretwriter.go:45-68 | the writer moves before the lookup, so a failed rotation may advance the counter but never the store; a successful one stores and returns the new latest reference |
| Isolation.TenantsDoNotInterfere | cmd/admin-api/handlers/handlers.go:62-97 | deleting from a run every request addressed to other tenants leaves tenant b's document, connectors, agents, swarms, log entries and secret counters as they were; rotations of the others must name supported platforms |
| Isolation.SameAnswers | cmd/admin-api/handlers/handlers.go:62-175 | after the whole run and after the thinned one, every request of b, and every write of the admins, gets the same answer |
| Isolation.SameAuditPages | pkg/config/memstore.go:255-276 | an audit listing filtered by b, whatever else it filters by and whatever its limit, may return the same pages after both runs |
| Isolation.OtherRequestUnseen | pkg/config/memstore.go:136-144 | in a well-formed store, a request addressed to another tenant, if it is no rotation at an unknown platform, changes nothing b can see |
| Isolation.KeptRequestAgrees | cmd/admin-api/handlers/agents.go:61-94 | two planes that agree on b still do after a request of b or of the admins, and answer it alike |
| Isolation.DecisionWritesForTarget | cmd/admin-api/handlers/agents.go:61-94 | a handler writes only documents of the tenant its request is addressed to, because stored documents lie under their own keys |
| Isolation.DecisionRecordsForTarget | cmd/admin-api/handlers/tenants.go:87-91 | a handler records what it did under the tenant its request is addressed to |
| Isolation.SameDecision | cmd/admin-api/handlers/swarms.go:61-108 | what a handler decides for b depends only on what b can see |
| Isolation.SameRead | cmd/admin-api/handlers/connectors.go:11-31 | what a read of b answers depends only on what b can see |
| Isolation.OtherCounters | pkg/config/secretwriter.go:14-28 | rotations of other tenants at supported platforms leave the counters of b's secrets alone |
| Separation.TenantsDoNotInterfereInFlight | pkg/config/memstore.go:74-208 | under any interleaving, dropping every thread addressed to other tenants, arrivals and steps, leaves everything b can see as it was and b's own threads where they were, with the same answers; rotations of the others must name supported platforms |
| Separation.OtherStepUnseen | pkg/config/memstore.go:136-144 | one locked call of another tenant's request changes nothing b can see |
| Separation.KeptStepAgrees | cmd/admin-api/handlers/agents.go:61-94 | one locked call of a request of b or of the admins, made in two planes that agree on b, leaves them and the request agreeing |
| Separation.AlwaysOnTarget | cmd/admin-api/handlers/tenants.go:87-91 | in every reachable state, what a request in flight is about to write or record belongs to the tenant it is addressed to |
| Trust.ChainOfTrust | cmd/admin-api/handlers/admin_users.go:51-79 | every admin of every reachable state has a chain of puts, each by the admin named in AddedBy while an owner, that ends at a seeded admin |
| Trust.ChainDescends | cmd/admin-api/handlers/admin_users.go:51-79 | such a chain goes strictly back in time, so following it ends |
| Trust.ChainIsLogged | cmd/admin-api/handlers/admin_users.go:72-76 | read from the final log alone, following it backwards from any admin, put by put and owner by owner, ends at an admin of the seed |
| Trust.AdminStep | cmd/admin-api/handlers/admin_users.go:51-94 | one request leaves an admin entry as it is or it is an owner's put that names that owner |
| Trust.NoOwnerIsForever | pkg/config/rbac.go:49-69 | once no owner remains, store, log and secret counters are the same for ever |
| Trust.NoOwnerIsForeverInFlight | cmd/admin-api/handlers/handlers.go:177-191 | with requests in flight the same holds once no owner remains and no request stands past the gate with a write |
| Trust.AdmittedPutMakesOwner | cmd/admin-api/handlers/admin_users.go:66-71 | without the second condition it does not: a put of an owner admitted earlier brings an owner back |
| Trust.LastOwnerMayLeave | cmd/admin-api/handlers/admin_users.go:81-94 | the only owner can delete themselves and be answered 204, which leads there |
| Safety.AlwaysGood | pkg/config/memstore.go:13-21 | the whole invariant of requests in flight holds in every reachable state of every interleaving |
| Safety.InterleavedStaysWellFormed | pkg/config/validate.go:53-146 | with any number of requests in flight, documents stay valid and under their own keys |
| Safety.WritesAreRecorded | pkg/config/audit.go:24-39 | committed writes are always as many as recorded entries and requests between write and record; when none is in between, the log holds exactly their entries, each by a caller who was an owner when admitted |
| Safety.ChangesAreCommitted | pkg/config/memstore.go:100-108 | the configuration changes in no step but one that commits a write |
| Safety.StoredRefsHaveOrigin | pkg/config/secretwriter.go:45-68 | under any interleaving a stored reference is the seed's, came in the body of a PUT that passed its check and found no connector, or was returned by AddVersion to a rotation of that same slot since the start, with a version at most its counter |
| Safety.RejectedPutImportsNothing | cmd/admin-api/handlers/connectors.go:48-56 | a PUT that its check rejects takes no reference from its body |
| Safety.DecisionHasOrigin | cmd/admin-api/handlers/connectors.go:52-60 | what a PUT or a rotation is about to write has such an origin |
| Safety.MintGood | pkg/config/secretwriter.go:46-50 | the version AddVersion hands to a rotation is entered for the rotation's own slot and bears its name, and counters only grow |
| Interleaving.AloneIsServe | cmd/admin-api/handlers/handlers.go:177-191 | a request whose locked calls are not interrupted does and answers what the sequential model says |
| Interleaving.SerialIsRun | cmd/admin-api/handlers/handlers.go:30-46 | requests that arrive one after another lead the interleaved model through the sequential run |
| Interleaving.DecidedIsCommit | cmd/admin-api/handlers/agents.go:82-93 | write and record as two steps make up the sequential commit |
| Patches.AgentMergeActs | cmd/admin-api/handlers/agents.go:112-131 | patching twice is patching once with the merged patches, the empty patch changes nothing, and a patch of every field leaves only identity and stamps |
| Patches.SwarmMergeActs | cmd/admin-api/handlers/swarms.go:74-88 | patching a swarm twice is patching it once with the merged patches, the empty patch changes nothing, and a patch of every field leaves only identity and stamps |
| Patches.AgentPatchServed | cmd/admin-api/handlers/agents.go:61-94 | a PATCH of a stored agent is answered 200 if and only if an owner sent a readable body and the merged document is valid, and then only that agent changes |
| Patches.SwarmPatchServed | cmd/admin-api/handlers/swarms.go:61-108 | a PATCH of a stored swarm is answered 200 if and only if an owner sent a readable body and the merged document is valid, and then only that swarm changes |
| Patches.AgentPatchesCollapse | cmd/admin-api/handlers/agents.go:61-131 | a run of accepted PATCHes leaves the configuration of one PATCH of their composition, which is accepted too; the identity stays and a positive budget stays positive |
| Patches.SwarmPatchesCollapse | cmd/admin-api/handlers/swarms.go:61-108 | a run of accepted swarm PATCHes leaves the configuration of one PATCH of their composition, which is accepted too; the identity stays, positive token and deploy limits stay positive, and a wall clock that is not zero stays so, though it may turn negative |
| Patches.ValidMergeKeepsLimits | cmd/admin-api/handlers/swarms.go:80-95 | no accepted patch brings a positive token or deploy limit, or a wall clock other than zero, back to zero, nor a token or deploy limit below it |
| Patches.WallClockMayTurnNegative | pkg/config/validate.go:128-131 | an owner's PATCH that sets the wall clock of any stored swarm to -1 and nothing else is answered 200 and stored |
| Patches.WallClockStaysPositiveIff | cmd/admin-api/handlers/swarms.go:83-85 | after a run of accepted PATCHes a positive wall clock is positive if and only if the last PATCH that sets it, if any does, sets a positive one |
| Patches.TenantPatchSetsDisabled | cmd/admin-api/handlers/tenants.go:73-77 | an accepted tenant PATCH sets Disabled to what its body says, also when the body does not say |
| Routes.StoredPathsRoute | cmd/admin-api/handlers/handlers.go:62-175 | in a well-formed store the canonical paths of every stored connector, agent and swarm lead back to its own tenant and id, for each of their methods |
| Routes.StoredAgentIsRead | cmd/admin-api/handlers/agents.go:21-30 | a GET of the canonical path of a stored agent, by any known caller, returns that agent and changes nothing |
| Routes.StoredConnectorIsRead | cmd/admin-api/handlers/connectors.go:22-31 | a GET of the canonical path of a stored connector returns that connector and changes nothing |
| Routes.StoredSwarmIsRead | cmd/admin-api/handlers/swarms.go:21-30 | a GET of the canonical path of a stored swarm returns that swarm and changes nothing |
| Routes.StoredTenantIsRead | cmd/admin-api/handlers/tenants.go:21-30 | a GET of the path of a stored tenant returns that tenant and changes nothing |
| Routes.TenantRoute | cmd/admin-api/handlers/handlers.go:72-85 | the one-segment path of a tenant leads to the operations on that tenant |
| Routes.CanonicalPaths | cmd/admin-api/handlers/handlers.go:99-175 | for any slash-free tenant and id, the canonical paths of a connector, agent and swarm lead to the operations on that tenant and id |
| Routes.TenantItemRoute | cmd/admin-api/handlers/handlers.go:63-72 | slash-free segments joined under `/v1/tenants/` are routed as those segments |
| Routes.TenantItemRouteIsJoin | cmd/admin-api/handlers/handlers.go:63-72 | every path under `/v1/tenants/` is routed by segments that join back to it |
| Routes.RotateRoute | cmd/admin-api/handlers/handlers.go:120-123 | the rotate path leads to the rotation of its tenant and platform |
| Paths.TenantsPath | cmd/admin-api/handlers/handlers.go:48-60 | the tenants path lists for GET, creates for POST and takes no other method |
| Paths.AdminUsersPath | cmd/admin-api/handlers/admin_users.go:11-20 | the admins path lists for GET and takes no other method |
| Paths.AdminUserPath | cmd/admin-api/handlers/admin_users.go:22-38 | all that follows the admins path is the email: PUT puts, DELETE deletes, other methods are not taken, and without an email there is nothing |
| Paths.AuditPath | cmd/admin-api/handlers/handlers.go:42-43 | the audit path answers to every method |
| Paths.OtherPath | cmd/admin-api/handlers/handlers.go:30-46 | any other path leads nowhere |
| Paths.NoTenantPath | cmd/admin-api/handlers/handlers.go:67-71 | an empty tenant leads nowhere, whatever follows |
| Paths.TenantPath | cmd/admin-api/handlers/handlers.go:72-85 | the path of a tenant gets, patches and deletes it and takes no other method |
| Paths.ConnectorPaths | cmd/admin-api/handlers/handlers.go:99-125 | every method and every number of segments below a tenant's connectors |
| Paths.AgentPaths | cmd/admin-api/handlers/handlers.go:127-150 | every method and every number of segments below a tenant's agents; those after the id are ignored |
| Paths.SwarmPaths | cmd/admin-api/handlers/handlers.go:152-175 | every method and every number of segments below a tenant's swarms; those after the id are ignored |
| Paths.OtherCollectionPath | cmd/admin-api/handlers/handlers.go:86-95 | any other collection below a tenant leads nowhere |
| Text.JoinSplit | cmd/admin-api/handlers/handlers.go:65-66 | joining what was split gives the path back, and no segment holds a slash |
| Text.SplitJoin | cmd/admin-api/handlers/handlers.go:65-66 | splitting what was joined gives the segments back |
| Routes.AcceptedWriteIsStored | cmd/admin-api/handlers/agents.go:47-57 | the document an accepted write answers with is the one stored under its key |
| Routes.AgentWriteThenRead | cmd/admin-api/handlers/agents.go:21-94 | a GET of an agent right after its accepted POST or PATCH returns what the write answered |
| Routes.ConnectorWriteThenRead | cmd/admin-api/handlers/connectors.go:22-72 | a GET of a connector right after its accepted PUT returns what the PUT answered |
| Routes.DeletedAgentIsGone | cmd/admin-api/handlers/agents.go:96-110 | a GET of an agent right after its accepted DELETE is answered 404 |
| AuditLog.PageIsTopOfLog | pkg/config/memstore.go:255-276 | the pages a filter may return are exactly those newest-first, made of matching entries as often as logged, of length min(limit, matches) for a positive limit and all otherwise, with no omitted match newer than a returned one |
| AuditLog.MatchingCounts | pkg/config/memstore.go:258-270 | filtering keeps every passing entry as often as the log holds it, and no other |
| AuditLog.SmallerLimitIsPrefix | pkg/config/memstore.go:271-274 | a page of a smaller limit shows the times a larger one begins with, and is its prefix when matching entries carry distinct times |
| AuditLog.OneOrderPrefix | pkg/config/memstore.go:271-274 | when the sort depends on its input alone, as the library's does, a page of a smaller limit is a prefix of a larger one, ties or not |
| AuditLog.TimesAgree | pkg/config/memstore.go:271-271 | any two orders the sort may choose show the same times at every place |
| InMemory.MemStore.ListAudit | pkg/config/memstore.go:255-276 | the loop, the sort and the cut return such a page |
| Listing.RowsUnique | pkg/config/memstore.go:34-43 | a sequence of exactly the stored documents, strictly in key order, is the listing: there is only one |
| Listing.StrictlySortedUnique | pkg/config/memstore.go:41-41 | two strictly sorted sequences of the same keys are equal |
| Text.LessIsLexical | pkg/config/memstore.go:41-41 | the order of ids is lexical: one text goes on where the other ends, or is larger at the first difference |
| Listing.ListValues | pkg/config/memstore.go:34-43 | walking a map in any order and sorting returns every document once, and the unique listing when documents lie under their own keys |
| Listing.Rows | pkg/config/memstore.go:34-43 | the listing holds the map's documents and as many rows as the map |
| InMemory.MemStore.ListTenants | pkg/config/memstore.go:34-43 | in a well-formed store the result is the unique listing, whatever order the map is walked in |
| InMemory.MemStore.ListConnectors | pkg/config/memstore.go:74-84 | in a well-formed store the result is the unique listing of one tenant's connectors, in their order, each once |
| InMemory.MemStore.ListAgents | pkg/config/memstore.go:110-120 | in a well-formed store the result is the unique listing of one tenant's agents, in their order, each once |
| InMemory.MemStore.ListSwarms | pkg/config/memstore.go:160-170 | in a well-formed store the result is the unique listing of one tenant's swarms, in their order, each once |
| InMemory.MemStore.ListAdminUsers | pkg/config/memstore.go:210-219 | in a well-formed store the result is the unique listing of the admins by email |
| InMemory.Perform | pkg/config/memstore.go:74-208 | over every sequence of puts, lookups, deletes and listings the two-level map returns what a flat map returns, whatever empty inner maps it keeps |
| InMemory.PutInner | pkg/config/memstore.go:100-108 | a put into the two-level map is a put into the flat one |
| InMemory.GetInner | pkg/config/memstore.go:86-98 | a lookup finds exactly what the flat map holds |
| InMemory.DeleteInner | pkg/config/memstore.go:146-158 | a delete is the flat one, and fails exactly when the flat map has no such document |
| InMemory.ListInner | pkg/config/memstore.go:110-120 | the listing of a tenant has every document of it once, and is the unique one when documents have the ids they are filed under |
| Store.FlattenAt | pkg/config/memstore.go:13-21 | a two-level map and its flat map hold the same documents |
| Store.FlattenCreate | pkg/config/memstore.go:103-105 | creating an empty inner map changes nothing |
| Store.FlattenDelete | pkg/config/memstore.go:146-158 | deleting inside an inner map removes that key only, even when the inner map is left empty |
| InMemory.MemStore.GetAgent | pkg/config/memstore.go:122-134 | a found agent is handed out in a fresh object, so a caller's changes stay outside the store |
| InMemory.MemStore.PutAgent | pkg/config/memstore.go:136-144 | the agent is stored under its own tenant and id, and nothing else changes |
| InMemory.MemStore.DeleteTenant | pkg/config/memstore.go:62-72 | the tenant stays, disabled; a missing one is an error and no change |
| InMemory.Recorder.Record | pkg/config/audit.go:24-39 | missing id, time and result are filled in, given ones kept, and the entry is appended to an otherwise unchanged store |
| Handlers.AdminApi.CreateTenant | cmd/admin-api/handlers/tenants.go:32-58 | on the mutable store, an unreadable or invalid body is answered 400 and changes nothing; else the tenant is stored with both stamps at the clock, one create entry that shows it follows, and 201 returns it |
| Handlers.AdminApi.PatchTenant | cmd/admin-api/handlers/tenants.go:60-94 | a missing tenant is 404, a bad body or merged document 400; these leave the store as it was although the fetched copy has been changed; else the merged document is stored, recorded with before and after, and returned |
| Handlers.AdminApi.DeleteTenant | cmd/admin-api/handlers/tenants.go:96-109 | the tenant is disabled and one delete entry recorded, or 404 and no change |
| Handlers.AdminApi.PutConnector | cmd/admin-api/handlers/connectors.go:36-72 | a valid body is stored under the path's tenant and platform with stored references winning over its own, recorded and returned; a bad one is 400 and changes nothing |
| Handlers.AdminApi.PreparedConnector | cmd/admin-api/handlers/connectors.go:38-59 | what will be written is made up without touching the store |
| Handlers.AdminApi.RotateSecret | cmd/admin-api/handlers/connectors.go:85-126 | writer, store, log and answer after a rotation are those of the sequential model for each of its failures and for success; a rotation of a missing connector moves the writer only |
| Handlers.AdminApi.CreateAgent | cmd/admin-api/handlers/agents.go:32-59 | a valid body is stored under the path's tenant, over an existing agent too, recorded and returned with 201; a bad one is 400 and changes nothing |
| Handlers.AdminApi.PatchedAgent | cmd/admin-api/handlers/agents.go:61-81 | the fetched copy is merged, stamped and checked without touching the store |
| Handlers.AdminApi.PatchAgent | cmd/admin-api/handlers/agents.go:61-94 | a missing agent is 404, a bad body or merged document 400, and both leave the store as it was although the fetched copy has been changed; else the merged document is stored, recorded with before and after, and returned |
| Handlers.AdminApi.MergeAgentInto | cmd/admin-api/handlers/agents.go:112-131 | overwriting the copy field by field is the merge whose laws AgentMergeActs states |
| Handlers.AdminApi.DeleteAgent | cmd/admin-api/handlers/agents.go:96-110 | the agent is removed and one delete entry recorded, or 404 and no change |
| Handlers.AdminApi.CreateSwarm | cmd/admin-api/handlers/swarms.go:32-59 | a valid body is stored under the path's tenant, over an existing swarm too, recorded and returned with 201; a bad one is 400 and changes nothing |
| Handlers.AdminApi.PatchSwarm | cmd/admin-api/handlers/swarms.go:61-108 | a missing swarm is 404, a bad body or merged document 400, and both leave the store as it was although the fetched copy has been changed; else the merged document is stored, recorded with before and after, and returned |
| Handlers.AdminApi.MergeSwarmInto | cmd/admin-api/handlers/swarms.go:74-88 | overwriting the copy field by field is the merge whose laws SwarmMergeActs states |
| Handlers.AdminApi.DeleteSwarm | cmd/admin-api/handlers/swarms.go:110-124 | the swarm is removed and one delete entry recorded, or 404 and no change |
| Handlers.AdminApi.PutAdminUser | cmd/admin-api/handlers/admin_users.go:51-79 | the entry is stored under the path's email with the caller in AddedBy whatever the body says, recorded without a tenant and returned; a bad body is 400 and changes nothing |
| Handlers.AdminApi.DeleteAdminUser | cmd/admin-api/handlers/admin_users.go:81-94 | the entry is removed and the removal recorded, or 404 and no change; nobody is kept from being deleted |
| Handlers.AdminApi.Answer | cmd/admin-api/handlers/audit.go:10-33 | reads answer what the sequential model reads, and an audit listing returns a page of its filter |
| Handlers.AdminApi.ServeHTTP | cmd/admin-api/main.go:71-74 | on the mutable store, one request does and answers what the sequential model says, and keeps the store well formed |
| Handlers.AdminApi.ServeAll | cmd/admin-api/main.go:73-81 | requests one after another take the mutable store through the states of the sequential run, with its answers |
| Slack.BaseStringBinds | pkg/connectors/slack/verify.go:47-49 | over all headers the integer parser takes and all bodies, equal signed strings mean equal timestamp and body |
| Slack.SignatureBinds | pkg/connectors/slack/verify.go:25-50 | with a code that does not collide on signed strings, one signature is accepted for one timestamp and body only |
| Slack.VerifyExact | pkg/connectors/slack/verify.go:25-50 | a request is accepted exactly when its timestamp is a number near the clock and its signature is `v0=` and the code of `v0:`, the timestamp, `:` and the body; otherwise the first check that fails decides |
| Slack.ParseIntReads | pkg/connectors/slack/verify.go:31-34 | every 64-bit number is read from its decimal text, with or without a sign, and none out of range |
| Slack.ParseIntRefuses | pkg/connectors/slack/verify.go:31-34 | a text with anything but a sign and digits, or without digits, is not read |
| Slack.ParsedHoldsNoColon | pkg/connectors/slack/verify.go:31-34 | a header the parser takes cannot hold the separator of the signed string |
| Slack.WindowExact | pkg/auth/hmac.go:37-46 | a difference passes if and only if it is at most 300 seconds either way, or at or below the least 64-bit count of nanoseconds |
| Slack.HeaderWindow | pkg/connectors/slack/verify.go:31-41 | over every 64-bit number of seconds in the header: it passes if and only if it is within 300 seconds of the clock, or so far ahead that the difference reaches the least 64-bit count while the internal count does not wrap |
| Slack.FarFutureHeaderPasses | pkg/auth/hmac.go:37-46 | one header that passes: seen in November 2023, the seconds of a day in 2318 |
| Slack.ConversationSplits | pkg/connectors/slack/decode.go:34-41 | for a colon-free channel the conversation id splits back into channel and thread |
| Slack.SameConversation | pkg/connectors/slack/decode.go:34-41 | two events share a conversation exactly when they share channel and effective thread |
| Slack.RootAndReplies | pkg/connectors/slack/decode.go:34-37 | a root message and its replies share a conversation, and two roots never do |
| Slack.DecodeKeeps | pkg/connectors/slack/decode.go:38-46 | the envelope bears the format, platform and kind of a Slack message and the event's own id and time |

## Left out

- Secrets.StubWriter.AddVersion: requires the counter below 2^63 - 1, because beyond it the wrapped counter prints as the empty text; `Handlers.AdminApi.ServeHTTP` and `ServeAll` ask the same of the counters they start from.
- Replay.LogRebuildsStore: rebuilds the store as JSON shows it, in which an empty list under `omitempty` is not told from a nil one; the numbers and times of the documents are taken to survive their JSON form.
- InFlight.StaysCurrentInFlight: the condition is sufficient; a crossing that happens to end well is not told apart.
- AuditLog.SmallerLimitIsPrefix: leaves the order of entries with equal times open, as the sort promises nothing about them, so for equal times it says that the times agree; `AuditLog.OneOrderPrefix` takes the sort to be a function of its input.
- InMemory.Perform: is the loop of a client, since the source's callers are the handlers; it starts from any map whose documents lie under their own keys, and connectors, which have no delete, use the other operations only.
- Slack.HeaderWindow: assumes, as `Slack.VerifyExact` does, a clock within 2^62 seconds of the epoch, because the difference of two instants could wrap beyond it.
- Listing.Sort: is an insertion sort standing in for `sort.Slice`, used only through its promise of a sorted permutation.
- JSON itself: a request carries what each handler would decode from its body, and a snapshot is the document kept whole; invalid UTF-8 and the rounding of `float64` budgets, which are `real` here, are not modelled.
- Time zones and monotonic clock readings of `time.Time`: an instant is one integer. `RotatedAt` of the rotate answer uses the request's one document clock.
- Uniqueness of random audit ids and monotonicity of clocks: any id and any reading are allowed.
- Rows of an audit listing inside `Service.Read`: its answer names the filter, since ties leave the rows open; the mutable layer returns the rows beside it.
- HMAC-SHA256 and the IAP token check: an uninterpreted function and a verdict in the request.
- `ServeMux` path cleaning and URL decoding: a request carries the cleaned path.
- `sync.RWMutex`: a locked call is one step.
- Trace, span and request ids and the error text of audit entries, and the log line beside them.
- `RequireRole` and `roleAtLeast`: no handler uses them.
- The Firestore store, the UI, the development seed and its check, and the other chat connectors.
- `cmd/ingress`, `cmd/router`, `cmd/emitter`, `cmd/scion-bridge`: they are stubs.
