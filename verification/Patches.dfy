// Sequences of PATCH requests (mergeAgent of cmd/admin-api/handlers/agents.go; the merge of patchSwarm).
module Patches {
  import opened Types
  import opened Validate
  import opened Store
  import opened Routing
  import opened Service
  import opened Runs

  // ---- Merging is a monoid acting on documents ----

  const NO_AGENT_PATCH := AgentProfile("", "", "", "", None, None, "", 0.0, ZERO_TIME, "")
  const NO_SWARM_PATCH := SwarmDef("", "", "", None, BudgetEnvelope(0, 0, 0), ZERO_TIME, "")

  // A patch that sets every field.
  predicate FullAgentPatch(p: AgentProfile)
  {
    p.name != "" && p.model != "" && p.mcpServers.Some? && p.skills.Some? && p.memoryScope != "" &&
      p.budgetUSDPerHour != 0.0
  }

  predicate FullSwarmPatch(p: SwarmDef)
  {
    p.topology != "" && p.roster.Some? && p.budget.maxTokens != 0 && p.budget.maxWallClock != 0 &&
      p.budget.maxDeploys != 0
  }

  // Patching twice is patching once with the patches merged; the empty patch changes nothing; a full one leaves
  // nothing of the document but its identity and stamps.
  lemma AgentMergeActs(a: AgentProfile, p: AgentProfile, q: AgentProfile)
    ensures MergeAgent(MergeAgent(a, p), q) == MergeAgent(a, MergeAgent(p, q))
    ensures MergeAgent(a, NO_AGENT_PATCH) == a
    ensures FullAgentPatch(p) ==>
      MergeAgent(a, p) == p.(tenantId := a.tenantId, id := a.id, updatedAt := a.updatedAt, updatedBy := a.updatedBy)
  {
  }

  lemma SwarmMergeActs(s: SwarmDef, p: SwarmDef, q: SwarmDef)
    ensures MergeSwarm(MergeSwarm(s, p), q) == MergeSwarm(s, MergeSwarm(p, q))
    ensures MergeSwarm(s, NO_SWARM_PATCH) == s
    ensures FullSwarmPatch(p) ==>
      MergeSwarm(s, p) == p.(tenantId := s.tenantId, id := s.id, updatedAt := s.updatedAt, updatedBy := s.updatedBy)
  {
  }

  // ---- Runs of accepted patches ----

  // Every request of the run asks for cmd and is answered 200.
  ghost predicate AllAccepted(env: Env, p: Plane, rs: seq<Request>, cmd: Command)
  {
    var n := |rs| - 1;
    rs != [] ==>
      && AllAccepted(env, p, rs[..n], cmd)
      && Route(rs[n].httpMethod, rs[n].path) == cmd && Serve(env, Run(env, p, rs[..n]), rs[n]).1.status == 200
  }

  function AgentPatch(r: Request): AgentProfile { if r.body.agent.Some? then r.body.agent.value else NO_AGENT_PATCH }
  function SwarmPatch(r: Request): SwarmDef { if r.body.swarm.Some? then r.body.swarm.value else NO_SWARM_PATCH }

  // The patches of a run merged into one.
  function AgentPatches(rs: seq<Request>): AgentProfile
  {
    if rs == [] then NO_AGENT_PATCH else MergeAgent(AgentPatches(rs[..|rs| - 1]), AgentPatch(rs[|rs| - 1]))
  }

  function SwarmPatches(rs: seq<Request>): SwarmDef
  {
    if rs == [] then NO_SWARM_PATCH else MergeSwarm(SwarmPatches(rs[..|rs| - 1]), SwarmPatch(rs[|rs| - 1]))
  }

  function StampAgent(a: AgentProfile, r: Request, env: Env): AgentProfile
    requires Identified(env, r)
  {
    a.(updatedAt := r.now, updatedBy := Sender(env, r))
  }

  function StampSwarm(s: SwarmDef, r: Request, env: Env): SwarmDef
    requires Identified(env, r)
  {
    s.(updatedAt := r.now, updatedBy := Sender(env, r))
  }

  // One accepted agent patch.
  lemma AgentPatchServed(env: Env, p: Plane, r: Request, k: Key)
    requires k in p.store.config.agents && AgentKey(p.store.config.agents[k]) == k
    requires Route(r.httpMethod, r.path) == PatchAgent(k.tenant, k.id)
    ensures Serve(env, p, r).1.status == 200 <==>
      ByOwner(env, p, r) && r.body.agent.Some? && ValidAgent(MergeAgent(p.store.config.agents[k], AgentPatch(r)))
    ensures Serve(env, p, r).1.status == 200 ==>
      Next(env, p, r).store.config == p.store.config.(
        agents := p.store.config.agents[k := StampAgent(MergeAgent(p.store.config.agents[k], AgentPatch(r)), r, env)])
  {
    var c := p.store.config;
    if Authenticate(env, c, r).Ok? && r.body.agent.Some? {
      var who := Authenticate(env, c, r).value;
      assert ValidAgent(MergeAgent(c.agents[k], AgentPatch(r))) <==>
        ValidAgent(StampAgent(MergeAgent(c.agents[k], AgentPatch(r)), r, env));
    }
  }

  lemma SwarmPatchServed(env: Env, p: Plane, r: Request, k: Key)
    requires k in p.store.config.swarms && SwarmKey(p.store.config.swarms[k]) == k
    requires Route(r.httpMethod, r.path) == PatchSwarm(k.tenant, k.id)
    ensures Serve(env, p, r).1.status == 200 <==>
      ByOwner(env, p, r) && r.body.swarm.Some? && ValidSwarm(MergeSwarm(p.store.config.swarms[k], SwarmPatch(r)))
    ensures Serve(env, p, r).1.status == 200 ==>
      Next(env, p, r).store.config == p.store.config.(
        swarms := p.store.config.swarms[k := StampSwarm(MergeSwarm(p.store.config.swarms[k], SwarmPatch(r)), r, env)])
  {
    var c := p.store.config;
    if Authenticate(env, c, r).Ok? && r.body.swarm.Some? {
      assert ValidSwarm(MergeSwarm(c.swarms[k], SwarmPatch(r))) <==>
        ValidSwarm(StampSwarm(MergeSwarm(c.swarms[k], SwarmPatch(r)), r, env));
    }
  }

  // The request that carries all patches of a run at once, with the clock and caller of the last.
  function AgentPatchesAtOnce(rs: seq<Request>): Request
    requires rs != []
  {
    var last := rs[|rs| - 1];
    last.(body := last.body.(agent := Some(AgentPatches(rs))))
  }

  function SwarmPatchesAtOnce(rs: seq<Request>): Request
    requires rs != []
  {
    var last := rs[|rs| - 1];
    last.(body := last.body.(swarm := Some(SwarmPatches(rs))))
  }

  // One more accepted patch on top of those merged so far; x is the document they have led to.
  lemma AgentPatchStep(env: Env, q: Plane, r: Request, c: Config, k: Key, x: AgentProfile, a: AgentProfile,
      sofar: AgentProfile)
    requires AgentKey(a) == k && q.store.config == c.(agents := c.agents[k := x])
    requires x == MergeAgent(a, sofar).(updatedAt := x.updatedAt, updatedBy := x.updatedBy)
    requires Route(r.httpMethod, r.path) == PatchAgent(k.tenant, k.id) && Serve(env, q, r).1.status == 200
    ensures ByOwner(env, q, r) && ValidAgent(MergeAgent(a, MergeAgent(sofar, AgentPatch(r))))
    ensures Next(env, q, r).store.config ==
      c.(agents := c.agents[k := StampAgent(MergeAgent(a, MergeAgent(sofar, AgentPatch(r))), r, env)])
  {
    AgentPatchServed(env, q, r, k);
    AgentMergeActs(a, sofar, AgentPatch(r));
    var merged := MergeAgent(x, AgentPatch(r));
    assert merged ==
      MergeAgent(a, MergeAgent(sofar, AgentPatch(r))).(updatedAt := merged.updatedAt, updatedBy := merged.updatedBy);
  }

  lemma {:induction false} AgentPatchRun(env: Env, p: Plane, rs: seq<Request>, k: Key)
    requires k in p.store.config.agents && AgentKey(p.store.config.agents[k]) == k
    requires rs != [] && AllAccepted(env, p, rs, PatchAgent(k.tenant, k.id))
    ensures ByOwner(env, p, rs[|rs| - 1]) && ValidAgent(MergeAgent(p.store.config.agents[k], AgentPatches(rs)))
    ensures Run(env, p, rs).store.config == p.store.config.(agents := p.store.config.agents[k :=
      StampAgent(MergeAgent(p.store.config.agents[k], AgentPatches(rs)), rs[|rs| - 1], env)])
  {
    var n, c := |rs| - 1, p.store.config;
    var x := c.agents[k];
    if n > 0 {
      AgentPatchRun(env, p, rs[..n], k);
      x := StampAgent(MergeAgent(c.agents[k], AgentPatches(rs[..n])), rs[n - 1], env);
    } else {
      assert rs[..n] == [] && c == c.(agents := c.agents[k := x]);
      AgentMergeActs(x, x, x);
    }
    assert Run(env, p, rs) == Next(env, Run(env, p, rs[..n]), rs[n]);
    AgentPatchStep(env, Run(env, p, rs[..n]), rs[n], c, k, x, c.agents[k], AgentPatches(rs[..n]));
  }

  // One more accepted patch on top of those merged so far; x is the document they have led to.
  lemma SwarmPatchStep(env: Env, q: Plane, r: Request, c: Config, k: Key, x: SwarmDef, s: SwarmDef, sofar: SwarmDef)
    requires SwarmKey(s) == k && q.store.config == c.(swarms := c.swarms[k := x])
    requires x == MergeSwarm(s, sofar).(updatedAt := x.updatedAt, updatedBy := x.updatedBy)
    requires Route(r.httpMethod, r.path) == PatchSwarm(k.tenant, k.id) && Serve(env, q, r).1.status == 200
    ensures ByOwner(env, q, r) && ValidSwarm(MergeSwarm(s, MergeSwarm(sofar, SwarmPatch(r))))
    ensures Next(env, q, r).store.config ==
      c.(swarms := c.swarms[k := StampSwarm(MergeSwarm(s, MergeSwarm(sofar, SwarmPatch(r))), r, env)])
  {
    SwarmPatchServed(env, q, r, k);
    SwarmMergeActs(s, sofar, SwarmPatch(r));
    var merged := MergeSwarm(x, SwarmPatch(r));
    assert merged ==
      MergeSwarm(s, MergeSwarm(sofar, SwarmPatch(r))).(updatedAt := merged.updatedAt, updatedBy := merged.updatedBy);
  }

  lemma {:induction false} SwarmPatchRun(env: Env, p: Plane, rs: seq<Request>, k: Key)
    requires k in p.store.config.swarms && SwarmKey(p.store.config.swarms[k]) == k
    requires rs != [] && AllAccepted(env, p, rs, PatchSwarm(k.tenant, k.id))
    ensures ByOwner(env, p, rs[|rs| - 1]) && ValidSwarm(MergeSwarm(p.store.config.swarms[k], SwarmPatches(rs)))
    ensures Run(env, p, rs).store.config == p.store.config.(swarms := p.store.config.swarms[k :=
      StampSwarm(MergeSwarm(p.store.config.swarms[k], SwarmPatches(rs)), rs[|rs| - 1], env)])
  {
    var n, c := |rs| - 1, p.store.config;
    var x := c.swarms[k];
    if n > 0 {
      SwarmPatchRun(env, p, rs[..n], k);
      x := StampSwarm(MergeSwarm(c.swarms[k], SwarmPatches(rs[..n])), rs[n - 1], env);
    } else {
      assert rs[..n] == [] && c == c.(swarms := c.swarms[k := x]);
      SwarmMergeActs(x, x, x);
    }
    assert Run(env, p, rs) == Next(env, Run(env, p, rs[..n]), rs[n]);
    SwarmPatchStep(env, Run(env, p, rs[..n]), rs[n], c, k, x, c.swarms[k], SwarmPatches(rs[..n]));
  }

  lemma ValidMergeKeepsBudget(a: AgentProfile, patch: AgentProfile)
    requires ValidAgent(MergeAgent(a, patch))
    ensures a.budgetUSDPerHour > 0.0 ==> MergeAgent(a, patch).budgetUSDPerHour > 0.0
  {
  }

  lemma {:induction false} AgentPatchesAtOnceServed(env: Env, p: Plane, rs: seq<Request>, k: Key)
    requires k in p.store.config.agents && AgentKey(p.store.config.agents[k]) == k && rs != []
    requires Route(rs[|rs| - 1].httpMethod, rs[|rs| - 1].path) == PatchAgent(k.tenant, k.id)
    requires ByOwner(env, p, rs[|rs| - 1]) && ValidAgent(MergeAgent(p.store.config.agents[k], AgentPatches(rs)))
    ensures Serve(env, p, AgentPatchesAtOnce(rs)).1.status == 200
    ensures Next(env, p, AgentPatchesAtOnce(rs)).store.config == p.store.config.(agents := p.store.config.agents[k :=
      StampAgent(MergeAgent(p.store.config.agents[k], AgentPatches(rs)), rs[|rs| - 1], env)])
  {
    assert AgentPatch(AgentPatchesAtOnce(rs)) == AgentPatches(rs);
    AgentPatchServed(env, p, AgentPatchesAtOnce(rs), k);
  }

  // An accepted run of agent patches leaves the configuration that one PATCH of their composition leaves.
  // Identity fields stay, and a positive budget stays positive: no PATCH can make it unlimited again.
  lemma AgentPatchesCollapse(env: Env, p: Plane, rs: seq<Request>, k: Key)
    requires WellFormed(p.store.config) && k in p.store.config.agents
    requires rs != [] && AllAccepted(env, p, rs, PatchAgent(k.tenant, k.id))
    ensures Serve(env, p, AgentPatchesAtOnce(rs)).1.status == 200
    ensures Run(env, p, rs).store.config == Next(env, p, AgentPatchesAtOnce(rs)).store.config
    ensures k in Run(env, p, rs).store.config.agents && AgentKey(Run(env, p, rs).store.config.agents[k]) == k
    ensures p.store.config.agents[k].budgetUSDPerHour > 0.0 ==>
      Run(env, p, rs).store.config.agents[k].budgetUSDPerHour > 0.0
  {
    assert AgentKey(p.store.config.agents[k]) == k;
    AgentPatchRun(env, p, rs, k);
    AgentPatchesAtOnceServed(env, p, rs, k);
    ValidMergeKeepsBudget(p.store.config.agents[k], AgentPatches(rs));
  }

  predicate LimitsStay(b: BudgetEnvelope, b': BudgetEnvelope)
  {
    (b.maxTokens > 0 ==> b'.maxTokens > 0) && (b.maxDeploys > 0 ==> b'.maxDeploys > 0) &&
      (b.maxWallClock != 0 ==> b'.maxWallClock != 0)
  }

  lemma ValidMergeKeepsLimits(s: SwarmDef, patch: SwarmDef)
    requires ValidSwarm(MergeSwarm(s, patch))
    ensures LimitsStay(s.budget, MergeSwarm(s, patch).budget)
  {
  }

  lemma {:induction false} SwarmPatchesAtOnceServed(env: Env, p: Plane, rs: seq<Request>, k: Key)
    requires k in p.store.config.swarms && SwarmKey(p.store.config.swarms[k]) == k && rs != []
    requires Route(rs[|rs| - 1].httpMethod, rs[|rs| - 1].path) == PatchSwarm(k.tenant, k.id)
    requires ByOwner(env, p, rs[|rs| - 1]) && ValidSwarm(MergeSwarm(p.store.config.swarms[k], SwarmPatches(rs)))
    ensures Serve(env, p, SwarmPatchesAtOnce(rs)).1.status == 200
    ensures Next(env, p, SwarmPatchesAtOnce(rs)).store.config == p.store.config.(swarms := p.store.config.swarms[k :=
      StampSwarm(MergeSwarm(p.store.config.swarms[k], SwarmPatches(rs)), rs[|rs| - 1], env)])
  {
    assert SwarmPatch(SwarmPatchesAtOnce(rs)) == SwarmPatches(rs);
    SwarmPatchServed(env, p, SwarmPatchesAtOnce(rs), k);
  }

  // The same for swarms: positive token and deploy limits stay positive, a set wall clock stays set.
  lemma SwarmPatchesCollapse(env: Env, p: Plane, rs: seq<Request>, k: Key)
    requires WellFormed(p.store.config) && k in p.store.config.swarms
    requires rs != [] && AllAccepted(env, p, rs, PatchSwarm(k.tenant, k.id))
    ensures Serve(env, p, SwarmPatchesAtOnce(rs)).1.status == 200
    ensures Run(env, p, rs).store.config == Next(env, p, SwarmPatchesAtOnce(rs)).store.config
    ensures k in Run(env, p, rs).store.config.swarms && SwarmKey(Run(env, p, rs).store.config.swarms[k]) == k
    ensures LimitsStay(p.store.config.swarms[k].budget, Run(env, p, rs).store.config.swarms[k].budget)
  {
    assert SwarmKey(p.store.config.swarms[k]) == k;
    SwarmPatchRun(env, p, rs, k);
    SwarmPatchesAtOnceServed(env, p, rs, k);
    ValidMergeKeepsLimits(p.store.config.swarms[k], SwarmPatches(rs));
  }

  // The wall clock is not checked, so its limit need not stay positive: an owner's PATCH that carries a negative one
  // and nothing else is answered 200 and stored.
  lemma WallClockMayTurnNegative(env: Env, p: Plane, r: Request, k: Key)
    requires WellFormed(p.store.config) && k in p.store.config.swarms
    requires Route(r.httpMethod, r.path) == PatchSwarm(k.tenant, k.id) && ByOwner(env, p, r)
    requires r.body.swarm == Some(NO_SWARM_PATCH.(budget := BudgetEnvelope(0, -1, 0)))
    ensures Serve(env, p, r).1.status == 200
    ensures k in Next(env, p, r).store.config.swarms
    ensures Next(env, p, r).store.config.swarms[k].budget.maxWallClock == -1
  {
    var s := p.store.config.swarms[k];
    assert SwarmKey(s) == k && ValidSwarm(s);
    assert MergeSwarm(s, SwarmPatch(r)) == s.(budget := s.budget.(maxWallClock := -1));
    SwarmPatchServed(env, p, r, k);
  }

  // What the patches of a run say about the wall clock: the last one that is not zero, and zero if none is.
  function LastWallClock(rs: seq<Request>): int
  {
    if rs == [] then 0
    else
      var last := SwarmPatch(rs[|rs| - 1]).budget.maxWallClock;
      if last != 0 then last else LastWallClock(rs[..|rs| - 1])
  }

  lemma {:induction false} PatchesWallClock(rs: seq<Request>)
    ensures SwarmPatches(rs).budget.maxWallClock == LastWallClock(rs)
  {
    if rs != [] { PatchesWallClock(rs[..|rs| - 1]); }
  }

  // A positive wall clock is positive after an accepted run exactly when the last patch that sets it, if any does,
  // sets a positive one.
  lemma WallClockStaysPositiveIff(env: Env, p: Plane, rs: seq<Request>, k: Key)
    requires WellFormed(p.store.config) && k in p.store.config.swarms
    requires rs != [] && AllAccepted(env, p, rs, PatchSwarm(k.tenant, k.id))
    requires p.store.config.swarms[k].budget.maxWallClock > 0
    ensures k in Run(env, p, rs).store.config.swarms
    ensures Run(env, p, rs).store.config.swarms[k].budget.maxWallClock > 0 <==> LastWallClock(rs) >= 0
  {
    assert SwarmKey(p.store.config.swarms[k]) == k;
    SwarmPatchRun(env, p, rs, k);
    PatchesWallClock(rs);
  }

  // Tenants have no neutral patch: an accepted PATCH always sets Disabled to what its body says, so one that
  // leaves the field out enables a soft-deleted tenant again.
  lemma TenantPatchSetsDisabled(env: Env, p: Plane, r: Request, tid: string)
    requires WellFormed(p.store.config) && Route(r.httpMethod, r.path) == PatchTenant(tid)
    requires Serve(env, p, r).1.status == 200
    ensures r.body.tenant.Some? && tid in Next(env, p, r).store.config.tenants
    ensures Next(env, p, r).store.config.tenants[tid].disabled == r.body.tenant.value.disabled
  {
  }
}
