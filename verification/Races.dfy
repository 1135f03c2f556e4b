// What requests in flight together can break, though one after another they cannot.
module Races {
  import opened Types
  import opened Validate
  import opened Store
  import opened Secrets
  import opened Routing
  import opened Service
  import opened Runs
  import opened Replay
  import opened Currency
  import opened Interleaving

  lemma ExecPush(env: Env, s: System, acts: seq<Action>, a: Action)
    ensures Exec(env, s, acts + [a]) == Act(env, Exec(env, s, acts), a)
  {
    assert (acts + [a])[..|acts|] == acts;
  }

  // Two requests, r and s, with the program counters and the plane they have got to.
  ghost predicate At(x: System, r: Request, s: Request, p: Plane, a: Pc, b: Pc)
  {
    x.threads == [Thread(r, a), Thread(s, b)] && x.plane == p
  }

  ghost predicate ReachedBy(env: Env, seed: Plane, acts: seq<Action>, r: Request, s: Request, p: Plane, a: Pc, b: Pc)
  {
    At(Exec(env, Start(seed), acts), r, s, p, a, b)
  }

  lemma BothArrive(env: Env, seed: Plane, r: Request, s: Request) returns (acts: seq<Action>)
    ensures ReachedBy(env, seed, acts, r, s, seed, Arrived, Arrived)
  {
    acts := [Spawn(r)] + [Spawn(s)];
    assert [Spawn(r)] == [] + [Spawn(r)];
    ExecPush(env, Start(seed), [], Spawn(r));
    ExecPush(env, Start(seed), [Spawn(r)], Spawn(s));
  }

  lemma FirstSteps(env: Env, seed: Plane, acts: seq<Action>, r: Request, s: Request, p: Plane, a: Pc, b: Pc,
      q: Plane, a': Pc) returns (more: seq<Action>)
    requires ReachedBy(env, seed, acts, r, s, p, a, b) && Advance(env, p, r, a) == (q, a')
    ensures ReachedBy(env, seed, more, r, s, q, a', b)
  {
    more := acts + [Step(0)];
    ExecPush(env, Start(seed), acts, Step(0));
  }

  lemma SecondSteps(env: Env, seed: Plane, acts: seq<Action>, r: Request, s: Request, p: Plane, a: Pc, b: Pc,
      q: Plane, b': Pc) returns (more: seq<Action>)
    requires ReachedBy(env, seed, acts, r, s, p, a, b) && Advance(env, p, s, b) == (q, b')
    ensures ReachedBy(env, seed, more, r, s, q, a, b')
  {
    more := acts + [Step(1)];
    ExecPush(env, Start(seed), acts, Step(1));
  }

  // An owner's request that the writer accepts: a rotation of the given kind at k.
  ghost predicate Rotates(env: Env, p: Plane, r: Request, k: Key, kind: Kind)
  {
    && CommandOf(r) == Command.RotateSecret(k.tenant, k.id) && ByOwner(env, p, r)
    && Minted(env, k.tenant, k.id, r).Ok? && r.body.rotate.value.kind == kind
  }

  function After(p: Plane, c: Config): Plane { p.(store := p.store.(config := c)) }
  function Recorded(p: Plane, e: AuditEntry): Plane { p.(store := p.store.(audit := p.store.audit + [e])) }

  lemma OwnerAdmitted(env: Env, p: Plane, r: Request)
    requires ByOwner(env, p, r)
    ensures Advance(env, p, r, Arrived) == (p, Admitted(Caller(Sender(env, r), OWNER)))
  {
  }

  function VersionRef(env: Env, k: Key, kind: Kind, v: nat): SecretRef
  {
    SecretRef(SecretNamer(env.projectId, k.tenant, k.id, kind), Decimal(v))
  }

  lemma RotationMints(env: Env, p: Plane, r: Request, k: Key, kind: Kind, who: Caller, v: nat) returns (w: Writer)
    requires CommandOf(r) == Command.RotateSecret(k.tenant, k.id)
    requires Minted(env, k.tenant, k.id, r).Ok? && r.body.rotate.value.kind == kind
    requires v == VersionOf(p.writer, SecretNamer(env.projectId, k.tenant, k.id, kind))
    ensures Advance(env, p, r, Admitted(who)) == (p.(writer := w), HasVersion(who, VersionRef(env, k, kind, v + 1)))
    ensures VersionOf(w, SecretNamer(env.projectId, k.tenant, k.id, kind)) == v + 1
  {
    w := WithVersion(p.writer, SecretNamer(env.projectId, k.tenant, k.id, kind), r.body.rotate.value.value);
  }

  lemma RotationDecides(env: Env, p: Plane, r: Request, k: Key, who: Caller, ref: SecretRef)
    returns (d: ConnectorConfig, e: AuditEntry, ok: Response)
    requires CommandOf(r) == Command.RotateSecret(k.tenant, k.id) && r.body.rotate.Some? &&
      r.body.rotate.value.kind in KINDS
    requires k in p.store.config.conns && ConnKey(p.store.config.conns[k]) == k
    ensures ok.status == 200 && d == WithRef(p.store.config.conns[k], r.body.rotate.value.kind, ref)
    ensures Advance(env, p, r, HasVersion(who, ref)) == (p, Ready(SetConnector(d), e, ok))
    ensures e.after.OfRotation? && Key(e.tenantId, e.resourceId) == k
  {
    var x := DecideRotate(p.store.config, k.tenant, k.id, who, r, ref);
    d, e, ok := x.write.connector, x.entry, x.reply;
  }

  lemma ConnectorWriteStep(env: Env, q: Plane, r: Request, d: ConnectorConfig, e: AuditEntry, ok: Response)
    ensures Advance(env, q, r, Ready(SetConnector(d), e, ok)) ==
      (After(q, q.store.config.(conns := q.store.config.conns[ConnKey(d) := d])), Wrote(e, ok))
  {
  }

  lemma AgentWriteStep(env: Env, q: Plane, r: Request, d: AgentProfile, e: AuditEntry, ok: Response)
    ensures Advance(env, q, r, Ready(SetAgent(d), e, ok)) ==
      (After(q, q.store.config.(agents := q.store.config.agents[AgentKey(d) := d])), Wrote(e, ok))
  {
  }

  lemma RecordStep(env: Env, q: Plane, r: Request, e: AuditEntry, ok: Response)
    ensures Advance(env, q, r, Wrote(e, ok)) == (Recorded(q, e), Done(ok))
  {
  }

  // Both owners pass the gate.
  lemma BothAdmitted(env: Env, seed: Plane, r: Request, s: Request) returns (acts: seq<Action>, a: Caller, b: Caller)
    requires ByOwner(env, seed, r) && ByOwner(env, seed, s)
    ensures ReachedBy(env, seed, acts, r, s, seed, Admitted(a), Admitted(b)) && a.role == b.role == OWNER
  {
    a, b := Caller(Sender(env, r), OWNER), Caller(Sender(env, s), OWNER);
    OwnerAdmitted(env, seed, r);
    OwnerAdmitted(env, seed, s);
    acts := BothArrive(env, seed, r, s);
    acts := FirstSteps(env, seed, acts, r, s, seed, Arrived, Arrived, seed, Admitted(a));
    acts := SecondSteps(env, seed, acts, r, s, seed, Admitted(a), Arrived, seed, Admitted(b));
  }

  lemma FirstMints(env: Env, seed: Plane, early: seq<Action>, r: Request, s: Request, p: Plane, a: Caller, b: Pc,
      k: Key, kind: Kind, v: nat)
    returns (acts: seq<Action>, w: Writer)
    requires ReachedBy(env, seed, early, r, s, p, Admitted(a), b)
    requires CommandOf(r) == Command.RotateSecret(k.tenant, k.id)
    requires Minted(env, k.tenant, k.id, r).Ok? && r.body.rotate.value.kind == kind
    requires v == VersionOf(p.writer, SecretNamer(env.projectId, k.tenant, k.id, kind))
    ensures ReachedBy(env, seed, acts, r, s, p.(writer := w), HasVersion(a, VersionRef(env, k, kind, v + 1)), b)
    ensures VersionOf(w, SecretNamer(env.projectId, k.tenant, k.id, kind)) == v + 1
  {
    w := RotationMints(env, p, r, k, kind, a, v);
    acts := FirstSteps(env, seed, early, r, s, p, Admitted(a), b, p.(writer := w),
      HasVersion(a, VersionRef(env, k, kind, v + 1)));
  }

  lemma SecondMints(env: Env, seed: Plane, early: seq<Action>, r: Request, s: Request, p: Plane, a: Pc, b: Caller,
      k: Key, kind: Kind, v: nat)
    returns (acts: seq<Action>, w: Writer)
    requires ReachedBy(env, seed, early, r, s, p, a, Admitted(b))
    requires CommandOf(s) == Command.RotateSecret(k.tenant, k.id)
    requires Minted(env, k.tenant, k.id, s).Ok? && s.body.rotate.value.kind == kind
    requires v == VersionOf(p.writer, SecretNamer(env.projectId, k.tenant, k.id, kind))
    ensures ReachedBy(env, seed, acts, r, s, p.(writer := w), a, HasVersion(b, VersionRef(env, k, kind, v + 1)))
    ensures VersionOf(w, SecretNamer(env.projectId, k.tenant, k.id, kind)) == v + 1
  {
    w := RotationMints(env, p, s, k, kind, b, v);
    acts := SecondSteps(env, seed, early, r, s, p, a, Admitted(b), p.(writer := w),
      HasVersion(b, VersionRef(env, k, kind, v + 1)));
  }

  // Both rotations mint, r first.
  lemma BothMint(env: Env, seed: Plane, r: Request, s: Request, k: Key, kind: Kind)
    returns (acts: seq<Action>, w: Writer, a: Caller, b: Caller)
    requires Rotates(env, seed, r, k, kind) && Rotates(env, seed, s, k, kind)
    ensures var name := SecretNamer(env.projectId, k.tenant, k.id, kind); var v := VersionOf(seed.writer, name);
      && VersionOf(w, name) == v + 2
      && ReachedBy(env, seed, acts, r, s, seed.(writer := w),
                   HasVersion(a, VersionRef(env, k, kind, v + 1)), HasVersion(b, VersionRef(env, k, kind, v + 2)))
  {
    var v := VersionOf(seed.writer, SecretNamer(env.projectId, k.tenant, k.id, kind));
    var x;
    acts, a, b := BothAdmitted(env, seed, r, s);
    acts, x := FirstMints(env, seed, acts, r, s, seed, a, Admitted(b), k, kind, v);
    acts, w := SecondMints(env, seed, acts, r, s, seed.(writer := x), HasVersion(a, VersionRef(env, k, kind, v + 1)),
      b, k, kind, v + 1);
  }

  // The second writes the connector and records it while the first stands still.
  lemma SecondSaves(env: Env, seed: Plane, early: seq<Action>, r: Request, s: Request, p: Plane, a: Pc,
                    d: ConnectorConfig, e: AuditEntry, ok: Response)
    returns (acts: seq<Action>, q: Plane)
    requires ReachedBy(env, seed, early, r, s, p, a, Ready(SetConnector(d), e, ok))
    ensures q == Recorded(After(p, p.store.config.(conns := p.store.config.conns[ConnKey(d) := d])), e)
    ensures ReachedBy(env, seed, acts, r, s, q, a, Done(ok))
  {
    var x := After(p, p.store.config.(conns := p.store.config.conns[ConnKey(d) := d]));
    ConnectorWriteStep(env, p, s, d, e, ok);
    RecordStep(env, x, s, e, ok);
    acts := SecondSteps(env, seed, early, r, s, p, a, Ready(SetConnector(d), e, ok), x, Wrote(e, ok));
    acts := SecondSteps(env, seed, acts, r, s, x, a, Wrote(e, ok), Recorded(x, e), Done(ok));
    q := Recorded(x, e);
  }

  lemma FirstSaves(env: Env, seed: Plane, early: seq<Action>, r: Request, s: Request, p: Plane, b: Pc,
                   d: ConnectorConfig, e: AuditEntry, ok: Response)
    returns (acts: seq<Action>, q: Plane)
    requires ReachedBy(env, seed, early, r, s, p, Ready(SetConnector(d), e, ok), b)
    ensures q == Recorded(After(p, p.store.config.(conns := p.store.config.conns[ConnKey(d) := d])), e)
    ensures ReachedBy(env, seed, acts, r, s, q, Done(ok), b)
  {
    var x := After(p, p.store.config.(conns := p.store.config.conns[ConnKey(d) := d]));
    ConnectorWriteStep(env, p, r, d, e, ok);
    RecordStep(env, x, r, e, ok);
    acts := FirstSteps(env, seed, early, r, s, p, Ready(SetConnector(d), e, ok), b, x, Wrote(e, ok));
    acts := FirstSteps(env, seed, acts, r, s, x, Wrote(e, ok), b, Recorded(x, e), Done(ok));
    q := Recorded(x, e);
  }

  // The second request finishes its rotation while the first stands still.
  lemma SecondFinishes(env: Env, seed: Plane, acts: seq<Action>, r: Request, s: Request, p: Plane, a: Pc,
      who: Caller, ref: SecretRef, k: Key)
    returns (more: seq<Action>, q: Plane, reply: Response)
    requires ReachedBy(env, seed, acts, r, s, p, a, HasVersion(who, ref))
    requires CommandOf(s) == Command.RotateSecret(k.tenant, k.id) && s.body.rotate.Some? &&
      s.body.rotate.value.kind in KINDS
    requires k in p.store.config.conns && ConnKey(p.store.config.conns[k]) == k
    ensures ReachedBy(env, seed, more, r, s, q, a, Done(reply)) && reply.status == 200 && q.writer == p.writer
    ensures k in q.store.config.conns &&
      q.store.config.conns[k] == WithRef(p.store.config.conns[k], s.body.rotate.value.kind, ref)
  {
    var d, e, ok := RotationDecides(env, p, s, k, who, ref);
    more := SecondSteps(env, seed, acts, r, s, p, a, HasVersion(who, ref), p, Ready(SetConnector(d), e, ok));
    more, q := SecondSaves(env, seed, more, r, s, p, a, d, e, ok);
    reply := ok;
  }

  lemma FirstFinishes(env: Env, seed: Plane, acts: seq<Action>, r: Request, s: Request, p: Plane, b: Pc,
      who: Caller, ref: SecretRef, k: Key)
    returns (more: seq<Action>, q: Plane, reply: Response)
    requires ReachedBy(env, seed, acts, r, s, p, HasVersion(who, ref), b)
    requires CommandOf(r) == Command.RotateSecret(k.tenant, k.id) && r.body.rotate.Some? &&
      r.body.rotate.value.kind in KINDS
    requires k in p.store.config.conns && ConnKey(p.store.config.conns[k]) == k
    ensures ReachedBy(env, seed, more, r, s, q, Done(reply), b) && reply.status == 200 && q.writer == p.writer
    ensures k in q.store.config.conns &&
      q.store.config.conns[k] == WithRef(p.store.config.conns[k], r.body.rotate.value.kind, ref)
  {
    var d, e, ok := RotationDecides(env, p, r, k, who, ref);
    more := FirstSteps(env, seed, acts, r, s, p, HasVersion(who, ref), b, p, Ready(SetConnector(d), e, ok));
    more, q := FirstSaves(env, seed, more, r, s, p, b, d, e, ok);
    reply := ok;
  }

  // Then the second finishes, and the first after it.
  lemma BothFinish(env: Env, seed: Plane, early: seq<Action>, r: Request, s: Request, p: Plane, a: Caller,
      b: Caller, ref1: SecretRef, ref2: SecretRef, k: Key)
    returns (acts: seq<Action>, last: Plane, ok1: Response, ok2: Response)
    requires ReachedBy(env, seed, early, r, s, p, HasVersion(a, ref1), HasVersion(b, ref2))
    requires CommandOf(r) == CommandOf(s) == Command.RotateSecret(k.tenant, k.id)
    requires r.body.rotate.Some? && s.body.rotate.Some? && r.body.rotate.value.kind == s.body.rotate.value.kind &&
      r.body.rotate.value.kind in KINDS
    requires k in p.store.config.conns && ConnKey(p.store.config.conns[k]) == k
    ensures ReachedBy(env, seed, acts, r, s, last, Done(ok1), Done(ok2)) && ok1.status == 200 && ok2.status == 200
    ensures last.writer == p.writer && k in last.store.config.conns
    ensures RefOf(last.store.config.conns[k], r.body.rotate.value.kind) == ref1
  {
    var mid;
    acts, mid, ok2 := SecondFinishes(env, seed, early, r, s, p, HasVersion(a, ref1), b, ref2, k);
    acts, last, ok1 := FirstFinishes(env, seed, acts, r, s, mid, Done(ok2), a, ref1, k);
  }

  lemma RaceEnds(env: Env, seed: Plane, early: seq<Action>, r: Request, s: Request, p: Plane, a: Caller, b: Caller,
      ref2: SecretRef, k: Key, kind: Kind, v: nat)
    returns (acts: seq<Action>, last: Plane, ok1: Response, ok2: Response)
    requires ReachedBy(env, seed, early, r, s, p, HasVersion(a, VersionRef(env, k, kind, v)), HasVersion(b, ref2))
    requires CommandOf(r) == CommandOf(s) == Command.RotateSecret(k.tenant, k.id)
    requires r.body.rotate.Some? && s.body.rotate.Some? &&
      r.body.rotate.value.kind == kind == s.body.rotate.value.kind && kind in KINDS
    requires k in p.store.config.conns && ConnKey(p.store.config.conns[k]) == k
    requires v < VersionOf(p.writer, SecretNamer(env.projectId, k.tenant, k.id, kind))
    ensures ReachedBy(env, seed, acts, r, s, last, Done(ok1), Done(ok2)) && ok1.status == 200 && ok2.status == 200
    ensures Behind(env, last, Slot(k, kind)) && !Current(env, last, Slot(k, kind))
  {
    acts, last, ok1, ok2 := BothFinish(env, seed, early, r, s, p, a, b, VersionRef(env, k, kind, v), ref2, k);
    StaleRef(env, last, k, kind, v);
  }

  // Two rotations of one slot, both answered 200, can leave the connector at the older of the two versions:
  // the first to mint is the last to write.
  lemma RotationsRace(env: Env, seed: Plane, r: Request, s: Request, k: Key, kind: Kind)
    returns (acts: seq<Action>, last: Plane, ok1: Response, ok2: Response)
    requires k in seed.store.config.conns && ConnKey(seed.store.config.conns[k]) == k && kind in KINDS
    requires Rotates(env, seed, r, k, kind) && Rotates(env, seed, s, k, kind)
    ensures ReachedBy(env, seed, acts, r, s, last, Done(ok1), Done(ok2)) && ok1.status == 200 && ok2.status == 200
    ensures Behind(env, last, Slot(k, kind)) && !Current(env, last, Slot(k, kind))
  {
    var v := VersionOf(seed.writer, SecretNamer(env.projectId, k.tenant, k.id, kind));
    var w, a, b;
    acts, w, a, b := BothMint(env, seed, r, s, k, kind);
    acts, last, ok1, ok2 := RaceEnds(env, seed, acts, r, s, seed.(writer := w), a, b, VersionRef(env, k, kind, v + 2),
      k, kind, v + 1);
  }

  lemma StaleRef(env: Env, p: Plane, k: Key, kind: Kind, v: nat)
    requires k in p.store.config.conns && v < VersionOf(p.writer, SecretNamer(env.projectId, k.tenant, k.id, kind))
    requires RefOf(p.store.config.conns[k], kind) == VersionRef(env, k, kind, v)
    ensures Behind(env, p, Slot(k, kind)) && !Current(env, p, Slot(k, kind))
  {
    var s := Slot(k, kind);
    assert NameOf(env, s) == SecretNamer(env.projectId, k.tenant, k.id, kind);
    assert RefOf(p.store.config.conns[s.key], s.kind) == SecretRef(NameOf(env, s), Decimal(v));
    BehindIsNotCurrent(env, p, s);
  }

  // ---- A rotation and a PUT ----

  // An owner's PUT at k that passes the checks.
  ghost predicate Puts(env: Env, p: Plane, r: Request, k: Key)
  {
    && CommandOf(r) == PutConnector(k.tenant, k.id) && ByOwner(env, p, r)
    && r.body.connector.Some? && ValidConnector(Addressed(r.body.connector.value, k.tenant, k.id))
  }

  lemma PutDecides(env: Env, p: Plane, r: Request, k: Key, who: Caller)
    returns (d: ConnectorConfig, e: AuditEntry, ok: Response)
    requires Puts(env, p, r, k)
    ensures Advance(env, p, r, Admitted(who)) == (p, Ready(SetConnector(d), e, ok)) && ok.status == 200
    ensures ConnKey(d) == k && d.rateLimitPerConv == r.body.connector.value.rateLimitPerConv
    ensures e.after == OfConnector(d) && Key(e.tenantId, e.resourceId) == k
  {
    var x := DecidePutConnector(p.store.config, k.tenant, k.id, who, r);
    d, e, ok := x.write.connector, x.entry, x.reply;
  }

  // The rotation r mints and reads the connector; the PUT s has been admitted.
  lemma RotationReads(env: Env, seed: Plane, r: Request, s: Request, k: Key, kind: Kind)
    returns (acts: seq<Action>, p: Plane, b: Caller, d: ConnectorConfig, e: AuditEntry, ok: Response)
    requires k in seed.store.config.conns && ConnKey(seed.store.config.conns[k]) == k && kind in KINDS
    requires Rotates(env, seed, r, k, kind) && ByOwner(env, seed, s)
    ensures ReachedBy(env, seed, acts, r, s, p, Ready(SetConnector(d), e, ok), Admitted(b)) && p.store == seed.store
    ensures ok.status == 200 && ConnKey(d) == k && d.rateLimitPerConv == seed.store.config.conns[k].rateLimitPerConv
    ensures e.after.OfRotation? && Key(e.tenantId, e.resourceId) == k
  {
    var v := VersionOf(seed.writer, SecretNamer(env.projectId, k.tenant, k.id, kind));
    var a, w;
    acts, a, b := BothAdmitted(env, seed, r, s);
    acts, w := FirstMints(env, seed, acts, r, s, seed, a, Admitted(b), k, kind, v);
    p := seed.(writer := w);
    var ref := VersionRef(env, k, kind, v + 1);
    d, e, ok := RotationDecides(env, p, r, k, a, ref);
    acts := FirstSteps(env, seed, acts, r, s, p, HasVersion(a, ref), Admitted(b), p, Ready(SetConnector(d), e, ok));
  }

  // A PUT that another rate limit comes in with can be answered 200 between the read and the write of a rotation of
  // the same connector. The rotation undoes it, and the log no longer rebuilds the store.
  lemma RotationUndoesPut(env: Env, seed: Plane, r: Request, s: Request, k: Key, kind: Kind)
    returns (acts: seq<Action>, last: Plane, ok1: Response, ok2: Response)
    requires k in seed.store.config.conns && ConnKey(seed.store.config.conns[k]) == k && kind in KINDS
    requires Rotates(env, seed, r, k, kind) && Puts(env, seed, s, k)
    requires s.body.connector.value.rateLimitPerConv != seed.store.config.conns[k].rateLimitPerConv
    ensures ReachedBy(env, seed, acts, r, s, last, Done(ok1), Done(ok2)) && ok1.status == 200 && ok2.status == 200
    ensures k in last.store.config.conns
    ensures last.store.config.conns[k].rateLimitPerConv == seed.store.config.conns[k].rateLimitPerConv
    ensures ReplayLog(env.projectId, ShownConfig(seed.store.config), Since(seed.store.audit, last.store.audit))
         != ShownConfig(last.store.config)
  {
    var p, b, d, e;
    acts, p, b, d, e, ok1 := RotationReads(env, seed, r, s, k, kind);
    var x, f;
    x, f, ok2 := PutDecides(env, p, s, k, b);
    acts := SecondSteps(env, seed, acts, r, s, p, Ready(SetConnector(d), e, ok1), Admitted(b), p,
      Ready(SetConnector(x), f, ok2));
    acts, p := SecondSaves(env, seed, acts, r, s, p, Ready(SetConnector(d), e, ok1), x, f, ok2);
    acts, last := FirstSaves(env, seed, acts, r, s, p, Done(ok2), d, e, ok1);
    OvertakenReplay(env.projectId, seed.store, last.store, f, e, x, d, k);
  }

  lemma OvertakenReplay(projectId: string, seed: State, last: State, f: AuditEntry, e: AuditEntry,
                        x: ConnectorConfig, d: ConnectorConfig, k: Key)
    requires last.audit == seed.audit + [f] + [e] && k in last.config.conns && last.config.conns[k] == d
    requires f.after == OfConnector(x) && Key(f.tenantId, f.resourceId) == k
    requires e.after.OfRotation? && Key(e.tenantId, e.resourceId) == k && x.rateLimitPerConv != d.rateLimitPerConv
    ensures ReplayLog(projectId, ShownConfig(seed.config), Since(seed.audit, last.audit)) != ShownConfig(last.config)
  {
    var log := Since(seed.audit, last.audit);
    assert log == [f] + [e];
    ReplayAppend(projectId, ShownConfig(seed.config), [f], e);
    assert ReplayLog(projectId, ShownConfig(seed.config), [f]) == ReplayEntry(projectId, ShownConfig(seed.config), f);
    assert ReplayLog(projectId, ShownConfig(seed.config), log).conns[k].rateLimitPerConv == x.rateLimitPerConv;
    assert ShownConfig(last.config).conns[k] == ShownConnector(d);
  }

  // ---- Two creations ----

  // An owner's creation of an agent under tid that passes the checks.
  ghost predicate Creates(env: Env, p: Plane, r: Request, tid: string)
  {
    && CommandOf(r) == CreateAgent(tid) && ByOwner(env, p, r)
    && r.body.agent.Some? && ValidAgent(r.body.agent.value.(tenantId := tid))
  }

  // What a creation has decided when it is about to write.
  predicate Decided(r: Request, tid: string, d: AgentProfile, e: AuditEntry, ok: Response)
  {
    && r.body.agent.Some? && ok.status == 201 && AgentKey(d) == Key(tid, r.body.agent.value.id) &&
      d.name == r.body.agent.value.name
    && e.after == OfAgent(d) && Key(e.tenantId, e.resourceId) == AgentKey(d)
  }

  lemma CreationDecides(env: Env, p: Plane, r: Request, tid: string, who: Caller)
    returns (d: AgentProfile, e: AuditEntry, ok: Response)
    requires Creates(env, p, r, tid)
    ensures Advance(env, p, r, Admitted(who)) == (p, Ready(SetAgent(d), e, ok)) && Decided(r, tid, d, e, ok)
  {
    var x := DecideCreateAgent(tid, who, r);
    d, e, ok := x.write.agent, x.entry, x.reply;
  }

  lemma BothReady(env: Env, seed: Plane, r: Request, s: Request, tid: string)
    returns (acts: seq<Action>, d1: AgentProfile, e1: AuditEntry, ok1: Response, d2: AgentProfile, e2: AuditEntry,
      ok2: Response)
    requires Creates(env, seed, r, tid) && Creates(env, seed, s, tid)
    ensures ReachedBy(env, seed, acts, r, s, seed, Ready(SetAgent(d1), e1, ok1), Ready(SetAgent(d2), e2, ok2))
    ensures Decided(r, tid, d1, e1, ok1) && Decided(s, tid, d2, e2, ok2)
  {
    var a, b;
    acts, a, b := BothAdmitted(env, seed, r, s);
    d1, e1, ok1 := CreationDecides(env, seed, r, tid, a);
    d2, e2, ok2 := CreationDecides(env, seed, s, tid, b);
    acts := FirstSteps(env, seed, acts, r, s, seed, Admitted(a), Admitted(b), seed, Ready(SetAgent(d1), e1, ok1));
    acts := SecondSteps(env, seed, acts, r, s, seed, Ready(SetAgent(d1), e1, ok1), Admitted(b), seed,
      Ready(SetAgent(d2), e2, ok2));
  }

  // Both write, r first, and both record, s first.
  lemma CrossOver(env: Env, seed: Plane, early: seq<Action>, r: Request, s: Request, d1: AgentProfile,
      e1: AuditEntry, ok1: Response, d2: AgentProfile, e2: AuditEntry, ok2: Response)
    returns (acts: seq<Action>, last: Plane)
    requires ReachedBy(env, seed, early, r, s, seed, Ready(SetAgent(d1), e1, ok1), Ready(SetAgent(d2), e2, ok2))
    ensures ReachedBy(env, seed, acts, r, s, last, Done(ok1), Done(ok2))
    ensures last.store.audit == seed.store.audit + [e2] + [e1]
    ensures last.store.config.agents == seed.store.config.agents[AgentKey(d1) := d1][AgentKey(d2) := d2]
  {
    var c := seed.store.config;
    var p1 := After(seed, c.(agents := c.agents[AgentKey(d1) := d1]));
    var p2 := After(p1, p1.store.config.(agents := p1.store.config.agents[AgentKey(d2) := d2]));
    AgentWriteStep(env, seed, r, d1, e1, ok1);
    AgentWriteStep(env, p1, s, d2, e2, ok2);
    RecordStep(env, p2, s, e2, ok2);
    RecordStep(env, Recorded(p2, e2), r, e1, ok1);
    last := Recorded(Recorded(p2, e2), e1);
    acts := FirstSteps(env, seed, early, r, s, seed, Ready(SetAgent(d1), e1, ok1), Ready(SetAgent(d2), e2, ok2), p1,
      Wrote(e1, ok1));
    acts := SecondSteps(env, seed, acts, r, s, p1, Wrote(e1, ok1), Ready(SetAgent(d2), e2, ok2), p2, Wrote(e2, ok2));
    acts := SecondSteps(env, seed, acts, r, s, p2, Wrote(e1, ok1), Wrote(e2, ok2), Recorded(p2, e2), Done(ok2));
    acts := FirstSteps(env, seed, acts, r, s, Recorded(p2, e2), Wrote(e1, ok1), Done(ok2), last, Done(ok1));
  }

  // Two creations of one agent, both answered 201, can be recorded in the other order than they were written.
  // Then the log no longer rebuilds the store.
  lemma RecordsRace(env: Env, seed: Plane, r: Request, s: Request, tid: string)
    returns (acts: seq<Action>, last: Plane, ok1: Response, ok2: Response)
    requires Creates(env, seed, r, tid) && Creates(env, seed, s, tid)
    requires r.body.agent.value.id == s.body.agent.value.id && r.body.agent.value.name != s.body.agent.value.name
    ensures ReachedBy(env, seed, acts, r, s, last, Done(ok1), Done(ok2)) && ok1.status == 201 && ok2.status == 201
    ensures ReplayLog(env.projectId, ShownConfig(seed.store.config), Since(seed.store.audit, last.store.audit))
         != ShownConfig(last.store.config)
  {
    var d1, e1, d2, e2;
    acts, d1, e1, ok1, d2, e2, ok2 := BothReady(env, seed, r, s, tid);
    acts, last := CrossOver(env, seed, acts, r, s, d1, e1, ok1, d2, e2, ok2);
    CrossedReplay(env.projectId, seed.store, last.store, e1, e2, d1, d2, AgentKey(d1));
  }

  lemma CrossedReplay(projectId: string, seed: State, last: State, e1: AuditEntry, e2: AuditEntry, d1: AgentProfile,
      d2: AgentProfile, k: Key)
    requires last.audit == seed.audit + [e2] + [e1] && k in last.config.agents && last.config.agents[k] == d2 &&
      d1.name != d2.name
    requires e1.after == OfAgent(d1) && Key(e1.tenantId, e1.resourceId) == k
    ensures ReplayLog(projectId, ShownConfig(seed.config), Since(seed.audit, last.audit)) != ShownConfig(last.config)
  {
    var log := Since(seed.audit, last.audit);
    assert log == [e2] + [e1];
    ReplayAppend(projectId, ShownConfig(seed.config), [e2], e1);
    assert ShownConfig(last.config).agents[k] == ShownAgent(d2);
  }
}
