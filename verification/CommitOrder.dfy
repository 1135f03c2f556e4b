// The audit log as an event log with requests in flight: when the entries, in the order of the writes or in that of
// the log, rebuild the store.
module CommitOrder {
  import opened Types
  import opened Store
  import opened Secrets
  import opened Service
  import opened Replay
  import opened Interleaving
  import opened Safety

  predicate IsRotation(pc: Pc) { pc.Ready? && RotationEntry(pc.entry, pc.write) }

  predicate RotationEntry(e: AuditEntry, w: Write) { w.SetConnector? && e.after.OfRotation? }

  // The entry of a pending write stands for it whatever happens to the store before it is carried out,
  // except that of a rotation, which shows only the new version.
  ghost predicate Redoable(projectId: string, t: Thread)
  {
    t.pc.Ready? ==>
      if IsRotation(t.pc) then Key(t.pc.entry.tenantId, t.pc.entry.resourceId) == ConnKey(t.pc.write.connector)
      else forall c :: Describes(projectId, c, t.pc.entry, t.pc.write)
  }

  // A rotation of d, recorded as e, finds the stored connector as it read it, as far as JSON shows it.
  ghost predicate Fresh(projectId: string, c: Config, e: AuditEntry, d: ConnectorConfig)
    requires e.after.OfRotation?
  {
    var k := ConnKey(d);
    var ref := SecretRef(SecretNamer(projectId, k.tenant, k.id, e.after.kind), e.after.version);
    k in c.conns && ShownConnector(d) == WithRef(ShownConnector(c.conns[k]), e.after.kind, ref)
  }

  // If the step writes for a rotation, the rotation is fresh.
  ghost predicate FreshStep(env: Env, s: System, a: Action)
  {
    a.Step? && a.thread < |s.threads| && IsRotation(s.threads[a.thread].pc) ==>
      var pc := s.threads[a.thread].pc;
      Fresh(env.projectId, s.plane.store.config, pc.entry, pc.write.connector)
  }

  ghost predicate RotationsFresh(env: Env, s: System, acts: seq<Action>)
  {
    var n := |acts| - 1;
    acts != [] ==> RotationsFresh(env, s, acts[..n]) && FreshStep(env, Exec(env, s, acts[..n]), acts[n])
  }

  // ---- Pending entries stand for their writes ----

  // An entry that describes a write on one configuration without being a rotation describes it on every one.
  lemma DescribesAnywhere(projectId: string, c: Config, e: AuditEntry, w: Write)
    requires Describes(projectId, c, e, w) && !RotationEntry(e, w)
    ensures forall c' :: Describes(projectId, c', e, w)
  {
  }

  lemma AdvanceRedoable(env: Env, seed: Config, p: Plane, h: History, t: Thread)
    requires WellFormed(p.store.config) && ThreadGood(env, seed, p.writer, h, t)
    ensures Redoable(env.projectId, Thread(t.req, Advance(env, p, t.req, t.pc).1))
  {
    var r, c, cmd := t.req, p.store.config, CommandOf(t.req);
    if t.pc.HasVersion? || (t.pc.Admitted? && cmd.Mutates() && !cmd.RotateSecret?) {
      var ref := if t.pc.HasVersion? then t.pc.ref else NO_REF;
      var d := Decide(c, cmd, t.pc.who, r, ref);
      if d.Proceed? {
        DecisionDescribes(env, c, cmd, t.pc.who, r, ref);
        if !RotationEntry(d.entry, d.write) {
          DescribesAnywhere(env.projectId, c, d.entry, d.write);
        }
      }
    }
  }

  lemma ActKeepsRedoable(env: Env, seed: State, s: System, a: Action)
    requires Good(env, seed, s) && forall t <- s.threads :: Redoable(env.projectId, t)
    ensures forall t <- Act(env, s, a).threads :: Redoable(env.projectId, t)
  {
    var x := Act(env, s, a);
    if a.Step? && a.thread < |s.threads| {
      var t := s.threads[a.thread];
      assert t in s.threads;
      AdvanceRedoable(env, seed.config, s.plane, s.history, t);
      forall u <- x.threads ensures Redoable(env.projectId, u) {
        if u != x.threads[a.thread] { assert u in s.threads; }
      }
    }
  }

  lemma {:induction false} AlwaysRedoable(env: Env, seed: Plane, acts: seq<Action>)
    requires WellFormed(seed.store.config)
    ensures forall t <- Exec(env, Start(seed), acts).threads :: Redoable(env.projectId, t)
  {
    if acts != [] {
      var n := |acts| - 1;
      AlwaysRedoable(env, seed, acts[..n]);
      AlwaysGood(env, seed, acts[..n]);
      ActKeepsRedoable(env, seed.store, Exec(env, Start(seed), acts[..n]), acts[n]);
    }
  }

  // ---- In the order of the writes ----

  // The entries of the writes so far, in their order, rebuild the live configuration.
  ghost predicate Rebuilds(env: Env, seed: Config, s: System)
  {
    ReplayLog(env.projectId, ShownConfig(seed), s.committed) == ShownConfig(s.plane.store.config)
  }

  // They do in every state the execution goes through.
  ghost predicate AlwaysRebuilds(env: Env, seed: Plane, acts: seq<Action>)
  {
    Rebuilds(env, seed.store.config, Exec(env, Start(seed), acts)) &&
    (acts != [] ==> AlwaysRebuilds(env, seed, acts[..|acts| - 1]))
  }

  // Replaying a rotation's entry has the effect of its write exactly when the rotation is fresh.
  lemma RotationRedoneIff(projectId: string, c: Config, e: AuditEntry, d: ConnectorConfig)
    requires e.after.OfRotation? && Key(e.tenantId, e.resourceId) == ConnKey(d)
    ensures ReplayEntry(projectId, ShownConfig(c), e) == ShownConfig(Apply(c, SetConnector(d)).value) <==>
            Fresh(projectId, c, e, d)
  {
    var k := ConnKey(d);
    ShownPutConnector(c, k, d);
    var x, y := ReplayEntry(projectId, ShownConfig(c), e), ShownConfig(Apply(c, SetConnector(d)).value);
    assert y.conns[k] == ShownConnector(d);
    if k in c.conns {
      var ref := SecretRef(SecretNamer(projectId, k.tenant, k.id, e.after.kind), e.after.version);
      assert x.conns[k] == WithRef(ShownConnector(c.conns[k]), e.after.kind, ref);
    } else {
      assert k !in x.conns;
    }
  }

  lemma EntryRedoneIff(projectId: string, c: Config, e: AuditEntry, w: Write)
    requires Apply(c, w).Some?
    requires if RotationEntry(e, w) then Key(e.tenantId, e.resourceId) == ConnKey(w.connector)
      else Describes(projectId, c, e, w)
    ensures ReplayEntry(projectId, ShownConfig(c), e) == ShownConfig(Apply(c, w).value) <==>
            (RotationEntry(e, w) ==> Fresh(projectId, c, e, w.connector))
  {
    if RotationEntry(e, w) {
      RotationRedoneIff(projectId, c, e, w.connector);
    } else {
      EntryRedoesWrite(projectId, c, e, w);
    }
  }

  lemma WriteRebuildsIff(env: Env, seed: Config, s: System, i: nat)
    requires i < |s.threads| && s.threads[i].pc.Ready? && Redoable(env.projectId, s.threads[i])
    requires Rebuilds(env, seed, s) && Apply(s.plane.store.config, s.threads[i].pc.write).Some?
    ensures Rebuilds(env, seed, StepThread(env, s, i)) <==> FreshStep(env, s, Step(i))
  {
    var pc := s.threads[i].pc;
    EntryRedoneIff(env.projectId, s.plane.store.config, pc.entry, pc.write);
    ReplayAppend(env.projectId, ShownConfig(seed), s.committed, pc.entry);
  }

  // One step keeps the entries rebuilding the store exactly when it is no write of a rotation that is not fresh.
  lemma StepRebuildsIff(env: Env, seed: Config, s: System, a: Action)
    requires Rebuilds(env, seed, s) && forall t <- s.threads :: Redoable(env.projectId, t)
    ensures Rebuilds(env, seed, Act(env, s, a)) <==> FreshStep(env, s, a)
  {
    if a.Step? && a.thread < |s.threads| {
      var t := s.threads[a.thread];
      assert t in s.threads;
      if t.pc.Ready? && Apply(s.plane.store.config, t.pc.write).Some? {
        WriteRebuildsIff(env, seed, s, a.thread);
      } else {
        assert s.committed + [] == s.committed;
      }
    }
  }

  // From a valid seed and under any interleaving, the entries in the order of their writes rebuild exactly the live
  // configuration in every state if and only if every rotation writes the connector as it read it.
  lemma {:induction false} CommitOrderRebuildsIff(env: Env, seed: Plane, acts: seq<Action>)
    requires WellFormed(seed.store.config)
    ensures AlwaysRebuilds(env, seed, acts) <==> RotationsFresh(env, Start(seed), acts)
  {
    if acts != [] {
      var n := |acts| - 1;
      CommitOrderRebuildsIff(env, seed, acts[..n]);
      if AlwaysRebuilds(env, seed, acts[..n]) {
        AlwaysRedoable(env, seed, acts[..n]);
        StepRebuildsIff(env, seed.store.config, Exec(env, Start(seed), acts[..n]), acts[n]);
      }
    }
  }

  // ---- In the order of the log ----

  ghost predicate LogFollowsCommits(seed: State, s: System)
  {
    Since(seed.audit, s.plane.store.audit) <= s.committed
  }

  ghost predicate AlwaysFollows(env: Env, seed: Plane, acts: seq<Action>)
  {
    LogFollowsCommits(seed.store, Exec(env, Start(seed), acts)) &&
    (acts != [] ==> AlwaysFollows(env, seed, acts[..|acts| - 1]))
  }

  // If the step records, it records the entry of the oldest write that is not recorded yet.
  ghost predicate RecordsNext(seed: State, s: System, a: Action)
  {
    a.Step? && a.thread < |s.threads| && s.threads[a.thread].pc.Wrote? ==>
      var n := |Since(seed.audit, s.plane.store.audit)|;
      n < |s.committed| && s.committed[n] == s.threads[a.thread].pc.entry
  }

  ghost predicate RecordsInOrder(env: Env, seed: Plane, acts: seq<Action>)
  {
    var n := |acts| - 1;
    acts != [] ==>
      RecordsInOrder(env, seed, acts[..n]) && RecordsNext(seed.store, Exec(env, Start(seed), acts[..n]), acts[n])
  }

  lemma StepFollowsIff(env: Env, seed: State, s: System, a: Action)
    requires seed.audit <= s.plane.store.audit && LogFollowsCommits(seed, s)
    ensures LogFollowsCommits(seed, Act(env, s, a)) <==> RecordsNext(seed, s, a)
  {
    if a.Step? && a.thread < |s.threads| {
      var t := s.threads[a.thread];
      AdvanceLogs(env, s.plane, t.req, t.pc);
      var log, n := s.plane.store.audit, |Since(seed.audit, s.plane.store.audit)|;
      if t.pc.Wrote? {
        SinceGrows(seed.audit, log, log + [t.pc.entry]);
      } else {
        assert log + [] == log;
      }
    }
  }

  // The log lists the writes in their order in every state if and only if each entry is recorded in its turn.
  lemma {:induction false} LogOrderIff(env: Env, seed: Plane, acts: seq<Action>)
    requires WellFormed(seed.store.config)
    ensures AlwaysFollows(env, seed, acts) <==> RecordsInOrder(env, seed, acts)
  {
    if acts != [] {
      var n := |acts| - 1;
      LogOrderIff(env, seed, acts[..n]);
      AlwaysGood(env, seed, acts[..n]);
      if AlwaysFollows(env, seed, acts[..n]) {
        StepFollowsIff(env, seed.store, Exec(env, Start(seed), acts[..n]), acts[n]);
      }
    }
  }

  // So under any interleaving with fresh rotations and entries recorded in their turn, the log itself rebuilds the
  // store whenever no request stands between write and record.
  lemma LogRebuildsStoreInFlight(env: Env, seed: Plane, acts: seq<Action>)
    requires WellFormed(seed.store.config)
    requires RotationsFresh(env, Start(seed), acts) && RecordsInOrder(env, seed, acts)
    requires WroteCount(Exec(env, Start(seed), acts).threads) == 0
    ensures var s := Exec(env, Start(seed), acts);
      ReplayLog(env.projectId, ShownConfig(seed.store.config), Since(seed.store.audit, s.plane.store.audit))
      == ShownConfig(s.plane.store.config)
  {
    CommitOrderRebuildsIff(env, seed, acts);
    LogOrderIff(env, seed, acts);
    WritesAreRecorded(env, seed, acts);
    var s := Exec(env, Start(seed), acts);
    assert Since(seed.store.audit, s.plane.store.audit) == s.committed;
  }
}
