// What holds in every reachable state of requests in flight together.
module Safety {
  import opened Types
  import opened Validate
  import opened Store
  import opened Secrets
  import opened Routing
  import opened Service
  import opened Runs
  import opened Replay
  import opened Interleaving

  // ---- Where a stored secret reference may come from ----

  ghost predicate Versioned(env: Env, w: Writer, k: Key, kind: Kind, ref: SecretRef)
  {
    var name := SecretNamer(env.projectId, k.tenant, k.id, kind);
    exists v: nat :: 1 <= v <= VersionOf(w, name) && ref == SecretRef(name, Decimal(v))
  }

  // A version AddVersion returned to a rotation of that very slot, at most the counter of the slot's name.
  ghost predicate MintedFor(env: Env, w: Writer, h: History, k: Key, kind: Kind, ref: SecretRef)
  {
    Handed(k, kind, ref) in h.minted && Versioned(env, w, k, kind, ref)
  }

  // A reference of slot (k, kind) is the seed's, or was taken from the body of a checked PUT whose lookup missed,
  // or is a version AddVersion returned for that very slot.
  ghost predicate HasOrigin(env: Env, seed: Config, w: Writer, h: History, k: Key, kind: Kind, ref: SecretRef)
  {
    || (k in seed.conns && RefOf(seed.conns[k], kind) == ref)
    || Handed(k, kind, ref) in h.imported
    || MintedFor(env, w, h, k, kind, ref)
  }

  ghost predicate Extends(h: History, j: History) { h.imported <= j.imported && h.minted <= j.minted }

  ghost predicate RefsHaveOrigin(env: Env, seed: Config, w: Writer, h: History, c: ConnectorConfig)
  {
    && HasOrigin(env, seed, w, h, ConnKey(c), Signing, c.signingRef)
    && HasOrigin(env, seed, w, h, ConnKey(c), OAuth, c.oauthRef)
  }

  ghost predicate Grows(w: Writer, x: Writer) { forall name :: VersionOf(w, name) <= VersionOf(x, name) }

  lemma OriginKept(env: Env, seed: Config, w: Writer, x: Writer, h: History, j: History, c: ConnectorConfig)
    requires Grows(w, x) && Extends(h, j) && RefsHaveOrigin(env, seed, w, h, c)
    ensures RefsHaveOrigin(env, seed, x, j, c)
  {
    forall kind | kind in KINDS && Versioned(env, w, ConnKey(c), kind, RefOf(c, kind))
      ensures Versioned(env, x, ConnKey(c), kind, RefOf(c, kind))
    {
      VersionedKept(env, w, x, ConnKey(c), kind, RefOf(c, kind));
    }
    assert Signing in KINDS && OAuth in KINDS;
    assert RefOf(c, Signing) == c.signingRef && RefOf(c, OAuth) == c.oauthRef;
  }

  lemma VersionedKept(env: Env, w: Writer, x: Writer, k: Key, kind: Kind, ref: SecretRef)
    requires Grows(w, x) && Versioned(env, w, k, kind, ref)
    ensures Versioned(env, x, k, kind, ref)
  {
    var name := SecretNamer(env.projectId, k.tenant, k.id, kind);
    var v: nat :| 1 <= v <= VersionOf(w, name) && ref == SecretRef(name, Decimal(v));
    assert v <= VersionOf(x, name);
  }

  // ---- The invariant ----

  ghost predicate StoreGood(env: Env, seed: Config, w: Writer, h: History, c: Config)
  {
    WellFormed(c) && forall k <- c.conns :: RefsHaveOrigin(env, seed, w, h, c.conns[k])
  }

  ghost predicate ThreadGood(env: Env, seed: Config, w: Writer, h: History, t: Thread)
  {
    var cmd := CommandOf(t.req);
    match t.pc
    case Arrived => true
    case Admitted(who) => cmd.OwnerOnly() ==> who.role == OWNER
    case HasVersion(who, ref) =>
      who.role == OWNER && cmd.RotateSecret? && t.req.body.rotate.Some? && t.req.body.rotate.value.kind in KINDS &&
      MintedFor(env, w, h, Key(cmd.tid, cmd.id), t.req.body.rotate.value.kind, ref)
    case Ready(write, entry, _) =>
      GoodWrite(write) && entry.actorRole == OWNER &&
      (write.SetConnector? ==> RefsHaveOrigin(env, seed, w, h, write.connector))
    case Wrote(entry, _) => entry.actorRole == OWNER
    case Done(_) => true
  }

  // The threads between write and record, and those of them that carry the entry e.
  function WroteCount(ts: seq<Thread>): nat
  {
    if ts == [] then 0 else WroteCount(ts[..|ts| - 1]) + if ts[|ts| - 1].pc.Wrote? then 1 else 0
  }

  predicate Carries(t: Thread, e: AuditEntry) { t.pc.Wrote? && t.pc.entry == e }

  function PendingCount(ts: seq<Thread>, e: AuditEntry): nat
  {
    if ts == [] then 0 else PendingCount(ts[..|ts| - 1], e) + if Carries(ts[|ts| - 1], e) then 1 else 0
  }

  // Every committed write is recorded or about to be, once, and nothing else is.
  ghost predicate LogGood(seed: seq<AuditEntry>, log: seq<AuditEntry>, ts: seq<Thread>, committed: seq<AuditEntry>)
  {
    && seed <= log
    && |Since(seed, log)| + WroteCount(ts) == |committed|
    && forall e :: multiset(Since(seed, log))[e] + PendingCount(ts, e) == multiset(committed)[e]
  }

  ghost predicate Good(env: Env, seed: State, s: System)
  {
    && StoreGood(env, seed.config, s.plane.writer, s.history, s.plane.store.config)
    && (forall t <- s.threads :: ThreadGood(env, seed.config, s.plane.writer, s.history, t))
    && LogGood(seed.audit, s.plane.store.audit, s.threads, s.committed)
    && (forall e <- s.committed :: e.actorRole == OWNER)
  }

  // ---- Decisions keep it ----

  // A PUT writes the stored references, or without a stored connector those of its body.
  lemma PutRefs(c: Config, tid: string, p: string, who: Caller, r: Request)
    requires DecidePutConnector(c, tid, p, who, r).Proceed?
    ensures r.body.connector.Some? && ValidConnector(Addressed(r.body.connector.value, tid, p))
    ensures DecidePutConnector(c, tid, p, who, r).write.SetConnector?
    ensures var d := DecidePutConnector(c, tid, p, who, r).write.connector; var k := Key(tid, p);
      var from := if k in c.conns then c.conns[k] else r.body.connector.value;
      ConnKey(d) == k && d.signingRef == from.signingRef && d.oauthRef == from.oauthRef
  {
  }

  lemma PutHasOrigin(env: Env, seed: Config, p: Plane, h: History, cmd: Command, who: Caller, r: Request)
    requires StoreGood(env, seed, p.writer, h, p.store.config) && cmd.PutConnector?
    requires ImportsFor(p.store.config, cmd, r) <= h.imported
    requires DecidePutConnector(p.store.config, cmd.tid, cmd.id, who, r).Proceed?
    ensures DecidePutConnector(p.store.config, cmd.tid, cmd.id, who, r).write.SetConnector?
    ensures RefsHaveOrigin(env, seed, p.writer, h,
      DecidePutConnector(p.store.config, cmd.tid, cmd.id, who, r).write.connector)
  {
    var c, k := p.store.config, Key(cmd.tid, cmd.id);
    PutRefs(c, cmd.tid, cmd.id, who, r);
    if k in c.conns {
      assert ConnKey(c.conns[k]) == k && RefsHaveOrigin(env, seed, p.writer, h, c.conns[k]);
    } else {
      assert Handed(k, Signing, r.body.connector.value.signingRef) in ImportsFor(c, cmd, r);
      assert Handed(k, OAuth, r.body.connector.value.oauthRef) in ImportsFor(c, cmd, r);
    }
  }

  lemma RotationHasOrigin(env: Env, seed: Config, p: Plane, h: History, cmd: Command, who: Caller, r: Request,
      ref: SecretRef)
    requires StoreGood(env, seed, p.writer, h, p.store.config) && cmd.RotateSecret? && r.body.rotate.Some?
    requires MintedFor(env, p.writer, h, Key(cmd.tid, cmd.id), r.body.rotate.value.kind, ref)
    requires DecideRotate(p.store.config, cmd.tid, cmd.id, who, r, ref).Proceed?
    ensures RefsHaveOrigin(env, seed, p.writer, h,
      DecideRotate(p.store.config, cmd.tid, cmd.id, who, r, ref).write.connector)
  {
    var c, k := p.store.config, Key(cmd.tid, cmd.id);
    assert ConnKey(c.conns[k]) == k && RefsHaveOrigin(env, seed, p.writer, h, c.conns[k]);
  }

  // What the two connector commands need of a state for their references to have an origin.
  ghost predicate RefsAtHand(env: Env, p: Plane, h: History, cmd: Command, r: Request, ref: SecretRef)
  {
    && (cmd.RotateSecret? && r.body.rotate.Some? ==>
          MintedFor(env, p.writer, h, Key(cmd.tid, cmd.id), r.body.rotate.value.kind, ref))
    && (cmd.PutConnector? ==> ImportsFor(p.store.config, cmd, r) <= h.imported)
  }

  // What a PUT or a rotation is about to write has an origin.
  lemma DecisionHasOrigin(env: Env, seed: Config, p: Plane, h: History, cmd: Command, who: Caller, r: Request,
      ref: SecretRef)
    requires StoreGood(env, seed, p.writer, h, p.store.config) && cmd.Mutates() && RefsAtHand(env, p, h, cmd, r, ref)
    requires var d := Decide(p.store.config, cmd, who, r, ref); d.Proceed? && d.write.SetConnector?
    ensures RefsHaveOrigin(env, seed, p.writer, h, Decide(p.store.config, cmd, who, r, ref).write.connector)
  {
    if cmd.PutConnector? {
      PutHasOrigin(env, seed, p, h, cmd, who, r);
    } else if cmd.RotateSecret? {
      RotationHasOrigin(env, seed, p, h, cmd, who, r, ref);
    }
  }

  lemma SettleGood(env: Env, seed: Config, p: Plane, h: History, who: Caller, r: Request, ref: SecretRef)
    requires StoreGood(env, seed, p.writer, h, p.store.config)
    requires CommandOf(r).Mutates() && who.role == OWNER && RefsAtHand(env, p, h, CommandOf(r), r, ref)
    ensures ThreadGood(env, seed, p.writer, h, Thread(r, Settle(Decide(p.store.config, CommandOf(r), who, r, ref))))
  {
    var cmd := CommandOf(r);
    var d := Decide(p.store.config, cmd, who, r, ref);
    if d.Proceed? {
      DecisionIsGood(p.store.config, cmd, who, r, ref);
      DecisionShape(p.store.config, cmd, who, r, ref);
      if d.write.SetConnector? { DecisionHasOrigin(env, seed, p, h, cmd, who, r, ref); }
    }
  }

  lemma ApplyGood(env: Env, seed: Config, w: Writer, h: History, c: Config, write: Write)
    requires StoreGood(env, seed, w, h, c) && GoodWrite(write) && Apply(c, write).Some?
    requires write.SetConnector? ==> RefsHaveOrigin(env, seed, w, h, write.connector)
    ensures StoreGood(env, seed, w, h, Apply(c, write).value)
  {
    ApplyKeepsWellFormed(c, write);
  }

  // What AddVersion hands to a rotation is a version of the rotation's own slot, and counters only grow.
  lemma MintGood(env: Env, w: Writer, h: History, cmd: Command, r: Request)
    requires cmd.RotateSecret? && MintsFor(env, w, cmd, r) <= h.minted
    ensures var (x, m) := Mint(env, w, cmd, r);
      && Grows(w, x)
      && (m.Ok? ==> r.body.rotate.Some? && r.body.rotate.value.kind in KINDS &&
                    MintedFor(env, x, h, Key(cmd.tid, cmd.id), r.body.rotate.value.kind, m.value))
  {
    var (x, m) := Mint(env, w, cmd, r);
    if m.Ok? {
      var name := SecretNamer(env.projectId, cmd.tid, cmd.id, r.body.rotate.value.kind);
      assert m.value == SecretRef(name, Decimal(VersionOf(x, name)));
      assert Handed(Key(cmd.tid, cmd.id), r.body.rotate.value.kind, m.value) in MintsFor(env, w, cmd, r);
    }
  }

  lemma StoreGoodKept(env: Env, seed: Config, w: Writer, x: Writer, h: History, j: History, c: Config)
    requires StoreGood(env, seed, w, h, c) && Grows(w, x) && Extends(h, j)
    ensures StoreGood(env, seed, x, j, c)
  {
    forall k <- c.conns ensures RefsHaveOrigin(env, seed, x, j, c.conns[k]) {
      OriginKept(env, seed, w, x, h, j, c.conns[k]);
    }
  }

  lemma ThreadGoodKept(env: Env, seed: Config, w: Writer, x: Writer, h: History, j: History, t: Thread)
    requires ThreadGood(env, seed, w, h, t) && Grows(w, x) && Extends(h, j)
    ensures ThreadGood(env, seed, x, j, t)
  {
    match t.pc
    case HasVersion(_, ref) =>
      VersionedKept(env, w, x, Key(CommandOf(t.req).tid, CommandOf(t.req).id), t.req.body.rotate.value.kind, ref);
    case Ready(write, _, _) => if write.SetConnector? { OriginKept(env, seed, w, x, h, j, write.connector); }
    case _ =>
  }

  // A PUT that its check rejects takes nothing from its body.
  lemma RejectedPutImportsNothing(c: Config, cmd: Command, who: Caller, r: Request)
    requires cmd.PutConnector? && DecidePutConnector(c, cmd.tid, cmd.id, who, r).Reject?
    ensures ImportsFor(c, cmd, r) == {}
  {
  }

  // ---- Steps keep it ----

  lemma AdvanceAdmittedGood(env: Env, seed: Config, p: Plane, h: History, t: Thread)
    requires StoreGood(env, seed, p.writer, h, p.store.config)
    requires t.pc.Admitted? && ThreadGood(env, seed, p.writer, h, t)
    ensures var (q, pc) := Advance(env, p, t.req, t.pc); var j := Extended(env, h, p, t);
      q.store == p.store && Grows(p.writer, q.writer) && ThreadGood(env, seed, q.writer, j, Thread(t.req, pc))
  {
    var cmd, who, j := CommandOf(t.req), t.pc.who, Extended(env, h, p, t);
    if cmd.RotateSecret? {
      MintGood(env, p.writer, j, cmd, t.req);
    } else if cmd.Mutates() {
      StoreGoodKept(env, seed, p.writer, p.writer, h, j, p.store.config);
      SettleGood(env, seed, p, j, who, t.req, NO_REF);
    }
  }

  lemma AdvanceGood(env: Env, seed: Config, p: Plane, h: History, t: Thread)
    requires StoreGood(env, seed, p.writer, h, p.store.config) && ThreadGood(env, seed, p.writer, h, t)
    ensures var (q, pc) := Advance(env, p, t.req, t.pc); var j := Extended(env, h, p, t);
      && Grows(p.writer, q.writer) && Extends(h, j)
      && StoreGood(env, seed, q.writer, j, q.store.config)
      && ThreadGood(env, seed, q.writer, j, Thread(t.req, pc))
  {
    var (q, pc) := Advance(env, p, t.req, t.pc);
    match t.pc
    case Admitted(_) =>
      AdvanceAdmittedGood(env, seed, p, h, t);
      StoreGoodKept(env, seed, p.writer, q.writer, h, Extended(env, h, p, t), p.store.config);
    case HasVersion(who, ref) => SettleGood(env, seed, p, h, who, t.req, ref);
    case Ready(write, _, _) =>
      if Apply(p.store.config, write).Some? { ApplyGood(env, seed, p.writer, h, p.store.config, write); }
    case _ =>
  }

  lemma {:induction false} WroteUpdate(ts: seq<Thread>, i: nat, t: Thread)
    requires i < |ts|
    ensures WroteCount(ts[i := t]) + (if ts[i].pc.Wrote? then 1 else 0) == WroteCount(ts) + if t.pc.Wrote? then 1 else 0
    decreases |ts|
  {
    var n := |ts| - 1;
    if i == n {
      assert ts[i := t][..n] == ts[..n];
    } else {
      WroteUpdate(ts[..n], i, t);
      assert ts[i := t][..n] == ts[..n][i := t];
    }
  }

  lemma {:induction false} PendingUpdate(ts: seq<Thread>, i: nat, t: Thread, e: AuditEntry)
    requires i < |ts|
    ensures PendingCount(ts[i := t], e) + (if Carries(ts[i], e) then 1 else 0) ==
      PendingCount(ts, e) + if Carries(t, e) then 1 else 0
    decreases |ts|
  {
    var n := |ts| - 1;
    if i == n {
      assert ts[i := t][..n] == ts[..n];
    } else {
      PendingUpdate(ts[..n], i, t, e);
      assert ts[i := t][..n] == ts[..n][i := t];
    }
  }

  // A thread that moves past a write commits its entry; one that moves past Wrote records it; any other does neither.
  lemma LogMoves(seed: seq<AuditEntry>, log: seq<AuditEntry>, ts: seq<Thread>, committed: seq<AuditEntry>, i: nat,
      u: Thread)
    requires i < |ts| && LogGood(seed, log, ts, committed)
    requires ts[i].pc.Wrote? ==> u.pc.Done?
    ensures LogGood(seed, if ts[i].pc.Wrote? then log + [ts[i].pc.entry] else log, ts[i := u],
                    if u.pc.Wrote? then committed + [u.pc.entry] else committed)
  {
    if ts[i].pc.Wrote? { SinceGrows(seed, log, log + [ts[i].pc.entry]); }
    WroteUpdate(ts, i, u);
    forall e ensures PendingCount(ts[i := u], e) + (if Carries(ts[i], e) then 1 else 0) ==
      PendingCount(ts, e) + if Carries(u, e) then 1 else 0 {
      PendingUpdate(ts, i, u, e);
    }
  }

  lemma AdvanceLogs(env: Env, p: Plane, r: Request, pc: Pc)
    ensures var (q, next) := Advance(env, p, r, pc);
      && q.store.audit == p.store.audit + (if pc.Wrote? then [pc.entry] else [])
      && (pc.Wrote? ==> next.Done?)
      && (next.Wrote? ==> pc.Ready? && next.entry == pc.entry)
  {
  }

  lemma StepLogGood(env: Env, seed: State, s: System, i: nat)
    requires i < |s.threads| && LogGood(seed.audit, s.plane.store.audit, s.threads, s.committed)
    ensures var x := StepThread(env, s, i); LogGood(seed.audit, x.plane.store.audit, x.threads, x.committed)
  {
    var t := s.threads[i];
    var (p, pc) := Advance(env, s.plane, t.req, t.pc);
    var u := Thread(t.req, pc);
    AdvanceLogs(env, s.plane, t.req, t.pc);
    LogMoves(seed.audit, s.plane.store.audit, s.threads, s.committed, i, u);
    assert s.plane.store.audit + [] == s.plane.store.audit && s.committed + [] == s.committed;
  }

  lemma ActKeepsGood(env: Env, seed: State, s: System, a: Action)
    requires Good(env, seed, s)
    ensures Good(env, seed, Act(env, s, a))
  {
    match a
    case Spawn(r) =>
      var x := Act(env, s, a);
      assert x.threads[..|s.threads|] == s.threads;
    case Step(i) =>
      if i < |s.threads| {
        StepLogGood(env, seed, s, i);
        StepKeepsGood(env, seed, s, i);
      }
  }

  lemma StepKeepsGood(env: Env, seed: State, s: System, i: nat)
    requires i < |s.threads| && Good(env, seed, s)
    ensures var x := StepThread(env, s, i);
      && StoreGood(env, seed.config, x.plane.writer, x.history, x.plane.store.config)
      && (forall t <- x.threads :: ThreadGood(env, seed.config, x.plane.writer, x.history, t))
      && (forall e <- x.committed :: e.actorRole == OWNER)
  {
    var t, x := s.threads[i], StepThread(env, s, i);
    assert t in s.threads;
    AdvanceGood(env, seed.config, s.plane, s.history, t);
    forall u <- x.threads ensures ThreadGood(env, seed.config, x.plane.writer, x.history, u) {
      if u != x.threads[i] {
        assert u in s.threads;
        ThreadGoodKept(env, seed.config, s.plane.writer, x.plane.writer, s.history, x.history, u);
      }
    }
  }

  // From a valid seed, with any number of requests in flight and any interleaving of their steps.
  lemma {:induction false} AlwaysGood(env: Env, seed: Plane, acts: seq<Action>)
    requires WellFormed(seed.store.config)
    ensures Good(env, seed.store, Exec(env, Start(seed), acts))
  {
    if acts == [] {
      assert Since(seed.store.audit, seed.store.audit) == [];
    } else {
      AlwaysGood(env, seed, acts[..|acts| - 1]);
      ActKeepsGood(env, seed.store, Exec(env, Start(seed), acts[..|acts| - 1]), acts[|acts| - 1]);
    }
  }

  // ---- What it means ----

  // All documents stay valid and under their own keys.
  lemma InterleavedStaysWellFormed(env: Env, seed: Plane, acts: seq<Action>)
    requires WellFormed(seed.store.config)
    ensures WellFormed(Exec(env, Start(seed), acts).plane.store.config)
  {
    AlwaysGood(env, seed, acts);
  }

  lemma {:induction false} NonePending(ts: seq<Thread>, e: AuditEntry)
    ensures PendingCount(ts, e) <= WroteCount(ts)
  {
    if ts != [] { NonePending(ts[..|ts| - 1], e); }
  }

  // The committed writes are always as many as the entries recorded since the seed and the requests between
  // write and record. With no request in between, the log is the seed's and then a permutation of them, each by a
  // caller who was an owner when admitted.
  lemma WritesAreRecorded(env: Env, seed: Plane, acts: seq<Action>)
    requires WellFormed(seed.store.config)
    ensures var s := Exec(env, Start(seed), acts); var recorded := Since(seed.store.audit, s.plane.store.audit);
      && seed.store.audit <= s.plane.store.audit
      && |s.committed| == |recorded| + WroteCount(s.threads)
      && (WroteCount(s.threads) == 0 ==> multiset(recorded) == multiset(s.committed))
      && (forall e <- recorded :: e.actorRole == OWNER)
  {
    AlwaysGood(env, seed, acts);
    var s := Exec(env, Start(seed), acts);
    var recorded := Since(seed.store.audit, s.plane.store.audit);
    forall e ensures multiset(recorded)[e] <= multiset(s.committed)[e]
      ensures WroteCount(s.threads) == 0 ==> multiset(recorded)[e] == multiset(s.committed)[e]
    {
      NonePending(s.threads, e);
    }
    forall e <- recorded ensures e.actorRole == OWNER {
      assert multiset(recorded)[e] > 0;
      assert e in multiset(s.committed);
    }
  }

  // The configuration changes only in a step that commits a write.
  lemma ChangesAreCommitted(env: Env, s: System, a: Action)
    ensures var x := Act(env, s, a);
      x.plane.store.config != s.plane.store.config ==>
        |x.committed| == |s.committed| + 1 && x.committed[..|s.committed|] == s.committed
  {
  }

  // Every stored reference is the seed's, a body's from a PUT whose lookup missed, or a version that AddVersion
  // returned for the same slot, so at most its counter.
  lemma StoredRefsHaveOrigin(env: Env, seed: Plane, acts: seq<Action>, k: Key, kind: Kind)
    requires WellFormed(seed.store.config) && kind in KINDS &&
      k in Exec(env, Start(seed), acts).plane.store.config.conns
    ensures var s := Exec(env, Start(seed), acts);
      HasOrigin(env, seed.store.config, s.plane.writer, s.history, k, kind, RefOf(s.plane.store.config.conns[k], kind))
  {
    AlwaysGood(env, seed, acts);
    var c := Exec(env, Start(seed), acts).plane.store.config.conns[k];
    assert ConnKey(c) == k;
  }
}
