// When a connector stays at the latest version of its secret with requests in flight.
module InFlight {
  import opened Types
  import opened Store
  import opened Secrets
  import opened Routing
  import opened Service
  import opened Currency
  import opened Interleaving
  import opened Safety
  import opened Replay
  import opened CommitOrder

  // ---- The section between a request's read of a connector and its write ----

  // The thread has read connector k, or minted a version for it, and has not written it yet.
  predicate Inside(t: Thread, k: Key)
  {
    match t.pc
    case HasVersion(_, _) => CommandOf(t.req) == Command.RotateSecret(k.tenant, k.id)
    case Ready(write, _, _) => write.SetConnector? && ConnKey(write.connector) == k
    case _ => false
  }

  // The thread's next step may take it there: a PUT or a rotation of k that has passed the gate.
  predicate Enters(t: Thread, k: Key)
  {
    t.pc.Admitted? &&
    (CommandOf(t.req) == PutConnector(k.tenant, k.id) || CommandOf(t.req) == Command.RotateSecret(k.tenant, k.id))
  }

  ghost predicate NoneInside(s: System, k: Key) { forall t <- s.threads :: !Inside(t, k) }

  ghost predicate ExclusiveStep(s: System, a: Action, k: Key)
  {
    a.Step? && a.thread < |s.threads| && Enters(s.threads[a.thread], k) ==> NoneInside(s, k)
  }

  // No PUT or rotation of k enters while another is inside.
  ghost predicate Exclusive(env: Env, s: System, acts: seq<Action>, k: Key)
  {
    var n := |acts| - 1;
    acts != [] ==> Exclusive(env, s, acts[..n], k) && ExclusiveStep(Exec(env, s, acts[..n]), acts[n], k)
  }

  ghost predicate KnownPlatforms(s: System, acts: seq<Action>)
  {
    (forall t <- s.threads :: NamesKnownPlatform(t.req)) && (forall a <- acts :: a.Spawn? ==> NamesKnownPlatform(a.req))
  }

  // ---- Steps outside the section ----

  lemma WriteElsewhere(c: Config, w: Write, k: Key)
    requires Apply(c, w).Some? && k in c.conns && !(w.SetConnector? && ConnKey(w.connector) == k)
    ensures k in Apply(c, w).value.conns && Apply(c, w).value.conns[k] == c.conns[k]
  {
  }

  // Only the write step changes the configuration.
  lemma ConfigMoves(env: Env, p: Plane, r: Request, pc: Pc)
    ensures var (q, next) := Advance(env, p, r, pc);
      q.store.config == if pc.Ready? && Apply(p.store.config, pc.write).Some? then Apply(p.store.config, pc.write).value
                        else p.store.config
  {
  }

  lemma StaysOutside(env: Env, seed: Config, p: Plane, h: History, t: Thread, k: Key)
    requires WellFormed(p.store.config) && ThreadGood(env, seed, p.writer, h, t)
    requires !Inside(t, k) && !Enters(t, k)
    ensures !Inside(Thread(t.req, Advance(env, p, t.req, t.pc).1), k)
  {
    match t.pc
    case Admitted(who) => DecidesOutside(p.store.config, CommandOf(t.req), who, t.req, NO_REF, k);
    case HasVersion(who, ref) => DecidesOutside(p.store.config, CommandOf(t.req), who, t.req, ref, k);
    case _ =>
  }

  lemma StepOutside(env: Env, seed: Config, p: Plane, h: History, t: Thread, k: Key)
    requires WellFormed(p.store.config) && ThreadGood(env, seed, p.writer, h, t)
    requires !Inside(t, k) && !Enters(t, k) && k in p.store.config.conns
    ensures var (q, pc) := Advance(env, p, t.req, t.pc);
      !Inside(Thread(t.req, pc), k) && k in q.store.config.conns && q.store.config.conns[k] == p.store.config.conns[k]
  {
    StaysOutside(env, seed, p, h, t, k);
    ConfigMoves(env, p, t.req, t.pc);
    if t.pc.Ready? && Apply(p.store.config, t.pc.write).Some? { WriteElsewhere(p.store.config, t.pc.write, k); }
  }

  // A handler decides to write connector k only if its command is addressed to k.
  lemma DecidesOutside(c: Config, cmd: Command, who: Caller, r: Request, ref: SecretRef, k: Key)
    requires WellFormed(c)
    requires cmd != PutConnector(k.tenant, k.id) && cmd != Command.RotateSecret(k.tenant, k.id)
    ensures cmd.Mutates() ==>
      var d := Decide(c, cmd, who, r, ref); d.Proceed? && d.write.SetConnector? ==> ConnKey(d.write.connector) != k
  {
    if cmd.RotateSecret? && Key(cmd.tid, cmd.id) in c.conns {
      assert ConnKey(c.conns[Key(cmd.tid, cmd.id)]) == Key(cmd.tid, cmd.id);
    }
  }

  // The slot's counter moves only for a rotation of the slot itself.
  lemma CounterKept(env: Env, p: Plane, t: Thread, s: Slot)
    requires WellFormed(p.store.config) && s.kind in KINDS && s.key in p.store.config.conns && NamesKnownPlatform(t.req)
    requires t.pc.Admitted? && CommandOf(t.req) == Command.RotateSecret(s.key.tenant, s.key.id) ==>
      t.req.body.rotate.Some? ==> t.req.body.rotate.value.kind != s.kind
    ensures VersionOf(Advance(env, p, t.req, t.pc).0.writer, NameOf(env, s)) == VersionOf(p.writer, NameOf(env, s))
  {
    var cmd := CommandOf(t.req);
    if t.pc.Admitted? && cmd.RotateSecret? && Minted(env, cmd.tid, cmd.id, t.req).Ok? {
      assert ConnKey(p.store.config.conns[s.key]) == s.key;
      var kind := t.req.body.rotate.value.kind;
      if SecretNamer(env.projectId, cmd.tid, cmd.id, kind) == NameOf(env, s) {
        NamesInjectiveInProject(env.projectId, cmd.tid, cmd.id, kind, s.key.tenant, s.key.id, s.kind);
      }
    }
  }

  // ---- The invariant ----

  // What a thread inside carries: a rotation of the slot the latest version, any other write of the connector the
  // current reference. A rotation of the other secret has not read the connector yet, so the store must be current.
  ghost predicate CarriesCurrent(env: Env, p: Plane, s: Slot, t: Thread)
  {
    match t.pc
    case HasVersion(_, ref) =>
      var q := t.req.body.rotate;
      if q.Some? && q.value.kind == s.kind then ref == LatestRef(p.writer, NameOf(env, s))
      else Current(env, p, s)
    case Ready(write, _, _) =>
      write.SetConnector? ==> RefOf(write.connector, s.kind) == LatestRef(p.writer, NameOf(env, s))
    case _ => true
  }

  ghost predicate OneInside(ts: seq<Thread>, k: Key)
  {
    forall i, j :: 0 <= i < |ts| && 0 <= j < |ts| && Inside(ts[i], k) && Inside(ts[j], k) ==> i == j
  }

  // At most one thread is inside, and it will leave the slot current; with none inside, the slot is.
  ghost predicate InOrder(env: Env, s: System, slot: Slot)
  {
    && slot.key in s.plane.store.config.conns
    && OneInside(s.threads, slot.key)
    && (forall t <- s.threads :: Inside(t, slot.key) ==> CarriesCurrent(env, s.plane, slot, t))
    && (NoneInside(s, slot.key) ==> Current(env, s.plane, slot))
  }

  // ---- Steps keep it ----

  lemma InsideDecides(env: Env, seed: Config, p: Plane, h: History, t: Thread, s: Slot)
    requires WellFormed(p.store.config) && ThreadGood(env, seed, p.writer, h, t) && s.kind in KINDS
    requires t.pc.HasVersion? && Inside(t, s.key) && s.key in p.store.config.conns && CarriesCurrent(env, p, s, t)
    ensures var (q, pc) := Advance(env, p, t.req, t.pc);
      q == p && Inside(Thread(t.req, pc), s.key) && CarriesCurrent(env, p, s, Thread(t.req, pc))
  {
    assert ConnKey(p.store.config.conns[s.key]) == s.key;
  }

  lemma InsideWrites(env: Env, p: Plane, t: Thread, s: Slot)
    requires t.pc.Ready? && Inside(t, s.key) && CarriesCurrent(env, p, s, t)
    ensures var (q, pc) := Advance(env, p, t.req, t.pc);
      Current(env, q, s) && s.key in q.store.config.conns && !Inside(Thread(t.req, pc), s.key)
  {
  }

  lemma PutEnters(env: Env, p: Plane, t: Thread, s: Slot)
    requires t.pc.Admitted? && CommandOf(t.req) == PutConnector(s.key.tenant, s.key.id)
    requires Current(env, p, s) && s.kind in KINDS
    ensures var (q, pc) := Advance(env, p, t.req, t.pc);
      q == p && CarriesCurrent(env, p, s, Thread(t.req, pc))
  {
    var who := t.pc.who;
    if DecidePutConnector(p.store.config, s.key.tenant, s.key.id, who, t.req).Proceed? {
      PutRefs(p.store.config, s.key.tenant, s.key.id, who, t.req);
    }
  }

  lemma RotationEnters(env: Env, p: Plane, t: Thread, s: Slot)
    requires WellFormed(p.store.config) && s.key in p.store.config.conns && s.kind in KINDS && NamesKnownPlatform(t.req)
    requires t.pc.Admitted? && CommandOf(t.req) == Command.RotateSecret(s.key.tenant, s.key.id)
    ensures var (q, pc) := Advance(env, p, t.req, t.pc);
      && q.store == p.store && (pc.HasVersion? || (pc.Done? && q == p))
      && (Current(env, p, s) || (t.req.body.rotate.Some? && t.req.body.rotate.value.kind == s.kind) ==>
            CarriesCurrent(env, q, s, Thread(t.req, pc)))
  {
    var cmd := CommandOf(t.req);
    if t.req.body.rotate.Some? && t.req.body.rotate.value.kind != s.kind { CounterKept(env, p, t, s); }
  }

  // The thread that steps was the one inside, or there was none; afterwards it leaves the slot in order.
  lemma AloneKeepsOrder(env: Env, s: System, i: nat, slot: Slot)
    requires i < |s.threads| && forall j :: 0 <= j < |s.threads| && j != i ==> !Inside(s.threads[j], slot.key)
    requires var (q, pc) := Advance(env, s.plane, s.threads[i].req, s.threads[i].pc);
      var u := Thread(s.threads[i].req, pc);
      && slot.key in q.store.config.conns
      && (if Inside(u, slot.key) then CarriesCurrent(env, q, slot, u) else Current(env, q, slot))
    ensures InOrder(env, StepThread(env, s, i), slot)
  {
    var x := StepThread(env, s, i);
    if NoneInside(x, slot.key) { assert x.threads[i] in x.threads; }
  }

  // A step that neither was nor gets inside, and leaves the connector and the slot's counter alone.
  lemma OutsideKeepsOrder(env: Env, s: System, i: nat, slot: Slot)
    requires i < |s.threads| && InOrder(env, s, slot) && !Inside(s.threads[i], slot.key)
    requires var (q, pc) := Advance(env, s.plane, s.threads[i].req, s.threads[i].pc); var c := s.plane.store.config;
      && !Inside(Thread(s.threads[i].req, pc), slot.key)
      && slot.key in q.store.config.conns && q.store.config.conns[slot.key] == c.conns[slot.key]
      && VersionOf(q.writer, NameOf(env, slot)) == VersionOf(s.plane.writer, NameOf(env, slot))
    ensures InOrder(env, StepThread(env, s, i), slot)
  {
    var x := StepThread(env, s, i);
    if NoneInside(x, slot.key) {
      forall t <- s.threads ensures !Inside(t, slot.key) {
        var j :| 0 <= j < |s.threads| && s.threads[j] == t;
        if j != i { assert x.threads[j] == t; }
      }
    }
    forall t <- x.threads | Inside(t, slot.key) ensures CarriesCurrent(env, x.plane, slot, t) {
      var j :| 0 <= j < |x.threads| && x.threads[j] == t;
      assert j != i && s.threads[j] == t && t in s.threads;
    }
  }

  lemma StepKeepsOrder(env: Env, seed: State, s: System, i: nat, slot: Slot)
    requires i < |s.threads| && Good(env, seed, s) && InOrder(env, s, slot) && slot.kind in KINDS
    requires ExclusiveStep(s, Step(i), slot.key) && NamesKnownPlatform(s.threads[i].req)
    ensures InOrder(env, StepThread(env, s, i), slot)
  {
    var t, k := s.threads[i], slot.key;
    assert t in s.threads;
    if Inside(t, k) {
      if t.pc.HasVersion? {
        InsideDecides(env, seed.config, s.plane, s.history, t, slot);
      } else {
        InsideWrites(env, s.plane, t, slot);
      }
      AloneKeepsOrder(env, s, i, slot);
    } else if Enters(t, k) {
      assert Current(env, s.plane, slot);
      if CommandOf(t.req).PutConnector? {
        PutEnters(env, s.plane, t, slot);
      } else {
        RotationEnters(env, s.plane, t, slot);
      }
      AloneKeepsOrder(env, s, i, slot);
    } else {
      StepOutside(env, seed.config, s.plane, s.history, t, k);
      CounterKept(env, s.plane, t, slot);
      OutsideKeepsOrder(env, s, i, slot);
    }
  }

  lemma SpawnKeepsOrder(env: Env, s: System, r: Request, slot: Slot)
    requires InOrder(env, s, slot)
    ensures InOrder(env, Act(env, s, Spawn(r)), slot)
  {
    var x := Act(env, s, Spawn(r));
    if NoneInside(x, slot.key) {
      forall t <- s.threads ensures !Inside(t, slot.key) { assert t in x.threads; }
    }
  }

  lemma KnownPlatformsStep(env: Env, s: System, acts: seq<Action>)
    requires acts != [] && KnownPlatforms(s, acts)
    ensures KnownPlatforms(s, acts[..|acts| - 1])
  {
  }

  lemma {:induction false} KnownThreads(env: Env, s: System, acts: seq<Action>)
    requires KnownPlatforms(s, acts)
    ensures forall t <- Exec(env, s, acts).threads :: NamesKnownPlatform(t.req)
  {
    if acts != [] {
      var n := |acts| - 1;
      KnownPlatformsStep(env, s, acts);
      KnownThreads(env, s, acts[..n]);
      assert acts[n] in acts;
    }
  }

  lemma {:induction false} OrderKept(env: Env, seed: State, s: System, acts: seq<Action>, slot: Slot)
    requires Good(env, seed, s) && InOrder(env, s, slot) && slot.kind in KINDS
    requires KnownPlatforms(s, acts) && Exclusive(env, s, acts, slot.key)
    ensures Good(env, seed, Exec(env, s, acts)) && InOrder(env, Exec(env, s, acts), slot)
  {
    if acts != [] {
      var n := |acts| - 1;
      KnownPlatformsStep(env, s, acts);
      OrderKept(env, seed, s, acts[..n], slot);
      KnownThreads(env, s, acts[..n]);
      var x := Exec(env, s, acts[..n]);
      ActKeepsGood(env, seed, x, acts[n]);
      match acts[n]
      case Spawn(r) => SpawnKeepsOrder(env, x, r, slot);
      case Step(i) => if i < |x.threads| { StepKeepsOrder(env, seed, x, i, slot); }
    }
  }

  // ---- What it means ----

  // From any reachable state in which a slot is current and no request is inside: as long as rotations name known
  // platforms and no PUT or rotation of the connector enters while another is inside, the slot is current whenever
  // none is inside.
  lemma StaysCurrentInFlight(env: Env, seed: Plane, before: seq<Action>, acts: seq<Action>, slot: Slot)
    requires WellFormed(seed.store.config) && slot.kind in KINDS
    requires var s := Exec(env, Start(seed), before);
      && Current(env, s.plane, slot) && NoneInside(s, slot.key)
      && KnownPlatforms(s, acts) && Exclusive(env, s, acts, slot.key)
    ensures var x := Exec(env, Exec(env, Start(seed), before), acts);
      NoneInside(x, slot.key) ==> Current(env, x.plane, slot)
  {
    AlwaysGood(env, seed, before);
    OrderKept(env, seed.store, Exec(env, Start(seed), before), acts, slot);
  }

  // Thread i is about to mint a version for the slot.
  ghost predicate Mints(env: Env, s: System, i: nat, slot: Slot)
  {
    && i < |s.threads| && s.threads[i].pc.Admitted?
    && CommandOf(s.threads[i].req) == Command.RotateSecret(slot.key.tenant, slot.key.id)
    && Minted(env, slot.key.tenant, slot.key.id, s.threads[i].req).Ok?
    && s.threads[i].req.body.rotate.value.kind == slot.kind
  }

  lemma MintingBringsOrder(env: Env, s: System, i: nat, slot: Slot)
    requires WellFormed(s.plane.store.config) && slot.kind in KINDS && Mints(env, s, i, slot)
    requires NamesKnownPlatform(s.threads[i].req)
    requires slot.key in s.plane.store.config.conns && NoneInside(s, slot.key)
    ensures InOrder(env, StepThread(env, s, i), slot)
  {
    var t := s.threads[i];
    RotationEnters(env, s.plane, t, slot);
    assert Inside(Thread(t.req, Advance(env, s.plane, t.req, t.pc).1), slot.key);
    AloneKeepsOrder(env, s, i, slot);
  }

  lemma MintedStaysInOrder(env: Env, seed: State, s: System, i: nat, acts: seq<Action>, slot: Slot)
    requires Good(env, seed, s) && slot.kind in KINDS && Mints(env, s, i, slot)
    requires slot.key in s.plane.store.config.conns && NoneInside(s, slot.key)
    requires KnownPlatforms(s, [Step(i)] + acts) && Exclusive(env, StepThread(env, s, i), acts, slot.key)
    ensures InOrder(env, Exec(env, StepThread(env, s, i), acts), slot)
  {
    MintingBringsOrder(env, s, i, slot);
    ActKeepsGood(env, seed, s, Step(i));
    KnownAfterStep(env, s, i, acts);
    OrderKept(env, seed, StepThread(env, s, i), acts, slot);
  }

  // Whatever the slot was before: once a rotation of it has minted its version with no other request inside, the slot
  // is current whenever none is inside, under the same conditions.
  lemma RotationMakesCurrentInFlight(env: Env, seed: Plane, before: seq<Action>, i: nat, acts: seq<Action>, slot: Slot)
    requires WellFormed(seed.store.config) && slot.kind in KINDS
    requires var s := Exec(env, Start(seed), before);
      && slot.key in s.plane.store.config.conns && NoneInside(s, slot.key) && Mints(env, s, i, slot)
      && KnownPlatforms(s, [Step(i)] + acts) && Exclusive(env, StepThread(env, s, i), acts, slot.key)
    ensures var x := Exec(env, StepThread(env, Exec(env, Start(seed), before), i), acts);
      NoneInside(x, slot.key) ==> Current(env, x.plane, slot)
  {
    AlwaysGood(env, seed, before);
    MintedStaysInOrder(env, seed.store, Exec(env, Start(seed), before), i, acts, slot);
  }

  lemma KnownAfterStep(env: Env, s: System, i: nat, acts: seq<Action>)
    requires i < |s.threads| && KnownPlatforms(s, [Step(i)] + acts)
    ensures KnownPlatforms(StepThread(env, s, i), acts)
  {
    forall a <- acts ensures a.Spawn? ==> NamesKnownPlatform(a.req) { assert a in [Step(i)] + acts; }
  }

  // ---- The same condition keeps rotations fresh ----

  ghost predicate AllFresh(env: Env, c: Config, ts: seq<Thread>)
  {
    forall t <- ts :: IsRotation(t.pc) ==> Fresh(env.projectId, c, t.pc.entry, t.pc.write.connector)
  }

  lemma OneInsideKept(env: Env, seed: State, s: System, i: nat, k: Key)
    requires i < |s.threads| && Good(env, seed, s) && OneInside(s.threads, k) && ExclusiveStep(s, Step(i), k)
    ensures OneInside(StepThread(env, s, i).threads, k)
  {
    var t := s.threads[i];
    assert t in s.threads;
    if !Inside(t, k) && !Enters(t, k) { StaysOutside(env, seed.config, s.plane, s.history, t, k); }
  }

  // A rotation is fresh when it has just read the connector.
  lemma DecidedIsFresh(env: Env, seed: Config, p: Plane, h: History, t: Thread)
    requires WellFormed(p.store.config) && ThreadGood(env, seed, p.writer, h, t)
    ensures var pc := Advance(env, p, t.req, t.pc).1;
      IsRotation(pc) ==> Fresh(env.projectId, p.store.config, pc.entry, pc.write.connector)
  {
    var c, cmd := p.store.config, CommandOf(t.req);
    if t.pc.HasVersion? || (t.pc.Admitted? && cmd.Mutates() && !cmd.RotateSecret?) {
      var ref := if t.pc.HasVersion? then t.pc.ref else NO_REF;
      if Decide(c, cmd, t.pc.who, t.req, ref).Proceed? { DecisionDescribes(env, c, cmd, t.pc.who, t.req, ref); }
    }
  }

  // It stays so while another connector is written.
  lemma FreshElsewhere(projectId: string, c: Config, w: Write, e: AuditEntry, d: ConnectorConfig)
    requires e.after.OfRotation? && Fresh(projectId, c, e, d) && Apply(c, w).Some?
    requires !(w.SetConnector? && ConnKey(w.connector) == ConnKey(d))
    ensures Fresh(projectId, Apply(c, w).value, e, d)
  {
    WriteElsewhere(c, w, ConnKey(d));
  }

  lemma OtherStaysFresh(env: Env, s: System, i: nat, j: nat)
    requires i < |s.threads| && j < |s.threads| && i != j && AllFresh(env, s.plane.store.config, s.threads)
    requires IsRotation(s.threads[j].pc) && OneInside(s.threads, ConnKey(s.threads[j].pc.write.connector))
    ensures var pc := s.threads[j].pc;
      Fresh(env.projectId, StepThread(env, s, i).plane.store.config, pc.entry, pc.write.connector)
  {
    var t, u, c := s.threads[i], s.threads[j], s.plane.store.config;
    assert u in s.threads && Inside(u, ConnKey(u.pc.write.connector));
    ConfigMoves(env, s.plane, t.req, t.pc);
    if t.pc.Ready? && Apply(c, t.pc.write).Some? {
      FreshElsewhere(env.projectId, c, t.pc.write, u.pc.entry, u.pc.write.connector);
    }
  }

  lemma StepKeepsFresh(env: Env, seed: State, s: System, i: nat)
    requires i < |s.threads| && Good(env, seed, s) && AllFresh(env, s.plane.store.config, s.threads)
    requires forall k :: OneInside(s.threads, k)
    ensures var x := StepThread(env, s, i); AllFresh(env, x.plane.store.config, x.threads)
  {
    var t, x := s.threads[i], StepThread(env, s, i);
    assert t in s.threads;
    DecidedIsFresh(env, seed.config, s.plane, s.history, t);
    ConfigMoves(env, s.plane, t.req, t.pc);
    forall u <- x.threads | IsRotation(u.pc)
      ensures Fresh(env.projectId, x.plane.store.config, u.pc.entry, u.pc.write.connector)
    {
      var j :| 0 <= j < |x.threads| && x.threads[j] == u;
      if j != i { OtherStaysFresh(env, s, i, j); }
    }
  }

  lemma {:induction false} ExclusiveKeepsFresh(env: Env, seed: Plane, acts: seq<Action>)
    requires WellFormed(seed.store.config) && forall k :: Exclusive(env, Start(seed), acts, k)
    ensures var s := Exec(env, Start(seed), acts);
      RotationsFresh(env, Start(seed), acts) && AllFresh(env, s.plane.store.config, s.threads) &&
        forall k :: OneInside(s.threads, k)
  {
    if acts != [] {
      var n := |acts| - 1;
      forall k ensures Exclusive(env, Start(seed), acts[..n], k) { assert Exclusive(env, Start(seed), acts, k); }
      ExclusiveKeepsFresh(env, seed, acts[..n]);
      AlwaysGood(env, seed, acts[..n]);
      var s := Exec(env, Start(seed), acts[..n]);
      forall k ensures ExclusiveStep(s, acts[n], k) { assert Exclusive(env, Start(seed), acts, k); }
      ActKeepsFresh(env, seed.store, s, acts[n]);
    }
  }

  lemma ActKeepsFresh(env: Env, seed: State, s: System, a: Action)
    requires Good(env, seed, s) && AllFresh(env, s.plane.store.config, s.threads)
    requires forall k :: OneInside(s.threads, k) && ExclusiveStep(s, a, k)
    ensures FreshStep(env, s, a)
    ensures var x := Act(env, s, a);
      AllFresh(env, x.plane.store.config, x.threads) && forall k :: OneInside(x.threads, k)
  {
    match a
    case Spawn(_) =>
      forall k ensures OneInside(Act(env, s, a).threads, k) { assert OneInside(s.threads, k); }
    case Step(i) =>
      if i < |s.threads| {
        assert s.threads[i] in s.threads;
        StepKeepsFresh(env, seed, s, i);
        forall k ensures OneInside(StepThread(env, s, i).threads, k) {
          assert OneInside(s.threads, k) && ExclusiveStep(s, a, k);
          OneInsideKept(env, seed, s, i, k);
        }
      }
  }

  // When no PUT or rotation of any connector enters while another of the same connector is inside, the entries in the
  // order of their writes rebuild the store in every state; and recorded in their turn, the log does.
  lemma ExclusiveRebuildsStore(env: Env, seed: Plane, acts: seq<Action>)
    requires WellFormed(seed.store.config) && forall k :: Exclusive(env, Start(seed), acts, k)
    ensures AlwaysRebuilds(env, seed, acts)
    ensures var s := Exec(env, Start(seed), acts);
      RecordsInOrder(env, seed, acts) && WroteCount(s.threads) == 0 ==>
        ReplayLog(env.projectId, ShownConfig(seed.store.config), Since(seed.store.audit, s.plane.store.audit))
        == ShownConfig(s.plane.store.config)
  {
    ExclusiveKeepsFresh(env, seed, acts);
    CommitOrderRebuildsIff(env, seed, acts);
    if RecordsInOrder(env, seed, acts) && WroteCount(Exec(env, Start(seed), acts).threads) == 0 {
      LogRebuildsStoreInFlight(env, seed, acts);
    }
  }
}
