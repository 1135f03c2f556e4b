// Tenants do not interfere with requests in flight together: what one tenant holds does not depend on the threads
// of the others, whatever their interleaving.
module Separation {
  import opened Types
  import opened Validate
  import opened Store
  import opened Secrets
  import opened Routing
  import opened Service
  import opened Currency
  import opened Isolation
  import opened Interleaving
  import opened Safety

  // ---- The execution without the threads of other tenants ----

  function Thin<T>(ts: seq<T>, keep: T -> bool): seq<T>
  {
    if ts == [] then []
    else
      var n := |ts| - 1;
      Thin(ts[..n], keep) + if keep(ts[n]) then [ts[n]] else []
  }

  // Changing a kept element changes it in its place among the kept ones; changing another one changes nothing.
  lemma {:induction false} ThinUpdate<T>(ts: seq<T>, i: nat, u: T, keep: T -> bool)
    requires i < |ts| && keep(u) == keep(ts[i])
    ensures var rank := |Thin(ts[..i], keep)|; var thin := Thin(ts, keep);
      if keep(u) then rank < |thin| && thin[rank] == ts[i] && Thin(ts[i := u], keep) == thin[rank := u]
      else Thin(ts[i := u], keep) == thin
    decreases |ts|
  {
    var n := |ts| - 1;
    if i == n {
      assert ts[i := u][..n] == ts[..n];
    } else {
      ThinUpdate(ts[..n], i, u, keep);
      assert ts[..n][..i] == ts[..i] && ts[i := u][..n] == ts[..n][i := u];
    }
  }

  function Keeps(b: string): Thread -> bool { (t: Thread) => Kept(t.req, b) }

  // The threads of b and of the admins.
  function Thinned(ts: seq<Thread>, b: string): seq<Thread> { Thin(ts, Keeps(b)) }

  // The number thread i has among them.
  function Rank(ts: seq<Thread>, i: nat, b: string): nat
    requires i <= |ts|
  {
    |Thinned(ts[..i], b)|
  }

  function ThinAction(ts: seq<Thread>, a: Action, b: string): seq<Action>
  {
    match a
    case Spawn(r) => if Kept(r, b) then [a] else []
    case Step(i) => if i < |ts| && Kept(ts[i].req, b) then [Step(Rank(ts, i, b))] else []
  }

  // Their arrivals and steps alone, in the same order.
  ghost function ThinActions(env: Env, s: System, acts: seq<Action>, b: string): seq<Action>
  {
    if acts == [] then []
    else
      var before := acts[..|acts| - 1];
      ThinActions(env, s, before, b) + ThinAction(Exec(env, s, before).threads, acts[|acts| - 1], b)
  }

  lemma ThinnedUpdate(ts: seq<Thread>, i: nat, u: Thread, b: string)
    requires i < |ts| && u.req == ts[i].req
    ensures var rank := Rank(ts, i, b); var thin := Thinned(ts, b);
      if Kept(u.req, b) then rank < |thin| && thin[rank] == ts[i] && Thinned(ts[i := u], b) == thin[rank := u]
      else Thinned(ts[i := u], b) == thin
  {
    ThinUpdate(ts, i, u, Keeps(b));
  }

  // ---- Agreement ----

  // Two program counters of one request agree: they are equal, or the request rotates at an unknown platform and is
  // about to be answered 404, or it was a global read that may show other tenants.
  ghost predicate SamePc(r: Request, p: Pc, q: Pc, b: string)
  {
    || p == q
    || (p.HasVersion? && q.HasVersion? && p.who == q.who && CommandOf(r).RotateSecret? &&
      !KnownPlatform(CommandOf(r).id))
    || (p.Done? && q.Done? && !Answered(r, b))
  }

  ghost predicate SameThreads(ts: seq<Thread>, us: seq<Thread>, b: string)
  {
    |ts| == |us| && forall i :: 0 <= i < |ts| ==> ts[i].req == us[i].req && SamePc(ts[i].req, ts[i].pc, us[i].pc, b)
  }

  ghost predicate Agree(env: Env, s: System, x: System, b: string)
  {
    SameView(env, s.plane, x.plane, b) && SameThreads(Thinned(s.threads, b), x.threads, b)
  }

  // A thread writes and records only for the tenant its request is addressed to.
  ghost predicate OnTarget(t: Thread)
  {
    match t.pc
    case Ready(write, entry, _) =>
      Owner(write) == Target(t.req) && (Target(t.req).Some? ==> entry.tenantId == Target(t.req).value)
    case Wrote(entry, _) => Target(t.req).Some? ==> entry.tenantId == Target(t.req).value
    case _ => true
  }

  lemma AdvanceOnTarget(env: Env, seed: Config, p: Plane, h: History, t: Thread)
    requires WellFormed(p.store.config) && ThreadGood(env, seed, p.writer, h, t) && OnTarget(t)
    ensures OnTarget(Thread(t.req, Advance(env, p, t.req, t.pc).1))
  {
    var c, cmd := p.store.config, CommandOf(t.req);
    if t.pc.HasVersion? || (t.pc.Admitted? && cmd.Mutates() && !cmd.RotateSecret?) {
      var ref := if t.pc.HasVersion? then t.pc.ref else NO_REF;
      if Decide(c, cmd, t.pc.who, t.req, ref).Proceed? {
        WellFormedFiles(c, cmd);
        DecisionWritesForTarget(c, cmd, t.pc.who, t.req, ref);
        if Target(t.req).Some? { DecisionRecordsForTarget(c, cmd, t.pc.who, t.req, ref); }
      }
    }
  }

  lemma {:induction false} AlwaysOnTarget(env: Env, seed: Plane, acts: seq<Action>)
    requires WellFormed(seed.store.config)
    ensures forall t <- Exec(env, Start(seed), acts).threads :: OnTarget(t)
  {
    if acts != [] {
      var n := |acts| - 1;
      AlwaysOnTarget(env, seed, acts[..n]);
      AlwaysGood(env, seed, acts[..n]);
      ActOnTarget(env, seed.store, Exec(env, Start(seed), acts[..n]), acts[n]);
    }
  }

  lemma ActOnTarget(env: Env, seed: State, s: System, a: Action)
    requires Good(env, seed, s) && forall t <- s.threads :: OnTarget(t)
    ensures forall t <- Act(env, s, a).threads :: OnTarget(t)
  {
    if a.Step? && a.thread < |s.threads| {
      var t, x := s.threads[a.thread], Act(env, s, a);
      assert t in s.threads;
      AdvanceOnTarget(env, seed.config, s.plane, s.history, t);
      forall u <- x.threads ensures OnTarget(u) {
        if u != x.threads[a.thread] { assert u in s.threads; }
      }
    }
  }

  // ---- A step of another tenant ----

  lemma MintCounter(env: Env, w: Writer, cmd: Command, r: Request, name: string)
    requires cmd.RotateSecret?
    ensures VersionOf(Mint(env, w, cmd, r).0, name) ==
            VersionOf(w, name) + if Minted(env, cmd.tid, cmd.id, r) == Ok(name) then 1 else 0
  {
  }

  lemma OtherMint(env: Env, w: Writer, cmd: Command, r: Request, b: string)
    requires cmd.RotateSecret? && cmd.tid != b && KnownPlatform(cmd.id)
    ensures SameCounters(env, w, Mint(env, w, cmd, r).0, b)
  {
    forall f, k | KnownPlatform(f) && k in KINDS
      ensures VersionOf(w, SecretNamer(env.projectId, b, f, k)) ==
              VersionOf(Mint(env, w, cmd, r).0, SecretNamer(env.projectId, b, f, k))
    {
      MintCounter(env, w, cmd, r, SecretNamer(env.projectId, b, f, k));
      if Minted(env, cmd.tid, cmd.id, r) == Ok(SecretNamer(env.projectId, b, f, k)) {
        NamesInjectiveInProject(env.projectId, b, f, k, cmd.tid, cmd.id, r.body.rotate.value.kind);
      }
    }
  }

  lemma OtherStepUnseen(env: Env, p: Plane, t: Thread, b: string)
    requires b != "" && !Kept(t.req, b) && NamesKnownPlatform(t.req) && OnTarget(t)
    ensures SameView(env, p, Advance(env, p, t.req, t.pc).0, b)
  {
    match t.pc
    case Admitted(_) => if CommandOf(t.req).RotateSecret? { OtherMint(env, p.writer, CommandOf(t.req), t.req, b); }
    case Ready(write, _, _) => if Apply(p.store.config, write).Some? { OtherWrite(p.store.config, write, b); }
    case Wrote(entry, _) => MatchingAppend(p.store.audit, entry, ForTenant(b));
    case _ =>
  }

  // ---- A step of b or of the admins ----

  lemma KeptMint(env: Env, w: Writer, x: Writer, cmd: Command, r: Request, b: string)
    requires SameCounters(env, w, x, b) && cmd.RotateSecret?
    ensures SameCounters(env, Mint(env, w, cmd, r).0, Mint(env, x, cmd, r).0, b)
  {
    forall f, k | KnownPlatform(f) && k in KINDS
      ensures VersionOf(Mint(env, w, cmd, r).0, SecretNamer(env.projectId, b, f, k)) ==
              VersionOf(Mint(env, x, cmd, r).0, SecretNamer(env.projectId, b, f, k))
    {
      MintCounter(env, w, cmd, r, SecretNamer(env.projectId, b, f, k));
      MintCounter(env, x, cmd, r, SecretNamer(env.projectId, b, f, k));
    }
  }

  lemma AdmittedAgrees(env: Env, p: Plane, q: Plane, r: Request, who: Caller, b: string)
    requires SameView(env, p, q, b) && Kept(r, b)
    ensures var (p', pc) := Advance(env, p, r, Admitted(who)); var (q', qc) := Advance(env, q, r, Admitted(who));
      SameView(env, p', q', b) && SamePc(r, pc, qc, b)
  {
    var cmd := CommandOf(r);
    if !cmd.Mutates() {
      if Target(r) == Some(b) { SameRead(p.store.config, q.store.config, cmd, r.query, r.body, b); }
    } else if cmd.RotateSecret? {
      SameMint(env, p.writer, q.writer, cmd, r, b);
      KeptMint(env, p.writer, q.writer, cmd, r, b);
    } else {
      SameDecision(p.store.config, q.store.config, cmd, who, r, NO_REF, b);
    }
  }

  lemma VersionAgrees(env: Env, seed: Config, p: Plane, q: Plane, h: History, t: Thread, pc: Pc, b: string)
    requires WellFormed(p.store.config) && WellFormed(q.store.config) && SameView(env, p, q, b) && Kept(t.req, b)
    requires t.pc.HasVersion? && ThreadGood(env, seed, p.writer, h, t) && SamePc(t.req, t.pc, pc, b)
    ensures Advance(env, p, t.req, t.pc) == (p, Advance(env, q, t.req, pc).1) && Advance(env, q, t.req, pc).0 == q
  {
    var cmd, who := CommandOf(t.req), t.pc.who;
    if KnownPlatform(cmd.id) {
      SameDecision(p.store.config, q.store.config, cmd, who, t.req, t.pc.ref, b);
    } else {
      UnknownPlatformRejected(p.store.config, cmd, who, t.req, t.pc.ref);
      UnknownPlatformRejected(q.store.config, cmd, who, t.req, pc.ref);
    }
  }

  lemma WriteAgrees(env: Env, p: Plane, q: Plane, t: Thread, b: string)
    requires SameView(env, p, q, b) && Kept(t.req, b) && t.pc.Ready? && OnTarget(t)
    ensures var (p', pc) := Advance(env, p, t.req, t.pc); var (q', qc) := Advance(env, q, t.req, t.pc);
      SameView(env, p', q', b) && pc == qc
  {
    SameWrite(p.store.config, q.store.config, t.pc.write, b);
  }

  lemma KeptStepAgrees(env: Env, seed: Config, p: Plane, q: Plane, h: History, t: Thread, pc: Pc, b: string)
    requires WellFormed(p.store.config) && WellFormed(q.store.config) && SameView(env, p, q, b) && Kept(t.req, b)
    requires ThreadGood(env, seed, p.writer, h, t) && OnTarget(t) && SamePc(t.req, t.pc, pc, b)
    ensures var (p', pc1) := Advance(env, p, t.req, t.pc); var (q', pc2) := Advance(env, q, t.req, pc);
      SameView(env, p', q', b) && SamePc(t.req, pc1, pc2, b)
  {
    match t.pc
    case Arrived => SameAuthentication(env, p, q, t.req, b);
    case Admitted(who) => AdmittedAgrees(env, p, q, t.req, who, b);
    case HasVersion(_, _) => VersionAgrees(env, seed, p, q, h, t, pc, b);
    case Ready(_, _, _) => WriteAgrees(env, p, q, t, b);
    case Wrote(entry, _) =>
      MatchingAppend(p.store.audit, entry, ForTenant(b));
      MatchingAppend(q.store.audit, entry, ForTenant(b));
    case Done(_) =>
  }

  // ---- Executions ----

  lemma SpawnAgrees(env: Env, s: System, x: System, r: Request, b: string)
    requires Agree(env, s, x, b)
    ensures Agree(env, Act(env, s, Spawn(r)), Follow(env, s, x, Spawn(r), b), b)
  {
    var ts := s.threads + [Thread(r, Arrived)];
    assert ts[..|s.threads|] == s.threads;
  }

  lemma SameThreadsUpdate(ts: seq<Thread>, us: seq<Thread>, i: nat, pc: Pc, qc: Pc, b: string)
    requires i < |ts| && SameThreads(ts, us, b) && SamePc(ts[i].req, pc, qc, b)
    ensures SameThreads(ts[i := Thread(ts[i].req, pc)], us[i := Thread(us[i].req, qc)], b)
  {
  }

  lemma KeptThreadAgrees(env: Env, seed: State, s: System, x: System, i: nat, b: string)
    requires i < |s.threads| && Good(env, seed, s) && Good(env, seed, x) && Agree(env, s, x, b)
    requires OnTarget(s.threads[i]) && Kept(s.threads[i].req, b)
    ensures Rank(s.threads, i, b) < |x.threads|
    ensures Agree(env, StepThread(env, s, i), StepThread(env, x, Rank(s.threads, i, b)), b)
  {
    var t, rank := s.threads[i], Rank(s.threads, i, b);
    assert t in s.threads;
    var pc := Advance(env, s.plane, t.req, t.pc).1;
    ThinnedUpdate(s.threads, i, Thread(t.req, pc), b);
    KeptStepAgrees(env, seed.config, s.plane, x.plane, s.history, t, x.threads[rank].pc, b);
    var qc := Advance(env, x.plane, t.req, x.threads[rank].pc).1;
    SameThreadsUpdate(Thinned(s.threads, b), x.threads, rank, pc, qc, b);
  }

  lemma OtherThreadAgrees(env: Env, s: System, x: System, i: nat, b: string)
    requires i < |s.threads| && b != "" && Agree(env, s, x, b)
    requires OnTarget(s.threads[i]) && !Kept(s.threads[i].req, b) && NamesKnownPlatform(s.threads[i].req)
    ensures Agree(env, StepThread(env, s, i), x, b)
  {
    var t := s.threads[i];
    ThinnedUpdate(s.threads, i, Thread(t.req, Advance(env, s.plane, t.req, t.pc).1), b);
    OtherStepUnseen(env, s.plane, t, b);
    SameViewThrough(env, s.plane, x.plane, StepThread(env, s, i).plane, b);
  }

  // What the thinned execution, at x, does for action a of the whole one, at s.
  ghost function Follow(env: Env, s: System, x: System, a: Action, b: string): System
  {
    match a
    case Spawn(r) => if Kept(r, b) then Act(env, x, a) else x
    case Step(i) => if i < |s.threads| && Kept(s.threads[i].req, b) then Act(env, x, Step(Rank(s.threads, i, b))) else x
  }

  lemma ThinnedExec(env: Env, start: System, acts: seq<Action>, b: string)
    requires acts != []
    ensures var before := acts[..|acts| - 1]; var x := Exec(env, start, ThinActions(env, start, before, b));
      Exec(env, start, ThinActions(env, start, acts, b)) ==
        Follow(env, Exec(env, start, before), x, acts[|acts| - 1], b)
  {
    var n := |acts| - 1;
    var front, thin := ThinActions(env, start, acts[..n], b),
      ThinAction(Exec(env, start, acts[..n]).threads, acts[n], b);
    if thin == [] {
      assert front + thin == front;
    } else {
      assert (front + thin)[..|front|] == front;
    }
  }

  // Every request spawned for another tenant names a known platform if it rotates.
  ghost predicate OthersNamePlatforms(acts: seq<Action>, b: string)
  {
    forall a <- acts :: a.Spawn? ==> Kept(a.req, b) || NamesKnownPlatform(a.req)
  }

  lemma {:induction false} OtherThreads(env: Env, seed: Plane, acts: seq<Action>, b: string)
    requires OthersNamePlatforms(acts, b)
    ensures forall t <- Exec(env, Start(seed), acts).threads :: Kept(t.req, b) || NamesKnownPlatform(t.req)
  {
    if acts != [] {
      var n := |acts| - 1;
      OtherThreads(env, seed, acts[..n], b);
      assert acts[n] in acts;
    }
  }

  // The states of an execution whose threads stay on target and name known platforms where they must.
  ghost predicate Tame(env: Env, seed: State, s: System, b: string)
  {
    Good(env, seed, s) && forall t <- s.threads :: OnTarget(t) && (Kept(t.req, b) || NamesKnownPlatform(t.req))
  }

  lemma AlwaysTame(env: Env, seed: Plane, acts: seq<Action>, b: string)
    requires WellFormed(seed.store.config) && OthersNamePlatforms(acts, b)
    ensures Tame(env, seed.store, Exec(env, Start(seed), acts), b)
  {
    AlwaysGood(env, seed, acts);
    AlwaysOnTarget(env, seed, acts);
    OtherThreads(env, seed, acts, b);
  }

  lemma StepAgrees(env: Env, seed: State, s: System, x: System, i: nat, b: string)
    requires i < |s.threads| && b != "" && Good(env, seed, s) && Good(env, seed, x) && Agree(env, s, x, b)
    requires OnTarget(s.threads[i]) && (Kept(s.threads[i].req, b) || NamesKnownPlatform(s.threads[i].req))
    ensures Agree(env, StepThread(env, s, i), Follow(env, s, x, Step(i), b), b)
  {
    if Kept(s.threads[i].req, b) {
      KeptThreadAgrees(env, seed, s, x, i, b);
    } else {
      OtherThreadAgrees(env, s, x, i, b);
    }
  }

  lemma TameStepAgrees(env: Env, seed: State, s: System, x: System, i: nat, b: string)
    requires b != "" && Tame(env, seed, s, b) && Good(env, seed, x) && Agree(env, s, x, b)
    ensures Agree(env, Act(env, s, Step(i)), Follow(env, s, x, Step(i), b), b)
  {
    if i < |s.threads| {
      assert s.threads[i] in s.threads;
      StepAgrees(env, seed, s, x, i, b);
    }
  }

  lemma ActAgrees(env: Env, seed: State, s: System, a: Action, x: System, b: string)
    requires b != "" && Tame(env, seed, s, b) && Good(env, seed, x) && Agree(env, s, x, b)
    ensures Agree(env, Act(env, s, a), Follow(env, s, x, a, b), b)
  {
    match a
    case Spawn(r) => SpawnAgrees(env, s, x, r, b);
    case Step(i) => TameStepAgrees(env, seed, s, x, i, b);
  }

  // Under any interleaving, dropping every thread addressed to other tenants leaves everything b can see unchanged,
  // and its own threads where they were. Rotations of other tenants must name known platforms.
  lemma {:induction false} TenantsDoNotInterfereInFlight(env: Env, seed: Plane, acts: seq<Action>, b: string)
    requires WellFormed(seed.store.config) && b != "" && OthersNamePlatforms(acts, b)
    ensures Agree(env, Exec(env, Start(seed), acts), Exec(env, Start(seed), ThinActions(env, Start(seed), acts, b)), b)
  {
    if acts != [] {
      var n := |acts| - 1;
      TenantsDoNotInterfereInFlight(env, seed, acts[..n], b);
      var front := ThinActions(env, Start(seed), acts[..n], b);
      AlwaysGood(env, seed, front);
      AlwaysTame(env, seed, acts[..n], b);
      ActAgrees(env, seed.store, Exec(env, Start(seed), acts[..n]), acts[n], Exec(env, Start(seed), front), b);
      ThinnedExec(env, Start(seed), acts, b);
    }
  }
}
