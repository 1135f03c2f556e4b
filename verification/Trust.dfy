// Every admin is there because an owner put them there, back to the seed.
module Trust {
  import opened Types
  import opened Validate
  import opened Store
  import opened Routing
  import opened Service
  import opened Runs
  import opened Interleaving

  // The step from p to q put the entry u for email: the log grew by one entry, which shows u and names as its
  // actor the admin u was added by, and that admin held the owner role in p.
  ghost predicate PutBy(p: State, q: State, email: string, u: AdminUser)
  {
    && email in q.config.admins && q.config.admins[email] == u
    && |q.audit| == |p.audit| + 1
    && IsPutEntry(q.audit[|p.audit|], email, u)
    && u.addedBy in p.config.admins && p.config.admins[u.addedBy].role == OWNER
  }

  predicate IsPutEntry(e: AuditEntry, email: string, u: AdminUser)
  {
    e.resource == AdminUserRes && e.verb == Put && e.resourceId == email && e.after == OfAdminUser(u) &&
      e.actor == u.addedBy
  }

  // What a committed decision does to one admin.
  lemma DecisionAdmins(c: Config, cmd: Command, who: Caller, r: Request, ref: SecretRef, email: string)
    requires cmd.Mutates()
    requires var d := Decide(c, cmd, who, r, ref); d.Proceed? && Apply(c, d.write).Some?
    ensures var d := Decide(c, cmd, who, r, ref); var c' := Apply(c, d.write).value;
      email in c'.admins ==>
        || (email in c.admins && c'.admins[email] == c.admins[email])
        || (IsPutEntry(d.entry, email, c'.admins[email]) && c'.admins[email].addedBy == who.email)
  {
  }

  lemma AdminStep(env: Env, p: Plane, r: Request, email: string)
    requires email in Next(env, p, r).store.config.admins
    ensures var u := Next(env, p, r).store.config.admins[email];
      (email in p.store.config.admins && p.store.config.admins[email] == u) ||
        PutBy(p.store, Next(env, p, r).store, email, u)
  {
    var c, cmd := p.store.config, Route(r.httpMethod, r.path);
    AllOrNothing(env, p, r);
    if Accepted(env, p, r) {
      var who := Authenticate(env, c, r).value;
      var (w, minted) := Mint(env, p.writer, cmd, r);
      var d := Decide(c, cmd, who, r, minted.value);
      DecisionShape(c, cmd, who, r, minted.value);
      CommitShape(p.(writer := w), d);
      DecisionAdmins(c, cmd, who, r, minted.value, email);
    }
  }

  // chain holds the numbers of the requests that vouch for email, latest first: the first of them put the entry
  // email has now, and the rest vouches, in the state just before, for the owner who did. The empty chain is a
  // seeded entry.
  ghost predicate TrustChain(env: Env, seed: Plane, rs: seq<Request>, email: string, chain: seq<nat>)
    decreases |chain|
  {
    var admins := Run(env, seed, rs).store.config.admins;
    && email in admins
    && if chain == [] then email in seed.store.config.admins && seed.store.config.admins[email] == admins[email]
       else
         && chain[0] < |rs|
         && PutBy(Run(env, seed, rs[..chain[0]]).store, Run(env, seed, rs[..chain[0] + 1]).store, email, admins[email])
         && TrustChain(env, seed, rs[..chain[0]], admins[email].addedBy, chain[1..])
  }

  // A chain goes on vouching for an entry that stays as it is.
  lemma ChainExtends(env: Env, seed: Plane, rs: seq<Request>, email: string, chain: seq<nat>)
    requires rs != [] && TrustChain(env, seed, rs[..|rs| - 1], email, chain)
    requires email in Run(env, seed, rs).store.config.admins
    requires Run(env, seed, rs).store.config.admins[email] == Run(env, seed, rs[..|rs| - 1]).store.config.admins[email]
    ensures TrustChain(env, seed, rs, email, chain)
  {
    if chain != [] {
      assert rs[..|rs| - 1][..chain[0]] == rs[..chain[0]];
      assert rs[..|rs| - 1][..chain[0] + 1] == rs[..chain[0] + 1];
    }
  }

  lemma ChainPrepend(env: Env, seed: Plane, rs: seq<Request>, email: string, u: AdminUser, chain: seq<nat>)
    requires rs != [] && chain != [] && chain[0] == |rs| - 1
    requires PutBy(Run(env, seed, rs[..chain[0]]).store, Run(env, seed, rs).store, email, u)
    requires TrustChain(env, seed, rs[..chain[0]], u.addedBy, chain[1..])
    ensures TrustChain(env, seed, rs, email, chain)
  {
    assert rs[..chain[0] + 1] == rs;
  }

  // Every admin of a reachable state has a chain of owner-made puts that leads back to a seeded admin.
  lemma {:induction false} ChainOfTrust(env: Env, seed: Plane, rs: seq<Request>, email: string)
    returns (chain: seq<nat>)
    requires email in Run(env, seed, rs).store.config.admins
    ensures TrustChain(env, seed, rs, email, chain)
    decreases |rs|
  {
    if rs == [] {
      chain := [];
    } else {
      var n := |rs| - 1;
      var p := Run(env, seed, rs[..n]);
      var u := Run(env, seed, rs).store.config.admins[email];
      AdminStep(env, p, rs[n], email);
      if PutBy(p.store, Run(env, seed, rs).store, email, u) {
        var rest := ChainOfTrust(env, seed, rs[..n], u.addedBy);
        chain := [n] + rest;
        assert chain[1..] == rest;
        ChainPrepend(env, seed, rs, email, u, chain);
      } else {
        chain := ChainOfTrust(env, seed, rs[..n], email);
        ChainExtends(env, seed, rs, email, chain);
      }
    }
  }

  // The numbers of a chain go down, so following it ends.
  lemma {:induction false} ChainDescends(env: Env, seed: Plane, rs: seq<Request>, email: string, chain: seq<nat>)
    requires TrustChain(env, seed, rs, email, chain)
    ensures forall i :: 0 <= i < |chain| ==> chain[i] < |rs|
    ensures forall i, j :: 0 <= i < j < |chain| ==> chain[j] < chain[i]
    decreases |chain|
  {
    if chain != [] {
      ChainDescends(env, seed, rs[..chain[0]], Run(env, seed, rs).store.config.admins[email].addedBy, chain[1..]);
      forall i | 1 <= i < |chain| ensures chain[i] < chain[0] { assert chain[i] == chain[1..][i - 1]; }
      forall i, j | 1 <= i < j < |chain| ensures chain[j] < chain[i] {
        assert chain[i] == chain[1..][i - 1] && chain[j] == chain[1..][j - 1];
      }
    }
  }

  // Read from the log alone: places are those of the entries that vouch for email, latest first. Each is a put of an
  // admin by an owner, who is put by the next, before it; the last owner, or email itself, is an admin of the seed.
  ghost predicate LogChain(seed: map<string, AdminUser>, log: seq<AuditEntry>, email: string, places: seq<nat>)
    decreases |places|
  {
    if places == [] then email in seed
    else
      && places[0] < |log|
      && var e := log[places[0]];
      && e.resource == AdminUserRes && e.verb == Put && e.resourceId == email && e.actorRole == OWNER
      && LogChain(seed, log[..places[0]], e.actor, places[1..])
  }

  lemma PutByLogs(env: Env, p: Plane, r: Request, email: string, u: AdminUser)
    requires PutBy(p.store, Next(env, p, r).store, email, u)
    ensures var before, log := p.store.audit, Next(env, p, r).store.audit;
      log[..|before|] == before && log[|before|].actorRole == OWNER
  {
    AllOrNothing(env, p, r);
  }

  lemma LinkIsLogged(env: Env, seed: Plane, rs: seq<Request>, email: string, u: AdminUser, n: nat)
    requires n < |rs| && PutBy(Run(env, seed, rs[..n]).store, Run(env, seed, rs[..n + 1]).store, email, u)
    ensures var before, log := Run(env, seed, rs[..n]).store.audit, Run(env, seed, rs).store.audit;
      && |before| < |log| && log[..|before|] == before
      && IsPutEntry(log[|before|], email, u) && log[|before|].actorRole == OWNER
  {
    var p := Run(env, seed, rs[..n]);
    LogKeepsPrefix(env, seed, rs, n + 1);
    assert rs[..n + 1][..n] == rs[..n];
    assert Run(env, seed, rs[..n + 1]) == Next(env, p, rs[n]);
    PutByLogs(env, p, rs[n], email, u);
  }

  // Following the final log backwards from any admin ends at the seed.
  lemma {:induction false} ChainIsLogged(env: Env, seed: Plane, rs: seq<Request>, email: string, chain: seq<nat>)
    returns (places: seq<nat>)
    requires TrustChain(env, seed, rs, email, chain)
    ensures |places| == |chain| && LogChain(seed.store.config.admins, Run(env, seed, rs).store.audit, email, places)
    decreases |chain|
  {
    if chain == [] {
      places := [];
    } else {
      var u := Run(env, seed, rs).store.config.admins[email];
      var rest := ChainIsLogged(env, seed, rs[..chain[0]], u.addedBy, chain[1..]);
      LinkIsLogged(env, seed, rs, email, u, chain[0]);
      places := [|Run(env, seed, rs[..chain[0]]).store.audit|] + rest;
      assert places[1..] == rest;
    }
  }

  ghost predicate NoOwner(p: Plane) { forall e <- p.store.config.admins :: p.store.config.admins[e].role != OWNER }

  // Once no owner is left, nothing changes any more: not the store, not the log, not the secret counters.
  lemma {:induction false} NoOwnerIsForever(env: Env, p: Plane, rs: seq<Request>)
    requires NoOwner(p)
    ensures Run(env, p, rs) == p
  {
    if rs != [] {
      NoOwnerIsForever(env, p, rs[..|rs| - 1]);
      AllOrNothing(env, p, rs[|rs| - 1]);
    }
  }

  // The last owner may remove themselves: deleting the only owner, by that owner, leaves none.
  lemma LastOwnerMayLeave(env: Env, p: Plane, r: Request, email: string)
    requires Identified(env, r) && Sender(env, r) == email && Route(r.httpMethod, r.path) == DeleteAdminUser(email)
    requires email in p.store.config.admins && p.store.config.admins[email].role == OWNER
    requires forall e <- p.store.config.admins :: e != email ==> p.store.config.admins[e].role != OWNER
    ensures Serve(env, p, r).1.status == 204 && NoOwner(Next(env, p, r))
  {
  }

  // ---- With requests in flight ----

  // The request has not passed the gate with a write, or is done.
  predicate Unarmed(t: Thread)
  {
    match t.pc
    case Arrived => true
    case Admitted(_) => !CommandOf(t.req).Mutates()
    case Done(_) => true
    case _ => false
  }

  ghost predicate Quiet(s: System) { NoOwner(s.plane) && forall t <- s.threads :: Unarmed(t) }

  lemma QuietStep(env: Env, s: System, i: nat)
    requires i < |s.threads| && Quiet(s)
    ensures StepThread(env, s, i).plane == s.plane && Quiet(StepThread(env, s, i))
  {
    assert s.threads[i] in s.threads;
    var (p, pc) := Advance(env, s.plane, s.threads[i].req, s.threads[i].pc);
    assert p == s.plane && Unarmed(Thread(s.threads[i].req, pc));
  }

  // With no owner left and no write past the gate, nothing changes under any interleaving from then on.
  lemma {:induction false} NoOwnerIsForeverInFlight(env: Env, s: System, acts: seq<Action>)
    requires Quiet(s)
    ensures Exec(env, s, acts).plane == s.plane && Quiet(Exec(env, s, acts))
  {
    if acts != [] {
      var n := |acts| - 1;
      NoOwnerIsForeverInFlight(env, s, acts[..n]);
      var x := Exec(env, s, acts[..n]);
      match acts[n]
      case Spawn(_) =>
      case Step(i) => if i < |x.threads| { QuietStep(env, x, i); }
    }
  }

  // Without owners alone it need not be so: a put of an owner admitted before the last one left brings one back.
  lemma AdmittedPutMakesOwner(env: Env, p: Plane, r: Request, who: Caller, email: string)
    requires CommandOf(r) == PutAdminUser(email) && r.body.adminUser.Some?
    requires r.body.adminUser.value.role == OWNER && ValidEmail(email)
    ensures !NoOwner(Iterate(env, p, r, Admitted(who), 2).0)
  {
    var (q, pc) := Advance(env, p, r, Admitted(who));
    assert q == p && pc.Ready? && pc.write.SetAdmin? && pc.write.user.email == email && pc.write.user.role == OWNER;
    var (x, done) := Advance(env, p, r, pc);
    assert Iterate(env, p, r, Admitted(who), 2).0 == Iterate(env, q, r, pc, 1).0 == x;
    assert x.store.config.admins[email].role == OWNER;
  }
}
