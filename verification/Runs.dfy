// What every sequential run keeps.
module Runs {
  import opened Types
  import opened Store
  import opened Secrets
  import opened Routing
  import opened Service

  // ---- Documents stay valid and under their own keys ----

  lemma DecisionIsGood(c: Config, cmd: Command, who: Caller, r: Request, ref: SecretRef)
    requires cmd.Mutates() && WellFormed(c)
    requires Decide(c, cmd, who, r, ref).Proceed?
    ensures GoodWrite(Decide(c, cmd, who, r, ref).write)
  {
  }

  lemma CommitKeepsWellFormed(p: Plane, d: Decision)
    requires WellFormed(p.store.config) && (d.Proceed? ==> GoodWrite(d.write))
    ensures WellFormed(Commit(p, d).0.store.config)
  {
    if d.Proceed? && Apply(p.store.config, d.write).Some? { ApplyKeepsWellFormed(p.store.config, d.write); }
  }

  lemma StepKeepsWellFormed(env: Env, p: Plane, r: Request)
    requires WellFormed(p.store.config)
    ensures WellFormed(Next(env, p, r).store.config)
  {
    var c, cmd := p.store.config, Route(r.httpMethod, r.path);
    if Authenticate(env, c, r).Ok? && cmd.Mutates() {
      var who := Authenticate(env, c, r).value;
      var (w, minted) := Mint(env, p.writer, cmd, r);
      if minted.Ok? {
        var d := Decide(c, cmd, who, r, minted.value);
        if d.Proceed? { DecisionIsGood(c, cmd, who, r, minted.value); }
        CommitKeepsWellFormed(p.(writer := w), d);
      }
    }
  }

  // From a valid seed every reachable store holds only checked documents, each under the key made of its
  // own fields, and every connector's webhook path is /v1/ and its platform.
  lemma {:induction false} RunKeepsWellFormed(env: Env, p: Plane, rs: seq<Request>)
    requires WellFormed(p.store.config)
    ensures WellFormed(Run(env, p, rs).store.config)
  {
    if rs != [] {
      RunKeepsWellFormed(env, p, rs[..|rs| - 1]);
      StepKeepsWellFormed(env, Run(env, p, rs[..|rs| - 1]), rs[|rs| - 1]);
    }
  }

  // ---- Authorised, and all or nothing ----

  // The request is a write and got a success answer.
  ghost predicate Accepted(env: Env, p: Plane, r: Request)
  {
    Route(r.httpMethod, r.path).Mutates() && 200 <= Serve(env, p, r).1.status < 300
  }

  // The request shows who sends it: in dev the bypass email does, else a token that the verifier accepts.
  predicate Identified(env: Env, r: Request)
  {
    (env.dev && env.bypassEmail != "") || (r.jwt != "" && env.hasVerifier && r.claims.Some?)
  }

  function Sender(env: Env, r: Request): string
    requires Identified(env, r)
  {
    if env.dev && env.bypassEmail != "" then env.bypassEmail else r.claims.value
  }

  ghost predicate ByOwner(env: Env, p: Plane, r: Request)
  {
    var admins := p.store.config.admins;
    Identified(env, r) && Sender(env, r) in admins && admins[Sender(env, r)].role == "owner"
  }

  ghost predicate OneEntryBy(env: Env, r: Request, before: seq<AuditEntry>, after: seq<AuditEntry>)
  {
    && |after| == |before| + 1 && after[..|before|] == before
    && Identified(env, r) && after[|before|].actor == Sender(env, r)
    && after[|before|].actorRole == "owner" && after[|before|].outcome == "success"
  }

  // What a request with this identity gets: 403 and nothing else when no admin has it, or when an owner is needed and
  // it is none; else neither 401 nor 403, and an entry in its name if the store changes.
  ghost predicate ServedAs(env: Env, p: Plane, r: Request, email: string)
  {
    var admins := p.store.config.admins;
    var (q, reply) := Serve(env, p, r);
    if email !in admins then (q, reply) == (p, Status(403))
    else if Route(r.httpMethod, r.path).OwnerOnly() && admins[email].role != "owner" then (q, reply) == (p, Status(403))
    else
      && reply.status != 401 && reply.status != 403
      && (q.store != p.store ==>
            && |q.store.audit| == |p.store.audit| + 1
            && q.store.audit[|p.store.audit|].actor == email
            && q.store.audit[|p.store.audit|].actorRole == admins[email].role)
  }

  // Who a request is served as. In dev a bypass email is, whatever the token. Otherwise it takes a token, a verifier
  // and its acceptance, and the email the verifier returns is; anything less is answered 401.
  lemma IdentityExact(env: Env, p: Plane, r: Request)
    ensures
      if env.dev && env.bypassEmail != "" then ServedAs(env, p, r, env.bypassEmail)
      else if r.jwt != "" && env.hasVerifier && r.claims.Some? then ServedAs(env, p, r, r.claims.value)
      else Serve(env, p, r) == (p, Status(401))
  {
    AllOrNothing(env, p, r);
    if ByOwner(env, p, r) && Route(r.httpMethod, r.path).Mutates() { StatusesOfWrites(env, p, r); }
  }

  lemma StatusesOfWrites(env: Env, p: Plane, r: Request)
    requires Route(r.httpMethod, r.path).Mutates() && ByOwner(env, p, r)
    ensures Serve(env, p, r).1.status != 401 && Serve(env, p, r).1.status != 403
  {
    var c, cmd, who := p.store.config, Route(r.httpMethod, r.path), Caller(Sender(env, r), OWNER);
    assert Authenticate(env, c, r) == Ok(who);
    var (w, minted) := Mint(env, p.writer, cmd, r);
    if minted.Ok? { DecisionShape(c, cmd, who, r, minted.value); }
  }

  // A request touches the store exactly when it is an accepted write. Then its caller is a current owner and the
  // log grows by one entry in the caller's name. A rejected request leaves configuration and log as they were,
  // and the secret writer moves only for an owner's rotation.
  lemma AllOrNothing(env: Env, p: Plane, r: Request)
    ensures Accepted(env, p, r) ==>
      ByOwner(env, p, r) && OneEntryBy(env, r, p.store.audit, Next(env, p, r).store.audit)
    ensures Accepted(env, p, r) <==> Next(env, p, r).store != p.store
    ensures Next(env, p, r).writer != p.writer ==> Route(r.httpMethod, r.path).RotateSecret? && ByOwner(env, p, r)
  {
    var c, cmd := p.store.config, Route(r.httpMethod, r.path);
    if Authenticate(env, c, r).Ok? && cmd.Mutates() {
      var who := Authenticate(env, c, r).value;
      var (w, minted) := Mint(env, p.writer, cmd, r);
      if minted.Ok? {
        DecisionShape(c, cmd, who, r, minted.value);
        CommitShape(p.(writer := w), Decide(c, cmd, who, r, minted.value));
      }
    }
  }

  lemma DecisionShape(c: Config, cmd: Command, who: Caller, r: Request, ref: SecretRef)
    requires cmd.Mutates()
    ensures match Decide(c, cmd, who, r, ref)
      case Reject(reply) => reply.status == 400 || reply.status == 404 || reply.status == 500
      case Proceed(_, e, reply) =>
        200 <= reply.status < 300 && e.actor == who.email && e.actorRole == who.role && e.outcome == "success"
  {
  }

  lemma CommitShape(p: Plane, d: Decision)
    requires d.Reject? ==> d.reply.status >= 400
    requires d.Proceed? ==> 200 <= d.reply.status < 300
    ensures Commit(p, d).0.writer == p.writer
    ensures 200 <= Commit(p, d).1.status < 300 ==>
      d.Proceed? && Apply(p.store.config, d.write).Some? &&
      Commit(p, d).0.store == State(Apply(p.store.config, d.write).value, p.store.audit + [d.entry]) &&
      |Commit(p, d).0.store.audit| == |p.store.audit| + 1
    ensures !(200 <= Commit(p, d).1.status < 300) ==> Commit(p, d).0 == p
  {
  }

  ghost function AcceptedCount(env: Env, p: Plane, rs: seq<Request>): nat
  {
    if rs == [] then 0
    else
      var before := rs[..|rs| - 1];
      AcceptedCount(env, p, before) + if Accepted(env, Run(env, p, before), rs[|rs| - 1]) then 1 else 0
  }

  // Over a run the log is only appended to, once for each accepted write.
  lemma {:induction false} LogGrowsByAccepted(env: Env, p: Plane, rs: seq<Request>)
    ensures p.store.audit <= Run(env, p, rs).store.audit
    ensures |Run(env, p, rs).store.audit| == |p.store.audit| + AcceptedCount(env, p, rs)
  {
    if rs != [] {
      var before := rs[..|rs| - 1];
      LogGrowsByAccepted(env, p, before);
      AllOrNothing(env, Run(env, p, before), rs[|rs| - 1]);
    }
  }

  // What a prefix of the run logged is still there, in place, at the end.
  lemma {:induction false} LogKeepsPrefix(env: Env, p: Plane, rs: seq<Request>, n: nat)
    requires n <= |rs|
    ensures Run(env, p, rs[..n]).store.audit <= Run(env, p, rs).store.audit
    decreases |rs|
  {
    if n == |rs| {
      assert rs[..n] == rs;
    } else {
      var before := rs[..|rs| - 1];
      LogKeepsPrefix(env, p, before, n);
      assert before[..n] == rs[..n];
      AllOrNothing(env, Run(env, p, before), rs[|rs| - 1]);
    }
  }

  // ---- The plaintext of a secret goes nowhere but the writer ----

  // The same request with another non-empty plaintext.
  ghost predicate SameButPlaintext(r: Request, s: Request)
  {
    match (r.body.rotate, s.body.rotate)
    case (Some(x), Some(y)) => x.value != "" && y.value != "" &&
      s == r.(body := r.body.(rotate := Some(x.(value := y.value))))
    case _ => r == s
  }

  ghost predicate SamePlaneButPlaintext(p: Plane, q: Plane)
  {
    p.store == q.store && p.writer.versions == q.writer.versions
  }

  lemma PlaintextMint(env: Env, w: Writer, x: Writer, cmd: Command, r: Request, s: Request)
    requires w.versions == x.versions && SameButPlaintext(r, s)
    ensures Mint(env, w, cmd, r).0.versions == Mint(env, x, cmd, s).0.versions
    ensures Mint(env, w, cmd, r).1 == Mint(env, x, cmd, s).1
  {
  }

  lemma PlaintextDecide(c: Config, cmd: Command, who: Caller, r: Request, s: Request, ref: SecretRef)
    requires cmd.Mutates() && SameButPlaintext(r, s)
    ensures Decide(c, cmd, who, r, ref) == Decide(c, cmd, who, s, ref)
  {
  }

  lemma PlaintextStep(env: Env, p: Plane, q: Plane, r: Request, s: Request)
    requires SamePlaneButPlaintext(p, q) && SameButPlaintext(r, s)
    ensures SamePlaneButPlaintext(Next(env, p, r), Next(env, q, s))
    ensures Serve(env, p, r).1 == Serve(env, q, s).1
  {
    assert r.httpMethod == s.httpMethod && r.path == s.path;
    var c, cmd := p.store.config, Route(r.httpMethod, r.path);
    assert Authenticate(env, c, r) == Authenticate(env, c, s);
    if Authenticate(env, c, r).Ok? && cmd.Mutates() {
      var who := Authenticate(env, c, r).value;
      var (w, m) := Mint(env, p.writer, cmd, r);
      PlaintextMint(env, p.writer, q.writer, cmd, r, s);
      if m.Ok? { PlaintextDecide(c, cmd, who, r, s, m.value); }
    }
  }

  // Two runs that differ only in the plaintexts of their rotations end with the same documents, the same audit
  // log and the same version counters: no plaintext reaches any of them.
  lemma {:induction false} PlaintextNeverStored(env: Env, p: Plane, q: Plane, rs: seq<Request>, ss: seq<Request>)
    requires SamePlaneButPlaintext(p, q) && |rs| == |ss|
    requires forall i :: 0 <= i < |rs| ==> SameButPlaintext(rs[i], ss[i])
    ensures SamePlaneButPlaintext(Run(env, p, rs), Run(env, q, ss))
  {
    if rs != [] {
      var n := |rs| - 1;
      PlaintextNeverStored(env, p, q, rs[..n], ss[..n]);
      PlaintextStep(env, Run(env, p, rs[..n]), Run(env, q, ss[..n]), rs[n], ss[n]);
    }
  }
}
