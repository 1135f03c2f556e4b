// Requests in flight together: one step for each locked call on the store or the writer.
module Interleaving {
  import opened Types
  import opened Validate
  import opened Store
  import opened Secrets
  import opened Routing
  import opened Service

  // Where a request stands between two calls, with what it carries in its local variables.
  datatype Pc =
    | Arrived                                                  // before the role lookup
    | Admitted(who: Caller)                                    // past the gate
    | HasVersion(who: Caller, ref: SecretRef)                  // a rotation between AddVersion and GetConnector
    | Ready(write: Write, entry: AuditEntry, reply: Response)  // about to write
    | Wrote(entry: AuditEntry, reply: Response)                // written, not yet recorded
    | Done(reply: Response)

  datatype Thread = Thread(req: Request, pc: Pc)

  function CommandOf(r: Request): Command { Route(r.httpMethod, r.path) }

  function Settle(d: Decision): Pc
  {
    match d
    case Reject(reply) => Done(reply)
    case Proceed(write, entry, reply) => Ready(write, entry, reply)
  }

  // One step of one request.
  ghost function Advance(env: Env, p: Plane, r: Request, pc: Pc): (Plane, Pc)
  {
    match pc
    case Arrived =>
      (match Authenticate(env, p.store.config, r)
       case Err(reply) => (p, Done(reply))
       case Ok(who) =>
         if CommandOf(r).OwnerOnly() && who.role != OWNER then (p, Done(Status(403))) else (p, Admitted(who)))
    case Admitted(who) => AdvanceAdmitted(env, p, CommandOf(r), who, r)
    case HasVersion(who, ref) =>
      (p, if CommandOf(r).Mutates() then Settle(Decide(p.store.config, CommandOf(r), who, r, ref)) else pc)
    case Ready(write, entry, reply) =>
      (match Apply(p.store.config, write)
       case None => (p, Done(Status(404)))
       case Some(c) => (p.(store := p.store.(config := c)), Wrote(entry, reply)))
    case Wrote(entry, reply) => (p.(store := p.store.(audit := p.store.audit + [entry])), Done(reply))
    case Done(_) => (p, pc)
  }

  ghost function AdvanceAdmitted(env: Env, p: Plane, cmd: Command, who: Caller, r: Request): (Plane, Pc)
  {
    if !cmd.Mutates() then (p, Done(Read(p.store.config, cmd, r.query)))
    else if cmd.RotateSecret? then
      var (w, minted) := Mint(env, p.writer, cmd, r);
      (p.(writer := w), if minted.Ok? then HasVersion(who, minted.value) else Done(minted.error))
    else (p, Settle(Decide(p.store.config, cmd, who, r, NO_REF)))
  }

  // ---- The system ----

  // A secret reference that came in for a slot.
  datatype Handed = Handed(key: Key, kind: Kind, ref: SecretRef)

  // The references taken from the body of a PUT that found no connector, and those AddVersion returned.
  datatype History = History(imported: set<Handed>, minted: set<Handed>)

  // The plane, the requests in flight, the entries of the writes in commit order, and the references handed in.
  datatype System = System(plane: Plane, threads: seq<Thread>, committed: seq<AuditEntry>, history: History)

  datatype Action = Spawn(req: Request) | Step(thread: nat)

  ghost function Start(p: Plane): System { System(p, [], [], History({}, {})) }

  // What a PUT takes from its body when it passes its check, reads the store and finds no connector.
  function ImportsFor(c: Config, cmd: Command, r: Request): set<Handed>
    requires cmd.PutConnector?
  {
    var k := Key(cmd.tid, cmd.id);
    if r.body.connector.None? || k in c.conns then {}
    else if !ValidConnector(Addressed(r.body.connector.value, cmd.tid, cmd.id)) then {}
    else
      {Handed(k, Signing, r.body.connector.value.signingRef), Handed(k, OAuth, r.body.connector.value.oauthRef)}
  }

  // What AddVersion returns to a rotation, for the slot it asks for.
  function MintsFor(env: Env, w: Writer, cmd: Command, r: Request): set<Handed>
    requires cmd.RotateSecret?
  {
    var minted := Mint(env, w, cmd, r).1;
    if minted.Ok? && r.body.rotate.Some? then {Handed(Key(cmd.tid, cmd.id), r.body.rotate.value.kind, minted.value)}
      else {}
  }

  // The history after a step of thread t.
  function Extended(env: Env, h: History, p: Plane, t: Thread): History
  {
    var cmd := CommandOf(t.req);
    if t.pc.Admitted? && cmd.PutConnector? then h.(imported := h.imported + ImportsFor(p.store.config, cmd, t.req))
    else if t.pc.Admitted? && cmd.RotateSecret? then h.(minted := h.minted + MintsFor(env, p.writer, cmd, t.req))
    else h
  }

  ghost function StepThread(env: Env, s: System, i: nat): System
    requires i < |s.threads|
  {
    var t := s.threads[i];
    var (p, pc) := Advance(env, s.plane, t.req, t.pc);
    System(p, s.threads[i := Thread(t.req, pc)],
           s.committed + (if t.pc.Ready? && pc.Wrote? then [t.pc.entry] else []),
           Extended(env, s.history, s.plane, t))
  }

  ghost function Act(env: Env, s: System, a: Action): System
  {
    match a
    case Spawn(r) => s.(threads := s.threads + [Thread(r, Arrived)])
    case Step(i) => if i < |s.threads| then StepThread(env, s, i) else s
  }

  ghost function Exec(env: Env, s: System, acts: seq<Action>): System
  {
    if acts == [] then s else Act(env, Exec(env, s, acts[..|acts| - 1]), acts[|acts| - 1])
  }

  // ---- One request alone is Serve ----

  ghost function Iterate(env: Env, p: Plane, r: Request, pc: Pc, n: nat): (Plane, Pc)
    decreases n
  {
    if n == 0 then (p, pc)
    else
      var (q, next) := Advance(env, p, r, pc);
      Iterate(env, q, r, next, n - 1)
  }

  lemma {:induction false} DoneStays(env: Env, p: Plane, r: Request, reply: Response, n: nat)
    ensures Iterate(env, p, r, Done(reply), n) == (p, Done(reply))
    decreases n
  {
    if n > 0 { DoneStays(env, p, r, reply, n - 1); }
  }

  // From a decision on, the steps write and record as Commit does.
  lemma DecidedIsCommit(env: Env, p: Plane, r: Request, d: Decision, n: nat)
    requires n >= 2
    ensures Iterate(env, p, r, Settle(d), n) == (Commit(p, d).0, Done(Commit(p, d).1))
  {
    match d
    case Reject(reply) => DoneStays(env, p, r, reply, n);
    case Proceed(write, entry, reply) =>
      match Apply(p.store.config, write)
      case None => DoneStays(env, p, r, Status(404), n - 1);
      case Some(c) =>
        var q := p.(store := p.store.(config := c));
        assert Advance(env, p, r, Ready(write, entry, reply)) == (q, Wrote(entry, reply));
        var x := q.(store := q.store.(audit := q.store.audit + [entry]));
        assert Advance(env, q, r, Wrote(entry, reply)) == (x, Done(reply));
        DoneStays(env, x, r, reply, n - 2);
        assert Iterate(env, q, r, Wrote(entry, reply), n - 1) == Iterate(env, x, r, Done(reply), n - 2);
  }

  lemma AdmittedIsHandle(env: Env, p: Plane, r: Request, who: Caller)
    requires CommandOf(r).OwnerOnly() ==> who.role == OWNER
    ensures var h := Handle(env, p, CommandOf(r), who, r); Iterate(env, p, r, Admitted(who), 4) == (h.0, Done(h.1))
  {
    var cmd := CommandOf(r);
    var (q, pc) := AdvanceAdmitted(env, p, cmd, who, r);
    assert Iterate(env, p, r, Admitted(who), 4) == Iterate(env, q, r, pc, 3);
    if !cmd.Mutates() {
      DoneStays(env, p, r, pc.reply, 3);
    } else if cmd.RotateSecret? {
      if pc.HasVersion? {
        var d := Decide(q.store.config, cmd, who, r, pc.ref);
        assert Iterate(env, q, r, pc, 3) == Iterate(env, q, r, Settle(d), 2);
        DecidedIsCommit(env, q, r, d, 2);
      } else {
        DoneStays(env, q, r, pc.reply, 3);
      }
    } else {
      DecidedIsCommit(env, p, r, Decide(p.store.config, cmd, who, r, NO_REF), 3);
    }
  }

  // A request whose five steps run with nothing in between does exactly what Serve says.
  lemma AloneIsServe(env: Env, p: Plane, r: Request)
    ensures Iterate(env, p, r, Arrived, 5) == (Serve(env, p, r).0, Done(Serve(env, p, r).1))
  {
    var (q, pc) := Advance(env, p, r, Arrived);
    assert Iterate(env, p, r, Arrived, 5) == Iterate(env, q, r, pc, 4);
    if pc.Admitted? { AdmittedIsHandle(env, p, r, pc.who); } else { DoneStays(env, p, r, pc.reply, 4); }
  }

  // ---- One request after another is Run ----

  function Steps(i: nat, n: nat): seq<Action> { if n == 0 then [] else [Step(i)] + Steps(i, n - 1) }

  // Each request arrives when the one before it is done.
  function Serial(rs: seq<Request>): seq<Action>
  {
    if rs == [] then [] else Serial(rs[..|rs| - 1]) + [Spawn(rs[|rs| - 1])] + Steps(|rs| - 1, 5)
  }

  lemma {:induction false} ExecAppend(env: Env, s: System, a: seq<Action>, b: seq<Action>)
    ensures Exec(env, s, a + b) == Exec(env, Exec(env, s, a), b)
    decreases |b|
  {
    if b == [] {
      assert a + b == a;
    } else {
      ExecAppend(env, s, a, b[..|b| - 1]);
      assert (a + b)[..|a + b| - 1] == a + b[..|b| - 1];
    }
  }

  lemma {:induction false} StepsIterate(env: Env, s: System, i: nat, n: nat)
    requires i < |s.threads|
    ensures var x := Exec(env, s, Steps(i, n)); var t := s.threads[i];
      && |x.threads| == |s.threads| && x.threads[i].req == t.req
      && (x.plane, x.threads[i].pc) == Iterate(env, s.plane, t.req, t.pc, n)
    decreases n
  {
    if n > 0 {
      ExecAppend(env, s, [Step(i)], Steps(i, n - 1));
      assert [Step(i)][..0] == [];
      assert Exec(env, s, [Step(i)]) == StepThread(env, s, i);
      StepsIterate(env, StepThread(env, s, i), i, n - 1);
    }
  }

  // Served one after another, the requests in flight leave the plane that Run says and the last gets Serve's answer.
  lemma {:induction false} SerialIsRun(env: Env, p: Plane, rs: seq<Request>)
    ensures var x := Exec(env, Start(p), Serial(rs));
      && x.plane == Run(env, p, rs) && |x.threads| == |rs|
      && (rs != [] ==> x.threads[|rs| - 1].pc == Done(Serve(env, Run(env, p, rs[..|rs| - 1]), rs[|rs| - 1]).1))
  {
    if rs != [] {
      var n := |rs| - 1;
      SerialIsRun(env, p, rs[..n]);
      var s := Exec(env, Start(p), Serial(rs[..n]));
      ExecAppend(env, Start(p), Serial(rs[..n]) + [Spawn(rs[n])], Steps(n, 5));
      ExecAppend(env, Start(p), Serial(rs[..n]), [Spawn(rs[n])]);
      assert [Spawn(rs[n])][..0] == [];
      var x := s.(threads := s.threads + [Thread(rs[n], Arrived)]);
      assert Exec(env, s, [Spawn(rs[n])]) == x;
      StepsIterate(env, x, n, 5);
      AloneIsServe(env, s.plane, rs[n]);
    }
  }
}
