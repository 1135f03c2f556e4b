// When a connector points at the latest version of its secret.
module Currency {
  import opened Types
  import opened Validate
  import opened Store
  import opened Secrets
  import opened Routing
  import opened Service
  import opened Runs

  // One of the two secrets of a connector.
  datatype Slot = Slot(key: Key, kind: Kind)

  function NameOf(env: Env, s: Slot): string { SecretNamer(env.projectId, s.key.tenant, s.key.id, s.kind) }

  ghost predicate Current(env: Env, p: Plane, s: Slot)
  {
    s.key in p.store.config.conns && RefOf(p.store.config.conns[s.key], s.kind) == LatestRef(p.writer, NameOf(env, s))
  }

  // The connector points at an older version.
  ghost predicate Behind(env: Env, p: Plane, s: Slot)
  {
    s.key in p.store.config.conns &&
    exists v: nat :: v < VersionOf(p.writer, NameOf(env, s)) &&
      RefOf(p.store.config.conns[s.key], s.kind) == SecretRef(NameOf(env, s), Decimal(v))
  }

  // The name whose counter serving the request advances, if any.
  ghost function Advances(env: Env, p: Plane, r: Request): Option<string>
  {
    var cmd := Route(r.httpMethod, r.path);
    if cmd.RotateSecret? && ByOwner(env, p, r) && Minted(env, cmd.tid, cmd.id, r).Ok?
    then Some(Minted(env, cmd.tid, cmd.id, r).value)
    else None
  }

  ghost predicate RotatesSlot(env: Env, p: Plane, r: Request, s: Slot)
  {
    Accepted(env, p, r) && Route(r.httpMethod, r.path) == Command.RotateSecret(s.key.tenant, s.key.id) &&
    r.body.rotate.Some? && r.body.rotate.value.kind == s.kind
  }

  // The request advances the slot's counter from another address.
  ghost predicate Collides(env: Env, p: Plane, r: Request, s: Slot)
  {
    var cmd := Route(r.httpMethod, r.path);
    Advances(env, p, r) == Some(NameOf(env, s)) && Key(cmd.tid, cmd.id) != s.key
  }

  lemma BehindIsNotCurrent(env: Env, p: Plane, s: Slot)
    requires Behind(env, p, s)
    ensures !Current(env, p, s)
  {
    var v: nat :| v < VersionOf(p.writer, NameOf(env, s)) &&
      RefOf(p.store.config.conns[s.key], s.kind) == SecretRef(NameOf(env, s), Decimal(v));
    if Current(env, p, s) { DecimalInjective(v, VersionOf(p.writer, NameOf(env, s))); }
  }

  // The counter of a slot moves only by one, for a request that advances its name.
  lemma CounterStep(env: Env, p: Plane, r: Request, name: string)
    ensures VersionOf(Next(env, p, r).writer, name) ==
            VersionOf(p.writer, name) + if Advances(env, p, r) == Some(name) then 1 else 0
  {
  }

  // Only the two connector commands write connectors.
  lemma OthersKeepConnectors(c: Config, cmd: Command, who: Caller, r: Request, ref: SecretRef)
    requires cmd.Mutates() && !cmd.PutConnector? && !cmd.RotateSecret?
    requires var d := Decide(c, cmd, who, r, ref); d.Proceed? && Apply(c, d.write).Some?
    ensures Apply(c, Decide(c, cmd, who, r, ref).write).value.conns == c.conns
  {
  }

  lemma PutKeepsRefs(c: Config, tid: string, p: string, who: Caller, r: Request, key: Key)
    requires key in c.conns && DecidePutConnector(c, tid, p, who, r).Proceed?
    ensures var c' := Apply(c, DecidePutConnector(c, tid, p, who, r).write).value;
      key in c'.conns && c'.conns[key].signingRef == c.conns[key].signingRef &&
        c'.conns[key].oauthRef == c.conns[key].oauthRef
  {
  }

  // What a committed decision does to the reference of a slot.
  lemma DecisionRef(c: Config, cmd: Command, who: Caller, r: Request, ref: SecretRef, s: Slot)
    requires WellFormed(c) && cmd.Mutates() && s.kind in KINDS
    requires var d := Decide(c, cmd, who, r, ref); d.Proceed? && Apply(c, d.write).Some?
    ensures var c' := Apply(c, Decide(c, cmd, who, r, ref).write).value;
      if cmd == Command.RotateSecret(s.key.tenant, s.key.id) && r.body.rotate.value.kind == s.kind
      then s.key in c'.conns && RefOf(c'.conns[s.key], s.kind) == ref
      else s.key in c.conns ==> s.key in c'.conns && RefOf(c'.conns[s.key], s.kind) == RefOf(c.conns[s.key], s.kind)
  {
    if cmd.RotateSecret? {
      assert ConnKey(c.conns[Key(cmd.tid, cmd.id)]) == Key(cmd.tid, cmd.id);
    } else if cmd.PutConnector? {
      if s.key in c.conns { PutKeepsRefs(c, cmd.tid, cmd.id, who, r, s.key); }
    } else {
      OthersKeepConnectors(c, cmd, who, r, ref);
    }
  }

  // The slot's reference moves only when the slot itself is rotated; then it becomes the latest one.
  lemma RefStep(env: Env, p: Plane, r: Request, s: Slot)
    requires WellFormed(p.store.config) && s.kind in KINDS
    ensures RotatesSlot(env, p, r, s) ==> Current(env, Next(env, p, r), s)
    ensures !RotatesSlot(env, p, r, s) && s.key in p.store.config.conns ==>
      s.key in Next(env, p, r).store.config.conns &&
      RefOf(Next(env, p, r).store.config.conns[s.key], s.kind) == RefOf(p.store.config.conns[s.key], s.kind)
  {
    var c, cmd := p.store.config, Route(r.httpMethod, r.path);
    AllOrNothing(env, p, r);
    if Accepted(env, p, r) {
      var who := Authenticate(env, c, r).value;
      var (w, minted) := Mint(env, p.writer, cmd, r);
      var d := Decide(c, cmd, who, r, minted.value);
      DecisionShape(c, cmd, who, r, minted.value);
      CommitShape(p.(writer := w), d);
      DecisionRef(c, cmd, who, r, minted.value, s);
    }
  }

  // A request that advances the slot's counter from the slot's own address rotates the slot.
  lemma OwnAdvanceRotates(env: Env, p: Plane, r: Request, s: Slot)
    requires s.kind in KINDS && s.key in p.store.config.conns
    requires Advances(env, p, r) == Some(NameOf(env, s)) && !Collides(env, p, r, s)
    ensures RotatesSlot(env, p, r, s)
  {
    var q := r.body.rotate.value;
    NamesInjectiveInProject(env.projectId, s.key.tenant, s.key.id, q.kind, s.key.tenant, s.key.id, s.kind);
  }

  // One request: a current slot stays current exactly when the request does not collide with it,
  // and a slot that fell behind stays behind until it is rotated again.
  lemma CurrentStep(env: Env, p: Plane, r: Request, s: Slot)
    requires WellFormed(p.store.config) && s.kind in KINDS && !RotatesSlot(env, p, r, s)
    ensures Current(env, p, s) ==> (Current(env, Next(env, p, r), s) <==> !Collides(env, p, r, s))
    ensures Current(env, p, s) && Collides(env, p, r, s) ==> Behind(env, Next(env, p, r), s)
    ensures Behind(env, p, s) ==> Behind(env, Next(env, p, r), s)
  {
    var name := NameOf(env, s);
    CounterStep(env, p, r, name);
    RefStep(env, p, r, s);
    if Current(env, p, s) {
      if Advances(env, p, r) == Some(name) && !Collides(env, p, r, s) { OwnAdvanceRotates(env, p, r, s); }
      if Collides(env, p, r, s) {
        var v := VersionOf(p.writer, name);
        assert RefOf(Next(env, p, r).store.config.conns[s.key], s.kind) == SecretRef(name, Decimal(v));
        BehindIsNotCurrent(env, Next(env, p, r), s);
      }
    }
    if Behind(env, p, s) {
      var v: nat :| v < VersionOf(p.writer, name) &&
        RefOf(p.store.config.conns[s.key], s.kind) == SecretRef(name, Decimal(v));
      assert v < VersionOf(Next(env, p, r).writer, name);
    }
  }

  // Request i is the last of the run that rotates the slot.
  ghost predicate LastRotation(env: Env, seed: Plane, rs: seq<Request>, i: nat, s: Slot)
  {
    var n := |rs| - 1;
    && i <= n
    && if i == n then RotatesSlot(env, Run(env, seed, rs[..n]), rs[n], s)
       else LastRotation(env, seed, rs[..n], i, s) && !RotatesSlot(env, Run(env, seed, rs[..n]), rs[n], s)
  }

  // No request after number i collides with the slot.
  ghost predicate UndisturbedAfter(env: Env, seed: Plane, rs: seq<Request>, i: nat, s: Slot)
  {
    var n := |rs| - 1;
    i < n ==> UndisturbedAfter(env, seed, rs[..n], i, s) && !Collides(env, Run(env, seed, rs[..n]), rs[n], s)
  }

  // After its last successful rotation a slot is current at the end of the run exactly when no later
  // request collided with it.
  lemma {:induction false} CurrentIffUndisturbed(env: Env, seed: Plane, rs: seq<Request>, i: nat, s: Slot)
    requires WellFormed(seed.store.config) && s.kind in KINDS && LastRotation(env, seed, rs, i, s)
    ensures Current(env, Run(env, seed, rs), s) <==> UndisturbedAfter(env, seed, rs, i, s)
    ensures Current(env, Run(env, seed, rs), s) || Behind(env, Run(env, seed, rs), s)
  {
    var n := |rs| - 1;
    var p := Run(env, seed, rs[..n]);
    RunKeepsWellFormed(env, seed, rs[..n]);
    if i == n {
      RefStep(env, p, rs[n], s);
    } else {
      CurrentIffUndisturbed(env, seed, rs[..n], i, s);
      CurrentStep(env, p, rs[n], s);
      if Behind(env, p, s) {
        BehindIsNotCurrent(env, p, s);
        BehindIsNotCurrent(env, Next(env, p, rs[n]), s);
      }
    }
  }

  // A rotation that names a known platform never collides with the slot of a stored connector.
  lemma KnownPlatformNeverCollides(env: Env, p: Plane, r: Request, s: Slot)
    requires WellFormed(p.store.config) && s.kind in KINDS && s.key in p.store.config.conns
    requires NamesKnownPlatform(r)
    ensures !Collides(env, p, r, s)
  {
    if Collides(env, p, r, s) {
      var cmd := Route(r.httpMethod, r.path);
      assert ConnKey(p.store.config.conns[s.key]) == s.key;
      NamesInjectiveInProject(env.projectId, cmd.tid, cmd.id, r.body.rotate.value.kind, s.key.tenant, s.key.id, s.kind);
    }
  }

  ghost predicate NamesKnownPlatform(r: Request)
  {
    var cmd := Route(r.httpMethod, r.path);
    cmd.RotateSecret? ==> KnownPlatform(cmd.id)
  }

  // Some request of the run rotates the slot.
  ghost predicate RotatedIn(env: Env, seed: Plane, rs: seq<Request>, s: Slot)
  {
    var n := |rs| - 1;
    rs != [] && (RotatesSlot(env, Run(env, seed, rs[..n]), rs[n], s) || RotatedIn(env, seed, rs[..n], s))
  }

  // When every rotation of the run names a known platform, a slot once rotated points at the latest version
  // ever after, through any other requests.
  lemma {:induction false} RotatedStaysCurrent(env: Env, seed: Plane, rs: seq<Request>, s: Slot)
    requires WellFormed(seed.store.config) && s.kind in KINDS && RotatedIn(env, seed, rs, s)
    requires forall r <- rs :: NamesKnownPlatform(r)
    ensures Current(env, Run(env, seed, rs), s)
  {
    var n := |rs| - 1;
    var p := Run(env, seed, rs[..n]);
    RunKeepsWellFormed(env, seed, rs[..n]);
    if RotatesSlot(env, p, rs[n], s) {
      RefStep(env, p, rs[n], s);
    } else {
      RotatedStaysCurrent(env, seed, rs[..n], s);
      CurrentOrRotated(env, p, rs[n], s);
    }
  }

  lemma CurrentOrRotated(env: Env, p: Plane, r: Request, s: Slot)
    requires WellFormed(p.store.config) && s.kind in KINDS && Current(env, p, s) && NamesKnownPlatform(r)
    ensures Current(env, Next(env, p, r), s)
  {
    if RotatesSlot(env, p, r, s) {
      RefStep(env, p, r, s);
    } else {
      KnownPlatformNeverCollides(env, p, r, s);
      CurrentStep(env, p, r, s);
    }
  }

  // The endpoint does not check the platform: an owner's rotation of tenant t at the unknown platform x-f is
  // answered 404 and still takes the connector f of tenant t-x out of date.
  lemma UnknownPlatformCollides(env: Env, p: Plane, r: Request, t: string, x: string, f: string, k: Kind)
    requires WellFormed(p.store.config) && k in KINDS && x != ""
    requires Current(env, p, Slot(Key(t + "-" + x, f), k))
    requires Route(r.httpMethod, r.path) == Command.RotateSecret(t, x + "-" + f)
    requires ByOwner(env, p, r) && Minted(env, t, x + "-" + f, r).Ok? && r.body.rotate.value.kind == k
    ensures Serve(env, p, r).1 == Status(404)
    ensures !Current(env, Next(env, p, r), Slot(Key(t + "-" + x, f), k))
  {
    var s := Slot(Key(t + "-" + x, f), k);
    NamesCollide(env.projectId, t, x, f, k);
    var platform := x + "-" + f;
    assert platform[|x|] == '-';
    if KnownPlatform(platform) { KnownPlatformIsWord(platform); }
    assert |t| != |t + "-" + x|;
    CurrentStep(env, p, r, s);
  }
}
