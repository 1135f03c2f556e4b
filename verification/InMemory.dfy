// The mutable store behind the handlers (pkg/config/memstore.go) and the audit recorder (pkg/config/audit.go).
module InMemory {
  import opened Types
  import opened Store
  import opened Listing
  import opened AuditLog
  import opened Service

  // A pointer to a document. The store holds values, so what a caller does through a Ref it got stays with the Ref.
  class Ref<T> {
    var v: T

    constructor (v: T)
      ensures this.v == v
    {
      this.v := v;
    }
  }

  ghost predicate Flattens<V>(flat: map<Key, V>, m: map<string, map<string, V>>)
  {
    forall k: Key :: (k in flat <==> k.tenant in m && k.id in m[k.tenant]) &&
      (k in flat ==> flat[k] == m[k.tenant][k.id])
  }

  lemma SubmapOfFlat<V>(flat: map<Key, V>, m: map<string, map<string, V>>, tid: string)
    requires Flattens(flat, m)
    ensures Submap(flat, tid) == if tid in m then m[tid] else map[]
  {
    var sub, inner := Submap(flat, tid), if tid in m then m[tid] else map[];
    forall id ensures id in sub <==> id in inner
      ensures id in sub ==> sub[id] == inner[id]
    {
      SubmapAt(flat, tid, id);
      assert Key(tid, id) in flat <==> tid in m && id in m[tid];
    }
  }

  // The inner map of a tenant is the part of the flat map that belongs to it.
  lemma SubmapFlatten<V>(m: map<string, map<string, V>>, tid: string)
    ensures Submap(Flatten(m), tid) == if tid in m then m[tid] else map[]
  {
    forall k: Key
      ensures k in Flatten(m) <==> k.tenant in m && k.id in m[k.tenant]
      ensures k in Flatten(m) ==> Flatten(m)[k] == m[k.tenant][k.id]
    {
      FlattenAt(m, k);
    }
    SubmapOfFlat(Flatten(m), m, tid);
  }

  // The put shared by connectors, agents and swarms: the inner map is created when the tenant has none.
  method PutInner<V>(m: map<string, map<string, V>>, t: string, id: string, v: V)
    returns (n: map<string, map<string, V>>)
    ensures Flatten(n) == Flatten(m)[Key(t, id) := v]
  {
    n := m;
    if t !in n {
      FlattenCreate(n, t);
      n := n[t := map[]];
    }
    FlattenInsert(n, t, id, v);
    n := n[t := n[t][id := v]];
  }

  // The lookup shared by them.
  method GetInner<V(0)>(m: map<string, map<string, V>>, t: string, id: string) returns (found: bool, v: V)
    ensures found <==> Key(t, id) in Flatten(m)
    ensures found ==> v == Flatten(m)[Key(t, id)]
  {
    FlattenAt(m, Key(t, id));
    if t !in m { return false, *; }
    if id !in m[t] { return false, *; }
    return true, m[t][id];
  }

  // The delete shared by agents and swarms. The inner map stays, even when it is left empty.
  method DeleteInner<V>(m: map<string, map<string, V>>, t: string, id: string)
    returns (n: map<string, map<string, V>>, err: Option<Error>)
    ensures err == if Key(t, id) in Flatten(m) then None else Some(ErrNotFound)
    ensures Flatten(n) == Flatten(m) - {Key(t, id)}
  {
    FlattenAt(m, Key(t, id));
    if t !in m { return m, Some(ErrNotFound); }
    if id !in m[t] { return m, Some(ErrNotFound); }
    FlattenDelete(m, Key(t, id));
    return m[t := m[t] - {id}], None;
  }

  // The documents of a flat map have the id they are filed under.
  ghost predicate HaveIds<V(!new)>(m: map<Key, V>, idOf: V -> string) { forall k <- m :: idOf(m[k]) == k.id }

  // The listing shared by connectors, agents and swarms.
  method ListInner<V(==,!new)>(m: map<string, map<string, V>>, tid: string, idOf: V -> string) returns (out: seq<V>)
    ensures |out| == |Submap(Flatten(m), tid)|
    ensures HaveIds(Flatten(m), idOf) ==> out == Rows(Submap(Flatten(m), tid))
  {
    var inner := if tid in m then m[tid] else map[];
    SubmapFlatten(m, tid);
    if HaveIds(Flatten(m), idOf) {
      forall id <- inner ensures idOf(inner[id]) == id { FlattenAt(m, Key(tid, id)); }
    }
    out := ListValues(inner, idOf);
  }

  // ---- Any sequence of operations on a two-level map ----

  datatype Operation<V> = Insert(doc: V) | Lookup(key: Key) | Remove(key: Key) | ListOf(tid: string)

  // What an operation returns: the document of a lookup, the documents of a listing, or the error.
  datatype Outcome<V> = Found(doc: V) | Listed(docs: seq<V>) | Finished | Missing

  ghost predicate Filed<V(!new)>(m: map<Key, V>, keyOf: V -> Key) { forall k <- m :: keyOf(m[k]) == k }

  ghost function FlatOutcome<V(!new)>(m: map<Key, V>, op: Operation<V>): Outcome<V>
  {
    match op
    case Insert(_) => Finished
    case Lookup(k) => if k in m then Found(m[k]) else Missing
    case Remove(k) => if k in m then Finished else Missing
    case ListOf(tid) => Listed(Rows(Submap(m, tid)))
  }

  function FlatStep<V>(m: map<Key, V>, keyOf: V -> Key, op: Operation<V>): map<Key, V>
  {
    match op
    case Insert(v) => m[keyOf(v) := v]
    case Remove(k) => m - {k}
    case _ => m
  }

  // The map after a sequence of operations, and what they return.
  ghost function FlatRun<V(!new)>(m: map<Key, V>, keyOf: V -> Key, ops: seq<Operation<V>>)
    : (map<Key, V>, seq<Outcome<V>>)
  {
    if ops == [] then (m, [])
    else
      var (before, outs) := FlatRun(m, keyOf, ops[..|ops| - 1]);
      (FlatStep(before, keyOf, ops[|ops| - 1]), outs + [FlatOutcome(before, ops[|ops| - 1])])
  }

  method PerformOne<V(0,==,!new)>(m: map<string, map<string, V>>, keyOf: V -> Key, op: Operation<V>)
    returns (n: map<string, map<string, V>>, out: Outcome<V>)
    requires Filed(Flatten(m), keyOf)
    ensures Flatten(n) == FlatStep(Flatten(m), keyOf, op) && Filed(Flatten(n), keyOf)
    ensures out == FlatOutcome(Flatten(m), op)
  {
    n, out := m, Finished;
    match op {
      case Insert(v) => n := PutInner(m, keyOf(v).tenant, keyOf(v).id, v);
      case Lookup(k) =>
        var found, v := GetInner(m, k.tenant, k.id);
        out := if found then Found(v) else Missing;
      case Remove(k) =>
        var err;
        n, err := DeleteInner(m, k.tenant, k.id);
        if err.Some? { out := Missing; }
      case ListOf(tid) =>
        var idOf := (v: V) => keyOf(v).id;
        assert HaveIds(Flatten(m), idOf);
        var rows := ListInner(m, tid, idOf);
        out := Listed(rows);
    }
  }

  // Over every sequence of puts, lookups, deletes and listings the lazily created two-level map returns the documents
  // and errors that a flat map from tenant and id returns, whatever empty inner maps its deletes leave behind.
  method Perform<V(0,==,!new)>(m: map<string, map<string, V>>, keyOf: V -> Key, ops: seq<Operation<V>>)
    returns (n: map<string, map<string, V>>, outs: seq<Outcome<V>>)
    requires Filed(Flatten(m), keyOf)
    ensures (Flatten(n), outs) == FlatRun(Flatten(m), keyOf, ops)
  {
    ghost var flat := Flatten(m);
    n, outs := m, [];
    for j := 0 to |ops|
      invariant (Flatten(n), outs) == FlatRun(flat, keyOf, ops[..j]) && Filed(Flatten(n), keyOf)
    {
      assert ops[..j + 1][..j] == ops[..j];
      var out;
      n, out := PerformOne(n, keyOf, ops[j]);
      outs := outs + [out];
    }
    assert ops[..|ops|] == ops;
  }

  lemma AgentDropped(c: Config, k: Key, agents: map<Key, AgentProfile>)
    requires agents == c.agents - {k}
    ensures Apply(c, DropAgent(k)) == if k in c.agents then Some(c.(agents := agents)) else None
    ensures k !in c.agents ==> c.(agents := agents) == c
  {
  }

  lemma SwarmDropped(c: Config, k: Key, swarms: map<Key, SwarmDef>)
    requires swarms == c.swarms - {k}
    ensures Apply(c, DropSwarm(k)) == if k in c.swarms then Some(c.(swarms := swarms)) else None
    ensures k !in c.swarms ==> c.(swarms := swarms) == c
  {
  }

  class MemStore {
    var tenants: map<string, Tenant>
    var conns: map<string, map<string, ConnectorConfig>>
    var agents: map<string, map<string, AgentProfile>>
    var swarms: map<string, map<string, SwarmDef>>
    var admins: map<string, AdminUser>
    var audit: seq<AuditEntry>

    ghost function Configured(): Config
      reads this
    {
      Config(tenants, Flatten(conns), Flatten(agents), Flatten(swarms), admins)
    }

    ghost function Contents(): State
      reads this
    {
      State(Configured(), audit)
    }

    constructor ()
      ensures Contents() == State(EMPTY_CONFIG, [])
    {
      tenants, conns, agents, swarms, admins, audit := map[], map[], map[], map[], map[], [];
    }

    // ---- Tenants ----

    method ListTenants() returns (out: seq<Tenant>)
      ensures |out| == |Configured().tenants|
      ensures WellFormed(Configured()) ==> out == Rows(Configured().tenants)
    {
      out := ListValues(tenants, (t: Tenant) => t.id);
    }

    method GetTenant(tid: string) returns (doc: Ref?<Tenant>)
      ensures doc == null <==> tid !in Configured().tenants
      ensures doc != null ==> fresh(doc) && doc.v == Configured().tenants[tid]
    {
      if tid !in tenants { return null; }
      doc := new Ref(tenants[tid]);
    }

    method PutTenant(t: Ref<Tenant>)
      modifies this
      ensures Contents() == State(Apply(old(Configured()), SetTenant(t.v)).value, old(audit))
    {
      tenants := tenants[t.v.id := t.v];
    }

    method DeleteTenant(tid: string) returns (err: Option<Error>)
      modifies this
      ensures err == if tid in old(tenants) then None else Some(ErrNotFound)
      ensures Contents() == match Apply(old(Configured()), DisableTenant(tid))
        case None => old(Contents())
        case Some(c) => State(c, old(audit))
    {
      if tid !in tenants { return Some(ErrNotFound); }
      var t := tenants[tid];
      t := t.(disabled := true);
      tenants := tenants[tid := t];
      err := None;
    }

    // ---- Connectors ----

    method ListConnectors(tid: string) returns (out: seq<ConnectorConfig>)
      ensures |out| == |Submap(Configured().conns, tid)|
      ensures WellFormed(Configured()) ==> out == Rows(Submap(Configured().conns, tid))
    {
      out := ListInner(conns, tid, (c: ConnectorConfig) => c.platform);
      if WellFormed(Configured()) {
        forall k <- Flatten(conns) ensures Flatten(conns)[k].platform == k.id {
          assert ConnKey(Configured().conns[k]) == k;
        }
      }
    }

    method GetConnector(tid: string, p: string) returns (doc: Ref?<ConnectorConfig>)
      ensures doc == null <==> Key(tid, p) !in Configured().conns
      ensures doc != null ==> fresh(doc) && doc.v == Configured().conns[Key(tid, p)]
    {
      var found, d := GetInner(conns, tid, p);
      if !found { return null; }
      doc := new Ref(d);
    }

    method PutConnector(c: Ref<ConnectorConfig>)
      modifies this
      ensures Contents() == State(Apply(old(Configured()), SetConnector(c.v)).value, old(audit))
    {
      conns := PutInner(conns, c.v.tenantId, c.v.platform, c.v);
    }

    // ---- Agents ----

    method ListAgents(tid: string) returns (out: seq<AgentProfile>)
      ensures |out| == |Submap(Configured().agents, tid)|
      ensures WellFormed(Configured()) ==> out == Rows(Submap(Configured().agents, tid))
    {
      out := ListInner(agents, tid, (a: AgentProfile) => a.id);
      if WellFormed(Configured()) {
        forall k <- Flatten(agents) ensures Flatten(agents)[k].id == k.id {
          assert AgentKey(Configured().agents[k]) == k;
        }
      }
    }

    method GetAgent(tid: string, id: string) returns (doc: Ref?<AgentProfile>)
      ensures doc == null <==> Key(tid, id) !in Configured().agents
      ensures doc != null ==> fresh(doc) && doc.v == Configured().agents[Key(tid, id)]
    {
      var found, d := GetInner(agents, tid, id);
      if !found { return null; }
      doc := new Ref(d);
    }

    method PutAgent(a: Ref<AgentProfile>)
      modifies this
      ensures Contents() == State(Apply(old(Configured()), SetAgent(a.v)).value, old(audit))
    {
      agents := PutInner(agents, a.v.tenantId, a.v.id, a.v);
    }

    method DeleteAgent(tid: string, id: string) returns (err: Option<Error>)
      modifies this
      ensures err == if Key(tid, id) in old(Configured()).agents then None else Some(ErrNotFound)
      ensures Contents() == match Apply(old(Configured()), DropAgent(Key(tid, id)))
        case None => old(Contents())
        case Some(c) => State(c, old(audit))
    {
      ghost var before := Configured();
      agents, err := DeleteInner(agents, tid, id);
      AgentDropped(before, Key(tid, id), Flatten(agents));
      assert Configured() == before.(agents := Flatten(agents));
    }

    // ---- Swarms ----

    method ListSwarms(tid: string) returns (out: seq<SwarmDef>)
      ensures |out| == |Submap(Configured().swarms, tid)|
      ensures WellFormed(Configured()) ==> out == Rows(Submap(Configured().swarms, tid))
    {
      out := ListInner(swarms, tid, (s: SwarmDef) => s.id);
      if WellFormed(Configured()) {
        forall k <- Flatten(swarms) ensures Flatten(swarms)[k].id == k.id {
          assert SwarmKey(Configured().swarms[k]) == k;
        }
      }
    }

    method GetSwarm(tid: string, id: string) returns (doc: Ref?<SwarmDef>)
      ensures doc == null <==> Key(tid, id) !in Configured().swarms
      ensures doc != null ==> fresh(doc) && doc.v == Configured().swarms[Key(tid, id)]
    {
      var found, d := GetInner(swarms, tid, id);
      if !found { return null; }
      doc := new Ref(d);
    }

    method PutSwarm(s: Ref<SwarmDef>)
      modifies this
      ensures Contents() == State(Apply(old(Configured()), SetSwarm(s.v)).value, old(audit))
    {
      swarms := PutInner(swarms, s.v.tenantId, s.v.id, s.v);
    }

    method DeleteSwarm(tid: string, id: string) returns (err: Option<Error>)
      modifies this
      ensures err == if Key(tid, id) in old(Configured()).swarms then None else Some(ErrNotFound)
      ensures Contents() == match Apply(old(Configured()), DropSwarm(Key(tid, id)))
        case None => old(Contents())
        case Some(c) => State(c, old(audit))
    {
      ghost var before := Configured();
      swarms, err := DeleteInner(swarms, tid, id);
      SwarmDropped(before, Key(tid, id), Flatten(swarms));
      assert Configured() == before.(swarms := Flatten(swarms));
    }

    // ---- Admin users ----

    method ListAdminUsers() returns (out: seq<AdminUser>)
      ensures |out| == |Configured().admins|
      ensures WellFormed(Configured()) ==> out == Rows(Configured().admins)
    {
      out := ListValues(admins, (u: AdminUser) => u.email);
    }

    method GetAdminUser(email: string) returns (doc: Ref?<AdminUser>)
      ensures doc == null <==> email !in Configured().admins
      ensures doc != null ==> fresh(doc) && doc.v == Configured().admins[email]
    {
      if email !in admins { return null; }
      doc := new Ref(admins[email]);
    }

    method PutAdminUser(u: Ref<AdminUser>)
      modifies this
      ensures Contents() == State(Apply(old(Configured()), SetAdmin(u.v)).value, old(audit))
    {
      admins := admins[u.v.email := u.v];
    }

    method DeleteAdminUser(email: string) returns (err: Option<Error>)
      modifies this
      ensures err == if email in old(admins) then None else Some(ErrNotFound)
      ensures Contents() == match Apply(old(Configured()), DropAdmin(email))
        case None => old(Contents())
        case Some(c) => State(c, old(audit))
    {
      if email !in admins { return Some(ErrNotFound); }
      admins := admins - {email};
      err := None;
    }

    // ---- Audit ----

    method PutAudit(e: Ref<AuditEntry>)
      modifies this`audit
      ensures audit == old(audit) + [e.v]
    {
      audit := audit + [e.v];
    }

    method ListAudit(f: AuditFilter) returns (out: seq<AuditEntry>)
      ensures IsPage(audit, f, out)
    {
      out := [];
      for i := 0 to |audit|
        invariant out == Matching(audit[..i], f)
      {
        var e := audit[i];
        assert audit[..i + 1][..i] == audit[..i];
        if f.tenantId != "" && e.tenantId != f.tenantId { continue; }
        if f.actor != "" && e.actor != f.actor { continue; }
        if f.resourceType != "" && ResourceName(e.resource) != f.resourceType { continue; }
        out := out + [e];
      }
      assert audit[..|audit|] == audit;
      var leq := (x: AuditEntry, y: AuditEntry) => !(y.at > x.at);
      var full := Sort(out, leq);
      forall i, j | 0 <= i < j < |full| ensures NotOlder(full[i], full[j]) { assert leq(full[i], full[j]); }
      assert Ordering(audit, f, full);
      out := full;
      if f.limit > 0 && |out| > f.limit { out := out[..f.limit]; }
    }
  }

  // ---- Recording ----

  // An entry as a handler builds it, before the recorder fills in id, time and result.
  function Draft(who: string, role: string, res: Resource, verb: Verb, id: string, tid: string, before: Snapshot,
      after: Snapshot): AuditEntry
  {
    AuditEntry("", who, role, res, verb, id, tid, before, after, ZERO_TIME, "")
  }

  class Recorder {
    const store: MemStore?

    constructor (store: MemStore?)
      ensures this.store == store
    {
      this.store := store;
    }

    // newId and now are what the random source and the clock give this call.
    method Record(e: Ref<AuditEntry>, newId: string, now: Time)
      modifies e, store
      ensures e.v == old(e.v).(id := if old(e.v).id == "" then newId else old(e.v).id,
                               at := if old(e.v).at == ZERO_TIME then now else old(e.v).at,
                               outcome := if old(e.v).outcome == "" then "success" else old(e.v).outcome)
      ensures store != null ==> store.Contents() == State(old(store.Configured()), old(store.audit) + [e.v])
    {
      if e.v.id == "" { e.v := e.v.(id := newId); }
      if e.v.at == ZERO_TIME { e.v := e.v.(at := now); }
      if e.v.outcome == "" { e.v := e.v.(outcome := "success"); }
      if store != null { store.PutAudit(e); }
    }
  }
}
