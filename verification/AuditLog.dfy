// Reading the audit log back (pkg/config/memstore.go, ListAudit; cmd/admin-api/handlers/audit.go).
module AuditLog {
  import opened Types

  function ResourceName(r: Resource): string
  {
    match r
    case TenantRes => "tenant"
    case ConnectorRes => "connector"
    case AgentRes => "agent"
    case SwarmRes => "swarm"
    case AdminUserRes => "admin_user"
  }

  predicate Matches(f: AuditFilter, e: AuditEntry)
  {
    && (f.tenantId != "" ==> e.tenantId == f.tenantId)
    && (f.actor != "" ==> e.actor == f.actor)
    && (f.resourceType != "" ==> ResourceName(e.resource) == f.resourceType)
  }

  // The matching entries, in log order.
  function Matching(log: seq<AuditEntry>, f: AuditFilter): seq<AuditEntry>
  {
    if log == [] then []
    else
      var e := log[|log| - 1];
      Matching(log[..|log| - 1], f) + if Matches(f, e) then [e] else []
  }

  predicate NotOlder(x: AuditEntry, y: AuditEntry) { x.at >= y.at }

  ghost predicate NewestFirst(es: seq<AuditEntry>)
  {
    forall i, j :: 0 <= i < j < |es| ==> NotOlder(es[i], es[j])
  }

  function Truncate(es: seq<AuditEntry>, limit: int): seq<AuditEntry>
  {
    if 0 < limit < |es| then es[..limit] else es
  }

  // The matching entries in some newest-first order; sort.Slice leaves ties open.
  ghost predicate Ordering(log: seq<AuditEntry>, f: AuditFilter, full: seq<AuditEntry>)
  {
    NewestFirst(full) && multiset(full) == multiset(Matching(log, f))
  }

  ghost predicate IsPage(log: seq<AuditEntry>, f: AuditFilter, out: seq<AuditEntry>)
  {
    exists full :: Ordering(log, f, full) && out == Truncate(full, f.limit)
  }

  // The limit of the handler: absent, unreadable and zero mean 200; a negative number is kept and lists everything.
  function EffectiveLimit(q: Query): (n: int)
  {
    var n := if q.limit.Some? then q.limit.value else 0;
    if n == 0 then 200 else n
  }

  // ---- A page is the top of the log ----

  ghost predicate TopOfLog(log: seq<AuditEntry>, f: AuditFilter, out: seq<AuditEntry>)
  {
    var all := Matching(log, f);
    && NewestFirst(out)
    && multiset(out) <= multiset(all)
    && |out| == (if 0 < f.limit < |all| then f.limit else |all|)
    && (forall o, e :: o in out && multiset(out)[e] < multiset(all)[e] ==> NotOlder(o, e))
  }

  // Matching keeps exactly the entries that pass the filter, each as often as the log holds it.
  lemma {:induction false} MatchingCounts(log: seq<AuditEntry>, f: AuditFilter, e: AuditEntry)
    ensures multiset(Matching(log, f))[e] == if Matches(f, e) then multiset(log)[e] else 0
  {
    if log != [] {
      MatchingCounts(log[..|log| - 1], f, e);
      assert log == log[..|log| - 1] + [log[|log| - 1]];
    }
  }

  lemma {:induction false} SortedExists(bag: multiset<AuditEntry>) returns (es: seq<AuditEntry>)
    ensures NewestFirst(es) && multiset(es) == bag
    decreases |bag|
  {
    if bag == multiset{} {
      es := [];
    } else {
      var x := Newest(bag);
      var rest := SortedExists(bag - multiset{x});
      es := [x] + rest;
      forall j | 0 <= j < |rest| ensures NotOlder(x, rest[j]) {
        assert rest[j] in multiset(rest);
      }
    }
  }

  lemma {:induction false} Newest(bag: multiset<AuditEntry>) returns (x: AuditEntry)
    requires bag != multiset{}
    ensures x in bag && forall y :: y in bag ==> NotOlder(x, y)
    decreases |bag|
  {
    var first :| first in bag;
    x := first;
    var rest := bag - multiset{first};
    if rest != multiset{} {
      var y := Newest(rest);
      if !NotOlder(first, y) { x := y; }
    }
    forall y | y in bag ensures NotOlder(x, y) {
      if y != first { assert y in rest; }
    }
  }

  // Cutting an ordering leaves out only entries that are no newer.
  lemma CutIsTop(full: seq<AuditEntry>, n: nat, o: AuditEntry, e: AuditEntry)
    requires NewestFirst(full) && n <= |full|
    requires o in full[..n] && e in full[n..]
    ensures NotOlder(o, e)
  {
    var i :| 0 <= i < n && full[..n][i] == o;
    var j :| 0 <= j < |full| - n && full[n..][j] == e;
    assert full[n + j] == e;
  }

  lemma PageIsTop(log: seq<AuditEntry>, f: AuditFilter, full: seq<AuditEntry>)
    requires Ordering(log, f, full)
    ensures TopOfLog(log, f, Truncate(full, f.limit))
  {
    var all, out := Matching(log, f), Truncate(full, f.limit);
    assert |multiset(full)| == |multiset(all)|;
    var n := |out|;
    assert full == full[..n] + full[n..] && out == full[..n];
    assert multiset(full) == multiset(out) + multiset(full[n..]);
    forall o, e | o in out && multiset(out)[e] < multiset(all)[e] ensures NotOlder(o, e) {
      assert e in multiset(full[n..]);
      CutIsTop(full, n, o, e);
    }
  }

  lemma TopIsPage(log: seq<AuditEntry>, f: AuditFilter, out: seq<AuditEntry>)
    requires TopOfLog(log, f, out)
    ensures IsPage(log, f, out)
  {
    var all := Matching(log, f);
    var rest := SortedExists(multiset(all) - multiset(out));
    var full := out + rest;
    assert multiset(full) == multiset(all);
    forall i, j | 0 <= i < |out| && 0 <= j < |rest| ensures NotOlder(out[i], rest[j]) {
      assert rest[j] in multiset(rest);
      assert out[i] in out;
    }
    forall i, j | 0 <= i < j < |full| ensures NotOlder(full[i], full[j]) {
      if i < |out| <= j { assert NotOlder(out[i], rest[j - |out|]); }
    }
    assert |multiset(full)| == |multiset(all)|;
    assert Ordering(log, f, full);
    assert out == Truncate(full, f.limit);
  }

  // The pages a filter may return are exactly the newest-first top of the matching entries.
  lemma PageIsTopOfLog(log: seq<AuditEntry>, f: AuditFilter, out: seq<AuditEntry>)
    ensures IsPage(log, f, out) <==> TopOfLog(log, f, out)
  {
    if IsPage(log, f, out) {
      var full :| Ordering(log, f, full) && out == Truncate(full, f.limit);
      PageIsTop(log, f, full);
    }
    if TopOfLog(log, f, out) { TopIsPage(log, f, out); }
  }

  // The first entries of two orderings carry the same time.
  lemma HeadsAgree(a: seq<AuditEntry>, b: seq<AuditEntry>, j: nat)
    requires NewestFirst(a) && NewestFirst(b) && multiset(a) == multiset(b)
    requires a != [] && j < |b| && b[j] == a[0]
    ensures forall i :: 0 <= i <= j ==> b[i].at == a[0].at
  {
    forall i | 0 <= i <= j ensures b[i].at == a[0].at {
      assert b[i] in multiset(a);
      var k :| 0 <= k < |a| && a[k] == b[i];
      assert k == 0 || NotOlder(a[0], a[k]);
      assert i == j || NotOlder(b[i], b[j]);
    }
  }

  lemma TakeOutBag(b: seq<AuditEntry>, j: nat)
    requires j < |b|
    ensures multiset(b[..j] + b[j + 1..]) == multiset(b) - multiset{b[j]}
  {
    assert b == b[..j] + [b[j]] + b[j + 1..];
  }

  // Taking one entry out keeps the rest in order and shifts what follows it.
  lemma TakeOut(b: seq<AuditEntry>, j: nat) returns (c: seq<AuditEntry>)
    requires NewestFirst(b) && j < |b|
    ensures NewestFirst(c) && |c| == |b| - 1 && multiset(c) == multiset(b) - multiset{b[j]}
    ensures forall i :: 0 <= i < |c| ==> c[i] == b[if i < j then i else i + 1]
  {
    c := b[..j] + b[j + 1..];
    TakeOutBag(b, j);
    forall i | 0 <= i < |c| ensures c[i] == b[if i < j then i else i + 1] {}
    forall x, y | 0 <= x < y < |c| ensures NotOlder(c[x], c[y]) {
      assert NotOlder(b[if x < j then x else x + 1], b[if y < j then y else y + 1]);
    }
  }

  // However ties are broken, two orderings show the same times.
  lemma {:induction false} TimesAgree(a: seq<AuditEntry>, b: seq<AuditEntry>)
    requires NewestFirst(a) && NewestFirst(b) && multiset(a) == multiset(b)
    ensures |a| == |b| && forall i :: 0 <= i < |a| ==> a[i].at == b[i].at
    decreases |a|
  {
    assert |multiset(a)| == |multiset(b)|;
    if a != [] {
      assert a[0] in multiset(b);
      var j :| 0 <= j < |b| && b[j] == a[0];
      HeadsAgree(a, b, j);
      var c := TakeOut(b, j);
      var d := TakeOut(a, 0);
      TimesAgree(d, c);
      forall i | 1 <= i < |a| ensures a[i].at == b[i].at {
        assert a[i] == d[i - 1];
        assert d[i - 1].at == c[i - 1].at;
      }
    }
  }

  ghost predicate DistinctTimes(es: seq<AuditEntry>)
  {
    forall x, y :: x in es && y in es && x.at == y.at ==> x == y
  }

  // A smaller limit shows the same times as the start of a larger page, and the same entries
  // when no two matching entries share a time.
  lemma SmallerLimitIsPrefix(log: seq<AuditEntry>, f: AuditFilter, limit: int, small: seq<AuditEntry>,
      large: seq<AuditEntry>)
    requires 0 < limit && (f.limit <= 0 || limit <= f.limit)
    requires IsPage(log, f.(limit := limit), small) && IsPage(log, f, large)
    ensures |small| <= |large| && forall i :: 0 <= i < |small| ==> small[i].at == large[i].at
    ensures DistinctTimes(Matching(log, f)) ==> small <= large
  {
    var a :| Ordering(log, f.(limit := limit), a) && small == Truncate(a, limit);
    var b :| Ordering(log, f, b) && large == Truncate(b, f.limit);
    MatchingIgnoresLimit(log, f, limit);
    TruncationsAgree(log, f, limit, a, b);
  }

  // A sort whose result depends on its input alone cuts both pages from one order. Then the smaller page is a prefix
  // of the larger, ties or not.
  lemma OneOrderPrefix(order: seq<AuditEntry> -> seq<AuditEntry>, log: seq<AuditEntry>, f: AuditFilter, limit: int)
    requires Ordering(log, f, order(Matching(log, f)))
    requires 0 < limit && (f.limit <= 0 || limit <= f.limit)
    ensures var full := order(Matching(log, f)); var small, large := Truncate(full, limit), Truncate(full, f.limit);
      IsPage(log, f.(limit := limit), small) && IsPage(log, f, large) && small <= large
  {
    MatchingIgnoresLimit(log, f, limit);
    assert Ordering(log, f.(limit := limit), order(Matching(log, f)));
  }

  lemma TruncationsAgree(log: seq<AuditEntry>, f: AuditFilter, limit: int, a: seq<AuditEntry>, b: seq<AuditEntry>)
    requires 0 < limit && (f.limit <= 0 || limit <= f.limit)
    requires Ordering(log, f, a) && Ordering(log, f, b)
    ensures var small, large := Truncate(a, limit), Truncate(b, f.limit);
      && |small| <= |large| && (forall i :: 0 <= i < |small| ==> small[i].at == large[i].at)
      && (DistinctTimes(Matching(log, f)) ==> small <= large)
  {
    TimesAgree(a, b);
    var small, large := Truncate(a, limit), Truncate(b, f.limit);
    if DistinctTimes(Matching(log, f)) {
      forall i | 0 <= i < |small| ensures small[i] == large[i] {
        TieFree(log, f, a, b, i);
      }
    }
  }

  lemma TieFree(log: seq<AuditEntry>, f: AuditFilter, a: seq<AuditEntry>, b: seq<AuditEntry>, i: nat)
    requires multiset(a) == multiset(Matching(log, f)) == multiset(b)
    requires DistinctTimes(Matching(log, f))
    requires i < |a| && i < |b| && a[i].at == b[i].at
    ensures a[i] == b[i]
  {
    assert a[i] in multiset(a) && b[i] in multiset(b);
    assert a[i] in Matching(log, f) && b[i] in Matching(log, f);
  }

  lemma {:induction false} MatchingIgnoresLimit(log: seq<AuditEntry>, f: AuditFilter, limit: int)
    ensures Matching(log, f.(limit := limit)) == Matching(log, f)
  {
    if log != [] {
      MatchingIgnoresLimit(log[..|log| - 1], f, limit);
    }
  }
}
