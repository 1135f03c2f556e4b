// Sorted listings: what sort.Slice promises, and why the order a map is walked in cannot be seen.
module Listing {
  import opened Text

  ghost predicate TotalPreorder<T(!new)>(leq: (T, T) -> bool)
  {
    && (forall x, y :: leq(x, y) || leq(y, x))
    && (forall x, y, z :: leq(x, y) && leq(y, z) ==> leq(x, z))
  }

  ghost predicate Sorted<T>(s: seq<T>, leq: (T, T) -> bool)
  {
    forall i, j :: 0 <= i < j < |s| ==> leq(s[i], s[j])
  }

  // Stands in for sort.Slice: some permutation that is in order.
  method Sort<T(!new)>(s: seq<T>, leq: (T, T) -> bool) returns (r: seq<T>)
    requires TotalPreorder(leq)
    ensures Sorted(r, leq)
    ensures multiset(r) == multiset(s)
  {
    r := [];
    for n := 0 to |s|
      invariant Sorted(r, leq)
      invariant multiset(r) == multiset(s[..n])
    {
      var i := |r|;
      while i > 0 && !leq(r[i - 1], s[n])
        invariant 0 <= i <= |r|
        invariant forall j :: i <= j < |r| ==> leq(s[n], r[j])
      {
        i := i - 1;
      }
      InsertKeepsSorted(r, i, s[n], leq);
      assert r == r[..i] + r[i..];
      assert s[..n + 1] == s[..n] + [s[n]];
      r := r[..i] + [s[n]] + r[i..];
    }
    assert s[..|s|] == s;
  }

  lemma InsertKeepsSorted<T(!new)>(r: seq<T>, i: nat, x: T, leq: (T, T) -> bool)
    requires TotalPreorder(leq) && Sorted(r, leq)
    requires i <= |r| && (i > 0 ==> leq(r[i - 1], x))
    requires forall j :: i <= j < |r| ==> leq(x, r[j])
    ensures Sorted(r[..i] + [x] + r[i..], leq)
  {
    forall j | 0 <= j < i ensures leq(r[j], x) {
      assert j < i - 1 ==> leq(r[j], r[i - 1]);
    }
  }

  // ---- Keys in order ----

  ghost predicate StrictlySorted(ks: seq<string>)
  {
    forall i, j :: 0 <= i < j < |ks| ==> Less(ks[i], ks[j])
  }

  ghost predicate Least(k: string, s: set<string>) { k in s && forall j <- s :: j != k ==> Less(k, j) }

  lemma {:induction false} LeastExists(s: set<string>)
    requires s != {}
    ensures exists k :: Least(k, s)
  {
    var x :| x in s;
    if s == {x} {
      assert Least(x, s);
    } else {
      assert s == (s - {x}) + {x};
      LeastExists(s - {x});
      var k :| Least(k, s - {x});
      LessTotal(k, x);
      if Less(x, k) {
        forall j <- s | j != x ensures Less(x, j) {
          if j != k { LessTransitive(x, k, j); }
        }
        assert Least(x, s);
      } else {
        assert Least(k, s);
      }
    }
  }

  ghost function SortedKeys(s: set<string>): (ks: seq<string>)
    ensures StrictlySorted(ks)
    ensures forall k :: k in ks <==> k in s
    ensures |ks| == |s|
  {
    if s == {} then []
    else
      LeastExists(s);
      var k :| Least(k, s);
      [k] + SortedKeys(s - {k})
  }

  lemma HeadIn(s: seq<string>)
    ensures s != [] ==> s[0] in s
  {
  }

  // A strictly sorted enumeration of a set of keys is unique.
  lemma {:induction false} StrictlySortedUnique(a: seq<string>, b: seq<string>)
    requires StrictlySorted(a) && StrictlySorted(b)
    requires forall k :: k in a <==> k in b
    ensures a == b
  {
    HeadIn(a);
    HeadIn(b);
    if a != [] {
      var j :| 0 <= j < |b| && b[j] == a[0];
      var i :| 0 <= i < |a| && a[i] == b[0];
      LessTotal(a[0], b[0]);
      assert a[0] == b[0];
      forall k ensures k in a[1..] <==> k in b[1..] {
        LessTotal(a[0], a[0]);
        if k in a[1..] { assert k in a; assert k in b; }
        if k in b[1..] { assert k in b; assert k in a; }
        assert a[0] !in a[1..] && b[0] !in b[1..];
      }
      StrictlySortedUnique(a[1..], b[1..]);
      assert a == [a[0]] + a[1..] && b == [b[0]] + b[1..];
    }
  }

  // ---- Listings of documents ----

  ghost predicate Keyed<T(!new)>(m: map<string, T>, key: T -> string) { forall k <- m :: key(m[k]) == k }

  // The listing of a map: its documents in the order of their keys.
  ghost function Rows<T(!new)>(m: map<string, T>): (rows: seq<T>)
    ensures |rows| == |m|
    ensures forall v :: v in rows <==> v in m.Values
  {
    var ks := SortedKeys(m.Keys);
    var rows := seq(|ks|, i requires 0 <= i < |ks| => (assert ks[i] in ks; m[ks[i]]));
    assert forall v :: v in m.Values ==> v in rows by {
      forall v <- m.Values ensures v in rows {
        var k :| k in m && m[k] == v;
        assert k in ks;
        var i :| 0 <= i < |ks| && ks[i] == k;
        assert rows[i] == v;
      }
    }
    rows
  }

  // The listing is strictly in key order.
  lemma RowsInOrder<T(!new)>(m: map<string, T>, key: T -> string)
    requires Keyed(m, key)
    ensures forall i, j :: 0 <= i < j < |Rows(m)| ==> Less(key(Rows(m)[i]), key(Rows(m)[j]))
  {
    var ks := SortedKeys(m.Keys);
    forall i | 0 <= i < |ks| ensures key(Rows(m)[i]) == ks[i] { assert ks[i] in ks; }
  }

  // Any sequence of exactly the documents, strictly in key order, is the listing.
  lemma RowsUnique<T(!new)>(m: map<string, T>, key: T -> string, out: seq<T>)
    requires Keyed(m, key)
    requires forall i, j :: 0 <= i < j < |out| ==> Less(key(out[i]), key(out[j]))
    requires forall v :: v in out <==> v in m.Values
    ensures out == Rows(m)
  {
    var ks := SortedKeys(m.Keys);
    var os := seq(|out|, i requires 0 <= i < |out| => key(out[i]));
    forall i | 0 <= i < |out| ensures os[i] in m && m[os[i]] == out[i] {
      assert out[i] in out;
      var k :| k in m && m[k] == out[i];
    }
    forall k ensures k in os <==> k in ks {
      if k in m {
        assert m[k] in m.Values;
        var i :| 0 <= i < |out| && out[i] == m[k];
        assert os[i] == k;
      }
    }
    StrictlySortedUnique(os, ks);
  }

  lemma WalkedAll<T(!new)>(m: map<string, T>, done: seq<string>, walked: seq<T>)
    requires |walked| == |done| && forall i :: 0 <= i < |done| ==> done[i] in m && walked[i] == m[done[i]]
    requires forall k :: k in m ==> k in done
    ensures forall v :: v in walked <==> v in m.Values
  {
    forall v ensures v in walked <==> v in m.Values {
      if v in walked {
        var i :| 0 <= i < |walked| && walked[i] == v;
        assert m[done[i]] == v;
      }
      if v in m.Values {
        var k :| k in m && m[k] == v;
        assert k in done;
        var i :| 0 <= i < |done| && done[i] == k;
        assert walked[i] == v;
      }
    }
  }

  // The shared loop of the List methods: walk the map in any order, then sort by id.
  method ListValues<T(==,!new)>(m: map<string, T>, key: T -> string) returns (out: seq<T>)
    ensures |out| == |m|
    ensures forall v :: v in out <==> v in m.Values
    ensures forall i, j :: 0 <= i < j < |out| ==> !Less(key(out[j]), key(out[i]))
    ensures Keyed(m, key) ==> out == Rows(m)
  {
    var walked: seq<T> := [];
    var left := m.Keys;
    ghost var done: seq<string> := [];
    while left != {}
      invariant left <= m.Keys
      invariant |walked| == |done| && |walked| + |left| == |m|
      invariant forall k :: k in m ==> k in left || k in done
      invariant forall i :: 0 <= i < |done| ==> done[i] in m && done[i] !in left && walked[i] == m[done[i]]
      invariant forall i, j :: 0 <= i < j < |done| ==> done[i] != done[j]
      decreases |left|
    {
      var k :| k in left;
      walked := walked + [m[k]];
      done := done + [k];
      left := left - {k};
    }
    var leq := (x: T, y: T) => !Less(key(y), key(x));
    KeyOrderIsPreorder(leq, key);
    out := Sort(walked, leq);
    SameBag(out, walked);
    WalkedAll(m, done, walked);
    if Keyed(m, key) {
      forall i, j | 0 <= i < j < |walked| ensures walked[i] != walked[j] {
        assert key(walked[i]) == done[i] && key(walked[j]) == done[j];
      }
      DistinctBag(walked, out);
      forall i, j | 0 <= i < j < |out| ensures Less(key(out[i]), key(out[j])) {
        assert leq(out[i], out[j]);
        LessTotal(key(out[i]), key(out[j]));
        assert out[i] in out && out[j] in out;
        assert out[i] in m.Values && out[j] in m.Values;
      }
      RowsUnique(m, key, out);
    }
  }

  lemma KeyOrderIsPreorder<T(!new)>(leq: (T, T) -> bool, key: T -> string)
    requires forall x, y :: leq(x, y) == !Less(key(y), key(x))
    ensures TotalPreorder(leq)
  {
    forall x, y ensures leq(x, y) || leq(y, x) { LessTotal(key(x), key(y)); }
    forall x, y, z | leq(x, y) && leq(y, z) ensures leq(x, z) {
      LessTotal(key(x), key(y));
      LessTotal(key(y), key(z));
      LessTotal(key(z), key(x));
      if Less(key(z), key(x)) && Less(key(x), key(y)) { LessTransitive(key(z), key(x), key(y)); }
    }
  }

  lemma SameBag<T>(a: seq<T>, b: seq<T>)
    requires multiset(a) == multiset(b)
    ensures |a| == |b| && forall v :: v in a <==> v in b
  {
    assert |multiset(a)| == |multiset(b)|;
    forall v ensures v in a <==> v in b {
      assert v in multiset(a) <==> v in multiset(b);
    }
  }

  // A sequence without repetitions stays so under reordering.
  lemma DistinctBag<T>(a: seq<T>, b: seq<T>)
    requires multiset(a) == multiset(b)
    requires forall i, j :: 0 <= i < j < |a| ==> a[i] != a[j]
    ensures forall i, j :: 0 <= i < j < |b| ==> b[i] != b[j]
  {
    forall i, j | 0 <= i < j < |b| ensures b[i] != b[j] {
      if b[i] == b[j] {
        assert b == b[..i] + [b[i]] + b[i + 1..j] + [b[j]] + b[j + 1..];
        assert multiset(b)[b[i]] >= 2;
        AtMostOnce(a, b[i]);
      }
    }
  }

  lemma {:induction false} AtMostOnce<T>(a: seq<T>, v: T)
    requires forall i, j :: 0 <= i < j < |a| ==> a[i] != a[j]
    ensures multiset(a)[v] <= 1
  {
    if a != [] {
      AtMostOnce(a[1..], v);
      assert a == [a[0]] + a[1..];
      if v == a[0] { assert v !in a[1..]; }
    }
  }
}
