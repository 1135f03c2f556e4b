// Secret names, version numbers and the versioned writer
// (pkg/config/secretwriter.go; stubWriter and itoa of test/integration/admin_api_test.go).
module Secrets {
  import opened Types
  import opened Text
  import opened Validate

  function SecretSlot(k: Kind): string
  {
    match k
    case Signing => "signing"
    case OAuth => "oauth"
    case Other(name) => name
  }

  function SecretNamer(projectId: string, tenantId: string, platform: string, kind: Kind): string
  {
    "projects/" + projectId + "/secrets/sclawion-" + tenantId + "-" + platform + "-" + SecretSlot(kind)
  }

  // ---- Names can be taken apart ----

  const KINDS := [Signing, OAuth]

  datatype NameParts = NameParts(projectId: string, tenantId: string, platform: string, slot: string)

  // Slot and platform are cut off the right, the project off the left, where the tenant is what remains.
  function ParseName(name: string): Option<NameParts>
  {
    match CutLast(name, '-')
    case None => None
    case Some((head, slot)) =>
      match CutLast(head, '-')
      case None => None
      case Some((left, platform)) =>
        if !HasPrefix(left, "projects/") then None
        else match CutFirst(left[9..], '/')
          case None => None
          case Some((project, tail)) =>
            if !HasPrefix(tail, "secrets/sclawion-") then None
            else Some(NameParts(project, tail[17..], platform, slot))
  }

  lemma SlotIsWord(k: Kind)
    requires k in KINDS
    ensures '-' !in SecretSlot(k)
  {
  }

  lemma SlotInjective(k: Kind, j: Kind)
    requires k in KINDS && j in KINDS && SecretSlot(k) == SecretSlot(j)
    ensures k == j
  {
    assert |SecretSlot(Signing)| == 7 && |SecretSlot(OAuth)| == 5;
  }

  // Cutting a name twice on the right gives its slot and its platform.
  lemma NamePeels(projectId: string, tenantId: string, platform: string, kind: Kind)
    requires '-' !in platform && kind in KINDS
    ensures
      var name := SecretNamer(projectId, tenantId, platform, kind);
      var left := "projects/" + projectId + "/secrets/sclawion-" + tenantId;
      CutLast(name, '-') == Some((left + "-" + platform, SecretSlot(kind))) &&
      CutLast(left + "-" + platform, '-') == Some((left, platform))
  {
    var left := "projects/" + projectId + "/secrets/sclawion-" + tenantId;
    SlotIsWord(kind);
    CutLastAt(left + "-" + platform, SecretSlot(kind), '-');
    CutLastAt(left, platform, '-');
    assert SecretNamer(projectId, tenantId, platform, kind) == (left + "-" + platform) + ['-'] + SecretSlot(kind);
  }

  // What is left of a name after its slot and platform are cut off.
  lemma HeadParses(projectId: string, tenantId: string)
    requires '/' !in projectId
    ensures var left := "projects/" + projectId + "/secrets/sclawion-" + tenantId;
      && HasPrefix(left, "projects/") && CutFirst(left[9..], '/') == Some((projectId, "secrets/sclawion-" + tenantId))
      && HasPrefix("secrets/sclawion-" + tenantId, "secrets/sclawion-") &&
        ("secrets/sclawion-" + tenantId)[17..] == tenantId
  {
    var left := "projects/" + projectId + "/secrets/sclawion-" + tenantId;
    var tail := "secrets/sclawion-" + tenantId;
    assert left[9..] == projectId + ['/'] + tail;
    CutFirstAt(projectId, tail, '/');
  }

  // A printed name parses back to its parts, whatever hyphens the tenant holds.
  lemma ParsePrinted(projectId: string, tenantId: string, platform: string, kind: Kind)
    requires '/' !in projectId && KnownPlatform(platform) && kind in KINDS
    ensures ParseName(SecretNamer(projectId, tenantId, platform, kind)) ==
            Some(NameParts(projectId, tenantId, platform, SecretSlot(kind)))
  {
    KnownPlatformIsWord(platform);
    NamePeels(projectId, tenantId, platform, kind);
    HeadParses(projectId, tenantId);
  }

  // Over known platforms and the two kinds, a name belongs to one project, tenant, platform and kind.
  lemma NamesInjective(p: string, t: string, f: string, k: Kind, p': string, t': string, f': string, k': Kind)
    requires '/' !in p && '/' !in p' && KnownPlatform(f) && KnownPlatform(f') && k in KINDS && k' in KINDS
    requires SecretNamer(p, t, f, k) == SecretNamer(p', t', f', k')
    ensures p == p' && t == t' && f == f' && k == k'
  {
    ParsePrinted(p, t, f, k);
    ParsePrinted(p', t', f', k');
    SlotInjective(k, k');
  }

  // Inside one project, whatever its name, the same holds; and two platforms of one tenant never share a name.
  lemma NamesInjectiveInProject(p: string, t: string, f: string, k: Kind, t': string, f': string, k': Kind)
    requires k in KINDS && k' in KINDS && SecretNamer(p, t, f, k) == SecretNamer(p, t', f', k')
    ensures k == k'
    ensures KnownPlatform(f) && KnownPlatform(f') ==> t == t' && f == f'
    ensures t == t' ==> f == f'
  {
    var head := "projects/" + p + "/secrets/sclawion-";
    var x, y := head + t + "-" + f, head + t' + "-" + f';
    SlotIsWord(k);
    SlotIsWord(k');
    CutLastAt(x, SecretSlot(k), '-');
    CutLastAt(y, SecretSlot(k'), '-');
    assert SecretNamer(p, t, f, k) == x + ['-'] + SecretSlot(k);
    assert SecretNamer(p, t', f', k') == y + ['-'] + SecretSlot(k');
    assert x == y;
    SlotInjective(k, k');
    if KnownPlatform(f) && KnownPlatform(f') {
      KnownPlatformIsWord(f);
      KnownPlatformIsWord(f');
      CutLastAt(head + t, f, '-');
      CutLastAt(head + t', f', '-');
      assert x == (head + t) + ['-'] + f && y == (head + t') + ['-'] + f';
      assert t == (head + t)[|head|..] && t' == (head + t')[|head|..];
    }
    if t == t' {
      assert f == x[|head + t| + 1..] && f' == y[|head + t| + 1..];
    }
  }

  // An unknown platform can take over another tenant's name.
  lemma NamesCollide(p: string, t: string, x: string, f: string, k: Kind)
    ensures SecretNamer(p, t + "-" + x, f, k) == SecretNamer(p, t, x + "-" + f, k)
  {
    var head := "projects/" + p + "/secrets/sclawion-";
    assert head + (t + "-" + x) + "-" + f == head + t + "-" + (x + "-" + f);
  }

  // ---- Version numbers ----

  function Digit(n: nat): char
    requires n < 10
  {
    ('0' as int + n) as char
  }

  // The digits of a positive number; nothing for zero.
  function Digits(n: nat): string
  {
    if n == 0 then "" else Digits(n / 10) + [Digit(n % 10)]
  }

  function Decimal(n: nat): string { if n == 0 then "0" else Digits(n) }

  function ParseDecimal(s: string): nat
    requires forall i :: 0 <= i < |s| ==> '0' <= s[i] <= '9'
  {
    if s == "" then 0 else 10 * ParseDecimal(s[..|s| - 1]) + (s[|s| - 1] as int - '0' as int)
  }

  lemma {:induction false} DigitsParse(n: nat)
    ensures forall i :: 0 <= i < |Digits(n)| ==> '0' <= Digits(n)[i] <= '9'
    ensures ParseDecimal(Digits(n)) == n
    ensures n > 0 ==> Digits(n) != "" && Digits(n)[0] != '0'
  {
    if n > 0 {
      DigitsParse(n / 10);
      var s := Digits(n);
      assert s[..|s| - 1] == Digits(n / 10);
      if n / 10 == 0 { assert Digits(n / 10) == ""; }
    }
  }

  // The version text is a plain decimal number that reads back as the counter.
  lemma DecimalRoundTrip(n: nat)
    ensures forall i :: 0 <= i < |Decimal(n)| ==> '0' <= Decimal(n)[i] <= '9'
    ensures ParseDecimal(Decimal(n)) == n
    ensures n > 0 ==> Decimal(n)[0] != '0'
  {
    DigitsParse(n);
  }

  lemma DecimalInjective(m: nat, n: nat)
    requires Decimal(m) == Decimal(n)
    ensures m == n
  {
    DecimalRoundTrip(m);
    DecimalRoundTrip(n);
  }

  function Pow10(k: nat): nat { if k == 0 then 1 else 10 * Pow10(k - 1) }

  lemma {:induction false} DigitsBound(n: nat, k: nat)
    requires n < Pow10(k)
    ensures |Digits(n)| <= k
  {
    if n > 0 && k > 0 { DigitsBound(n / 10, k - 1); }
  }

  const MAX_INT64 := 0x7FFF_FFFF_FFFF_FFFF

  // Fills a 20-byte buffer from the right. Zero and every positive 64-bit integer fit;
  // a negative one gives the empty text.
  method Itoa(n: int) returns (s: string)
    requires -MAX_INT64 - 1 <= n <= MAX_INT64
    ensures s == if n < 0 then "" else Decimal(n)
  {
    if n == 0 { return "0"; }
    var buf := new char[20];
    var pos, i := buf.Length, n;
    if n > 0 {
      assert Pow10(19) == 10_000_000_000_000_000_000 by { PowerOfNineteen(); }
      DigitsBound(n, 19);
    }
    while i > 0
      invariant 0 <= pos <= 20
      invariant n > 0 ==> i >= 0 && Digits(n) == Digits(i) + buf[pos..]
      invariant n > 0 ==> |Digits(n)| <= 19
      invariant n < 0 ==> i == n && pos == 20
    {
      ghost var tail := buf[pos..];
      pos := pos - 1;
      buf[pos] := Digit(i % 10);
      assert buf[pos..] == [Digit(i % 10)] + tail;
      i := i / 10;
    }
    s := buf[pos..];
  }

  lemma PowerOfNineteen()
    ensures Pow10(19) == 10_000_000_000_000_000_000
  {
    assert Pow10(5) == 100_000;
    assert Pow10(10) == 10_000_000_000;
    assert Pow10(15) == 1_000_000_000_000_000;
  }

  // ---- The writer ----

  datatype Call = Call(name: string, value: string)

  // The counters of the secrets written so far, and every call with its plaintext.
  datatype Writer = Writer(versions: map<string, nat>, calls: seq<Call>)

  function VersionOf(w: Writer, name: string): nat { if name in w.versions then w.versions[name] else 0 }

  function LatestRef(w: Writer, name: string): SecretRef { SecretRef(name, Decimal(VersionOf(w, name))) }

  function WithVersion(w: Writer, name: string, value: string): Writer
  {
    Writer(w.versions[name := VersionOf(w, name) + 1], w.calls + [Call(name, value)])
  }

  // Each call hands out a reference no earlier state of the writer could have handed out for that name.
  lemma VersionsAreFresh(w: Writer, name: string, value: string, v: nat)
    requires v <= VersionOf(w, name)
    ensures LatestRef(WithVersion(w, name, value), name) != SecretRef(name, Decimal(v))
  {
    if Decimal(VersionOf(w, name) + 1) == Decimal(v) { DecimalInjective(VersionOf(w, name) + 1, v); }
  }

  class StubWriter {
    var versions: map<string, nat>
    var calls: seq<Call>

    ghost function Contents(): Writer reads this { Writer(versions, calls) }

    constructor ()
      ensures Contents() == Writer(map[], [])
    {
      versions, calls := map[], [];
    }

    // fault is what the secret service refuses with, if it does; the counter then stays.
    method AddVersion(name: string, value: string, fault: Option<Error>) returns (r: Result<SecretRef, Error>)
      requires VersionOf(Contents(), name) < MAX_INT64
      modifies this
      ensures fault.Some? ==> r == Err(fault.value) && Contents() == old(Contents())
      ensures fault.None? ==>
        Contents() == WithVersion(old(Contents()), name, value) && r == Ok(LatestRef(Contents(), name))
    {
      if fault.Some? { return Err(fault.value); }
      versions := versions[name := (if name in versions then versions[name] else 0) + 1];
      calls := calls + [Call(name, value)];
      var version := Itoa(versions[name]);
      r := Ok(SecretRef(name, version));
    }
  }
}
