// The Slack webhook: what a signature binds, the timestamp window, and conversation identity
// (pkg/connectors/slack/verify.go, decode.go; pkg/auth/hmac.go).
module Slack {
  import opened Types
  import opened Text
  import Secrets

  const MIN_INT64 := -0x8000_0000_0000_0000
  const SECOND := 1_000_000_000
  const MAX_SKEW := 300 * SECOND

  // ---- Timestamps ----

  predicate AllDigits(s: string) { forall i :: 0 <= i < |s| ==> '0' <= s[i] <= '9' }

  // strconv.ParseInt(s, 10, 64): an optional sign, digits, and the range of a signed 64-bit integer.
  function ParseInt(s: string): Option<int>
  {
    var digits := if s != "" && (s[0] == '+' || s[0] == '-') then s[1..] else s;
    if digits == "" || !AllDigits(digits) then None
    else
      var magnitude: int := Secrets.ParseDecimal(digits);
      var v := if s[0] == '-' then -magnitude else magnitude;
      if MIN_INT64 <= v <= Secrets.MAX_INT64 then Some(v) else None
  }

  // Every number in range is read from its decimal text, with or without a sign, and none out of range.
  lemma ParseIntReads(n: nat)
    ensures ParseInt(Secrets.Decimal(n)) == ParseInt("+" + Secrets.Decimal(n)) ==
      if n <= 0x7FFF_FFFF_FFFF_FFFF then Some(n) else None
    ensures var v: int := 0 - n;
      ParseInt("-" + Secrets.Decimal(n)) == if n <= 0x8000_0000_0000_0000 then Some(v) else None
  {
    Secrets.DecimalRoundTrip(n);
    var s := Secrets.Decimal(n);
    assert s != "" && ("+" + s)[1..] == s && ("-" + s)[1..] == s;
  }

  // Nothing but a sign and digits is read.
  lemma ParseIntRefuses(s: string)
    requires s == "" || s == "+" || s == "-" ||
      exists i :: 0 <= i < |s| && !('0' <= s[i] <= '9') && (i > 0 || (s[0] != '+' && s[0] != '-'))
    ensures ParseInt(s) == None
  {
    if i :| 0 <= i < |s| && !('0' <= s[i] <= '9') && (i > 0 || (s[0] != '+' && s[0] != '-')) {
      if s[0] == '+' || s[0] == '-' { assert s[1..][i - 1] == s[i]; }
    }
  }

  function Wrap64(n: int): int { (n - MIN_INT64) % 0x1_0000_0000_0000_0000 + MIN_INT64 }

  // Seconds from the zero time.Time to the Unix epoch.
  const UNIX_TO_INTERNAL := 62_135_596_800

  // time.Unix(sec, 0) in nanoseconds from the epoch; the internal second count wraps.
  function UnixTime(sec: int): int { (Wrap64(sec + UNIX_TO_INTERNAL) - UNIX_TO_INTERNAL) * SECOND }

  // Time.Sub saturates at the ends of a signed 64-bit nanosecond count.
  function Sub(t: int, u: int): int
  {
    if t - u > Secrets.MAX_INT64 then Secrets.MAX_INT64 else if t - u < MIN_INT64 then MIN_INT64 else t - u
  }

  // CheckTimestampSkew, with the negation of a 64-bit integer.
  predicate WithinWindow(req: int, now: int)
  {
    var d := Sub(now, req);
    var e := if d < 0 then Wrap64(-d) else d;
    e <= MAX_SKEW
  }

  function Abs(n: int): nat { if n < 0 then -n else n }

  // The window accepts exactly the differences of at most 300 seconds, and those at or below the least 64-bit
  // count of nanoseconds, whose negation is itself: a request dated more than 292 years ahead passes.
  lemma WindowExact(req: int, now: int)
    ensures WithinWindow(req, now) <==> Abs(now - req) <= MAX_SKEW || now - req <= MIN_INT64
  {
    assert Wrap64(-MIN_INT64) == MIN_INT64;
    if MIN_INT64 < now - req < 0 { assert Wrap64(req - now) == req - now; }
  }

  // The same for the seconds a header holds, over every 64-bit number of them and any clock within 2^62 seconds of
  // the epoch: where the internal count of seconds wraps, the header is refused.
  lemma HeaderWindow(sec: int, now: int)
    requires MIN_INT64 <= sec <= Secrets.MAX_INT64
    requires Abs(now) < 0x4000_0000_0000_0000 * SECOND
    ensures WithinWindow(UnixTime(sec), now) <==>
      Abs(now - sec * SECOND) <= MAX_SKEW ||
        (now - sec * SECOND <= MIN_INT64 && sec + UNIX_TO_INTERNAL <= Secrets.MAX_INT64)
  {
    WindowExact(UnixTime(sec), now);
    if sec + UNIX_TO_INTERNAL <= Secrets.MAX_INT64 {
      assert Wrap64(sec + UNIX_TO_INTERNAL) == sec + UNIX_TO_INTERNAL;
    } else {
      assert Wrap64(sec + UNIX_TO_INTERNAL) == sec + UNIX_TO_INTERNAL - 0x1_0000_0000_0000_0000;
    }
  }

  lemma AppendThousand(s: string)
    requires AllDigits(s)
    ensures AllDigits(s + "000") && Secrets.ParseDecimal(s + "000") == 1000 * Secrets.ParseDecimal(s)
  {
    assert (s + "0")[..|s|] == s && (s + "00")[..|s| + 1] == s + "0" && (s + "000")[..|s| + 2] == s + "00";
    assert Secrets.ParseDecimal(s + "0") == 10 * Secrets.ParseDecimal(s);
    assert Secrets.ParseDecimal(s + "00") == 10 * Secrets.ParseDecimal(s + "0");
  }

  lemma FarFutureDigits()
    ensures AllDigits("11000000000") && Secrets.ParseDecimal("11000000000") == 11_000_000_000
  {
    assert "11"[..1] == "1" && "1"[..0] == "";
    assert Secrets.ParseDecimal("11") == 11;
    AppendThousand("11");
    AppendThousand("11" + "000");
    AppendThousand("11" + "000" + "000");
    assert "11" + "000" + "000" + "000" == "11000000000";
  }

  // Such a header: on 14 November 2023 the window takes one that is dated in the year 2318.
  lemma FarFutureHeaderPasses()
    ensures ParseInt("11000000000") == Some(11_000_000_000)
    ensures WithinWindow(UnixTime(11_000_000_000), 1_700_000_000 * SECOND)
  {
    FarFutureDigits();
    HeaderWindow(11_000_000_000, 1_700_000_000 * SECOND);
  }

  // ---- The signed string ----

  datatype Verdict = Accepted | MissingHeaders | BadTimestamp | OutsideWindow | NoPrefix | Mismatch

  function BaseString(ts: string, body: string): string { "v0:" + ts + ":" + body }

  // mac is HMAC-SHA256 under the signing secret, in hex.
  function Verify(mac: string -> string, ts: string, sig: string, body: string, now: int): Verdict
  {
    if ts == "" || sig == "" then MissingHeaders
    else match ParseInt(ts)
      case None => BadTimestamp
      case Some(sec) =>
        if !WithinWindow(UnixTime(sec), now) then OutsideWindow
        else if !HasPrefix(sig, "v0=") then NoPrefix
        else if mac(BaseString(ts, body)) != TrimPrefix(sig, "v0=") then Mismatch
        else Accepted
  }

  // The timestamp is near enough, spelled out in seconds and nanoseconds.
  predicate Near(sec: int, now: int)
  {
    || (-300_000_000_000 <= now - sec * 1_000_000_000 <= 300_000_000_000)
    || (now - sec * 1_000_000_000 <= -0x8000_0000_0000_0000 && sec + 62_135_596_800 <= 0x7FFF_FFFF_FFFF_FFFF)
  }

  // A request is accepted exactly when its timestamp is a number near the clock and its signature is that of the
  // timestamp and the body; the checks come in this order.
  lemma VerifyExact(mac: string -> string, ts: string, sig: string, body: string, now: int)
    requires Abs(now) < 0x4000_0000_0000_0000 * SECOND
    ensures Verify(mac, ts, sig, body, now) ==
      if ts == "" || sig == "" then MissingHeaders
      else if ParseInt(ts).None? then BadTimestamp
      else if !Near(ParseInt(ts).value, now) then OutsideWindow
      else if !("v0=" <= sig) then NoPrefix
      else if sig != "v0=" + mac("v0:" + ts + ":" + body) then Mismatch
      else Accepted
  {
    if ParseInt(ts).Some? { HeaderWindow(ParseInt(ts).value, now); }
    if "v0=" <= sig { assert sig == "v0=" + sig[3..]; }
  }

  // An accepted header holds no ':', so the signed string has one reading.
  lemma ParsedHoldsNoColon(s: string)
    requires ParseInt(s).Some?
    ensures ':' !in s
  {
    var digits := if s[0] == '+' || s[0] == '-' then s[1..] else s;
    forall i | 0 <= i < |s| ensures s[i] != ':' {
      if |digits| < |s| { assert i > 0 ==> s[i] == digits[i - 1]; } else { assert s[i] == digits[i]; }
    }
  }

  // Over all headers the parser takes and all bodies, equal signed strings mean equal timestamps and bodies.
  lemma BaseStringBinds(ts: string, body: string, ts': string, body': string)
    requires ParseInt(ts).Some? && ParseInt(ts').Some? && BaseString(ts, body) == BaseString(ts', body')
    ensures ts == ts' && body == body'
  {
    ParsedHoldsNoColon(ts);
    ParsedHoldsNoColon(ts');
    assert BaseString(ts, body)[3..] == ts + [':'] + body && BaseString(ts', body')[3..] == ts' + [':'] + body';
    CutFirstAt(ts, body, ':');
    CutFirstAt(ts', body', ':');
  }

  // If the code is collision-free on signed strings, one signature is accepted for one timestamp and body only.
  lemma SignatureBinds(mac: string -> string, sig: string, ts: string, body: string, now: int, ts': string,
      body': string, now': int)
    requires mac(BaseString(ts, body)) == mac(BaseString(ts', body')) ==> BaseString(ts, body) == BaseString(ts', body')
    requires Verify(mac, ts, sig, body, now) == Accepted && Verify(mac, ts', sig, body', now') == Accepted
    ensures ts == ts' && body == body'
  {
    BaseStringBinds(ts, body, ts', body');
  }

  // ---- Conversations ----

  datatype Event = Event(id: string, time: int, channel: string, ts: string, threadTs: string)

  datatype Envelope = Envelope(specVersion: string, id: string, conversationId: string, platform: string, kind: string,
    occurredAt: int)

  function Thread(e: Event): string { if e.threadTs == "" then e.ts else e.threadTs }

  function Decode(e: Event): Envelope
  {
    Envelope("sclawion/v1", e.id, "slack:" + e.channel + ":" + Thread(e), "slack", "user.message", UnixTime(e.time))
  }

  // The envelope names its format, platform and kind, and keeps the event's id and, short of the wrap, its time.
  lemma DecodeKeeps(e: Event)
    ensures var x := Decode(e);
      && x.specVersion == "sclawion/v1" && x.platform == "slack" && x.kind == "user.message" && x.id == e.id
      && (-0x8000_0000_0000_0000 <= e.time <= 0x7FFF_FFFF_FFFF_FFFF - 62_135_596_800 ==>
            x.occurredAt == e.time * 1_000_000_000)
  {
  }

  function ParseConversation(id: string): Option<(string, string)> { CutFirst(TrimPrefix(id, "slack:"), ':') }

  // For a channel without ':' the conversation id splits back into channel and thread.
  lemma ConversationSplits(e: Event)
    requires ':' !in e.channel
    ensures ParseConversation(Decode(e).conversationId) == Some((e.channel, Thread(e)))
  {
    var id := Decode(e).conversationId;
    assert "slack:" <= id && id[6..] == e.channel + [':'] + Thread(e);
    CutFirstAt(e.channel, Thread(e), ':');
  }

  // Two events are in one conversation exactly when they share channel and thread.
  lemma SameConversation(e: Event, f: Event)
    requires ':' !in e.channel && ':' !in f.channel
    ensures Decode(e).conversationId == Decode(f).conversationId <==> e.channel == f.channel && Thread(e) == Thread(f)
  {
    ConversationSplits(e);
    ConversationSplits(f);
  }

  // So a message that starts a thread and every reply in it are in one conversation, and two roots never are.
  lemma RootAndReplies(root: Event, reply: Event, other: Event)
    requires ':' !in root.channel && ':' !in other.channel && root.threadTs == "" && other.threadTs == "" &&
      root.ts != ""
    requires reply.channel == root.channel && reply.threadTs == root.ts
    ensures Decode(reply).conversationId == Decode(root).conversationId
    ensures root.ts != other.ts ==> Decode(other).conversationId != Decode(reply).conversationId
  {
    SameConversation(root, reply);
    SameConversation(other, reply);
  }
}
