// The checks a document must pass before it is written (pkg/config/validate.go).
module Validate {
  import opened Types

  // \s of the email pattern.
  predicate RegexSpace(c: char) { c in ['\t', '\n', '\U{000C}', '\r', ' '] }

  // unicode.IsSpace, which strings.TrimSpace uses.
  predicate UnicodeSpace(c: char)
  {
    '\t' <= c <= '\r' || c in [' ', '\U{0085}', '\U{00A0}', '\U{1680}', '\U{2028}', '\U{2029}', '\U{202F}', '\U{205F}',
      '\U{3000}'] ||
    '\U{2000}' <= c <= '\U{200A}'
  }

  // strings.TrimSpace(s) == ""
  predicate Blank(s: string) { forall i :: 0 <= i < |s| ==> UnicodeSpace(s[i]) }

  predicate IdChar(c: char) { 'a' <= c <= 'z' || '0' <= c <= '9' || c == '-' }

  // ^[a-z][a-z0-9-]{1,62}$
  predicate ValidId(s: string)
  {
    2 <= |s| <= 63 && 'a' <= s[0] <= 'z' && forall i :: 1 <= i < |s| ==> IdChar(s[i])
  }

  // ^[^@\s]+@[^@\s]+\.[^@\s]+$, read as: one '@' with text before it, then a dot with text around it.
  predicate ValidEmail(s: string) { exists at, dot :: 0 < at < |s| && 0 < dot < |s| && EmailAt(s, at, dot) }

  predicate EmailAt(s: string, at: int, dot: int)
  {
    && 0 < at < |s| && at + 1 < dot < |s| - 1 && s[at] == '@' && s[dot] == '.'
    && forall i :: 0 <= i < |s| && i != at ==> s[i] != '@' && !RegexSpace(s[i])
  }

  predicate KnownPlatform(p: string) { p in ["slack", "discord", "gchat", "whatsapp", "imessage"] }

  function WebhookPath(p: string): string { "/v1/" + p }

  predicate ValidTenant(t: Tenant) { ValidId(t.id) && !Blank(t.displayName) }

  predicate ValidConnector(c: ConnectorConfig)
  {
    && ValidId(c.tenantId)
    && KnownPlatform(c.platform)
    && (c.webhookPath == "" || c.webhookPath == WebhookPath(c.platform))
    && 0 <= c.rateLimitPerConv <= 600
  }

  predicate ValidAgent(a: AgentProfile)
  {
    && ValidId(a.tenantId) && ValidId(a.id)
    && !Blank(a.name) && !Blank(a.model)
    && a.memoryScope in ["", "conversation", "user"]
    && a.budgetUSDPerHour >= 0.0
  }

  predicate ValidRole(r: string) { r in ["planner", "coder", "reviewer", "deployer", "monitor"] }

  function Elements(s: Strings): seq<string> { if s.Some? then s.value else [] }

  predicate ValidSwarm(s: SwarmDef)
  {
    && ValidId(s.tenantId) && ValidId(s.id)
    && s.topology in ["pipeline", "fanout", "mesh", "hierarchical"]
    && |Elements(s.roster)| > 0
    && (forall i :: 0 <= i < |Elements(s.roster)| ==> ValidRole(Elements(s.roster)[i]))
    && s.budget.maxTokens >= 0 && s.budget.maxDeploys >= 0
  }

  predicate ValidAdminUser(u: AdminUser) { ValidEmail(u.email) && u.role in [OWNER, OPERATOR, VIEWER] }

  // What the id pattern gives the router: ids are non-empty and hold no '/'.
  lemma ValidIdIsSegment(s: string)
    requires ValidId(s)
    ensures s != "" && '/' !in s
  {
    assert forall i :: 0 <= i < |s| ==> s[i] != '/';
  }

  // A known platform is a segment without '/' and without '-', so it can be cut off a secret name.
  lemma KnownPlatformIsWord(p: string)
    requires KnownPlatform(p)
    ensures p != "" && '/' !in p && '-' !in p
  {
  }
}
