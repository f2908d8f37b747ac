/** Identifier patterns and delegated scopes. */
module Identifiers {
  import opened Basics
  import opened Text

  predicate Alnum(c: char) {
    'A' <= c <= 'Z' || 'a' <= c <= 'z' || '0' <= c <= '9'
  }

  predicate LowerAlnum(c: char) {
    'a' <= c <= 'z' || '0' <= c <= '9'
  }

  predicate Punctuation(c: char) {
    c == '_' || c == '.' || c == '-'
  }

  predicate IsClientId(s: string) {
    1 <= |s| <= 48 && Alnum(s[0]) && forall k :: 0 <= k < |s| ==> Alnum(s[k]) || Punctuation(s[k])
  }

  predicate IsAppId(s: string) {
    1 <= |s| <= 64 && Alnum(s[0]) && forall k :: 0 <= k < |s| ==> Alnum(s[k]) || Punctuation(s[k])
  }

  predicate IsKeyId(s: string) {
    1 <= |s| <= 64 && 'a' <= s[0] <= 'z' && forall k :: 0 <= k < |s| ==> LowerAlnum(s[k]) || Punctuation(s[k])
  }

  predicate IsConnectorId(s: string) {
    && 2 <= |s| <= 64
    && 'a' <= s[0] <= 'z' && LowerAlnum(s[1])
    && forall k :: 0 <= k < |s| ==> LowerAlnum(s[k]) || Punctuation(s[k])
  }

  predicate IsNonce(s: string) {
    20 <= |s| <= 128 && forall k :: 0 <= k < |s| ==> Alnum(s[k]) || s[k] == '_' || s[k] == '-'
  }

  predicate IsScope(s: string) {
    && 1 <= |s| <= 64 && Alnum(s[0])
    && forall k :: 0 <= k < |s| ==> Alnum(s[k]) || Punctuation(s[k]) || s[k] == ':' || s[k] == '*'
  }

  const AGENT_SCOPES: set<string> := {
    "agent:read", "agent:write", "agent:terminal", "agent:ssh", "agent:skills", "agent:mcp", "agent:control"
  }

  function ParseClientId(raw: string): Option<string> {
    if IsClientId(Strip(raw)) then Some(Strip(raw)) else None
  }

  function ParseNonce(raw: string): Option<string> {
    if IsNonce(Strip(raw)) then Some(Strip(raw)) else None
  }

  predicate ValidScopes(scopes: seq<string>) {
    |scopes| >= 1 && forall k :: 0 <= k < |scopes| ==> IsScope(scopes[k]) && scopes[k] in AGENT_SCOPES
  }

  /** `validate_agent_scopes` on the pieces of its argument. */
  function ParseScopes(items: seq<string>): Option<seq<string>> {
    if ValidScopes(SortedItems(items)) then Some(SortedItems(items)) else None
  }

  /** The wire form of normalized scopes. */
  function ScopeLine(scopes: seq<string>): string
    requires |scopes| >= 1
  {
    Join(scopes, ',')
  }

  /** Normalization forgets order and repetition, and nothing else. */
  lemma ScopesAreASet(items: seq<string>, other: seq<string>)
    ensures SortedItems(items) == SortedItems(other) <==> (forall x :: ItemOf(x, items) <==> ItemOf(x, other))
  {
    SortedItemsSpec(items);
    SortedItemsSpec(other);
    if forall x :: ItemOf(x, items) <==> ItemOf(x, other) {
      AscendingUnique(SortedItems(items), SortedItems(other));
    }
  }

  /** One of the seven scopes that a client can be delegated. */
  predicate AgentScope(x: string) {
    x in {"agent:read", "agent:write", "agent:terminal", "agent:ssh", "agent:skills", "agent:mcp", "agent:control"}
  }

  lemma AgentScopesAreScopes(scope: string)
    ensures scope in AGENT_SCOPES <==> AgentScope(scope)
    ensures AgentScope(scope) ==> IsScope(scope)
  {
  }

  lemma ValidScopesIff(scopes: seq<string>)
    ensures ValidScopes(scopes) <==> |scopes| >= 1 && forall x :: x in scopes ==> AgentScope(x)
  {
    forall k | 0 <= k < |scopes| ensures IsScope(scopes[k]) && scopes[k] in AGENT_SCOPES <==> AgentScope(scopes[k]) {
      AgentScopesAreScopes(scopes[k]);
    }
  }

  /** Exactly which scope lists are accepted: those with at least one scope, and none but the seven. */
  lemma ScopesParseIff(items: seq<string>)
    ensures ParseScopes(items).Some? <==>
            (exists x :: ItemOf(x, items)) && (forall x :: ItemOf(x, items) ==> AgentScope(x))
    ensures ParseScopes(items).Some? ==> forall x :: x in ParseScopes(items).value <==> ItemOf(x, items)
  {
    SortedItemsSpec(items);
    var sorted := SortedItems(items);
    ValidScopesIff(sorted);
    assert |sorted| >= 1 ==> sorted[0] in sorted;
  }

  /** Normalized scopes survive the comma-joined header and a second parse. */
  lemma ScopesSurviveTheWire(items: seq<string>)
    requires ParseScopes(items).Some?
    ensures var scopes := ParseScopes(items).value; ParseScopes(Split(ScopeLine(scopes), ',')) == Some(scopes)
  {
    var scopes := ParseScopes(items).value;
    assert forall k :: 0 <= k < |scopes| ==> IsScope(scopes[k]);
    SplitJoin(scopes, ',');
    SortedItemsIdempotent(items);
  }

  /** A parsed client id is never blank, and parsing it again changes nothing. */
  lemma ParsedClientId(raw: string)
    requires ParseClientId(raw).Some?
    ensures ParseClientId(raw).value != "" && ParseClientId(ParseClientId(raw).value) == ParseClientId(raw)
  {
    StripIdempotent(raw);
  }
}
