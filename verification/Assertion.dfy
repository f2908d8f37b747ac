/** The signed app assertion: the strict parser that connector and device share, and the device's
    verdict on an envelope. Base64 and JSON decoding are done; cryptography and the library's UUID
    and key formats are parameters. */
module Assertion {
  import opened Basics
  import opened Text
  import opened Identifiers
  import ReplayCache

  const SCHEMA_VERSION: string := "business-mcp-remote-agent-app-assertion-v2"
  const ISSUER: string := "business-mcp-hub"
  const AUDIENCE: string := "remote-agent-device"

  /** A JSON value where a string is expected: the string, or something else with its Python text. */
  datatype Field = Text(s: string) | Other(shown: string, truthy: bool)

  /** `str(value)` */
  function Shown(f: Field): string {
    match f
    case Text(s) => s
    case Other(shown, _) => shown
  }

  /** `str(value or "")` */
  function ShownOrBlank(f: Field): string {
    match f
    case Text(s) => s
    case Other(shown, truthy) => if truthy then shown else ""
  }

  datatype ScopeField = ScopeText(s: string) | ScopeList(items: seq<Field>) | NotIterable

  datatype IntField = Integer(n: int) | NotInteger

  datatype Envelope = Envelope(
    schemaVersion: Field, issuer: Field, audience: Field, keyId: Field, clientId: Field, appId: Field,
    connectorId: Field, scopes: ScopeField, issuedAt: IntField, expiresAt: IntField, nonce: Field,
    requestId: Field, assertionId: Field, signature: Field)

  /** What arrives: nothing, something that is no object with exactly the contract's fields, or an envelope. */
  datatype Raw = Missing | Malformed | Fields(envelope: Envelope)

  datatype Result<+T> = Ok(value: T) | Err(code: string)

  /** The formats that libraries decide. */
  datatype Formats = Formats(isUuid: string -> bool, isSignature: string -> bool, lower: string -> string)

  function TextItems(items: seq<Field>): (texts: seq<string>)
    ensures |texts| == |items| && forall k :: 0 <= k < |items| ==> texts[k] == ShownOrBlank(items[k])
  {
    seq(|items|, k requires 0 <= k < |items| => ShownOrBlank(items[k]))
  }

  function ScopeItems(f: ScopeField): Option<seq<string>> {
    match f
    case ScopeText(s) => Some(Split(s, ','))
    case ScopeList(items) => Some(TextItems(items))
    case NotIterable => None
  }

  /** The normalized scopes of an envelope, if they are valid. */
  function EnvelopeScopes(e: Envelope): Option<seq<string>> {
    if ScopeItems(e.scopes).None? then None else ParseScopes(ScopeItems(e.scopes).value)
  }

  function AsList(scopes: seq<string>): (f: ScopeField)
    ensures f.ScopeList? && |f.items| == |scopes|
    ensures forall k :: 0 <= k < |scopes| ==> f.items[k] == Text(scopes[k])
  {
    ScopeList(seq(|scopes|, k requires 0 <= k < |scopes| => Text(scopes[k])))
  }

  /** The checks of `parse_app_assertion`, in its order; the answer is the first failure. */
  function Failure(e: Envelope, f: Formats): Option<string> {
    if e.schemaVersion != Text(SCHEMA_VERSION) then Some("schema is unsupported")
    else if e.issuer != Text(ISSUER) then Some("issuer is invalid")
    else if e.audience != Text(AUDIENCE) then Some("audience is invalid")
    else if !IsKeyId(Shown(e.keyId)) then Some("key id is invalid")
    else if !IsClientId(Strip(ShownOrBlank(e.clientId))) then Some("client id is invalid")
    else if !IsAppId(Strip(ShownOrBlank(e.appId))) then Some("app id is invalid")
    else if !IsConnectorId(f.lower(Strip(ShownOrBlank(e.connectorId)))) then Some("connector id is invalid")
    else if EnvelopeScopes(e).None? then Some("scopes are invalid")
    else if e.issuedAt.NotInteger? then Some("issued_at is invalid")
    else if e.expiresAt.NotInteger? then Some("expires_at is invalid")
    else if e.expiresAt.n <= e.issuedAt.n then Some("expiry is invalid")
    else if e.expiresAt.n - e.issuedAt.n > ReplayCache.APP_ASSERTION_MAX_TTL_SECONDS then Some("lifetime is too long")
    else if !IsNonce(Strip(ShownOrBlank(e.nonce))) then Some("nonce is invalid")
    else if !f.isUuid(Shown(e.requestId)) then Some("request_id must be a UUID")
    else if !f.isUuid(Shown(e.assertionId)) then Some("assertion_id must be a UUID")
    else if !f.isSignature(Strip(ShownOrBlank(e.signature))) then Some("signature is invalid")
    else None
  }

  /** The app id is stripped and the scopes are normalized; every other field is handed on as it is. */
  function Parse(raw: Raw, f: Formats): Result<Envelope> {
    match raw
    case Missing => Err("missing")
    case Malformed => Err("fields are invalid")
    case Fields(e) =>
      if Failure(e, f).Some? then Err(Failure(e, f).value)
      else Ok(e.(appId := Text(Strip(ShownOrBlank(e.appId))), scopes := AsList(EnvelopeScopes(e).value)))
  }

  lemma ListedScopesParse(items: seq<string>)
    requires ParseScopes(items).Some?
    ensures var scopes := ParseScopes(items).value;
      TextItems(AsList(scopes).items) == scopes && ParseScopes(scopes) == Some(scopes)
  {
    SortedItemsIdempotent(items);
  }

  /** An accepted envelope stays acceptable when its app id is stripped and its scopes normalized. */
  lemma NormalizedPasses(e: Envelope, f: Formats, app: string, scopes: seq<string>)
    requires Failure(e, f).None? && app == Strip(ShownOrBlank(e.appId)) && Strip(app) == app
    requires EnvelopeScopes(e.(scopes := AsList(scopes))).Some?
    ensures Failure(e.(appId := Text(app), scopes := AsList(scopes)), f).None?
  {
    assert EnvelopeScopes(e.(appId := Text(app), scopes := AsList(scopes))) == EnvelopeScopes(e.(scopes := AsList(scopes)));
  }

  /** Parsing what was parsed gives it back unchanged, for every format decision. */
  lemma ParseIdempotent(raw: Raw, f: Formats)
    requires Parse(raw, f).Ok?
    ensures Parse(Fields(Parse(raw, f).value), f) == Parse(raw, f)
  {
    var e := raw.envelope;
    ListedScopesParse(ScopeItems(e.scopes).value);
    StripIdempotent(ShownOrBlank(e.appId));
    NormalizedPasses(e, f, Strip(ShownOrBlank(e.appId)), EnvelopeScopes(e).value);
  }

  // ------------------------------------------------------------------------------ device verdict

  datatype Key = Key(publicKey: string, usable: bool, notBefore: int, notAfter: int)

  /** What the device compares an assertion with: `signed` is Ed25519 verification under a key and
      `scopes` are the expected scopes in ascending order. */
  datatype Binding = Binding(
    keys: map<string, Key>, signed: (string, Envelope) -> bool, connector: string,
    requestId: string, client: string, app: string, scopes: seq<string>)

  /** Everything `verify` checks on a parsed envelope besides its own lifetime and the cache. */
  predicate Bound(e: Envelope, b: Binding, now: int, skew: nat) {
    && Shown(e.keyId) in b.keys
    && var key := b.keys[Shown(e.keyId)];
       && key.usable
       && key.notBefore - skew <= now < key.notAfter
       && b.signed(key.publicKey, e)
       && e.connectorId == Text(b.connector)
       && e.clientId == Text(b.client)
       && e.appId == Text(b.app)
       && e.scopes == AsList(b.scopes)
       && e.requestId == Text(b.requestId)
  }

  /** Presenting a parsed envelope at the clock readings `first` and `second`. */
  function Presentation(e: Envelope, b: Binding, first: int, second: int, skew: nat): ReplayCache.Attempt
    requires e.issuedAt.Integer? && e.expiresAt.Integer?
  {
    ReplayCache.Attempt(Shown(e.assertionId), e.issuedAt.n, e.expiresAt.n, first, second, Bound(e, b, first, skew))
  }

  /** The device's verdict on what arrives, with the state its cache is left in. */
  function Verify(raw: Raw, f: Formats, b: Binding, s: ReplayCache.State, c: ReplayCache.Settings, first: int, second: int)
    : (verdict: (Option<Envelope>, ReplayCache.State))
  {
    match Parse(raw, f)
    case Err(_) => (None, s)
    case Ok(e) =>
      var a := Presentation(e, b, first, second, c.skew);
      (if ReplayCache.Accepts(s, a, c) then Some(e) else None, ReplayCache.Step(s, a, c))
  }

  /** The identity for which the device asks: client, app, connector, scopes and request. */
  predicate SameIdentity(b: Binding, b': Binding) {
    b.client == b'.client && b.app == b'.app && b.connector == b'.connector && b.scopes == b'.scopes && b.requestId == b'.requestId
  }

  /** The key that the envelope names is listed, usable and inside its window, and it verifies the
      signature. */
  predicate SignedByUsableKey(e: Envelope, b: Binding, now: int, skew: nat) {
    exists id :: id in b.keys && id == Shown(e.keyId) && b.keys[id].usable
                 && b.keys[id].notBefore <= now + skew && now < b.keys[id].notAfter
                 && b.signed(b.keys[id].publicKey, e)
  }

  /** Exactly what the device accepts. */
  lemma VerifiedIff(raw: Raw, f: Formats, b: Binding, s: ReplayCache.State, c: ReplayCache.Settings, first: int, second: int)
    ensures Verify(raw, f, b, s, c, first, second).0.Some? <==>
            Parse(raw, f).Ok? &&
            var e := Parse(raw, f).value;
            && SignedByUsableKey(e, b, first, c.skew)
            && e.connectorId == Text(b.connector) && e.clientId == Text(b.client) && e.appId == Text(b.app)
            && e.scopes == AsList(b.scopes) && e.requestId == Text(b.requestId)
            && first < e.expiresAt.n && e.issuedAt.n <= first + c.skew && e.expiresAt.n - e.issuedAt.n <= 300
            && (forall k :: 0 <= k < |s.seen| && s.seen[k].id == Shown(e.assertionId) ==> s.seen[k].expiresAt <= second)
    ensures Verify(raw, f, b, s, c, first, second).0.Some? ==> Verify(raw, f, b, s, c, first, second).0.value == Parse(raw, f).value
  {
    if Parse(raw, f).Ok? {
      var e := Parse(raw, f).value;
      ReplayCache.AcceptsIff(s, Presentation(e, b, first, second, c.skew), c);
      assert Bound(e, b, first, c.skew) ==> Shown(e.keyId) in b.keys;
    }
  }

  lemma AsListInjective(scopes: seq<string>, other: seq<string>)
    requires AsList(scopes) == AsList(other)
    ensures scopes == other
  {
    assert |scopes| == |other|;
    forall k | 0 <= k < |scopes| ensures scopes[k] == other[k] {
      assert AsList(scopes).items[k] == Text(scopes[k]) && AsList(other).items[k] == Text(other[k]);
    }
  }

  /** An envelope that one binding accepts is rejected, at any time and with any cache, by every binding
      for another client, app, connector, scope set or request. */
  lemma AcceptedForOneIdentity(raw: Raw, f: Formats, b: Binding, s: ReplayCache.State, c: ReplayCache.Settings, first: int, second: int,
                               b': Binding, s': ReplayCache.State, c': ReplayCache.Settings, first': int, second': int)
    requires Verify(raw, f, b, s, c, first, second).0.Some? && !SameIdentity(b, b')
    ensures Verify(raw, f, b', s', c', first', second').0.None?
  {
    VerifiedIff(raw, f, b, s, c, first, second);
    VerifiedIff(raw, f, b', s', c', first', second');
    if Parse(raw, f).value.scopes == AsList(b'.scopes) {
      AsListInjective(b.scopes, b'.scopes);
    }
  }

  /** What is accepted is remembered, and what is rejected before the cache leaves it alone. */
  lemma AcceptedIsLogged(raw: Raw, f: Formats, b: Binding, s: ReplayCache.State, c: ReplayCache.Settings, first: int, second: int)
    ensures var verdict := Verify(raw, f, b, s, c, first, second);
      |verdict.1.log| == |s.log| + (if verdict.0.Some? then 1 else 0)
      && (verdict.0.Some? ==> verdict.1.log[|s.log|].id == Shown(verdict.0.value.assertionId))
  {
  }

  /** Exactly which envelopes parse, and what becomes of them. */
  lemma ParsesIff(e: Envelope, f: Formats)
    ensures Parse(Fields(e), f).Ok? <==>
            && e.schemaVersion == Text("business-mcp-remote-agent-app-assertion-v2")
            && e.issuer == Text("business-mcp-hub") && e.audience == Text("remote-agent-device")
            && IsKeyId(Shown(e.keyId)) && IsClientId(Strip(ShownOrBlank(e.clientId))) && IsAppId(Strip(ShownOrBlank(e.appId)))
            && IsConnectorId(f.lower(Strip(ShownOrBlank(e.connectorId)))) && EnvelopeScopes(e).Some?
            && e.issuedAt.Integer? && e.expiresAt.Integer?
            && 0 < e.expiresAt.n - e.issuedAt.n <= 300
            && IsNonce(Strip(ShownOrBlank(e.nonce))) && f.isUuid(Shown(e.requestId)) && f.isUuid(Shown(e.assertionId))
            && f.isSignature(Strip(ShownOrBlank(e.signature)))
    ensures Parse(Fields(e), f).Ok? ==>
              var p := Parse(Fields(e), f).value;
              && p == e.(appId := p.appId, scopes := p.scopes)
              && p.appId == Text(Strip(ShownOrBlank(e.appId))) && p.scopes == AsList(EnvelopeScopes(e).value)
  {
  }

  /** Forwarding is transparent: on the envelope that the connector parsed and forwarded the device
      gives the verdict it would have given on the Hub's original, and remembers the same. */
  lemma ForwardingIsTransparent(raw: Raw, f: Formats, b: Binding, s: ReplayCache.State, c: ReplayCache.Settings,
                                first: int, second: int)
    requires Parse(raw, f).Ok?
    ensures Verify(Fields(Parse(raw, f).value), f, b, s, c, first, second) == Verify(raw, f, b, s, c, first, second)
  {
    ParseIdempotent(raw, f);
  }
}
