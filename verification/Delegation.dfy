/** The delegation statement that the Hub signs over with HMAC, and the check of its headers. */
module Delegation {
  import opened Basics
  import opened Text
  import opened Identifiers

  /** What a delegation says; an empty app id is the form without one. */
  datatype Statement = Statement(client: string, app: string, timestamp: int, nonce: string, scopes: seq<string>)

  predicate WellFormed(st: Statement) {
    IsClientId(st.client) && IsNonce(st.nonce) && ValidScopes(st.scopes)
  }

  /** The part after the app id. */
  function Ending(st: Statement): string
    requires WellFormed(st)
  {
    IntText(st.timestamp) + "\n" + st.nonce + "\n" + ScopeLine(st.scopes)
  }

  function Canonical(audience: string, st: Statement): string
    requires WellFormed(st)
  {
    if st.app != "" then "v4" + "\n" + (audience + "\n" + (st.client + "\n" + (st.app + "\n" + Ending(st))))
    else "v3" + "\n" + (audience + "\n" + (st.client + "\n" + Ending(st)))
  }

  lemma PartsAreOneLine(st: Statement)
    requires WellFormed(st)
    ensures '\n' !in st.client && '\n' !in st.nonce && '\n' !in ScopeLine(st.scopes) && '\n' !in IntText(st.timestamp)
  {
    assert forall k :: 0 <= k < |st.scopes| ==> IsScope(st.scopes[k]);
    JoinAvoids(st.scopes, ',', '\n');
    IntTextIsOneLine(st.timestamp);
  }

  lemma ScopeLineInjective(scopes: seq<string>, other: seq<string>)
    requires ValidScopes(scopes) && ValidScopes(other) && ScopeLine(scopes) == ScopeLine(other)
    ensures scopes == other
  {
    assert forall k :: 0 <= k < |scopes| ==> IsScope(scopes[k]);
    assert forall k :: 0 <= k < |other| ==> IsScope(other[k]);
    SplitJoin(scopes, ',');
    SplitJoin(other, ',');
  }

  /** Read from the right, an ending gives up scopes, nonce and timestamp, whatever precedes it. */
  lemma EndingDecodes(p: string, st: Statement, p': string, st': Statement)
    requires WellFormed(st) && WellFormed(st')
    requires p + "\n" + Ending(st) == p' + "\n" + Ending(st')
    ensures p == p' && st.timestamp == st'.timestamp && st.nonce == st'.nonce && st.scopes == st'.scopes
  {
    PartsAreOneLine(st);
    PartsAreOneLine(st');
    var t, t' := IntText(st.timestamp), IntText(st'.timestamp);
    assert p + "\n" + Ending(st) == (p + "\n" + t + "\n" + st.nonce) + "\n" + ScopeLine(st.scopes);
    assert p' + "\n" + Ending(st') == (p' + "\n" + t' + "\n" + st'.nonce) + "\n" + ScopeLine(st'.scopes);
    TailCut(p + "\n" + t + "\n" + st.nonce, ScopeLine(st.scopes), p' + "\n" + t' + "\n" + st'.nonce, ScopeLine(st'.scopes), '\n');
    TailCut(p + "\n" + t, st.nonce, p' + "\n" + t', st'.nonce, '\n');
    TailCut(p, t, p', t', '\n');
    IntTextInjective(st.timestamp, st'.timestamp);
    ScopeLineInjective(st.scopes, st'.scopes);
  }

  /** The canonical text is uniquely decodable for audiences of one line, even though the app id
      may hold newlines, and the two forms are never confused. */
  lemma CanonicalInjective(audience: string, st: Statement, audience': string, st': Statement)
    requires WellFormed(st) && WellFormed(st') && '\n' !in audience && '\n' !in audience'
    requires Canonical(audience, st) == Canonical(audience', st')
    ensures audience == audience' && st == st'
  {
    PartsAreOneLine(st);
    PartsAreOneLine(st');
    var x := if st.app != "" then st.app + "\n" + Ending(st) else Ending(st);
    var x' := if st'.app != "" then st'.app + "\n" + Ending(st') else Ending(st');
    var v := if st.app != "" then "v4" else "v3";
    var v' := if st'.app != "" then "v4" else "v3";
    HeadCut(v, audience + "\n" + (st.client + "\n" + x), v', audience' + "\n" + (st'.client + "\n" + x'), '\n');
    assert v[1] == v'[1];
    HeadCut(audience, st.client + "\n" + x, audience', st'.client + "\n" + x', '\n');
    HeadCut(st.client, x, st'.client, x', '\n');
    if st.app != "" {
      EndingDecodes(st.app, st, st'.app, st');
    } else {
      assert "" + "\n" + Ending(st) == "" + "\n" + Ending(st');
      EndingDecodes("", st, "", st');
    }
  }

  // ---------------------------------------------------------------------------------- headers

  /** An HMAC is determined by secret and payload and by nothing less; other texts are no HMAC. */
  datatype Signature = Hmac(secret: string, payload: string) | Unsigned

  /** The delegation headers; `timestamp` is the integer the header reads as, if it reads as one. */
  datatype Headers = Headers(client: string, scopes: string, nonce: string, timestamp: Option<int>,
                             signature: Signature, app: string)

  datatype Verdict = Accepted(identity: Statement) | Rejected(reason: string)

  /** What the headers claim, if each of them can be parsed. */
  function Claimed(h: Headers): (claimed: Option<Statement>)
    ensures claimed.Some? ==> WellFormed(claimed.value)
  {
    var client := ParseClientId(h.client);
    var scopes := ParseScopes(Split(h.scopes, ','));
    var nonce := ParseNonce(h.nonce);
    if client.None? || scopes.None? || nonce.None? || h.timestamp.None? then None
    else Some(Statement(client.value, Strip(h.app), h.timestamp.value, nonce.value, scopes.value))
  }

  /** The age limit is at least one second, and reaches as far into the future as into the past. */
  predicate InTime(timestamp: int, now: int, maxAge: int) {
    var limit := if maxAge > 1 then maxAge else 1;
    now - limit <= timestamp <= now + limit
  }

  /** `verify_delegation_headers` up to the app assertion, which `Assertion` treats. */
  function VerifyHeaders(h: Headers, secret: string, audience: string, now: int, maxAge: int): Verdict {
    var claimed := Claimed(h);
    if claimed.None? then Rejected("delegated identity headers are invalid")
    else if h.signature.Unsigned? then Rejected("delegation signature is invalid")
    else if !InTime(claimed.value.timestamp, now, maxAge) then Rejected("delegation is expired")
    else if h.signature != Hmac(secret, Canonical(audience, claimed.value)) then Rejected("delegation signature is invalid")
    else Accepted(claimed.value)
  }

  /** Exactly which headers are accepted: they can be read, their timestamp differs from the clock by
      at most the age limit, which is at least one second, in either direction, and their signature
      is the HMAC of the canonical text of what they say. */
  lemma AcceptedIff(h: Headers, secret: string, audience: string, now: int, maxAge: int)
    ensures VerifyHeaders(h, secret, audience, now, maxAge).Accepted? <==>
            && Claimed(h).Some? && h.timestamp.Some?
            && (h.timestamp.value - now <= maxAge || h.timestamp.value - now <= 1)
            && (now - h.timestamp.value <= maxAge || now - h.timestamp.value <= 1)
            && h.signature == Hmac(secret, Canonical(audience, Claimed(h).value))
    ensures VerifyHeaders(h, secret, audience, now, maxAge).Accepted? ==>
              VerifyHeaders(h, secret, audience, now, maxAge) == Accepted(Claimed(h).value)
  {
  }

  /** What the headers claim is what they carry: trimmed client, nonce and app id, the timestamp, and
      the scopes as a set in ascending order. */
  lemma ClaimReadsHeaders(h: Headers)
    ensures Claimed(h).Some? <==>
            && h.timestamp.Some? && IsClientId(Strip(h.client)) && IsNonce(Strip(h.nonce))
            && ValidScopes(SortedItems(Split(h.scopes, ',')))
    ensures Claimed(h).Some? ==>
              Claimed(h).value == Statement(Strip(h.client), Strip(h.app), h.timestamp.value, Strip(h.nonce), SortedItems(Split(h.scopes, ',')))
  {
  }

  /** No headers stay usable: once accepted, they are rejected at every clock more than twice the limit
      away, under whatever secret and audience. */
  lemma HeadersExpire(h: Headers, secret: string, audience: string, now: int, maxAge: int, secret': string, audience': string, later: int)
    requires VerifyHeaders(h, secret, audience, now, maxAge).Accepted?
    requires later > now + 2 * maxAge && later > now + 2
    ensures !VerifyHeaders(h, secret', audience', later, maxAge).Accepted?
  {
    AcceptedIff(h, secret, audience, now, maxAge);
    AcceptedIff(h, secret', audience', later, maxAge);
  }

  /** Two accepted header sets with the same signature say the same thing: client, app, timestamp,
      nonce and scopes; even if they were accepted at different times by different audiences. */
  lemma SignatureFixesIdentity(h: Headers, h': Headers, secret: string, secret': string, audience: string, audience': string,
                               now: int, now': int, maxAge: int, maxAge': int)
    requires '\n' !in audience && '\n' !in audience' && h.signature == h'.signature
    requires VerifyHeaders(h, secret, audience, now, maxAge).Accepted?
    requires VerifyHeaders(h', secret', audience', now', maxAge').Accepted?
    ensures VerifyHeaders(h, secret, audience, now, maxAge) == VerifyHeaders(h', secret', audience', now', maxAge')
    ensures audience == audience' && secret == secret'
  {
    var st := VerifyHeaders(h, secret, audience, now, maxAge).identity;
    var st' := VerifyHeaders(h', secret', audience', now', maxAge').identity;
    CanonicalInjective(audience, st, audience', st');
  }

  /** The headers in which the Hub sends a statement. */
  function HeadersFor(st: Statement, secret: string, audience: string): Headers
    requires WellFormed(st)
  {
    Headers(st.client, ScopeLine(st.scopes), st.nonce, Some(st.timestamp), Hmac(secret, Canonical(audience, st)), st.app)
  }

  lemma ClaimedFor(st: Statement, secret: string, audience: string)
    requires WellFormed(st) && Trimmed(st.app) && SortedItems(st.scopes) == st.scopes
    ensures Claimed(HeadersFor(st, secret, audience)) == Some(st)
  {
    TrimmedStrip(st.client);
    TrimmedStrip(st.nonce);
    TrimmedStrip(st.app);
    ScopesSurviveTheWire(st.scopes);
  }

  /** Round trip: a normalized statement, signed and sent, is accepted as exactly itself if and
      only if it is in time. */
  lemma SignedStatementIsAccepted(st: Statement, secret: string, audience: string, now: int, maxAge: int)
    requires WellFormed(st) && Trimmed(st.app) && SortedItems(st.scopes) == st.scopes
    ensures VerifyHeaders(HeadersFor(st, secret, audience), secret, audience, now, maxAge) ==
            if (now - st.timestamp <= maxAge || now - st.timestamp <= 1) && (st.timestamp - now <= maxAge || st.timestamp - now <= 1)
            then Accepted(st) else Rejected("delegation is expired")
  {
    ClaimedFor(st, secret, audience);
  }
}
