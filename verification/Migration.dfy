/** Migration 003: the idempotency table gains the calling client in its key, and every old row is
    carried over under the client that the audit trail names, or under the blank client. */
module Migration {
  import opened Basics
  import opened Identifiers
  import opened Broker
  import opened BrokerHistory
  import Hub

  datatype LegacyKey = LegacyKey(connector: string, key: string)

  datatype AuditEvent = AuditEvent(requestId: Option<string>, principal: Option<string>, createdAt: int)

  /** The event attributes the request to a principal. */
  predicate Attributes(e: AuditEvent, requestId: string) {
    e.requestId == Some(requestId) && e.principal.Some? && e.principal.value != ""
  }

  /** `client` is a possible answer of the correlated subquery: the principal of an earliest
      attributing event, or blank when there is none. */
  ghost predicate Backfills(audit: seq<AuditEvent>, requestId: string, client: string) {
    if exists k :: 0 <= k < |audit| && Attributes(audit[k], requestId)
    then exists k :: 0 <= k < |audit| && Attributes(audit[k], requestId) && audit[k].principal.value == client
                     && forall j :: 0 <= j < |audit| && Attributes(audit[j], requestId) ==> audit[k].createdAt <= audit[j].createdAt
    else client == ""
  }

  function NewKey(k: LegacyKey, client: string): RequestKey {
    RequestKey(k.connector, client, k.key)
  }

  function OldKey(k: RequestKey): LegacyKey {
    LegacyKey(k.connector, k.key)
  }

  /** The rebuilt table, for a choice of clients. */
  function Migrated(legacy: map<LegacyKey, Row>, clients: map<LegacyKey, string>): map<RequestKey, Row>
    requires clients.Keys == legacy.Keys
  {
    var keys := set k | k in legacy :: NewKey(k, clients[k]);
    map n | n in keys && OldKey(n) in legacy :: legacy[OldKey(n)]
  }

  /** Row by row and one-to-one: every old row is there under its own key with a backfilled client,
      unchanged; there is no other row; and no two old rows compete for one key. */
  lemma MigrationKeepsEveryRow(legacy: map<LegacyKey, Row>, clients: map<LegacyKey, string>)
    requires clients.Keys == legacy.Keys
    ensures var after := Migrated(legacy, clients);
      && (forall k :: k in legacy ==> Maps(after, NewKey(k, clients[k]), legacy[k]))
      && (forall n :: n in after ==> OldKey(n) in legacy && n == NewKey(OldKey(n), clients[OldKey(n)]))
      && |after| == |legacy|
  {
    var after := Migrated(legacy, clients);
    forall k | k in legacy ensures Maps(after, NewKey(k, clients[k]), legacy[k]) {
      assert OldKey(NewKey(k, clients[k])) == k;
    }
    forall n | n in after ensures n == NewKey(OldKey(n), clients[OldKey(n)]) {
    }
    SameSize(legacy.Keys, after.Keys, clients);
  }

  lemma {:induction false} SameSize(old': set<LegacyKey>, new': set<RequestKey>, clients: map<LegacyKey, string>)
    requires old' <= clients.Keys
    requires forall k :: k in old' ==> NewKey(k, clients[k]) in new'
    requires forall n :: n in new' ==> OldKey(n) in old' && n == NewKey(OldKey(n), clients[OldKey(n)])
    ensures |old'| == |new'|
    decreases old'
  {
    if old' == {} {
      assert new' == {};
    } else {
      var k :| k in old';
      var n := NewKey(k, clients[k]);
      assert OldKey(n) == k;
      SameSize(old' - {k}, new' - {n}, clients);
    }
  }

  /** The earliest event that attributes the request, if some event does. */
  lemma {:induction false} EarliestAttribution(audit: seq<AuditEvent>, requestId: string) returns (at: Option<nat>)
    ensures at.None? ==> forall k :: 0 <= k < |audit| ==> !Attributes(audit[k], requestId)
    ensures at.Some? ==> at.value < |audit| && Attributes(audit[at.value], requestId)
    ensures at.Some? ==> forall j :: 0 <= j < |audit| && Attributes(audit[j], requestId) ==> audit[at.value].createdAt <= audit[j].createdAt
  {
    if audit == [] {
      return None;
    }
    var last := |audit| - 1;
    var before := EarliestAttribution(audit[..last], requestId);
    if Attributes(audit[last], requestId) && (before.None? || audit[last].createdAt < audit[before.value].createdAt) {
      return Some(last);
    }
    return before;
  }

  /** Every old row has a client to be carried over under, whatever the audit trail holds. */
  lemma BackfillExists(audit: seq<AuditEvent>, requestId: string) returns (client: string)
    ensures Backfills(audit, requestId, client)
  {
    var at := EarliestAttribution(audit, requestId);
    client := if at.Some? then audit[at.value].principal.value else "";
  }

  /** A backfilled client is blank exactly for rows the audit trail attributes to nobody. */
  lemma BlankMeansUnattributed(audit: seq<AuditEvent>, requestId: string, client: string)
    requires Backfills(audit, requestId, client)
    ensures client == "" <==> forall k :: 0 <= k < |audit| ==> !Attributes(audit[k], requestId)
  {
  }

  // ------------------------------------------------------------------------------------ tombstones

  /** The rows of the blank client. */
  function Tombstones(requests: map<RequestKey, Row>): map<RequestKey, Row> {
    map key | key in requests && key.client == "" :: requests[key]
  }

  /** Every call so far was made by a client that a header could name. */
  ghost predicate NamedCalls(calls: seq<Call>) {
    forall c :: 0 <= c < |calls| ==> calls[c].command.client != ""
  }

  /** A start event carries a client id that `parse_client_id` produced. */
  ghost predicate NamedStart(e: Event) {
    e.Start? ==> exists raw :: ParseClientId(raw) == Some(e.command.client)
  }

  lemma ParsedIsNamed(e: Event)
    requires NamedStart(e) && e.Start?
    ensures e.command.client != ""
  {
    var raw :| ParseClientId(raw) == Some(e.command.client);
    ParsedClientId(raw);
  }

  lemma SettleKeepsTombstones(requests: map<RequestKey, Row>, key: RequestKey, state: RowState, row: Row)
    requires key.client != ""
    ensures Tombstones(Settle(requests, key, state)) == Tombstones(requests)
    ensures Tombstones(Insert(requests, key, row)) == Tombstones(requests)
  {
  }

  /** The table after an event is the table before it, or has one row inserted for the command that
      starts, or one row settled for the call that ends. */
  lemma TableAfter(w: World, e: Event)
    ensures var after := Apply(w, e).desk.requests;
      || after == w.desk.requests
      || (e.Start? && exists row :: after == Insert(w.desk.requests, KeyOf(e.command), row))
      || (exists c, state :: 0 <= c < |w.desk.calls| && after == Settle(w.desk.requests, KeyOf(w.desk.calls[c].command), state))
  {
    match e
    case Start(command, picked) => StartTable(w, command, picked);
    case Wake(c, wins) => WakeTable(w.desk, c, wins);
    case SendFails(c) =>
    case HubEvent(_) =>
    case Respond(_, _, _, _, _, _) =>
    case _ =>
  }

  lemma StartTable(w: World, command: Command, picked: Option<string>)
    ensures var after := StartStep(w, command, picked).desk.requests;
      after == w.desk.requests || exists row :: after == Insert(w.desk.requests, KeyOf(command), row)
  {
    var h := Hub.SweepNow(w.hub);
    if Hub.RouteAnswer(h.instances, command.connector, command.pinned, Hub.Cutoff(h), picked) && Gate(h, command, picked).None? {
      var digest := DigestFor(h, command, picked.value);
      SubmitTable(w.desk, command, h.registered[command.connector], digest);
    }
  }

  lemma SubmitTable(d: Desk, command: Command, g: string, digest: Digest)
    ensures Submit(d, command, g, digest).requests ==
            Insert(d.requests, KeyOf(command), Row(RequestId(command), digest, Pending, |d.calls|))
  {
  }

  lemma WakeTable(d: Desk, c: nat, resultWins: bool)
    ensures var after := WakeStep(d, c, resultWins).requests;
      after == d.requests ||
      (exists x, state :: 0 <= x < |d.calls| && after == Settle(d.requests, KeyOf(d.calls[x].command), state))
  {
  }

  lemma EventKeepsTombstones(w: World, e: Event)
    requires NamedCalls(w.desk.calls) && NamedStart(e)
    ensures Tombstones(Apply(w, e).desk.requests) == Tombstones(w.desk.requests)
  {
    TableAfter(w, e);
    var after := Apply(w, e).desk.requests;
    if after != w.desk.requests {
      if e.Start? && exists row :: after == Insert(w.desk.requests, KeyOf(e.command), row) {
        var row :| after == Insert(w.desk.requests, KeyOf(e.command), row);
        ParsedIsNamed(e);
        SettleKeepsTombstones(w.desk.requests, KeyOf(e.command), Pending, row);
      } else {
        var c, state :| 0 <= c < |w.desk.calls| && after == Settle(w.desk.requests, KeyOf(w.desk.calls[c].command), state);
        var key := KeyOf(w.desk.calls[c].command);
        if key in w.desk.requests {
          SettleKeepsTombstones(w.desk.requests, key, state, w.desk.requests[key]);
        }
      }
    }
  }

  lemma EventKeepsNames(w: World, e: Event)
    requires NamedCalls(w.desk.calls) && NamedStart(e)
    ensures NamedCalls(Apply(w, e).desk.calls)
  {
    forall c | 0 <= c < |Apply(w, e).desk.calls| ensures Apply(w, e).desk.calls[c].command.client != "" {
      CallOrigin(w, e, c);
      if e.Start? {
        ParsedIsNamed(e);
      }
    }
  }

  /** A run from any world, such as one whose table a migration has just rebuilt. */
  function RunFrom(w: World, events: seq<Event>): World
    decreases |events|
  {
    if events == [] then w else RunFrom(Apply(w, events[0]), events[1..])
  }

  /** Whatever runs on a migrated table, the rows of the blank client are never claimed,
      settled or removed: no parsed client id reaches them. */
  lemma {:induction false} TombstonesAreUnreachable(w: World, events: seq<Event>)
    requires NamedCalls(w.desk.calls) && forall k :: 0 <= k < |events| ==> NamedStart(events[k])
    ensures Tombstones(RunFrom(w, events).desk.requests) == Tombstones(w.desk.requests)
    decreases |events|
  {
    if events != [] {
      EventKeepsTombstones(w, events[0]);
      EventKeepsNames(w, events[0]);
      TombstonesAreUnreachable(Apply(w, events[0]), events[1..]);
    }
  }
}
