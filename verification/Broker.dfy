/** The request broker: the idempotency table, the collision guard, the calls in progress with
    their futures, and the request and cancel frames written to devices. A world is the device
    registry of `Hub` together with this desk; an event is one stretch of code between two
    suspension points of the event loop. */
module Broker {
  import opened Basics
  import opened Catalog
  import Hub

  /** The part of a signed app assertion that the broker itself looks at. */
  datatype Assertion = Assertion(connector: string, requestId: string, expiresAt: int)

  /** One `device_command` call. `uuid` is the identifier drawn when no assertion names one. */
  datatype Command = Command(client: string, connector: string, tool: string, arguments: map<string, Json>,
                             key: string, pinned: Option<string>, assertion: Option<Assertion>, uuid: string)

  datatype RequestKey = RequestKey(connector: string, client: string, key: string)

  /** Digests of canonical JSON are injective, so a digest is represented by what it digests. */
  datatype CollisionKey = CollisionKey(connector: string, tool: string, arguments: map<string, Json>)

  datatype Digest = Digest(connector: string, tool: string, arguments: map<string, Json>, instance: string, epoch: int)

  /** `settler` is the call that settled the row. */
  datatype RowState = Pending | Completed(reply: Reply, settler: nat) | Failed(reply: Reply, settler: nat)

  /** A row of the idempotency table; `owner` is the call that inserted it. */
  datatype Row = Row(requestId: string, digest: Digest, state: RowState, owner: nat)

  /** `Broken` holds the exception set on connection loss; `Cancelled` was cancelled by the timer or
      together with its task. */
  datatype Future = Unresolved | Resolved(reply: Reply) | Broken | Cancelled

  /** `Lost` is a call whose task was cancelled or whose process died. */
  datatype Outcome = Returned(reply: Reply) | Raised(code: string) | Lost

  datatype Phase = Sending | Waiting | Ended(outcome: Outcome)

  datatype Claim = Unclaimed | New | Conflict | Busy | Replay

  datatype Call = Call(command: Command, session: string, digest: Option<Digest>, claim: Claim,
                       future: Future, timedOut: bool, phase: Phase)

  datatype Frame =
    | RequestFrame(to: string, call: nat, requestId: string, tool: string, connector: string,
                   arguments: map<string, Json>, key: string)
    | CancelFrame(to: string, connector: string, requestId: string)

  /** Where a waiting future sits: the session holding it and the request id it is filed under. */
  datatype Slot = Slot(generation: string, requestId: string)

  datatype Desk = Desk(
    requests: map<RequestKey, Row>,
    inFlight: map<CollisionKey, string>,
    calls: seq<Call>,
    pending: map<Slot, nat>,
    cancelling: set<nat>,
    sent: seq<Frame>)

  datatype World = World(hub: Hub.State, desk: Desk)

  datatype ResponseStatus = StatusOk | StatusError | StatusOther

  /** Runtimes differ in how a timed wait ends: whether the timer cancels the future at once, and
      whether a result that is there when the task resumes wins over the timeout. Both are carried
      by the event. */
  datatype Event =
    | HubEvent(event: Hub.Event)
    | Start(command: Command, picked: Option<string>)
    | SendDone(call: nat)
    | SendFails(call: nat)
    | TimerFires(call: nat, cancels: bool)
    | Wake(call: nat, resultWins: bool)
    | Abandon(call: nat)
    | Respond(generation: string, connector: string, requestId: string, status: ResponseStatus, payload: Json, bytes: nat)
    | CancelSend(connector: string, requestId: string, picked: Option<string>)
    | CancelResolve(call: nat)

  function Initial(config: Hub.Config, now: int): World {
    World(Hub.Initial(config, now), Desk(map[], map[], [], map[], {}, []))
  }

  // ------------------------------------------------------------------- identifiers and guards

  /** A signed assertion fixes the request id; otherwise a fresh uuid is used. */
  function RequestId(command: Command): string {
    if command.assertion.Some? then command.assertion.value.requestId else command.uuid
  }

  function KeyOf(command: Command): RequestKey {
    RequestKey(command.connector, command.client, command.key)
  }

  predicate Mutating(command: Command) {
    command.tool in MUTATING_RELAY_TOOLS
  }

  function CollisionOf(command: Command): CollisionKey {
    CollisionKey(command.connector, command.tool, command.arguments)
  }

  predicate Live(call: Call) {
    !call.phase.Ended?
  }

  function SlotOf(call: Call): Slot {
    Slot(call.session, RequestId(call.command))
  }

  /** Some earlier call took this request id as far as the idempotency table. */
  predicate Used(calls: seq<Call>, requestId: string) {
    exists c :: 0 <= c < |calls| && calls[c].claim != Unclaimed && RequestId(calls[c].command) == requestId
  }

  predicate ExceedsWindow(arguments: map<string, Json>, window: int) {
    var requested :=
      if "timeout_s" in arguments then Some(arguments["timeout_s"])
      else if "timeout_seconds" in arguments then Some(arguments["timeout_seconds"])
      else None;
    requested.Some? && requested.value.Num? && requested.value.n > window
  }

  /** The checks between the route lookup and the idempotency claim; the answer is an error code. */
  function Gate(h: Hub.State, command: Command, picked: Option<string>): Option<string> {
    if picked.None? || command.connector !in h.registered then Some("device_offline")
    else
      var g := h.registered[command.connector];
      if g !in h.sessions || h.sessions[g].instance != picked.value then Some("device_offline")
      else if CapabilityOf(command.tool) !in CapabilitiesFor(h.sessions[g].profile) then Some("capability_not_granted")
      else if command.assertion.Some? && command.assertion.value.expiresAt <= Sec(h.now) then
        Some("app_assertion_expired_at_dispatch")
      else if ExceedsWindow(command.arguments, h.config.requestWindowSeconds) then Some("timeout_exceeds_relay_window")
      else None
  }

  // ------------------------------------------------------------------------- idempotency table

  /** INSERT OR IGNORE of a pending row. */
  function Insert(requests: map<RequestKey, Row>, key: RequestKey, row: Row): map<RequestKey, Row> {
    if key in requests then requests else requests[key := row]
  }

  function ClaimVerdict(row: Row, requestId: string, digest: Digest): Claim {
    if row.requestId == requestId then New
    else if row.digest != digest then Conflict
    else if row.state.Pending? then Busy
    else Replay
  }

  /** `complete_request` touches a pending row only. */
  function Settle(requests: map<RequestKey, Row>, key: RequestKey, state: RowState): map<RequestKey, Row> {
    if key in requests && requests[key].state.Pending?
    then requests[key := requests[key].(state := state)]
    else requests
  }

  // --------------------------------------------------------------------------- starting a call

  function Concluded(command: Command, digest: Option<Digest>, claim: Claim, outcome: Outcome): Call {
    Call(command, "", digest, claim, Unresolved, false, Ended(outcome))
  }

  function Refuse(d: Desk, command: Command, code: string): Desk {
    d.(calls := d.calls + [Concluded(command, None, Unclaimed, Raised(code))])
  }

  function FrameFor(command: Command, g: string, c: nat): Frame {
    RequestFrame(g, c, RequestId(command), command.tool, command.connector, command.arguments, command.key)
  }

  function Dispatch(d: Desk, command: Command, g: string, digest: Digest): Desk {
    var c := |d.calls|;
    d.(inFlight := if Mutating(command) then d.inFlight[CollisionOf(command) := RequestId(command)] else d.inFlight,
       pending := d.pending[Slot(g, RequestId(command)) := c],
       calls := d.calls + [Call(command, g, Some(digest), New, Unresolved, false, Sending)],
       sent := d.sent + [FrameFor(command, g, c)])
  }

  /** From the claim to the frame. A refusal by the collision guard leaves its row pending. */
  function Submit(d: Desk, command: Command, g: string, digest: Digest): (after: Desk)
    ensures |after.calls| == |d.calls| + 1 && d.calls <= after.calls && after.calls[|d.calls|].command == command
  {
    var key := KeyOf(command);
    var requests := Insert(d.requests, key, Row(RequestId(command), digest, Pending, |d.calls|));
    var d1 := d.(requests := requests);
    match ClaimVerdict(requests[key], RequestId(command), digest)
    case Conflict => d1.(calls := d.calls + [Concluded(command, Some(digest), Conflict, Raised("idempotency_conflict"))])
    case Busy => d1.(calls := d.calls + [Concluded(command, Some(digest), Busy, Raised("request_pending"))])
    case Replay =>
      d1.(calls := d.calls + [Concluded(command, Some(digest), Replay, Returned(requests[key].state.reply))])
    case _ =>
      if Mutating(command) && CollisionOf(command) in d.inFlight
      then d1.(calls := d.calls + [Concluded(command, Some(digest), New, Raised("command_in_flight"))])
      else Dispatch(d1, command, g, digest)
  }

  function DigestFor(h: Hub.State, command: Command, instance: string): Digest
    requires instance in h.instances
  {
    Digest(command.connector, command.tool, command.arguments, instance, h.instances[instance].epoch)
  }

  /** The stretch of `device_command` from its first statement to the frame write. */
  function StartStep(w: World, command: Command, picked: Option<string>): (after: World)
    ensures after.desk.calls == w.desk.calls ||
            (|after.desk.calls| == |w.desk.calls| + 1 && w.desk.calls <= after.desk.calls
             && after.desk.calls[|w.desk.calls|].command == command)
  {
    if command.assertion.None? && Used(w.desk.calls, command.uuid) then w
    else if command.assertion.Some? && command.assertion.value.connector != command.connector then
      w.(desk := Refuse(w.desk, command, "app_assertion_connector_mismatch"))
    else
      var h := Hub.SweepNow(w.hub);
      if !Hub.RouteAnswer(h.instances, command.connector, command.pinned, Hub.Cutoff(h), picked) then w
      else
        var refusal := Gate(h, command, picked);
        if refusal.Some? then World(h, Refuse(w.desk, command, refusal.value))
        else World(h, Submit(w.desk, command, h.registered[command.connector], DigestFor(h, command, picked.value)))
  }

  /** The call gets past every check that comes before the idempotency claim. */
  predicate ReachesClaim(w: World, command: Command, picked: Option<string>) {
    var h := Hub.SweepNow(w.hub);
    && (command.assertion.None? ==> !Used(w.desk.calls, command.uuid))
    && (command.assertion.Some? ==> command.assertion.value.connector == command.connector)
    && Hub.RouteAnswer(h.instances, command.connector, command.pinned, Hub.Cutoff(h), picked)
    && Gate(h, command, picked).None?
  }

  /** The table answers "new": the key is free, or its row was claimed under this very request id. */
  predicate AnswersNew(requests: map<RequestKey, Row>, command: Command) {
    KeyOf(command) in requests ==> requests[KeyOf(command)].requestId == RequestId(command)
  }

  predicate SlotFree(inFlight: map<CollisionKey, string>, command: Command) {
    Mutating(command) ==> CollisionOf(command) !in inFlight
  }

  /** The call is sent: what a caller could check before it. */
  predicate Sends(w: World, command: Command, picked: Option<string>) {
    ReachesClaim(w, command, picked) && AnswersNew(w.desk.requests, command) && SlotFree(w.desk.inFlight, command)
  }

  // -------------------------------------------------------------------------- resolving futures

  predicate Waits(d: Desk, c: nat) {
    c < |d.calls| && d.calls[c].phase == Waiting
  }

  function Resolve(d: Desk, c: nat, future: Future): Desk
    requires c < |d.calls|
  {
    if d.calls[c].future.Unresolved? then d.(calls := d.calls[c := d.calls[c].(future := future)]) else d
  }

  /** Call `c` is filed in the pending table of session `g`. */
  predicate FiledIn(calls: seq<Call>, pending: map<Slot, nat>, g: string, c: nat)
    requires c < |calls|
  {
    calls[c].session == g && Maps(pending, SlotOf(calls[c]), c)
  }

  function Break(call: Call): Call {
    if call.future.Unresolved? then call.(future := Broken) else call
  }

  function BreakAll(calls: seq<Call>, pending: map<Slot, nat>, g: string): (after: seq<Call>)
    ensures |after| == |calls|
  {
    seq(|calls|, c requires 0 <= c < |calls| => if FiledIn(calls, pending, g, c) then Break(calls[c]) else calls[c])
  }

  function Without(pending: map<Slot, nat>, g: string): map<Slot, nat> {
    map slot | slot in pending && slot.generation != g :: pending[slot]
  }

  /** `fail_pending` of session `g`: every open future it holds breaks, and its table empties. */
  function FailPending(d: Desk, g: string): Desk {
    d.(calls := BreakAll(d.calls, d.pending, g), pending := Without(d.pending, g))
  }

  function ReplyOf(status: ResponseStatus, payload: Json, bytes: nat): Reply {
    if status.StatusOk? && payload.Obj? then Reply(map["code" := Str("ok")] + payload.members, bytes)
    else if status.StatusOk? then Reply(map["code" := Str("ok"), "result" := payload], bytes)
    else Reply(map["code" := Str("device_error"), "error" := payload], bytes)
  }

  predicate ResponseMatches(w: World, g: string, connector: string, requestId: string, status: ResponseStatus)
    requires g in w.hub.sessions
  {
    && connector == w.hub.sessions[g].connector
    && Slot(g, requestId) in w.desk.pending
    && w.desk.pending[Slot(g, requestId)] < |w.desk.calls|
    && w.desk.calls[w.desk.pending[Slot(g, requestId)]].future.Unresolved?
    && !status.StatusOther?
  }

  /** A response that matches no open future ends the session. */
  function RespondStep(w: World, g: string, connector: string, requestId: string,
                       status: ResponseStatus, payload: Json, bytes: nat): (after: World)
    ensures |after.desk.calls| == |w.desk.calls|
  {
    if !Hub.Serves(w.hub, g) then w
    else if !ResponseMatches(w, g, connector, requestId, status) then w.(hub := Hub.SetStage(w.hub, g, Hub.Failing))
    else w.(desk := Resolve(w.desk, w.desk.pending[Slot(g, requestId)], Resolved(ReplyOf(status, payload, bytes))))
  }

  function TimerStep(d: Desk, c: nat, cancels: bool): Desk {
    if !Waits(d, c) then d
    else
      var d1 := if cancels then Resolve(d, c, Cancelled) else d;
      d1.(calls := d1.calls[c := d1.calls[c].(timedOut := true)])
  }

  predicate CancelReaches(h: Hub.State, d: Desk, connector: string, requestId: string, picked: Option<string>) {
    && picked.Some?
    && connector in h.registered
    && h.registered[connector] in h.sessions
    && h.sessions[h.registered[connector]].instance == picked.value
    && Slot(h.registered[connector], requestId) in d.pending
  }

  function CancelSendStep(w: World, connector: string, requestId: string, picked: Option<string>): World {
    var h := Hub.SweepNow(w.hub);
    if !Hub.RouteAnswer(h.instances, connector, None, Hub.Cutoff(h), picked) then w
    else if !CancelReaches(h, w.desk, connector, requestId, picked) then World(h, w.desk)
    else
      var g := h.registered[connector];
      World(h, w.desk.(sent := w.desk.sent + [CancelFrame(g, connector, requestId)],
                       cancelling := w.desk.cancelling + {w.desk.pending[Slot(g, requestId)]}))
  }

  function CancelResolveStep(d: Desk, c: nat): Desk {
    if c !in d.cancelling || c >= |d.calls| then d
    else Resolve(d, c, Resolved(CodeReply("cancelled"))).(cancelling := d.cancelling - {c})
  }

  // ------------------------------------------------------------------------------- ending a call

  /** The `finally` block: the pending entry and the collision slot are given back. */
  function EndCall(d: Desk, c: nat, outcome: Outcome): Desk
    requires c < |d.calls|
  {
    d.(calls := d.calls[c := d.calls[c].(phase := Ended(outcome))],
       pending := d.pending - {SlotOf(d.calls[c])},
       inFlight := if Mutating(d.calls[c].command) then d.inFlight - {CollisionOf(d.calls[c].command)} else d.inFlight)
  }

  function Finish(d: Desk, c: nat, outcome: Outcome, state: RowState): Desk
    requires c < |d.calls|
  {
    EndCall(d, c, outcome).(requests := Settle(d.requests, KeyOf(d.calls[c].command), state))
  }

  function FailCall(d: Desk, c: nat, code: string): Desk
    requires c < |d.calls|
  {
    Finish(d, c, Raised(code), Failed(CodeReply(code), c))
  }

  /** The wait of call `c` is over. */
  predicate Resumes(d: Desk, c: nat) {
    && Waits(d, c)
    && (d.calls[c].future.Broken? || d.calls[c].future.Resolved? || (d.calls[c].future.Cancelled? && d.calls[c].timedOut))
  }

  /** The resuming task reports the timeout instead of what the future holds. */
  predicate TimesOut(call: Call, resultWins: bool) {
    call.timedOut && (call.future.Cancelled? || !resultWins)
  }

  /** The waiting task resumes. */
  function WakeStep(d: Desk, c: nat, resultWins: bool): (after: Desk)
    ensures |after.calls| == |d.calls|
  {
    if !Resumes(d, c) then d
    else if TimesOut(d.calls[c], resultWins) then FailCall(d, c, "device_timeout")
    else if d.calls[c].future.Broken? then FailCall(d, c, "device_offline")
    else if d.calls[c].future.reply.bytes > RESULT_MAX_BYTES then FailCall(d, c, "result_too_large")
    else Finish(d, c, Returned(d.calls[c].future.reply), Completed(d.calls[c].future.reply, c))
  }

  function SendDoneStep(d: Desk, c: nat): Desk {
    if c < |d.calls| && d.calls[c].phase == Sending
    then d.(calls := d.calls[c := d.calls[c].(phase := Waiting)]) else d
  }

  function SendFailsStep(d: Desk, c: nat): Desk {
    if c < |d.calls| && d.calls[c].phase == Sending then FailCall(d, c, "device_offline") else d
  }

  /** Task cancellation cancels the future that the task waits for, and runs the `finally` block and
      no `except` block. */
  function AbandonStep(d: Desk, c: nat): Desk {
    if c < |d.calls| && Live(d.calls[c])
    then EndCall(if Waits(d, c) then Resolve(d, c, Cancelled) else d, c, Lost)
    else d
  }

  /** After a restart the table is what it was; guard, futures and tasks are gone. */
  function RestartDesk(d: Desk): Desk {
    d.(inFlight := map[],
       pending := map[],
       cancelling := {},
       calls := seq(|d.calls|, c requires 0 <= c < |d.calls| =>
         if Live(d.calls[c]) then d.calls[c].(phase := Ended(Lost)) else d.calls[c]))
  }

  // -------------------------------------------------------------------------------------- worlds

  /** What a registry event does to the desk: takeover and teardown fail the futures of the session
      that goes, a restart loses them all. */
  function DeskAfter(w: World, e: Hub.Event): (after: Desk)
    ensures |after.calls| == |w.desk.calls|
  {
    match e
    case Authenticate(g, id, secret, connector, _, epoch, signed) =>
      if Hub.Authenticates(w.hub, g, id, secret, connector, epoch, signed) && connector in w.hub.registered
      then FailPending(w.desk, w.hub.registered[connector]) else w.desk
    case Teardown(g) =>
      if g in w.hub.connections && w.hub.connections[g].stage != Hub.Closed then FailPending(w.desk, g) else w.desk
    case Restart => RestartDesk(w.desk)
    case _ => w.desk
  }

  function Apply(w: World, e: Event): World {
    match e
    case HubEvent(event) => World(Hub.Step(w.hub, event), DeskAfter(w, event))
    case Start(command, picked) => StartStep(w, command, picked)
    case SendDone(c) => w.(desk := SendDoneStep(w.desk, c))
    case SendFails(c) => w.(desk := SendFailsStep(w.desk, c))
    case TimerFires(c, cancels) => w.(desk := TimerStep(w.desk, c, cancels))
    case Wake(c, resultWins) => w.(desk := WakeStep(w.desk, c, resultWins))
    case Abandon(c) => w.(desk := AbandonStep(w.desk, c))
    case Respond(g, connector, requestId, status, payload, bytes) =>
      RespondStep(w, g, connector, requestId, status, payload, bytes)
    case CancelSend(connector, requestId, picked) => CancelSendStep(w, connector, requestId, picked)
    case CancelResolve(c) => w.(desk := CancelResolveStep(w.desk, c))
  }

  /** The world after a run from the empty store. */
  function Run(config: Hub.Config, now: int, events: seq<Event>): World {
    if events == [] then Initial(config, now)
    else Apply(Run(config, now, events[..|events| - 1]), events[|events| - 1])
  }
}
