/** What every event of the broker keeps, whatever request ids the callers bring. */
module BrokerInvariants {
  import opened Basics
  import opened Catalog
  import opened Broker
  import Hub
  import HubInvariants

  // -------------------------------------------------------------------------------- invariants

  /** A live call claimed its row; a claim rests on a row with the same request id; a replay
      returned the settled result of a row with the same digest. */
  ghost predicate ClaimHolds(call: Call, requests: map<RequestKey, Row>) {
    var key := KeyOf(call.command);
    && (Live(call) ==> call.claim.New?)
    && (call.claim.New? ==> key in requests && requests[key].requestId == RequestId(call.command))
    && (call.claim.Replay? ==>
          && key in requests
          && !requests[key].state.Pending?
          && call.phase == Ended(Returned(requests[key].state.reply))
          && call.digest == Some(requests[key].digest))
  }

  ghost predicate ClaimsHold(calls: seq<Call>, requests: map<RequestKey, Row>) {
    forall c :: 0 <= c < |calls| ==> ClaimHolds(calls[c], requests)
  }

  /** The owner of row `key` is a call that claimed exactly this row. */
  ghost predicate Owned(key: RequestKey, row: Row, calls: seq<Call>) {
    && row.owner < |calls|
    && var call := calls[row.owner];
       && call.claim.New?
       && KeyOf(call.command) == key
       && RequestId(call.command) == row.requestId
       && call.digest == Some(row.digest)
  }

  ghost predicate RowsOwned(requests: map<RequestKey, Row>, calls: seq<Call>) {
    forall key :: key in requests ==> Owned(key, requests[key], calls)
  }

  /** The call occupies the collision slot `k`. */
  ghost predicate Holds(call: Call, k: CollisionKey) {
    Live(call) && Mutating(call.command) && CollisionOf(call.command) == k
  }

  /** The guard holds precisely the slots of live mutating calls, each slot for one call. */
  ghost predicate GuardExact(calls: seq<Call>, inFlight: map<CollisionKey, string>) {
    && (forall c, k :: 0 <= c < |calls| && Holds(calls[c], k) ==> Maps(inFlight, k, RequestId(calls[c].command)))
    && (forall k :: k in inFlight ==> exists c :: 0 <= c < |calls| && Holds(calls[c], k))
    && (forall c, d, k :: 0 <= c < d < |calls| && Holds(calls[c], k) ==> !Holds(calls[d], k))
  }

  /** A pending entry files a live call under its own request id, in the session that is
      registered for its connector. */
  ghost predicate FiledRight(slot: Slot, c: nat, calls: seq<Call>, registered: map<string, string>) {
    && c < |calls|
    && Live(calls[c])
    && SlotOf(calls[c]) == slot
    && Maps(registered, calls[c].command.connector, slot.generation)
  }

  ghost predicate Filed(pending: map<Slot, nat>, calls: seq<Call>, registered: map<string, string>) {
    forall slot :: slot in pending ==> FiledRight(slot, pending[slot], calls, registered)
  }

  /** A request frame carries the command of the call that sent it. */
  ghost predicate Framed(frame: Frame, calls: seq<Call>) {
    frame.RequestFrame? ==>
      && frame.call < |calls|
      && calls[frame.call].claim.New?
      && frame == FrameFor(calls[frame.call].command, calls[frame.call].session, frame.call)
  }

  /** Request frames come from distinct calls, in the order of the calls. */
  ghost predicate FramesExact(sent: seq<Frame>, calls: seq<Call>) {
    && (forall k :: 0 <= k < |sent| ==> Framed(sent[k], calls))
    && (forall j, k :: 0 <= j < k < |sent| && sent[j].RequestFrame? && sent[k].RequestFrame? ==>
          sent[j].call < sent[k].call)
  }

  ghost predicate DeskInv(d: Desk, registered: map<string, string>) {
    && ClaimsHold(d.calls, d.requests)
    && RowsOwned(d.requests, d.calls)
    && GuardExact(d.calls, d.inFlight)
    && Filed(d.pending, d.calls, registered)
    && FramesExact(d.sent, d.calls)
  }

  ghost predicate Inv(w: World) {
    HubInvariants.Inv(w.hub) && DeskInv(w.desk, w.hub.registered)
  }

  // ------------------------------------------------------------ calls that keep their standing

  /** Only the future, the timer flag and the step from sending to waiting may differ. */
  ghost predicate SameStanding(x: Call, y: Call) {
    && x.command == y.command && x.session == y.session && x.digest == y.digest && x.claim == y.claim
    && (x.phase.Ended? || y.phase.Ended? ==> x.phase == y.phase)
  }

  ghost predicate Standing(before: seq<Call>, after: seq<Call>) {
    |after| == |before| && forall c :: 0 <= c < |before| ==> SameStanding(before[c], after[c])
  }

  lemma StandingKeepsClaims(before: seq<Call>, after: seq<Call>, requests: map<RequestKey, Row>)
    requires Standing(before, after) && ClaimsHold(before, requests)
    ensures ClaimsHold(after, requests)
  {
    forall c | 0 <= c < |after| ensures ClaimHolds(after[c], requests) {
      assert ClaimHolds(before[c], requests) && SameStanding(before[c], after[c]);
    }
  }

  lemma StandingKeepsOwners(before: seq<Call>, after: seq<Call>, requests: map<RequestKey, Row>)
    requires Standing(before, after) && RowsOwned(requests, before)
    ensures RowsOwned(requests, after)
  {
    forall key | key in requests ensures Owned(key, requests[key], after) {
      assert Owned(key, requests[key], before);
    }
  }

  lemma StandingKeepsGuard(before: seq<Call>, after: seq<Call>, inFlight: map<CollisionKey, string>)
    requires Standing(before, after) && GuardExact(before, inFlight)
    ensures GuardExact(after, inFlight)
  {
    assert forall c, k :: 0 <= c < |after| ==> (Holds(after[c], k) <==> Holds(before[c], k));
    forall k | k in inFlight ensures exists c :: 0 <= c < |after| && Holds(after[c], k) {
      var c :| 0 <= c < |before| && Holds(before[c], k);
      assert Holds(after[c], k);
    }
  }

  lemma StandingKeepsFiling(before: seq<Call>, after: seq<Call>, pending: map<Slot, nat>, pending': map<Slot, nat>,
                            registered: map<string, string>)
    requires Standing(before, after) && Filed(pending, before, registered)
    requires forall slot :: slot in pending' ==> slot in pending && pending'[slot] == pending[slot]
    ensures Filed(pending', after, registered)
  {
    forall slot | slot in pending' ensures FiledRight(slot, pending'[slot], after, registered) {
      assert FiledRight(slot, pending[slot], before, registered);
    }
  }

  lemma StandingKeepsFrames(before: seq<Call>, after: seq<Call>, sent: seq<Frame>)
    requires Standing(before, after) && FramesExact(sent, before)
    ensures FramesExact(sent, after)
  {
    forall k | 0 <= k < |sent| ensures Framed(sent[k], after) {
      assert Framed(sent[k], before);
    }
  }

  /** Calls keep their standing, pending entries may go, and the rest of the desk is the same. */
  ghost predicate Resolves(d: Desk, d': Desk) {
    && Standing(d.calls, d'.calls)
    && d'.requests == d.requests && d'.inFlight == d.inFlight && d'.sent == d.sent
    && forall slot :: slot in d'.pending ==> slot in d.pending && d'.pending[slot] == d.pending[slot]
  }

  lemma StandingKeeps(d: Desk, d': Desk, registered: map<string, string>)
    requires DeskInv(d, registered) && Resolves(d, d')
    ensures DeskInv(d', registered)
  {
    StandingKeepsClaims(d.calls, d'.calls, d.requests);
    StandingKeepsOwners(d.calls, d'.calls, d.requests);
    StandingKeepsGuard(d.calls, d'.calls, d.inFlight);
    StandingKeepsFiling(d.calls, d'.calls, d.pending, d'.pending, registered);
    StandingKeepsFrames(d.calls, d'.calls, d.sent);
  }

  lemma FailPendingResolves(d: Desk, g: string)
    ensures Resolves(d, FailPending(d, g))
  {
  }

  /** Once the futures of session `g` have failed, the registry may let `g` go. */
  lemma FailingKeeps(d: Desk, g: string, registered: map<string, string>, registered': map<string, string>)
    requires DeskInv(d, registered)
    requires forall c :: c in registered && registered[c] != g ==> Maps(registered', c, registered[c])
    ensures DeskInv(FailPending(d, g), registered')
  {
    var d' := FailPending(d, g);
    FailPendingResolves(d, g);
    StandingKeeps(d, d', registered);
    forall slot | slot in d'.pending ensures FiledRight(slot, d'.pending[slot], d'.calls, registered') {
      assert FiledRight(slot, d'.pending[slot], d'.calls, registered);
    }
  }

  // ------------------------------------------------------------------------------ appending a call

  /** The table keeps every row; a settled row keeps its result as well. */
  ghost predicate TableGrows(before: map<RequestKey, Row>, after: map<RequestKey, Row>) {
    && before.Keys <= after.Keys
    && forall key :: key in before ==> RowFollows(before[key], after[key])
  }

  ghost predicate RowFollows(x: Row, y: Row) {
    && y.requestId == x.requestId && y.digest == x.digest && y.owner == x.owner
    && (!x.state.Pending? ==> y.state == x.state)
  }

  lemma GrowingKeepsClaims(calls: seq<Call>, before: map<RequestKey, Row>, after: map<RequestKey, Row>)
    requires ClaimsHold(calls, before) && TableGrows(before, after)
    ensures ClaimsHold(calls, after)
  {
    forall c | 0 <= c < |calls| ensures ClaimHolds(calls[c], after) {
      assert ClaimHolds(calls[c], before);
      var key := KeyOf(calls[c].command);
      assert key in before ==> RowFollows(before[key], after[key]);
    }
  }

  lemma GrowingKeepsOwners(calls: seq<Call>, before: map<RequestKey, Row>, after: map<RequestKey, Row>)
    requires RowsOwned(before, calls) && TableGrows(before, after) && after.Keys == before.Keys
    ensures RowsOwned(after, calls)
  {
    forall key | key in after ensures Owned(key, after[key], calls) {
      assert Owned(key, before[key], calls) && RowFollows(before[key], after[key]);
    }
  }

  lemma AppendKeepsOwners(requests: map<RequestKey, Row>, calls: seq<Call>, call: Call)
    requires RowsOwned(requests, calls)
    ensures RowsOwned(requests, calls + [call])
  {
    forall key | key in requests ensures Owned(key, requests[key], calls + [call]) {
      assert Owned(key, requests[key], calls);
    }
  }

  lemma AppendKeepsFiling(pending: map<Slot, nat>, calls: seq<Call>, call: Call, registered: map<string, string>)
    requires Filed(pending, calls, registered)
    ensures Filed(pending, calls + [call], registered)
  {
    forall slot | slot in pending ensures FiledRight(slot, pending[slot], calls + [call], registered) {
      assert FiledRight(slot, pending[slot], calls, registered);
    }
  }

  lemma AppendKeepsFrames(sent: seq<Frame>, calls: seq<Call>, call: Call)
    requires FramesExact(sent, calls)
    ensures FramesExact(sent, calls + [call])
  {
    forall k | 0 <= k < |sent| ensures Framed(sent[k], calls + [call]) {
      assert Framed(sent[k], calls);
    }
  }

  lemma AppendKeepsGuard(calls: seq<Call>, call: Call, inFlight: map<CollisionKey, string>)
    requires GuardExact(calls, inFlight) && !Live(call)
    ensures GuardExact(calls + [call], inFlight)
  {
    var after := calls + [call];
    forall k | k in inFlight ensures exists c :: 0 <= c < |after| && Holds(after[c], k) {
      var c :| 0 <= c < |calls| && Holds(calls[c], k);
      assert Holds(after[c], k);
    }
  }

  /** A call that is over as soon as it starts: refused, conflicting, busy or replayed. */
  lemma ConcludedKeeps(d: Desk, call: Call, registered: map<string, string>)
    requires DeskInv(d, registered) && !Live(call) && ClaimHolds(call, d.requests)
    ensures DeskInv(d.(calls := d.calls + [call]), registered)
  {
    AppendKeepsOwners(d.requests, d.calls, call);
    AppendKeepsGuard(d.calls, call, d.inFlight);
    AppendKeepsFiling(d.pending, d.calls, call, registered);
    AppendKeepsFrames(d.sent, d.calls, call);
  }

  lemma DispatchKeepsGuard(calls: seq<Call>, call: Call, inFlight: map<CollisionKey, string>)
    requires GuardExact(calls, inFlight) && Live(call) && Mutating(call.command)
    requires CollisionOf(call.command) !in inFlight
    ensures GuardExact(calls + [call], inFlight[CollisionOf(call.command) := RequestId(call.command)])
  {
    var after := calls + [call];
    var k0 := CollisionOf(call.command);
    assert Holds(after[|calls|], k0);
    forall k | k in inFlight ensures exists c :: 0 <= c < |after| && Holds(after[c], k) {
      var c :| 0 <= c < |calls| && Holds(calls[c], k);
      assert Holds(after[c], k);
    }
  }

  lemma ReadingKeepsGuard(calls: seq<Call>, call: Call, inFlight: map<CollisionKey, string>)
    requires GuardExact(calls, inFlight) && !Mutating(call.command)
    ensures GuardExact(calls + [call], inFlight)
  {
    var after := calls + [call];
    forall k | k in inFlight ensures exists c :: 0 <= c < |after| && Holds(after[c], k) {
      var c :| 0 <= c < |calls| && Holds(calls[c], k);
      assert Holds(after[c], k);
    }
  }

  /** A claiming call and the row it finds or inserts. */
  lemma ClaimingKeepsTable(d: Desk, call: Call, digest: Digest, requests: map<RequestKey, Row>)
    requires ClaimsHold(d.calls, d.requests) && RowsOwned(d.requests, d.calls)
    requires call.claim.New? && call.digest == Some(digest)
    requires requests == Insert(d.requests, KeyOf(call.command), Row(RequestId(call.command), digest, Pending, |d.calls|))
    requires requests[KeyOf(call.command)].requestId == RequestId(call.command)
    ensures ClaimsHold(d.calls + [call], requests) && RowsOwned(requests, d.calls + [call])
  {
    GrowingKeepsClaims(d.calls, d.requests, requests);
    AppendKeepsOwners(d.requests, d.calls, call);
    var key := KeyOf(call.command);
    assert ClaimHolds(call, requests);
    forall k | k in requests ensures Owned(k, requests[k], d.calls + [call]) {
      if k in d.requests {
        assert Owned(k, d.requests[k], d.calls + [call]);
      } else {
        assert k == key;
      }
    }
  }

  lemma DispatchKeepsFiling(pending: map<Slot, nat>, calls: seq<Call>, call: Call, registered: map<string, string>)
    requires Filed(pending, calls, registered) && Live(call)
    requires Maps(registered, call.command.connector, call.session)
    ensures Filed(pending[SlotOf(call) := |calls|], calls + [call], registered)
  {
    AppendKeepsFiling(pending, calls, call, registered);
  }

  lemma DispatchKeepsFrames(sent: seq<Frame>, calls: seq<Call>, call: Call)
    requires FramesExact(sent, calls) && call.claim.New?
    ensures FramesExact(sent + [FrameFor(call.command, call.session, |calls|)], calls + [call])
  {
    AppendKeepsFrames(sent, calls, call);
    var after := sent + [FrameFor(call.command, call.session, |calls|)];
    forall j, k | 0 <= j < k < |after| && after[j].RequestFrame? && after[k].RequestFrame?
      ensures after[j].call < after[k].call
    {
      assert Framed(sent[j], calls);
    }
  }

  /** A call that claimed its row and then met a held collision slot. */
  lemma CollidingKeeps(d: Desk, call: Call, digest: Digest, requests: map<RequestKey, Row>, registered: map<string, string>)
    requires DeskInv(d, registered) && call.claim.New? && call.digest == Some(digest) && !Live(call)
    requires requests == Insert(d.requests, KeyOf(call.command), Row(RequestId(call.command), digest, Pending, |d.calls|))
    requires requests[KeyOf(call.command)].requestId == RequestId(call.command)
    ensures DeskInv(d.(requests := requests, calls := d.calls + [call]), registered)
  {
    ClaimingKeepsTable(d, call, digest, requests);
    AppendKeepsGuard(d.calls, call, d.inFlight);
    AppendKeepsFiling(d.pending, d.calls, call, registered);
    AppendKeepsFrames(d.sent, d.calls, call);
  }

  lemma DispatchKeeps(d: Desk, command: Command, g: string, digest: Digest, requests: map<RequestKey, Row>,
                      registered: map<string, string>)
    requires DeskInv(d, registered) && Maps(registered, command.connector, g)
    requires requests == Insert(d.requests, KeyOf(command), Row(RequestId(command), digest, Pending, |d.calls|))
    requires requests[KeyOf(command)].requestId == RequestId(command)
    requires Mutating(command) ==> CollisionOf(command) !in d.inFlight
    ensures DeskInv(Dispatch(d.(requests := requests), command, g, digest), registered)
  {
    var call := Call(command, g, Some(digest), New, Unresolved, false, Sending);
    ClaimingKeepsTable(d, call, digest, requests);
    if Mutating(command) {
      DispatchKeepsGuard(d.calls, call, d.inFlight);
    } else {
      ReadingKeepsGuard(d.calls, call, d.inFlight);
    }
    DispatchKeepsFiling(d.pending, d.calls, call, registered);
    DispatchKeepsFrames(d.sent, d.calls, call);
  }

  lemma SubmitKeeps(d: Desk, command: Command, g: string, digest: Digest, registered: map<string, string>)
    requires DeskInv(d, registered) && Maps(registered, command.connector, g)
    ensures DeskInv(Submit(d, command, g, digest), registered)
  {
    var key := KeyOf(command);
    var requests := Insert(d.requests, key, Row(RequestId(command), digest, Pending, |d.calls|));
    match ClaimVerdict(requests[key], RequestId(command), digest)
    case Conflict =>
      ConcludedKeeps(d, Concluded(command, Some(digest), Conflict, Raised("idempotency_conflict")), registered);
    case Busy =>
      ConcludedKeeps(d, Concluded(command, Some(digest), Busy, Raised("request_pending")), registered);
    case Replay =>
      ConcludedKeeps(d, Concluded(command, Some(digest), Replay, Returned(requests[key].state.reply)), registered);
    case _ =>
      if Mutating(command) && CollisionOf(command) in d.inFlight {
        CollidingKeeps(d, Concluded(command, Some(digest), New, Raised("command_in_flight")), digest, requests, registered);
      } else {
        DispatchKeeps(d, command, g, digest, requests, registered);
      }
  }

  // ---------------------------------------------------------------------------------- ending a call

  /** Call `c` ends; the others are untouched. */
  function WithEnd(calls: seq<Call>, c: nat, outcome: Outcome): seq<Call>
    requires c < |calls|
  {
    calls[c := calls[c].(phase := Ended(outcome))]
  }

  lemma EndKeepsClaims(calls: seq<Call>, c: nat, outcome: Outcome, requests: map<RequestKey, Row>)
    requires c < |calls| && Live(calls[c]) && ClaimsHold(calls, requests)
    ensures ClaimsHold(WithEnd(calls, c, outcome), requests)
  {
    forall x | 0 <= x < |calls| ensures ClaimHolds(WithEnd(calls, c, outcome)[x], requests) {
      assert ClaimHolds(calls[x], requests);
    }
  }

  lemma EndKeepsOwners(calls: seq<Call>, c: nat, outcome: Outcome, requests: map<RequestKey, Row>)
    requires c < |calls| && RowsOwned(requests, calls)
    ensures RowsOwned(requests, WithEnd(calls, c, outcome))
  {
    forall key | key in requests ensures Owned(key, requests[key], WithEnd(calls, c, outcome)) {
      assert Owned(key, requests[key], calls);
    }
  }

  lemma EndKeepsFrames(calls: seq<Call>, c: nat, outcome: Outcome, sent: seq<Frame>)
    requires c < |calls| && FramesExact(sent, calls)
    ensures FramesExact(sent, WithEnd(calls, c, outcome))
  {
    forall k | 0 <= k < |sent| ensures Framed(sent[k], WithEnd(calls, c, outcome)) {
      assert Framed(sent[k], calls);
    }
  }

  lemma EndKeepsFiling(calls: seq<Call>, c: nat, outcome: Outcome, pending: map<Slot, nat>, registered: map<string, string>)
    requires c < |calls| && Filed(pending, calls, registered)
    ensures Filed(pending - {SlotOf(calls[c])}, WithEnd(calls, c, outcome), registered)
  {
    forall slot | slot in pending && slot != SlotOf(calls[c])
      ensures FiledRight(slot, pending[slot], WithEnd(calls, c, outcome), registered)
    {
      assert FiledRight(slot, pending[slot], calls, registered);
    }
  }

  lemma EndKeepsGuard(calls: seq<Call>, c: nat, outcome: Outcome, inFlight: map<CollisionKey, string>)
    requires c < |calls| && Live(calls[c]) && GuardExact(calls, inFlight)
    ensures GuardExact(WithEnd(calls, c, outcome),
                       if Mutating(calls[c].command) then inFlight - {CollisionOf(calls[c].command)} else inFlight)
  {
    var after := WithEnd(calls, c, outcome);
    assert forall x, k :: 0 <= x < |calls| && x != c ==> (Holds(after[x], k) <==> Holds(calls[x], k));
    assert forall k :: !Holds(after[c], k);
    assert Mutating(calls[c].command) ==> Holds(calls[c], CollisionOf(calls[c].command));
    forall k | k in inFlight && !Holds(calls[c], k) ensures exists x :: 0 <= x < |after| && Holds(after[x], k) {
      var x :| 0 <= x < |calls| && Holds(calls[x], k);
      assert Holds(after[x], k);
    }
  }

  lemma EndKeeps(d: Desk, c: nat, outcome: Outcome, registered: map<string, string>)
    requires DeskInv(d, registered) && c < |d.calls| && Live(d.calls[c])
    ensures DeskInv(EndCall(d, c, outcome), registered)
  {
    EndKeepsClaims(d.calls, c, outcome, d.requests);
    EndKeepsOwners(d.calls, c, outcome, d.requests);
    EndKeepsFrames(d.calls, c, outcome, d.sent);
    EndKeepsFiling(d.calls, c, outcome, d.pending, registered);
    EndKeepsGuard(d.calls, c, outcome, d.inFlight);
  }

  lemma FinishKeeps(d: Desk, c: nat, outcome: Outcome, state: RowState, registered: map<string, string>)
    requires DeskInv(d, registered) && c < |d.calls| && Live(d.calls[c])
    ensures DeskInv(Finish(d, c, outcome, state), registered)
  {
    EndKeeps(d, c, outcome, registered);
    var d1 := EndCall(d, c, outcome);
    var requests := Settle(d.requests, KeyOf(d.calls[c].command), state);
    assert TableGrows(d.requests, requests);
    GrowingKeepsClaims(d1.calls, d.requests, requests);
    GrowingKeepsOwners(d1.calls, d.requests, requests);
  }

  lemma WakeKeeps(d: Desk, c: nat, resultWins: bool, registered: map<string, string>)
    requires DeskInv(d, registered)
    ensures DeskInv(WakeStep(d, c, resultWins), registered)
  {
    if Resumes(d, c) {
      if TimesOut(d.calls[c], resultWins) {
        FinishKeeps(d, c, Raised("device_timeout"), Failed(CodeReply("device_timeout"), c), registered);
      } else if d.calls[c].future.Broken? {
        FinishKeeps(d, c, Raised("device_offline"), Failed(CodeReply("device_offline"), c), registered);
      } else if d.calls[c].future.reply.bytes > RESULT_MAX_BYTES {
        FinishKeeps(d, c, Raised("result_too_large"), Failed(CodeReply("result_too_large"), c), registered);
      } else {
        FinishKeeps(d, c, Returned(d.calls[c].future.reply), Completed(d.calls[c].future.reply, c), registered);
      }
    }
  }

  lemma RestartKeeps(d: Desk)
    requires ClaimsHold(d.calls, d.requests) && RowsOwned(d.requests, d.calls) && FramesExact(d.sent, d.calls)
    ensures DeskInv(RestartDesk(d), map[])
  {
    var d' := RestartDesk(d);
    forall c | 0 <= c < |d.calls| ensures ClaimHolds(d'.calls[c], d.requests) {
      assert ClaimHolds(d.calls[c], d.requests);
    }
    forall key | key in d.requests ensures Owned(key, d.requests[key], d'.calls) {
      assert Owned(key, d.requests[key], d.calls);
    }
    forall k | 0 <= k < |d.sent| ensures Framed(d.sent[k], d'.calls) {
      assert Framed(d.sent[k], d.calls);
    }
  }

  // ----------------------------------------------------------------------------------------- worlds

  lemma GainingKeeps(d: Desk, registered: map<string, string>, registered': map<string, string>)
    requires DeskInv(d, registered)
    requires forall c :: c in registered ==> Maps(registered', c, registered[c])
    ensures DeskInv(d, registered')
  {
    forall slot | slot in d.pending ensures FiledRight(slot, d.pending[slot], d.calls, registered') {
      assert FiledRight(slot, d.pending[slot], d.calls, registered);
    }
  }

  lemma TeardownMoves(h: Hub.State, g: string)
    ensures var after := Hub.TeardownStep(h, g).registered;
      && (forall c :: c in h.registered && h.registered[c] != g ==> Maps(after, c, h.registered[c]))
      && (g !in h.connections || h.connections[g].stage.Closed? ==> after == h.registered)
  {
  }

  lemma OthersMoveNothing(h: Hub.State, e: Hub.Event)
    requires !e.Authenticate? && !e.Teardown? && !e.Restart?
    ensures Hub.Step(h, e).registered == h.registered
  {
    match e
    case Enroll(_, _, _, _, _, _, _) =>
    case Heartbeat(_, _) =>
    case Revoke(_) =>
    case Delete(_) =>
    case _ =>
  }

  /** A registry event unregisters only a session whose futures the desk fails with it. */
  lemma HubEventKeeps(w: World, e: Hub.Event)
    requires DeskInv(w.desk, w.hub.registered)
    ensures DeskInv(DeskAfter(w, e), Hub.Step(w.hub, e).registered)
  {
    var after := Hub.Step(w.hub, e).registered;
    match e
    case Authenticate(g, id, secret, connector, instance, epoch, signed) =>
      if connector in w.hub.registered {
        if Hub.Authenticates(w.hub, g, id, secret, connector, epoch, signed) {
          FailingKeeps(w.desk, w.hub.registered[connector], w.hub.registered, after);
        }
      } else {
        GainingKeeps(w.desk, w.hub.registered, after);
      }
    case Teardown(g) =>
      TeardownMoves(w.hub, g);
      if g in w.hub.connections && !w.hub.connections[g].stage.Closed? {
        FailingKeeps(w.desk, g, w.hub.registered, after);
      }
    case Restart => RestartKeeps(w.desk);
    case _ => OthersMoveNothing(w.hub, e);
  }

  lemma StartKeeps(w: World, command: Command, picked: Option<string>)
    requires DeskInv(w.desk, w.hub.registered)
    ensures DeskInv(StartStep(w, command, picked).desk, w.hub.registered)
  {
    if command.assertion.None? && Used(w.desk.calls, command.uuid) {
    } else if command.assertion.Some? && command.assertion.value.connector != command.connector {
      ConcludedKeeps(w.desk, Concluded(command, None, Unclaimed, Raised("app_assertion_connector_mismatch")), w.hub.registered);
    } else {
      var h := Hub.SweepNow(w.hub);
      if Hub.RouteAnswer(h.instances, command.connector, command.pinned, Hub.Cutoff(h), picked) {
        var refusal := Gate(h, command, picked);
        if refusal.Some? {
          ConcludedKeeps(w.desk, Concluded(command, None, Unclaimed, Raised(refusal.value)), w.hub.registered);
        } else {
          SubmitKeeps(w.desk, command, h.registered[command.connector], DigestFor(h, command, picked.value), h.registered);
        }
      }
    }
  }

  lemma CancelSendKeeps(w: World, connector: string, requestId: string, picked: Option<string>)
    requires DeskInv(w.desk, w.hub.registered)
    ensures DeskInv(CancelSendStep(w, connector, requestId, picked).desk, w.hub.registered)
  {
    var d' := CancelSendStep(w, connector, requestId, picked).desk;
    forall j, k | 0 <= j < k < |d'.sent| && d'.sent[j].RequestFrame? && d'.sent[k].RequestFrame?
      ensures d'.sent[j].call < d'.sent[k].call
    {
      assert k < |w.desk.sent|;
    }
    assert FramesExact(d'.sent, d'.calls);
  }

  lemma ResolveResolves(d: Desk, c: nat, future: Future)
    requires c < |d.calls|
    ensures Resolves(d, Resolve(d, c, future))
  {
  }

  lemma SendDoneResolves(d: Desk, c: nat)
    ensures Resolves(d, SendDoneStep(d, c))
  {
  }

  lemma TimerResolves(d: Desk, c: nat, cancels: bool)
    ensures Resolves(d, TimerStep(d, c, cancels))
  {
  }

  lemma CancelResolveResolves(d: Desk, c: nat)
    ensures Resolves(d, CancelResolveStep(d, c))
  {
  }

  lemma RespondResolves(w: World, e: Event)
    requires e.Respond?
    ensures Resolves(w.desk, Apply(w, e).desk)
  {
    var slot := Slot(e.generation, e.requestId);
    if slot in w.desk.pending && w.desk.pending[slot] < |w.desk.calls| {
      ResolveResolves(w.desk, w.desk.pending[slot], Resolved(ReplyOf(e.status, e.payload, e.bytes)));
    }
  }

  lemma AbandonKeeps(d: Desk, c: nat, registered: map<string, string>)
    requires DeskInv(d, registered) && c < |d.calls| && Live(d.calls[c])
    ensures DeskInv(AbandonStep(d, c), registered)
  {
    if Waits(d, c) {
      ResolveResolves(d, c, Cancelled);
      StandingKeeps(d, Resolve(d, c, Cancelled), registered);
      EndKeeps(Resolve(d, c, Cancelled), c, Lost, registered);
    } else {
      EndKeeps(d, c, Lost, registered);
    }
  }

  lemma CallEndsKeep(d: Desk, c: nat, registered: map<string, string>)
    requires DeskInv(d, registered)
    ensures DeskInv(SendFailsStep(d, c), registered)
    ensures DeskInv(AbandonStep(d, c), registered)
  {
    if c < |d.calls| && Live(d.calls[c]) {
      AbandonKeeps(d, c, registered);
      FinishKeeps(d, c, Raised("device_offline"), Failed(CodeReply("device_offline"), c), registered);
    }
  }

  /** Outside registry events the hub is swept, or one session stops serving, or nothing happens. */
  lemma HubAfter(w: World, e: Event)
    requires !e.HubEvent?
    ensures var h := Apply(w, e).hub;
      || h == w.hub
      || h == Hub.SweepNow(w.hub)
      || (e.Respond? && Hub.Serves(w.hub, e.generation) && h == Hub.SetStage(w.hub, e.generation, Hub.Failing))
  {
  }

  lemma DeskStepKeeps(w: World, e: Event)
    requires DeskInv(w.desk, w.hub.registered)
    ensures DeskInv(Apply(w, e).desk, Apply(w, e).hub.registered)
  {
    match e
    case HubEvent(event) => HubEventKeeps(w, event);
    case Start(command, picked) => StartKeeps(w, command, picked); HubAfter(w, e);
    case Wake(c, wins) => WakeKeeps(w.desk, c, wins, w.hub.registered);
    case Respond(_, _, _, _, _, _) =>
      RespondResolves(w, e);
      StandingKeeps(w.desk, Apply(w, e).desk, w.hub.registered);
      HubAfter(w, e);
    case CancelSend(connector, requestId, picked) => CancelSendKeeps(w, connector, requestId, picked); HubAfter(w, e);
    case SendDone(c) => SendDoneResolves(w.desk, c); StandingKeeps(w.desk, SendDoneStep(w.desk, c), w.hub.registered);
    case SendFails(c) => CallEndsKeep(w.desk, c, w.hub.registered);
    case TimerFires(c, cancels) =>
      TimerResolves(w.desk, c, cancels);
      StandingKeeps(w.desk, TimerStep(w.desk, c, cancels), w.hub.registered);
    case Abandon(c) => CallEndsKeep(w.desk, c, w.hub.registered);
    case CancelResolve(c) =>
      CancelResolveResolves(w.desk, c);
      StandingKeeps(w.desk, CancelResolveStep(w.desk, c), w.hub.registered);
  }

  lemma HubPartKeeps(w: World, e: Event)
    requires HubInvariants.Inv(w.hub)
    ensures HubInvariants.Inv(Apply(w, e).hub)
  {
    if e.HubEvent? {
      HubInvariants.StepKeeps(w.hub, e.event);
    } else {
      HubAfter(w, e);
      HubInvariants.SweepKeeps(w.hub);
      if e.Respond? && Hub.Serves(w.hub, e.generation) {
        HubInvariants.StageKeeps(w.hub, e.generation, Hub.Failing);
      }
    }
  }

  /** Every event keeps the whole invariant. */
  lemma ApplyKeeps(w: World, e: Event)
    requires Inv(w)
    ensures Inv(Apply(w, e))
  {
    HubPartKeeps(w, e);
    DeskStepKeeps(w, e);
  }

  /** The invariant holds after every run. */
  lemma {:induction false} RunKeeps(config: Hub.Config, now: int, events: seq<Event>)
    ensures Inv(Run(config, now, events))
  {
    if events != [] {
      RunKeeps(config, now, events[..|events| - 1]);
      ApplyKeeps(Run(config, now, events[..|events| - 1]), events[|events| - 1]);
    }
  }
}
