/** What a call has to pass before it is sent, with each condition written out in the terms of the
    command, the sessions and the calls in progress, and what that means for every frame of a run. */
module DispatchLaws {
  import opened Basics
  import opened Catalog
  import opened Broker
  import opened BrokerInvariants
  import opened BrokerShapes
  import opened BrokerHistory
  import opened BrokerLedger
  import opened BrokerReplays
  import opened BrokerFrames
  import opened BrokerTheorems
  import opened BrokerRouting
  import Hub
  import HubInvariants
  import HubTheorems

  // ------------------------------------------------------------------------------------- refusals

  /** No row was found, no session is registered, or the registered one is of another instance. */
  predicate NoWayTo(h: Hub.State, connector: string, picked: Option<string>) {
    || picked == None
    || connector !in h.registered
    || h.registered[connector] !in h.sessions
    || h.sessions[h.registered[connector]].instance != picked.value
  }

  /** The profile under which the registered session was opened. */
  function SessionProfile(h: Hub.State, connector: string, picked: Option<string>): Profile
    requires !NoWayTo(h, connector, picked)
  {
    h.sessions[h.registered[connector]].profile
  }

  /** The signed assertion of the command has expired. */
  predicate AssertionExpired(h: Hub.State, command: Command) {
    command.assertion.Some? && command.assertion.value.expiresAt <= h.now / 1_000_000
  }

  /** The time that the command asks for, under "timeout_s" or else under "timeout_seconds", is an
      integer beyond the window; other values ask for nothing. */
  predicate AsksTooLong(arguments: map<string, Json>, window: int) {
    || ("timeout_s" in arguments && arguments["timeout_s"].Num? && arguments["timeout_s"].n > window)
    || ("timeout_s" !in arguments && "timeout_seconds" in arguments && arguments["timeout_seconds"].Num?
        && arguments["timeout_seconds"].n > window)
  }

  /** Which code each refusal carries: the first condition that fails decides. */
  lemma RefusalCodes(h: Hub.State, command: Command, picked: Option<string>)
    ensures var code := Gate(h, command, picked);
      if NoWayTo(h, command.connector, picked) then code == Some("device_offline")
      else if CapabilityOf(command.tool) !in CapabilitiesFor(SessionProfile(h, command.connector, picked)) then
        code == Some("capability_not_granted")
      else if AssertionExpired(h, command) then code == Some("app_assertion_expired_at_dispatch")
      else if AsksTooLong(command.arguments, h.config.requestWindowSeconds) then code == Some("timeout_exceeds_relay_window")
      else code == None
  {
  }

  /** Which verbs a profile is refused: those that reach beyond files without the full profile, those
      that change files under the read-only one, and no verb that only looks. */
  lemma RefusedVerbs(h: Hub.State, command: Command, picked: Option<string>)
    requires !NoWayTo(h, command.connector, picked)
    ensures var refused := Gate(h, command, picked) == Some("capability_not_granted");
      var profile := SessionProfile(h, command.connector, picked);
      && (ReachesBeyondFiles(command.tool) ==> (refused <==> profile != FullAgent))
      && (ChangesFiles(command.tool) ==> (refused <==> profile == ReadOnly))
      && (command.tool in {"files.list", "files.stat", "files.search", "files.read", "files.download"} ==> !refused)
  {
    RefusalCodes(h, command, picked);
    var profile := SessionProfile(h, command.connector, picked);
    if ReachesBeyondFiles(command.tool) {
      BeyondFilesNeedsFullAgent(command.tool, profile);
    }
    if ChangesFiles(command.tool) {
      ChangingFilesNeedsWrite(command.tool, profile);
    }
    if command.tool in {"files.list", "files.stat", "files.search", "files.read", "files.download"} {
      LookingIsGranted(command.tool, profile);
    }
  }

  /** The only effect on the desk is one ended call that claimed nothing and was told this code. */
  ghost predicate OnlyRefused(d: Desk, d': Desk, command: Command, code: string) {
    && d' == d.(calls := d'.calls) && |d'.calls| == |d.calls| + 1 && d'.calls[..|d.calls|] == d.calls
    && d'.calls[|d.calls|].command == command && d'.calls[|d.calls|].claim == Unclaimed
    && d'.calls[|d.calls|].phase == Ended(Raised(code))
  }

  /** A refused call leaves no other trace. */
  lemma RefusalLeavesNoTrace(w: World, command: Command, picked: Option<string>)
    requires command.assertion.None? ==> !Used(w.desk.calls, command.uuid)
    ensures command.assertion.Some? && command.assertion.value.connector != command.connector ==>
              OnlyRefused(w.desk, StartStep(w, command, picked).desk, command, "app_assertion_connector_mismatch")
    ensures (command.assertion.Some? ==> command.assertion.value.connector == command.connector)
            && Hub.RouteAnswer(Hub.SweepNow(w.hub).instances, command.connector, command.pinned, Hub.Cutoff(w.hub), picked)
            && Gate(Hub.SweepNow(w.hub), command, picked).Some? ==>
              OnlyRefused(w.desk, StartStep(w, command, picked).desk, command, Gate(Hub.SweepNow(w.hub), command, picked).value)
  {
  }

  // -------------------------------------------------------------------- what the spent token allows

  /** The device of the frame is enrolled, and the spent token that enrolled it allows the verb. */
  ghost predicate TokenAllows(h: Hub.State, frame: Frame)
    requires frame.RequestFrame?
  {
    && frame.connector in h.devices && h.devices[frame.connector].enrolled
    && h.devices[frame.connector].enrollment < |h.enrollments|
    && var token := h.enrollments[h.devices[frame.connector].enrollment].token;
       && token in h.tokens && h.tokens[token].connector == frame.connector && h.tokens[token].consumedAt.Some?
       && (ReachesBeyondFiles(frame.tool) ==> h.tokens[token].profile == FullAgent)
       && (ChangesFiles(frame.tool) ==> h.tokens[token].profile == ReadWrite || h.tokens[token].profile == FullAgent)
  }

  lemma EntitledIsAllowed(h: Hub.State, frame: Frame)
    requires HubInvariants.Inv(h) && frame.RequestFrame? && Entitled(h, frame)
    ensures TokenAllows(h, frame)
  {
    HubTheorems.SingleUse(h);
  }

  /** The sweep does not touch what a token allows. */
  lemma SweptAllows(h: Hub.State, frame: Frame)
    requires frame.RequestFrame? && TokenAllows(Hub.SweepNow(h), frame)
    ensures TokenAllows(h, frame)
  {
  }

  lemma StartAllowed(w: World, command: Command, picked: Option<string>, k: nat)
    requires HubInvariants.Inv(w.hub)
    ensures var sent := StartStep(w, command, picked).desk.sent;
      k < |sent| && sent[k].RequestFrame? ==> (k < |w.desk.sent| && sent[k] == w.desk.sent[k]) || TokenAllows(w.hub, sent[k])
  {
    StartSends(w, command, picked);
    var sent := StartStep(w, command, picked).desk.sent;
    if |w.desk.sent| <= k < |sent| && sent[k].RequestFrame? {
      HubInvariants.SweepKeeps(w.hub);
      RequestEntitled(Hub.SweepNow(w.hub), w.desk, command, picked);
      EntitledIsAllowed(Hub.SweepNow(w.hub), sent[k]);
      SweptAllows(w.hub, sent[k]);
    }
  }

  lemma EventAllowed(w: World, e: Event, k: nat, frame: Frame)
    requires HubInvariants.Inv(w.hub) && frame.RequestFrame?
    ensures k < |Apply(w, e).desk.sent| && Apply(w, e).desk.sent[k] == frame ==>
            (k < |w.desk.sent| && w.desk.sent[k] == frame) || (e.Start? && TokenAllows(w.hub, frame))
  {
    if e.Start? {
      StartAllowed(w, e.command, e.picked, k);
    } else {
      OthersSendNoRequest(w, e);
      if k < |Apply(w, e).desk.sent| && Apply(w, e).desk.sent[k] == frame {
        OldFramesStay(w.desk, Apply(w, e).desk, k);
      }
    }
  }

  /** The frame was sent by a start of the run, when the spent token of its device allowed the verb. */
  ghost predicate AllowedInRun(config: Hub.Config, now: int, events: seq<Event>, frame: Frame)
    requires frame.RequestFrame?
  {
    exists j :: 0 <= j < |events| && events[j].Start? && TokenAllows(Run(config, now, events[..j]).hub, frame)
  }

  lemma AllowedStays(config: Hub.Config, now: int, events: seq<Event>, frame: Frame)
    requires events != [] && frame.RequestFrame? && AllowedInRun(config, now, events[..|events| - 1], frame)
    ensures AllowedInRun(config, now, events, frame)
  {
    var init := events[..|events| - 1];
    var j :| 0 <= j < |init| && init[j].Start? && TokenAllows(Run(config, now, init[..j]).hub, frame);
    assert init[..j] == events[..j] && init[j] == events[j];
  }

  /** Over every run, each request frame for a verb that reaches beyond files went to a device whose
      spent token carries the full profile, and each one that changes files to a device whose token
      carries one of the two writing profiles. */
  lemma {:induction false} EveryRequestAllowed(config: Hub.Config, now: int, events: seq<Event>, k: nat)
    ensures var sent := Run(config, now, events).desk.sent;
      k < |sent| && sent[k].RequestFrame? ==> AllowedInRun(config, now, events, sent[k])
  {
    if events != [] {
      var init, last := events[..|events| - 1], events[|events| - 1];
      EveryRequestAllowed(config, now, init, k);
      RunKeeps(config, now, init);
      var frame := if k < |Run(config, now, events).desk.sent| then Some(Run(config, now, events).desk.sent[k]) else None;
      if frame.Some? && frame.value.RequestFrame? {
        EventAllowed(Run(config, now, init), last, k, frame.value);
        if k < |Run(config, now, init).desk.sent| && frame.value == Run(config, now, init).desk.sent[k] {
          AllowedStays(config, now, events, frame.value);
        }
      }
    }
  }

  // ------------------------------------------------------------------------------- keys and digests

  /** Requests share a row exactly if connector, client and idempotency key are the same. */
  predicate SameKey(a: Command, b: Command) {
    a.connector == b.connector && a.client == b.client && a.key == b.key
  }

  lemma KeysSeparate(a: Command, b: Command)
    ensures KeyOf(a) == KeyOf(b) <==> SameKey(a, b)
  {
  }

  /** Over every run in which no start claims a row again, no two request frames were sent for one
      connector, client and idempotency key. */
  lemma {:induction false} NoRequestSentTwice(config: Hub.Config, now: int, events: seq<Event>, j: nat, k: nat)
    requires Never(config, now, events, ClaimsAgain)
    ensures var d := Run(config, now, events).desk;
      j < k < |d.sent| && d.sent[j].RequestFrame? && d.sent[k].RequestFrame? ==>
        && d.sent[j].call < |d.calls| && d.sent[k].call < |d.calls|
        && !SameKey(d.calls[d.sent[j].call].command, d.calls[d.sent[k].call].command)
  {
    AtMostOneFramePerKey(config, now, events);
    OneFrameMeansOneKey(Run(config, now, events).desk, j, k);
  }

  lemma OneFrameMeansOneKey(d: Desk, j: nat, k: nat)
    requires OneFramePerKey(d.sent, d.calls)
    ensures j < k < |d.sent| && d.sent[j].RequestFrame? && d.sent[k].RequestFrame? ==>
      && d.sent[j].call < |d.calls| && d.sent[k].call < |d.calls|
      && !SameKey(d.calls[d.sent[j].call].command, d.calls[d.sent[k].call].command)
  {
    if j < k < |d.sent| && d.sent[j].RequestFrame? && d.sent[k].RequestFrame? {
      assert FrameKey(d.sent[j], d.calls) != FrameKey(d.sent[k], d.calls);
    }
  }

  /** The digest of a call names what its command asks for. */
  predicate DigestNames(call: Call) {
    call.digest.Some? ==>
      && call.digest.value.connector == call.command.connector
      && call.digest.value.tool == call.command.tool
      && call.digest.value.arguments == call.command.arguments
  }

  /** A call that reaches the claim is submitted for its own connector, tool and arguments, and for the
      instance that was picked at its present context epoch. */
  lemma DigestIs(w: World, command: Command, picked: Option<string>)
    requires ReachesClaim(w, command, picked)
    ensures var calls := StartStep(w, command, picked).desk.calls;
      && |calls| == |w.desk.calls| + 1 && picked.Some? && picked.value in w.hub.instances
      && calls[|w.desk.calls|].digest ==
         Some(Digest(command.connector, command.tool, command.arguments, picked.value, w.hub.instances[picked.value].epoch))
  {
    ReachingClaimSubmits(w, command, picked);
    SubmitDigests(w.desk, command, Target(w, command, picked), DigestOf(w, command, picked));
    LiveRowSweeps(w, command, picked);
  }

  lemma SubmitDigests(d: Desk, command: Command, g: string, digest: Digest)
    ensures |Submit(d, command, g, digest).calls| == |d.calls| + 1 && Submit(d, command, g, digest).calls[|d.calls|].digest == Some(digest)
  {
  }

  lemma LiveRowSweeps(w: World, command: Command, picked: Option<string>)
    requires ReachesClaim(w, command, picked)
    ensures picked.Some? && picked.value in w.hub.instances
    ensures Hub.SweepNow(w.hub).instances[picked.value].epoch == w.hub.instances[picked.value].epoch
  {
  }

  lemma NewCallNamed(w: World, command: Command, picked: Option<string>)
    ensures var calls := StartStep(w, command, picked).desk.calls; |calls| > |w.desk.calls| ==> DigestNames(calls[|w.desk.calls|])
  {
    ReachingClaimSubmits(w, command, picked);
    if ReachesClaim(w, command, picked) {
      DigestIs(w, command, picked);
    } else {
      RefusedHasNoDigest(w, command, picked);
    }
  }

  lemma RefusedHasNoDigest(w: World, command: Command, picked: Option<string>)
    requires !ReachesClaim(w, command, picked)
    ensures var calls := StartStep(w, command, picked).desk.calls; |calls| > |w.desk.calls| ==> calls[|w.desk.calls|].digest == None
  {
  }

  /** Over every run, every digest names what its call asks for. */
  lemma {:induction false} EveryDigestNames(config: Hub.Config, now: int, events: seq<Event>, c: nat)
    ensures c < |Run(config, now, events).desk.calls| ==> DigestNames(Run(config, now, events).desk.calls[c])
  {
    if events != [] {
      EveryDigestNames(config, now, events[..|events| - 1], c);
      var w, e := Run(config, now, events[..|events| - 1]), events[|events| - 1];
      if c < |w.desk.calls| {
        OldDigestStays(w, e, c);
      } else {
        NewDigestNames(w, e, Run(config, now, events).desk.calls, c);
      }
    }
  }

  lemma OldDigestStays(w: World, e: Event, c: nat)
    requires c < |w.desk.calls| && DigestNames(w.desk.calls[c])
    ensures c < |Apply(w, e).desk.calls| && DigestNames(Apply(w, e).desk.calls[c])
  {
    ApplyFollows(w, e);
    assert CallFollows(w.desk.calls[c], Apply(w, e).desk.calls[c]);
  }

  /** `calls` are the calls after the event. */
  lemma NewDigestNames(w: World, e: Event, calls: seq<Call>, c: nat)
    requires |w.desk.calls| <= c
    ensures calls == Apply(w, e).desk.calls && c < |calls| ==> DigestNames(calls[c])
  {
    CallsComeFromStarts(w, e);
    if calls == Apply(w, e).desk.calls && c < |calls| {
      NewCallNamed(w, e.command, e.picked);
    }
  }

  /** The two calls asked one client's connector for the same thing under one key. */
  predicate SameRequest(a: Command, b: Command) {
    SameKey(a, b) && a.tool == b.tool && a.arguments == b.arguments
  }

  /** Over every run, a replay never leaves its client: the call whose answer it hands out came for the
      same connector, client and idempotency key. Over a run that never settles a row with the answer
      to another command, it asked for the same tool and arguments as well. */
  lemma {:induction false} ReplaysStayWithTheirRequest(config: Hub.Config, now: int, events: seq<Event>, c: nat)
    ensures var d := Run(config, now, events).desk;
      c < |d.calls| && d.calls[c].claim.Replay? ==>
        && KeyOf(d.calls[c].command) in d.requests
        && var row := d.requests[KeyOf(d.calls[c].command)];
           && !row.state.Pending? && row.state.settler < |d.calls|
           && SameKey(d.calls[row.state.settler].command, d.calls[c].command)
           && (Never(config, now, events, (w, e) => SettlesOtherwise(w, e)) ==>
                 SameRequest(d.calls[row.state.settler].command, d.calls[c].command)
                 && d.calls[row.state.settler].digest == d.calls[c].digest)
  {
    ReplayAgreement(config, now, events);
    var d := Run(config, now, events).desk;
    if c < |d.calls| && d.calls[c].claim.Replay? {
      var settler := d.requests[KeyOf(d.calls[c].command)].state.settler;
      ReplayKeepsKey(d, c);
      if Never(config, now, events, (w, e) => SettlesOtherwise(w, e)) {
        ReplaysOfRowsSettledAlike(config, now, events);
        EveryDigestNames(config, now, events, c);
        EveryDigestNames(config, now, events, settler);
        ReplayKeepsRequest(d, c);
      }
    }
  }

  lemma ReplayKeepsKey(d: Desk, c: nat)
    requires ReplaysAgree(d.calls, d.requests) && c < |d.calls| && d.calls[c].claim.Replay?
    ensures SameKey(d.calls[d.requests[KeyOf(d.calls[c].command)].state.settler].command, d.calls[c].command)
  {
    assert Agrees(d.calls[d.requests[KeyOf(d.calls[c].command)].state.settler], d.calls[c]);
  }

  lemma ReplayKeepsRequest(d: Desk, c: nat)
    requires ReplaysAgree(d.calls, d.requests) && ReplaysAlike(d.calls, d.requests) && c < |d.calls| && d.calls[c].claim.Replay?
    requires DigestNames(d.calls[c]) && DigestNames(d.calls[d.requests[KeyOf(d.calls[c].command)].state.settler])
    ensures SameRequest(d.calls[d.requests[KeyOf(d.calls[c].command)].state.settler].command, d.calls[c].command)
    ensures d.calls[d.requests[KeyOf(d.calls[c].command)].state.settler].digest == d.calls[c].digest
  {
    ReplayKeepsKey(d, c);
    assert d.calls[c].digest.Some?;
  }

  // -------------------------------------------------------------------------------------- collisions

  /** Two commands do the same to one device: equal connector, tool and arguments, whoever asks. */
  predicate SameDeed(a: Command, b: Command) {
    && (ReachesBeyondFiles(a.tool) || ChangesFiles(a.tool))
    && a.connector == b.connector && a.tool == b.tool && a.arguments == b.arguments
  }

  /** Over every run, no two calls in progress do the same mutating deed. */
  lemma {:induction false} NoDeedTwiceAtOnce(config: Hub.Config, now: int, events: seq<Event>, c: nat, x: nat)
    ensures var calls := Run(config, now, events).desk.calls;
      c < |calls| && x < |calls| && c != x && !calls[c].phase.Ended? && !calls[x].phase.Ended? ==>
        !SameDeed(calls[c].command, calls[x].command)
  {
    RunKeeps(config, now, events);
    ExactGuardSeparates(Run(config, now, events).desk, c, x);
  }

  lemma ExactGuardSeparates(d: Desk, c: nat, x: nat)
    requires GuardExact(d.calls, d.inFlight)
    ensures c < |d.calls| && x < |d.calls| && c != x && !d.calls[c].phase.Ended? && !d.calls[x].phase.Ended? ==>
      !SameDeed(d.calls[c].command, d.calls[x].command)
  {
    if c < |d.calls| && x < |d.calls| && c != x && !d.calls[c].phase.Ended? && !d.calls[x].phase.Ended? {
      MutatingVerbs(d.calls[c].command.tool);
      if SameDeed(d.calls[c].command, d.calls[x].command) {
        var k := CollisionOf(d.calls[c].command);
        assert Holds(d.calls[c], k) && Holds(d.calls[x], k);
      }
    }
  }

  /** Exactly when a call that claims its row is refused as in flight: when a call in progress does the
      same mutating deed. Otherwise it is sent. */
  lemma InFlightIff(w: World, command: Command, picked: Option<string>)
    requires GuardExact(w.desk.calls, w.desk.inFlight) && ClaimsRow(w, command, picked)
    ensures var d' := StartStep(w, command, picked).desk;
      && |d'.calls| == |w.desk.calls| + 1
      && if exists c :: 0 <= c < |w.desk.calls| && !w.desk.calls[c].phase.Ended? && SameDeed(command, w.desk.calls[c].command)
         then d'.calls[|w.desk.calls|].phase == Ended(Raised("command_in_flight")) && d'.sent == w.desk.sent
         else d'.calls[|w.desk.calls|].phase == Sending && |d'.sent| == |w.desk.sent| + 1
  {
    StartShape(w, command, picked);
    FreeSlotIff(w.desk, command);
    assert StartStep(w, command, picked).desk.calls[|w.desk.calls|] ==
           Claimant(w.desk, command, Target(w, command, picked), DigestOf(w, command, picked));
  }

  lemma FreeSlotIff(d: Desk, command: Command)
    requires GuardExact(d.calls, d.inFlight)
    ensures !SlotFree(d.inFlight, command) <==>
            exists c :: 0 <= c < |d.calls| && !d.calls[c].phase.Ended? && SameDeed(command, d.calls[c].command)
  {
    MutatingVerbs(command.tool);
    var k := CollisionOf(command);
    if !SlotFree(d.inFlight, command) {
      var c :| 0 <= c < |d.calls| && Holds(d.calls[c], k);
      assert SameDeed(command, d.calls[c].command);
    }
    if c :| 0 <= c < |d.calls| && !d.calls[c].phase.Ended? && SameDeed(command, d.calls[c].command) {
      assert Holds(d.calls[c], k);
    }
  }
}
