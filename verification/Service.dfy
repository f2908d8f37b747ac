/** The objects of the connector with the fields their methods update. The service records the run
    it has taken part in: a method that is one stretch of code between suspension points requires
    that the objects hold the world in which the recorded run has ended, and ensures it again for
    the run with its own event appended. So what holds of every run holds of these objects. */
module Service {
  import opened Basics
  import opened Catalog
  import opened Broker
  import opened BrokerInvariants
  import opened BrokerTheorems
  import BrokerLaws
  import Recorded
  import Hub
  import HubInvariants
  import HubLaws
  import HubTheorems

  // ------------------------------------------------------------------------------------- store

  /** The tables, with the history that the registry's promises speak of. */
  class RemoteAgentStore {
    var tokens: map<string, Hub.Token>
    var challenges: map<string, Hub.Challenge>
    var devices: map<string, Hub.Device>
    var instances: map<string, Hub.Instance>
    var requests: map<RequestKey, Row>
    var enrollments: seq<Hub.Enrollment>
    var beats: map<string, int>

    constructor ()
      ensures tokens == map[] && challenges == map[] && devices == map[] && instances == map[]
      ensures requests == map[] && enrollments == [] && beats == map[]
    {
      tokens, challenges, devices, instances := map[], map[], map[], map[];
      requests, enrollments, beats := map[], [], map[];
    }

    method ConsumeEnrollmentToken(token: string, connector: string, now: int) returns (status: Hub.TokenStatus)
      modifies this`tokens
      ensures status == Hub.TokenVerdict(old(tokens), token, connector, now)
      ensures tokens == if status.Accepted? then Hub.SpendToken(old(tokens), token, now) else old(tokens)
    {
      if token !in tokens {
        return Hub.Invalid;
      }
      var row := tokens[token];
      if row.connector != connector {
        return Hub.ConnectorMismatch;
      }
      if row.consumedAt.Some? {
        return Hub.Consumed;
      }
      if row.expiresAt <= Sec(now) {
        return Hub.Expired;
      }
      tokens := tokens[token := row.(consumedAt := Some(Sec(now)))];
      return Hub.Accepted;
    }

    method ConsumeChallenge(id: string, secret: string, now: int) returns (consumed: bool)
      modifies this`challenges
      ensures consumed == Hub.ChallengeUsable(old(challenges), id, secret, now)
      ensures challenges == if consumed then Hub.SpendChallenge(old(challenges), id, now) else old(challenges)
    {
      if id !in challenges || challenges[id].consumedAt.Some? || challenges[id].expiresAt <= Sec(now)
         || challenges[id].secret != secret {
        return false;
      }
      challenges := challenges[id := challenges[id].(consumedAt := Some(Sec(now)))];
      return true;
    }

    method IssueEnrollmentToken(token: string, connector: string, profile: Profile, ttl: int, now: int)
      requires token !in tokens
      modifies this`tokens
      ensures tokens == old(tokens)[token := Hub.Token(connector, profile, Hub.After(now, ttl), None)]
    {
      tokens := tokens[token := Hub.Token(connector, profile, Hub.After(now, ttl), None)];
    }

    method CreateChallenge(id: string, secret: string, now: int)
      requires id !in challenges
      modifies this`challenges
      ensures challenges == old(challenges)[id := Hub.Challenge(secret, Hub.After(now, CHALLENGE_TTL_SECONDS), None)]
    {
      challenges := challenges[id := Hub.Challenge(secret, Hub.After(now, CHALLENGE_TTL_SECONDS), None)];
    }

    /** A device row is inserted only under a free connector id. */
    method EnrollDevice(publicKey: string, entry: Hub.Enrollment, now: int) returns (enrolled: bool)
      modifies this`devices, this`enrollments
      ensures enrolled == (entry.connector !in old(devices))
      ensures devices == if enrolled
                         then old(devices)[entry.connector :=
                                Hub.Device(publicKey, entry.profile, true, Sec(now), None, |old(enrollments)|)]
                         else old(devices)
      ensures enrollments == if enrolled then old(enrollments) + [entry] else old(enrollments)
    {
      if entry.connector in devices {
        return false;
      }
      devices := devices[entry.connector := Hub.Device(publicKey, entry.profile, true, Sec(now), None, |enrollments|)];
      enrollments := enrollments + [entry];
      return true;
    }

    /** Inserts or takes over the row of `instance` for an enrolled device. */
    method UpsertPresence(connector: string, instance: string, generation: string, epoch: int, now: int) returns (accepted: bool)
      modifies this`instances, this`beats
      ensures accepted == (connector in devices && devices[connector].enrolled)
      ensures instances == if accepted
                           then old(instances)[instance := Hub.Instance(connector, generation, epoch, true, Sec(now), Sec(now), None)]
                           else old(instances)
      ensures beats == if accepted then old(beats)[instance := now] else old(beats)
    {
      if connector !in devices || !devices[connector].enrolled {
        return false;
      }
      instances := instances[instance := Hub.Instance(connector, generation, epoch, true, Sec(now), Sec(now), None)];
      beats := beats[instance := now];
      return true;
    }

    /** A beat is accepted for the online row of this generation, and only with a context epoch that
        does not fall. */
    method Heartbeat(instance: string, generation: string, epoch: int, now: int) returns (accepted: bool)
      modifies this`instances, this`beats
      ensures accepted == (&& instance in old(instances) && old(instances)[instance].online
                           && old(instances)[instance].generation == generation && epoch >= old(instances)[instance].epoch)
      ensures instances == if accepted
                           then old(instances)[instance := old(instances)[instance].(epoch := epoch, lastHeartbeatAt := Sec(now))]
                           else old(instances)
      ensures beats == if accepted then old(beats)[instance := now] else old(beats)
    {
      if instance !in instances || !instances[instance].online || instances[instance].generation != generation
         || epoch < instances[instance].epoch {
        return false;
      }
      instances := instances[instance := instances[instance].(epoch := epoch, lastHeartbeatAt := Sec(now))];
      beats := beats[instance := now];
      return true;
    }

    /** Closes the row of `instance` if it still carries `generation`, even if it is closed already. */
    method DisconnectInstance(instance: string, generation: string, now: int) returns (closed: bool)
      modifies this`instances
      ensures closed == (instance in old(instances) && old(instances)[instance].generation == generation)
      ensures instances == if closed
                           then old(instances)[instance := Hub.CloseRow(old(instances)[instance], Sec(now))]
                           else old(instances)
    {
      if instance !in instances || instances[instance].generation != generation {
        return false;
      }
      instances := instances[instance := instances[instance].(online := false, disconnectedAt := Some(Sec(now)))];
      return true;
    }

    method RevokeDevice(connector: string, now: int) returns (revoked: bool)
      modifies this`devices, this`instances
      ensures revoked == (connector in old(devices))
      ensures devices == if revoked
                         then old(devices)[connector := old(devices)[connector].(enrolled := false, revokedAt := Some(Sec(now)))]
                         else old(devices)
      ensures instances.Keys == old(instances).Keys
      ensures forall i :: i in instances ==>
        instances[i] == if revoked && old(instances)[i].connector == connector && old(instances)[i].online
                        then Hub.CloseRow(old(instances)[i], Sec(now)) else old(instances)[i]
    {
      if connector !in devices {
        return false;
      }
      devices := devices[connector := devices[connector].(enrolled := false, revokedAt := Some(Sec(now)))];
      instances := map i | i in instances ::
        if instances[i].connector == connector && instances[i].online
        then instances[i].(online := false, disconnectedAt := Some(Sec(now)))
        else instances[i];
      return true;
    }

    /** Deletes a revoked device and its instance rows; a request row is never deleted. */
    method DeleteRevokedDevice(connector: string) returns (status: string)
      modifies this`devices, this`instances
      ensures status == if connector !in old(devices) then "device_not_found"
                        else if old(devices)[connector].enrolled then "device_not_revoked" else "deleted"
      ensures devices == if status == "deleted" then old(devices) - {connector} else old(devices)
      ensures instances == if status == "deleted"
                           then map i | i in old(instances) && old(instances)[i].connector != connector :: old(instances)[i]
                           else old(instances)
    {
      if connector !in devices {
        return "device_not_found";
      }
      if devices[connector].enrolled {
        return "device_not_revoked";
      }
      instances := map i | i in instances && instances[i].connector != connector :: instances[i];
      devices := devices - {connector};
      return "deleted";
    }

    method MarkStaleInstances(cutoff: int)
      modifies this`instances
      ensures instances == Hub.Swept(old(instances), cutoff)
    {
      instances := map i | i in instances ::
        if instances[i].online && instances[i].lastHeartbeatAt <= cutoff
        then instances[i].(online := false,
                           disconnectedAt := Some(if instances[i].disconnectedAt.Some?
                                                  then instances[i].disconnectedAt.value
                                                  else instances[i].lastHeartbeatAt))
        else instances[i];
    }

    method ExactOnlineInstance(connector: string, instance: string, cutoff: int) returns (row: Option<string>)
      modifies this`instances
      ensures instances == Hub.Swept(old(instances), cutoff)
      ensures Hub.RouteAnswer(instances, connector, Some(instance), cutoff, row)
    {
      MarkStaleInstances(cutoff);
      if instance in instances && instances[instance].connector == connector
         && instances[instance].online && instances[instance].lastHeartbeatAt > cutoff {
        return Some(instance);
      }
      return None;
    }

    method LatestOnlineInstance(connector: string, cutoff: int) returns (row: Option<string>)
      modifies this`instances
      ensures instances == Hub.Swept(old(instances), cutoff)
      ensures Hub.RouteAnswer(instances, connector, None, cutoff, row)
    {
      MarkStaleInstances(cutoff);
      if i :| i in instances && Hub.LatestRow(instances, connector, i, cutoff) {
        return Some(i);
      }
      FreshestExists(instances, connector, cutoff);
      return None;
    }

    /** The devices listed by the inventory query, which joins live rows with enrolled devices. */
    method OnlineAgents(cutoff: int) returns (agents: set<string>)
      modifies this`instances
      ensures instances == Hub.Swept(old(instances), cutoff)
      ensures forall c :: c in agents <==>
        c in devices && devices[c].enrolled && exists i :: i in instances && Hub.LiveRow(instances, c, i, cutoff)
    {
      MarkStaleInstances(cutoff);
      agents := set i | i in instances && instances[i].online && instances[i].lastHeartbeatAt > cutoff
                        && instances[i].connector in devices && devices[instances[i].connector].enrolled
                  :: instances[i].connector;
      assert forall i :: i in instances ==>
        (Hub.LiveRow(instances, instances[i].connector, i, cutoff) <==> instances[i].online && instances[i].lastHeartbeatAt > cutoff);
    }

    /** INSERT OR IGNORE, then the verdict on the row found; `owner` is the inserting call. */
    method ClaimRequest(key: RequestKey, requestId: string, digest: Digest, owner: nat)
      returns (claim: Claim, replay: Option<Reply>)
      modifies this`requests
      ensures requests == Insert(old(requests), key, Row(requestId, digest, Pending, owner))
      ensures claim == ClaimVerdict(requests[key], requestId, digest)
      ensures claim.Replay? ==> replay == Some(requests[key].state.reply)
    {
      if key !in requests {
        requests := requests[key := Row(requestId, digest, Pending, owner)];
      }
      var existing := requests[key];
      if existing.requestId == requestId {
        return New, None;
      }
      if existing.digest != digest {
        return Conflict, None;
      }
      if existing.state.Pending? {
        return Busy, None;
      }
      return Replay, Some(existing.state.reply);
    }

    method CompleteRequest(key: RequestKey, state: RowState)
      modifies this`requests
      ensures requests == Settle(old(requests), key, state)
    {
      if key in requests && requests[key].state.Pending? {
        requests := requests[key := requests[key].(state := state)];
      }
    }
  }

  /** If a connector has a live row at all, it has a freshest one. */
  lemma FreshestExists(instances: map<string, Hub.Instance>, connector: string, cutoff: int)
    ensures (exists i :: i in instances && Hub.LiveRow(instances, connector, i, cutoff)) ==>
            exists i :: i in instances && Hub.LatestRow(instances, connector, i, cutoff)
  {
    var live := set i | i in instances && Hub.LiveRow(instances, connector, i, cutoff);
    if live != {} {
      var i := FreshestOf(instances, live);
      assert Hub.LatestRow(instances, connector, i, cutoff);
    } else {
      forall i | i in instances ensures !Hub.LiveRow(instances, connector, i, cutoff) {
        assert i !in live;
      }
    }
  }

  lemma {:induction false} FreshestOf(instances: map<string, Hub.Instance>, candidates: set<string>) returns (i: string)
    requires candidates != {} && candidates <= instances.Keys
    ensures i in candidates && forall j :: j in candidates ==> instances[j].lastHeartbeatAt <= instances[i].lastHeartbeatAt
    decreases candidates
  {
    i :| i in candidates;
    var rest := candidates - {i};
    assert forall j :: j in candidates ==> j == i || j in rest;
    if rest != {} {
      var j := FreshestOf(instances, rest);
      if instances[j].lastHeartbeatAt > instances[i].lastHeartbeatAt {
        i := j;
      }
    }
  }

  // ---------------------------------------------------------------------------- relay registry

  /** The calls of the event loop; a future is the `future` of its call. */
  class Tasks {
    var calls: seq<Call>

    constructor ()
      ensures calls == []
    {
      calls := [];
    }
  }

  /** The registry of sessions, their pending tables, and the connections they run on. */
  class AgentRelayRegistry {
    const tasks: Tasks
    var connections: map<string, Hub.Connection>
    var sessions: map<string, Hub.Session>
    var registered: map<string, string>
    var pending: map<Slot, nat>

    constructor (tasks: Tasks)
      ensures this.tasks == tasks
      ensures connections == map[] && sessions == map[] && registered == map[] && pending == map[]
    {
      this.tasks := tasks;
      connections, sessions, registered, pending := map[], map[], map[], map[];
    }

    /** Every pending entry files a call under the slot of that call. */
    ghost predicate FiledByOwnSlot()
      reads this, tasks
    {
      forall slot :: slot in pending ==> pending[slot] < |tasks.calls| && SlotOf(tasks.calls[pending[slot]]) == slot
    }

    /** Breaks every open future held by session `g` and empties its pending table. */
    method FailPending(g: string)
      requires FiledByOwnSlot()
      modifies this`pending, tasks
      ensures tasks.calls == BreakAll(old(tasks.calls), old(pending), g)
      ensures pending == Without(old(pending), g)
    {
      var open := set slot | slot in pending && slot.generation == g;
      while open != {}
        invariant pending == old(pending)
        invariant open <= pending.Keys && forall slot :: slot in open ==> slot.generation == g
        invariant |tasks.calls| == |old(tasks.calls)|
        invariant forall c :: 0 <= c < |tasks.calls| ==>
          tasks.calls[c] == if FiledIn(old(tasks.calls), old(pending), g, c) && SlotOf(old(tasks.calls)[c]) !in open
                            then Break(old(tasks.calls)[c]) else old(tasks.calls)[c]
        decreases open
      {
        var slot :| slot in open;
        var c := pending[slot];
        if tasks.calls[c].future.Unresolved? {
          tasks.calls := tasks.calls[c := tasks.calls[c].(future := Broken)];
        }
        open := open - {slot};
      }
      pending := map slot | slot in pending && slot.generation != g :: pending[slot];
    }
  }

  // -------------------------------------------------------------------------- what a frame needs

  lemma GateEntitles(h: Hub.State, d: Desk, command: Command, picked: Option<string>)
    ensures HubInvariants.Inv(h) && Gate(h, command, picked).None?
            && Hub.RouteAnswer(h.instances, command.connector, command.pinned, Hub.Cutoff(h), picked) ==>
            Entitled(h, FrameFor(command, h.registered[command.connector], |d.calls|))
  {
    if HubInvariants.Inv(h) {
      RequestEntitled(h, d, command, picked);
    }
  }

  /** A frame that a start or a cancel sends at the end of a run is for a device entitled to it. */
  lemma StartsEntitled(run: seq<Event> -> World, config: Hub.Config, now: int, events: seq<Event>,
                       command: Command, picked: Option<string>)
    requires Recorded.IsRun(run, config, now)
    ensures var w := run(events); var w' := StartStep(w, command, picked);
      w'.desk.sent == w.desk.sent || exists frame :: w'.desk.sent == w.desk.sent + [frame] && Entitled(w'.hub, frame)
  {
    assert run(events) == Run(config, now, events);
    RunKeeps(config, now, events);
    StartEntitled(run(events), command, picked);
  }

  lemma CancelsEntitled(run: seq<Event> -> World, config: Hub.Config, now: int, events: seq<Event>,
                        connector: string, requestId: string, picked: Option<string>)
    requires Recorded.IsRun(run, config, now)
    ensures var w := run(events); var w' := CancelSendStep(w, connector, requestId, picked);
      w'.desk.sent == w.desk.sent || exists frame :: w'.desk.sent == w.desk.sent + [frame] && Entitled(w'.hub, frame)
  {
    assert run(events) == Run(config, now, events);
    RunKeeps(config, now, events);
    CancelEntitled(run(events), connector, requestId, picked);
  }

  // ----------------------------------------------------------------------------------- service

  /** The service with its registry. `trace` is the run that the objects have gone through, and `run`
      gives the world after any run from the same start. */
  class RemoteAgentService {
    const store: RemoteAgentStore
    const registry: AgentRelayRegistry
    const tasks: Tasks
    const config: Hub.Config
    ghost const start: int
    ghost const run: seq<Event> -> World
    ghost var trace: seq<Event>
    var now: int
    var inFlight: map<CollisionKey, string>
    var cancelling: set<nat>
    var sent: seq<Frame>

    constructor (config: Hub.Config, now: int)
      ensures fresh(store) && fresh(registry) && fresh(tasks)
      ensures this.config == config && start == now && trace == [] && Valid()
    {
      var t := new Tasks();
      var r := new AgentRelayRegistry(t);
      var s := new RemoteAgentStore();
      tasks, registry, store := t, r, s;
      this.config, this.now, start, trace := config, now, now, [];
      run := (events: seq<Event>) => Run(config, now, events);
      inFlight, cancelling, sent := map[], {}, [];
    }

    ghost function HubView(): Hub.State
      reads this, store, registry
    {
      Hub.State(config, now, store.tokens, store.challenges, store.devices, store.instances,
                registry.connections, registry.sessions, registry.registered, store.enrollments, store.beats)
    }

    ghost function DeskView(): Desk
      reads this, store, registry, tasks
    {
      Desk(store.requests, inFlight, tasks.calls, registry.pending, cancelling, sent)
    }

    ghost function View(): World
      reads this, store, registry, tasks
    {
      World(HubView(), DeskView())
    }

    /** The objects hold exactly the world in which the recorded run has ended. */
    ghost predicate Valid()
      reads this, store, registry, tasks
    {
      registry.tasks == tasks && Recorded.IsRun(run, config, start) && View() == run(trace)
    }

    /** What the invariant of all runs means for the objects: the guard is exact, and every pending
        entry files a call in progress under its own slot. */
    lemma Promises()
      requires Valid()
      ensures Inv(View()) && GuardExact(tasks.calls, inFlight) && registry.FiledByOwnSlot()
    {
      assert run(trace) == Run(config, start, trace);
      RunKeeps(config, start, trace);
      forall slot | slot in registry.pending
        ensures registry.pending[slot] < |tasks.calls| && SlotOf(tasks.calls[registry.pending[slot]]) == slot
      {
        assert FiledRight(slot, registry.pending[slot], tasks.calls, registry.registered);
      }
    }

    lemma GuardStaysExact()
      requires Valid()
      ensures GuardExact(tasks.calls, inFlight)
    {
      Promises();
    }

    lemma EntriesAreFiled()
      requires Valid()
      ensures registry.FiledByOwnSlot()
    {
      Promises();
    }

    // ------------------------------------------------------------------------ starting a call

    method AcquireCollisionGuard(command: Command) returns (acquired: bool)
      modifies this`inFlight
      ensures acquired == SlotFree(old(inFlight), command)
      ensures inFlight == if acquired && Mutating(command)
                          then old(inFlight)[CollisionOf(command) := RequestId(command)] else old(inFlight)
    {
      if !Mutating(command) {
        return true;
      }
      if CollisionOf(command) in inFlight {
        return false;
      }
      inFlight := inFlight[CollisionOf(command) := RequestId(command)];
      return true;
    }

    /** From the idempotency claim to the frame. */
    method SubmitCommand(command: Command, g: string, digest: Digest)
      modifies this`inFlight, this`sent, store`requests, registry`pending, tasks
      ensures HubView() == old(HubView()) && DeskView() == Submit(old(DeskView()), command, g, digest)
    {
      var c := |tasks.calls|;
      var claim, replay := store.ClaimRequest(KeyOf(command), RequestId(command), digest, c);
      if claim.Conflict? {
        tasks.calls := tasks.calls + [Concluded(command, Some(digest), Conflict, Raised("idempotency_conflict"))];
        return;
      }
      if claim.Replay? {
        tasks.calls := tasks.calls + [Concluded(command, Some(digest), Replay, Returned(replay.value))];
        return;
      }
      if claim.Busy? {
        tasks.calls := tasks.calls + [Concluded(command, Some(digest), Busy, Raised("request_pending"))];
        return;
      }
      var acquired := AcquireCollisionGuard(command);
      if !acquired {
        tasks.calls := tasks.calls + [Concluded(command, Some(digest), New, Raised("command_in_flight"))];
        return;
      }
      registry.pending := registry.pending[Slot(g, RequestId(command)) := c];
      tasks.calls := tasks.calls + [Call(command, g, Some(digest), New, Unresolved, false, Sending)];
      sent := sent + [FrameFor(command, g, c)];
    }

    method RelaySession(connector: string, pinned: Option<string>) returns (picked: Option<string>)
      modifies store`instances
      ensures HubView() == Hub.SweepNow(old(HubView())) && DeskView() == old(DeskView())
      ensures Hub.RouteAnswer(store.instances, connector, pinned, Hub.Cutoff(HubView()), picked)
    {
      var cutoff := Hub.After(now, -config.staleSeconds);
      if pinned.Some? {
        picked := store.ExactOnlineInstance(connector, pinned.value, cutoff);
      } else {
        picked := store.LatestOnlineInstance(connector, cutoff);
      }
    }

    /** The checks between the route lookup and the claim. When they pass on a row that the route
        query may return, a request for this command may be sent: its device is enrolled, the
        registered session belongs to the present enrollment, and the tool lies inside the profile
        of that enrollment. */
    method CheckGate(command: Command, picked: Option<string>) returns (refusal: Option<string>)
      ensures refusal == Gate(HubView(), command, picked)
      ensures refusal.None? && HubInvariants.Inv(HubView())
              && Hub.RouteAnswer(store.instances, command.connector, command.pinned, Hub.Cutoff(HubView()), picked) ==>
        command.connector in registry.registered &&
        Entitled(HubView(), FrameFor(command, registry.registered[command.connector], |tasks.calls|))
    {
      GateEntitles(HubView(), DeskView(), command, picked);
      if picked.None? || command.connector !in registry.registered {
        return Some("device_offline");
      }
      var g := registry.registered[command.connector];
      if g !in registry.sessions || registry.sessions[g].instance != picked.value {
        return Some("device_offline");
      }
      if CapabilityOf(command.tool) !in CapabilitiesFor(registry.sessions[g].profile) {
        return Some("capability_not_granted");
      }
      if command.assertion.Some? && command.assertion.value.expiresAt <= Sec(now) {
        return Some("app_assertion_expired_at_dispatch");
      }
      if ExceedsWindow(command.arguments, config.requestWindowSeconds) {
        return Some("timeout_exceeds_relay_window");
      }
      return None;
    }

    /** From the route lookup to the frame. */
    method RouteAndSubmit(command: Command) returns (picked: Option<string>)
      requires command.assertion.None? ==> !Used(tasks.calls, command.uuid)
      requires command.assertion.Some? ==> command.assertion.value.connector == command.connector
      modifies this`inFlight, this`sent, store`instances, store`requests, registry`pending, tasks
      ensures View() == StartStep(old(View()), command, picked)
    {
      picked := RelaySession(command.connector, command.pinned);
      var refusal := CheckGate(command, picked);
      if refusal.Some? {
        tasks.calls := tasks.calls + [Concluded(command, None, Unclaimed, Raised(refusal.value))];
        return;
      }
      var row := store.instances[picked.value];
      var digest := Digest(command.connector, command.tool, command.arguments, picked.value, row.epoch);
      SubmitCommand(command, registry.registered[command.connector], digest);
    }

    /** `device_command` up to the frame write; `picked` is the row that the route query returned.
        If a frame is written, it is for a device that is entitled to it. */
    method DeviceCommand(command: Command) returns (picked: Option<string>)
      requires Valid() && (command.assertion.None? ==> !Used(tasks.calls, command.uuid))
      modifies this`inFlight, this`sent, this`trace, store`instances, store`requests, registry`pending, tasks
      ensures Valid() && trace == old(trace) + [Start(command, picked)]
      ensures View() == StartStep(old(View()), command, picked)
      ensures GuardExact(tasks.calls, inFlight)
      ensures sent == old(sent) || exists frame :: sent == old(sent) + [frame] && Entitled(HubView(), frame)
    {
      if command.assertion.Some? && command.assertion.value.connector != command.connector {
        tasks.calls := tasks.calls + [Concluded(command, None, Unclaimed, Raised("app_assertion_connector_mismatch"))];
        picked := None;
      } else {
        picked := RouteAndSubmit(command);
      }
      trace := trace + [Start(command, picked)];
      Recorded.Starts(run, config, start, old(trace), command, picked);
      StartsEntitled(run, config, start, old(trace), command, picked);
      GuardStaysExact();
    }

    /** The frame has been written. */
    method FrameWritten(c: nat)
      requires Valid() && c < |tasks.calls| && tasks.calls[c].phase == Sending
      modifies this`trace, tasks
      ensures Valid() && trace == old(trace) + [SendDone(c)]
      ensures tasks.calls == old(tasks.calls)[c := old(tasks.calls)[c].(phase := Waiting)]
    {
      tasks.calls := tasks.calls[c := tasks.calls[c].(phase := Waiting)];
      trace := trace + [SendDone(c)];
      Recorded.SendsDone(run, config, start, old(trace), c);
    }

    // -------------------------------------------------------------------------- ending a call

    /** The `finally` block of `device_command`. */
    method ReleaseCall(c: nat, outcome: Outcome)
      requires c < |tasks.calls|
      modifies this`inFlight, registry`pending, tasks
      ensures HubView() == old(HubView()) && DeskView() == EndCall(old(DeskView()), c, outcome)
    {
      var call := tasks.calls[c];
      registry.pending := registry.pending - {Slot(call.session, RequestId(call.command))};
      if Mutating(call.command) {
        inFlight := inFlight - {CollisionOf(call.command)};
      }
      tasks.calls := tasks.calls[c := call.(phase := Ended(outcome))];
    }

    method FailDeviceCommand(c: nat, code: string)
      requires c < |tasks.calls|
      modifies this`inFlight, store`requests, registry`pending, tasks
      ensures HubView() == old(HubView()) && DeskView() == FailCall(old(DeskView()), c, code)
    {
      store.CompleteRequest(KeyOf(tasks.calls[c].command), Failed(CodeReply(code), c));
      ReleaseCall(c, Raised(code));
    }

    /** The call ends with the timeout, the broken connection, the refused size or the result. */
    method ConcludeCall(c: nat, resultWins: bool)
      requires Resumes(DeskView(), c)
      modifies this`inFlight, store`requests, registry`pending, tasks
      ensures HubView() == old(HubView()) && DeskView() == WakeStep(old(DeskView()), c, resultWins)
      ensures c < |tasks.calls| && tasks.calls[c].phase.Ended?
      ensures BrokerLaws.ToldByFuture(old(tasks.calls)[c], resultWins, tasks.calls[c].phase.outcome)
      ensures BrokerLaws.RowKeeps(old(store.requests), store.requests, KeyOf(old(tasks.calls)[c].command), tasks.calls[c].phase.outcome)
    {
      BrokerLaws.WakeTells(DeskView(), c, resultWins);
      BrokerLaws.WakeKeepsRow(DeskView(), c, resultWins);
      var call := tasks.calls[c];
      if TimesOut(call, resultWins) {
        FailDeviceCommand(c, "device_timeout");
      } else if call.future.Broken? {
        FailDeviceCommand(c, "device_offline");
      } else if call.future.reply.bytes > RESULT_MAX_BYTES {
        FailDeviceCommand(c, "result_too_large");
      } else {
        store.CompleteRequest(KeyOf(call.command), Completed(call.future.reply, c));
        ReleaseCall(c, Returned(call.future.reply));
      }
    }

    /** `device_command` from the point where its wait is over. */
    method ResumeDeviceCommand(c: nat, resultWins: bool)
      requires Valid() && Resumes(DeskView(), c)
      modifies this`inFlight, this`trace, store`requests, registry`pending, tasks
      ensures Valid() && trace == old(trace) + [Wake(c, resultWins)] && GuardExact(tasks.calls, inFlight)
      ensures DeskView() == WakeStep(old(DeskView()), c, resultWins)
      ensures c < |tasks.calls| && tasks.calls[c].phase.Ended?
      ensures BrokerLaws.ToldByFuture(old(tasks.calls)[c], resultWins, tasks.calls[c].phase.outcome)
      ensures BrokerLaws.RowKeeps(old(store.requests), store.requests, KeyOf(old(tasks.calls)[c].command), tasks.calls[c].phase.outcome)
    {
      ConcludeCall(c, resultWins);
      trace := trace + [Wake(c, resultWins)];
      Recorded.Wakes(run, config, start, old(trace), c, resultWins);
      GuardStaysExact();
    }

    /** The frame could not be written. */
    method FrameFails(c: nat)
      requires Valid() && c < |tasks.calls| && tasks.calls[c].phase == Sending
      modifies this`inFlight, this`trace, store`requests, registry`pending, tasks
      ensures Valid() && trace == old(trace) + [SendFails(c)]
      ensures DeskView() == FailCall(old(DeskView()), c, "device_offline")
    {
      FailDeviceCommand(c, "device_offline");
      trace := trace + [SendFails(c)];
      Recorded.SendsFail(run, config, start, old(trace), c);
    }

    /** The task of the call is cancelled: no `except` block settles the row. */
    method AbandonCall(c: nat)
      requires Valid() && c < |tasks.calls| && Live(tasks.calls[c])
      modifies this`inFlight, this`trace, registry`pending, tasks
      ensures Valid() && trace == old(trace) + [Abandon(c)]
      ensures DeskView() == AbandonStep(old(DeskView()), c)
    {
      if tasks.calls[c].phase == Waiting && tasks.calls[c].future.Unresolved? {
        tasks.calls := tasks.calls[c := tasks.calls[c].(future := Cancelled)];
      }
      ReleaseCall(c, Lost);
      trace := trace + [Abandon(c)];
      Recorded.Abandons(run, config, start, old(trace), c);
    }

    /** The timer of a waiting call fires. */
    method TimerExpires(c: nat, cancels: bool)
      requires Valid() && Waits(DeskView(), c)
      modifies this`trace, tasks
      ensures Valid() && trace == old(trace) + [TimerFires(c, cancels)]
      ensures DeskView() == TimerStep(old(DeskView()), c, cancels)
    {
      var future := if cancels && tasks.calls[c].future.Unresolved? then Cancelled else tasks.calls[c].future;
      tasks.calls := tasks.calls[c := tasks.calls[c].(future := future, timedOut := true)];
      trace := trace + [TimerFires(c, cancels)];
      Recorded.TimesOut(run, config, start, old(trace), c, cancels);
    }

    // -------------------------------------------------------------------- responses and cancel

    /** `_receive_response`; a response without an open future ends the session. */
    method ReceiveResponse(g: string, connector: string, requestId: string, status: ResponseStatus, payload: Json, bytes: nat)
      requires Valid() && Hub.Serves(HubView(), g)
      modifies this`trace, registry`connections, tasks
      ensures Valid() && trace == old(trace) + [Respond(g, connector, requestId, status, payload, bytes)]
      ensures View() == RespondStep(old(View()), g, connector, requestId, status, payload, bytes)
    {
      EntriesAreFiled();
      var slot := Slot(g, requestId);
      if connector != registry.sessions[g].connector || slot !in registry.pending
         || !tasks.calls[registry.pending[slot]].future.Unresolved? || status.StatusOther? {
        registry.connections := registry.connections[g := registry.connections[g].(stage := Hub.Failing)];
      } else {
        var c := registry.pending[slot];
        tasks.calls := tasks.calls[c := tasks.calls[c].(future := Resolved(ReplyOf(status, payload, bytes)))];
      }
      trace := trace + [Respond(g, connector, requestId, status, payload, bytes)];
      Recorded.Responds(run, config, start, old(trace), g, connector, requestId, status, payload, bytes);
    }

    /** `cancel_request` up to the cancel frame, which is for a device that is entitled to it. */
    method CancelRequest(connector: string, requestId: string) returns (picked: Option<string>)
      requires Valid()
      modifies this`sent, this`cancelling, this`trace, store`instances
      ensures Valid() && trace == old(trace) + [CancelSend(connector, requestId, picked)]
      ensures View() == CancelSendStep(old(View()), connector, requestId, picked)
      ensures sent == old(sent) || exists frame :: sent == old(sent) + [frame] && Entitled(HubView(), frame)
    {
      picked := RelaySession(connector, None);
      if picked.Some? && connector in registry.registered {
        var g := registry.registered[connector];
        if g in registry.sessions && registry.sessions[g].instance == picked.value && Slot(g, requestId) in registry.pending {
          sent := sent + [CancelFrame(g, connector, requestId)];
          cancelling := cancelling + {registry.pending[Slot(g, requestId)]};
        }
      }
      trace := trace + [CancelSend(connector, requestId, picked)];
      Recorded.Cancels(run, config, start, old(trace), connector, requestId, picked);
      CancelsEntitled(run, config, start, old(trace), connector, requestId, picked);
    }

    /** `cancel_request` after the cancel frame: the future is resolved unless it is done. */
    method ResolveCancelled(c: nat)
      requires Valid() && c in cancelling && c < |tasks.calls|
      modifies this`cancelling, this`trace, tasks
      ensures Valid() && trace == old(trace) + [CancelResolve(c)]
      ensures DeskView() == CancelResolveStep(old(DeskView()), c)
    {
      if tasks.calls[c].future.Unresolved? {
        tasks.calls := tasks.calls[c := tasks.calls[c].(future := Resolved(CodeReply("cancelled")))];
      }
      cancelling := cancelling - {c};
      trace := trace + [CancelResolve(c)];
      Recorded.ResolvesCancelled(run, config, start, old(trace), c);
    }

    // ------------------------------------------------------------------------- relay handshake

    method IssueEnrollmentToken(token: string, connector: string, profile: Profile, ttl: int)
      requires Valid() && token !in store.tokens
      modifies this`trace, store`tokens
      ensures Valid() && trace == old(trace) + [HubEvent(Hub.IssueToken(token, connector, profile, ttl))]
    {
      store.IssueEnrollmentToken(token, connector, profile, ttl, now);
      trace := trace + [HubEvent(Hub.IssueToken(token, connector, profile, ttl))];
      Recorded.IssuesToken(run, config, start, old(trace), token, connector, profile, ttl);
    }

    /** A relay connection is accepted and sent its first challenge. */
    method AcceptConnection(g: string, id: string, secret: string)
      requires Valid() && g !in registry.connections && id !in store.challenges
      modifies this`trace, registry`connections, store`challenges
      ensures Valid() && trace == old(trace) + [HubEvent(Hub.Connect(g, id, secret))]
    {
      store.CreateChallenge(id, secret, now);
      registry.connections := registry.connections[g := Hub.Connection(Hub.AwaitingFirst, id, {id})];
      trace := trace + [HubEvent(Hub.Connect(g, id, secret))];
      Recorded.Connects(run, config, start, old(trace), g, id, secret);
    }

    /** The second challenge, after an enrollment on the same connection. */
    method ChallengeAgain(g: string, id: string, secret: string)
      requires Valid() && g in registry.connections && registry.connections[g].stage.Enrolled? && id !in store.challenges
      modifies this`trace, registry`connections, store`challenges
      ensures Valid() && trace == old(trace) + [HubEvent(Hub.Rechallenge(g, id, secret))]
    {
      store.CreateChallenge(id, secret, now);
      registry.connections := registry.connections[g := Hub.Connection(Hub.AwaitingAuth, id, registry.connections[g].issued + {id})];
      trace := trace + [HubEvent(Hub.Rechallenge(g, id, secret))];
      Recorded.Rechallenges(run, config, start, old(trace), g, id, secret);
    }

    method SetConnectionStage(g: string, stage: Hub.Stage)
      requires g in registry.connections
      modifies registry`connections
      ensures HubView() == Hub.SetStage(old(HubView()), g, stage) && DeskView() == old(DeskView())
    {
      registry.connections := registry.connections[g := registry.connections[g].(stage := stage)];
    }

    /** Token, then challenge, then signature and device row. */
    method ConsumeAndEnroll(g: string, id: string, secret: string, connector: string, token: string,
                            publicKey: string, signed: bool)
      requires g in registry.connections && registry.connections[g].stage == Hub.AwaitingFirst
      modifies registry`connections, store`tokens, store`challenges, store`devices, store`enrollments
      ensures HubView() == Hub.EnrollStep(old(HubView()), g, id, secret, connector, token, publicKey, signed)
      ensures DeskView() == old(DeskView())
    {
      var status := store.ConsumeEnrollmentToken(token, connector, now);
      if !status.Accepted? {
        SetConnectionStage(g, Hub.Closed);
        return;
      }
      var consumed := store.ConsumeChallenge(id, secret, now);
      if !consumed || !signed {
        SetConnectionStage(g, Hub.Closed);
        return;
      }
      var enrolled := store.EnrollDevice(publicKey, Hub.Enrollment(connector, store.tokens[token].profile, token, id), now);
      SetConnectionStage(g, if enrolled then Hub.Enrolled else Hub.Closed);
    }

    method CompleteEnrollment(g: string, id: string, secret: string, connector: string, token: string,
                              publicKey: string, signed: bool)
      requires Valid() && g in registry.connections && registry.connections[g].stage == Hub.AwaitingFirst
      modifies this`trace, registry`connections, store`tokens, store`challenges, store`devices, store`enrollments
      ensures Valid() && trace == old(trace) + [HubEvent(Hub.Enroll(g, id, secret, connector, token, publicKey, signed))]
      ensures HubView() == Hub.EnrollStep(old(HubView()), g, id, secret, connector, token, publicKey, signed)
    {
      ConsumeAndEnroll(g, id, secret, connector, token, publicKey, signed);
      trace := trace + [HubEvent(Hub.Enroll(g, id, secret, connector, token, publicKey, signed))];
      Recorded.Enrolls(run, config, start, old(trace), g, id, secret, connector, token, publicKey, signed);
    }

    /** Takes over the registry entry of the connector, failing the calls of the session there. */
    method Register(g: string, connector: string)
      requires registry.tasks == tasks && registry.FiledByOwnSlot()
      modifies registry`registered, registry`pending, tasks
      ensures registry.registered == old(registry.registered)[connector := g]
      ensures DeskView() == if connector in old(registry.registered)
                            then FailPending(old(DeskView()), old(registry.registered)[connector]) else old(DeskView())
    {
      if connector in registry.registered {
        registry.FailPending(registry.registered[connector]);
      }
      registry.registered := registry.registered[connector := g];
    }

    /** `authenticate_relay`: a usable challenge is spent whatever comes of it, and the presence row is
        written exactly when everything else holds as well. */
    method AuthenticateRelay(g: string, id: string, secret: string, connector: string, instance: string,
                             epoch: int, signed: bool) returns (accepted: bool)
      modifies store`challenges, store`instances, store`beats
      ensures accepted == (&& Hub.ChallengeUsable(old(store.challenges), id, secret, now) && connector in store.devices
                           && store.devices[connector].enrolled && signed && epoch >= 0)
      ensures store.challenges == if Hub.ChallengeUsable(old(store.challenges), id, secret, now)
                                  then Hub.SpendChallenge(old(store.challenges), id, now) else old(store.challenges)
      ensures store.instances == if accepted
                then old(store.instances)[instance := Hub.Instance(connector, g, epoch, true, Sec(now), Sec(now), None)]
                else old(store.instances)
      ensures store.beats == if accepted then old(store.beats)[instance := now] else old(store.beats)
    {
      var consumed := store.ConsumeChallenge(id, secret, now);
      if !consumed || connector !in store.devices || !store.devices[connector].enrolled || !signed || epoch < 0 {
        return false;
      }
      accepted := store.UpsertPresence(connector, instance, g, epoch, now);
    }

    /** `_authenticate_session` and the registration of the session it returns. */
    method ExchangeSession(g: string, id: string, secret: string, connector: string, instance: string, epoch: int, signed: bool)
      requires Hub.Awaits(HubView(), g) && registry.tasks == tasks && registry.FiledByOwnSlot()
      modifies registry`connections, registry`sessions, registry`registered, registry`pending
      modifies store`challenges, store`instances, store`beats, tasks
      ensures HubView() == Hub.AuthenticateStep(old(HubView()), g, id, secret, connector, instance, epoch, signed)
      ensures DeskView() == DeskAfter(old(View()), Hub.Authenticate(g, id, secret, connector, instance, epoch, signed))
    {
      var accepted := false;
      if id == registry.connections[g].challengeId {
        accepted := AuthenticateRelay(g, id, secret, connector, instance, epoch, signed);
      }
      if !accepted {
        SetConnectionStage(g, Hub.Closed);
        return;
      }
      SetConnectionStage(g, Hub.Serving);
      var device := store.devices[connector];
      registry.sessions := registry.sessions[g := Hub.Session(connector, instance, epoch, device.profile, id, device.enrollment)];
      Register(g, connector);
    }

    /** Exactly a signed answer to its own challenge opens and registers the session. */
    method OpenSession(g: string, id: string, secret: string, connector: string, instance: string, epoch: int, signed: bool)
      requires Hub.Awaits(HubView(), g) && registry.tasks == tasks && registry.FiledByOwnSlot()
      modifies registry`connections, registry`sessions, registry`registered, registry`pending
      modifies store`challenges, store`instances, store`beats, tasks
      ensures HubView() == Hub.AuthenticateStep(old(HubView()), g, id, secret, connector, instance, epoch, signed)
      ensures DeskView() == DeskAfter(old(View()), Hub.Authenticate(g, id, secret, connector, instance, epoch, signed))
      ensures var e := Hub.Authenticate(g, id, secret, connector, instance, epoch, signed);
        if HubLaws.SignedAnswer(old(HubView()), e) then HubLaws.Opened(old(HubView()), HubView(), e)
        else registry.sessions == old(registry.sessions) && registry.registered == old(registry.registered)
             && store.instances == old(store.instances)
    {
      HubLaws.AuthenticationIff(HubView(), Hub.Authenticate(g, id, secret, connector, instance, epoch, signed));
      ExchangeSession(g, id, secret, connector, instance, epoch, signed);
    }

    method AuthenticateSession(g: string, id: string, secret: string, connector: string, instance: string,
                               epoch: int, signed: bool)
      requires Valid() && Hub.Awaits(HubView(), g)
      modifies this`trace, registry`connections, registry`sessions, registry`registered, registry`pending
      modifies store`challenges, store`instances, store`beats, tasks
      ensures Valid() && trace == old(trace) + [HubEvent(Hub.Authenticate(g, id, secret, connector, instance, epoch, signed))]
      ensures HubView() == Hub.AuthenticateStep(old(HubView()), g, id, secret, connector, instance, epoch, signed)
      ensures var e := Hub.Authenticate(g, id, secret, connector, instance, epoch, signed);
        if HubLaws.SignedAnswer(old(HubView()), e) then HubLaws.Opened(old(HubView()), HubView(), e)
        else registry.sessions == old(registry.sessions) && registry.registered == old(registry.registered)
             && store.instances == old(store.instances)
    {
      EntriesAreFiled();
      OpenSession(g, id, secret, connector, instance, epoch, signed);
      trace := trace + [HubEvent(Hub.Authenticate(g, id, secret, connector, instance, epoch, signed))];
      Recorded.Authenticates(run, config, start, old(trace), g, id, secret, connector, instance, epoch, signed);
    }

    // --------------------------------------------------------------------------- live sessions

    /** A heartbeat of a serving session. */
    method ServeHeartbeat(g: string, epoch: int)
      requires Valid() && Hub.Serves(HubView(), g)
      modifies this`trace, registry`connections, registry`sessions, store`instances, store`beats
      ensures Valid() && trace == old(trace) + [HubEvent(Hub.Heartbeat(g, epoch))]
      ensures HubView() == Hub.HeartbeatStep(old(HubView()), g, epoch)
    {
      var session := registry.sessions[g];
      var accepted := store.Heartbeat(session.instance, g, epoch, now);
      if accepted {
        registry.sessions := registry.sessions[g := session.(epoch := if session.epoch > epoch then session.epoch else epoch)];
      } else {
        SetConnectionStage(g, Hub.Failing);
      }
      trace := trace + [HubEvent(Hub.Heartbeat(g, epoch))];
      Recorded.Beats(run, config, start, old(trace), g, epoch);
    }

    /** A frame that the relay rejects. */
    method RejectFrame(g: string)
      requires Valid() && g in registry.connections
      modifies this`trace, registry`connections
      ensures Valid() && trace == old(trace) + [HubEvent(Hub.Malformed(g))]
      ensures HubView() == Hub.MalformedStep(old(HubView()), g)
    {
      match registry.connections[g].stage {
        case Serving => SetConnectionStage(g, Hub.Failing);
        case AwaitingFirst | AwaitingAuth | Enrolled => SetConnectionStage(g, Hub.Closed);
        case Failing | Closed =>
      }
      trace := trace + [HubEvent(Hub.Malformed(g))];
      Recorded.Rejects(run, config, start, old(trace), g);
    }

    /** The `finally` block of the relay handler. */
    method RemoveAndDisconnect(g: string)
      requires g in registry.connections && !registry.connections[g].stage.Closed?
      requires registry.tasks == tasks && registry.FiledByOwnSlot()
      modifies registry`connections, registry`registered, registry`pending, store`instances, tasks
      ensures HubView() == Hub.TeardownStep(old(HubView()), g) && DeskView() == FailPending(old(DeskView()), g)
    {
      if g in registry.sessions {
        var session := registry.sessions[g];
        if session.connector in registry.registered && registry.registered[session.connector] == g {
          registry.registered := registry.registered - {session.connector};
          var closed := store.DisconnectInstance(session.instance, g, now);
        }
      }
      registry.FailPending(g);
      SetConnectionStage(g, Hub.Closed);
    }

    method Teardown(g: string)
      requires Valid() && g in registry.connections && !registry.connections[g].stage.Closed?
      modifies this`trace, registry`connections, registry`registered, registry`pending, store`instances, tasks
      ensures Valid() && trace == old(trace) + [HubEvent(Hub.Teardown(g))]
      ensures HubView() == Hub.TeardownStep(old(HubView()), g) && DeskView() == FailPending(old(DeskView()), g)
    {
      EntriesAreFiled();
      RemoveAndDisconnect(g);
      trace := trace + [HubEvent(Hub.Teardown(g))];
      Recorded.TearsDown(run, config, start, old(trace), g);
    }

    // ---------------------------------------------------------------------------------- devices

    method RevokeDevice(connector: string) returns (revoked: bool)
      requires Valid()
      modifies this`trace, store`devices, store`instances
      ensures Valid() && trace == old(trace) + [HubEvent(Hub.Revoke(connector))]
      ensures revoked == (connector in old(store.devices))
      ensures HubView() == Hub.RevokeStep(old(HubView()), connector)
    {
      revoked := store.RevokeDevice(connector, now);
      assert store.instances == Hub.RevokeStep(old(HubView()), connector).instances;
      trace := trace + [HubEvent(Hub.Revoke(connector))];
      Recorded.Revokes(run, config, start, old(trace), connector);
    }

    method DeleteRevokedDevice(connector: string) returns (status: string)
      requires Valid()
      modifies this`trace, store`devices, store`instances
      ensures Valid() && trace == old(trace) + [HubEvent(Hub.Delete(connector))]
      ensures status == "deleted" <==> connector in old(store.devices) && !old(store.devices)[connector].enrolled
      ensures HubView() == Hub.DeleteStep(old(HubView()), connector)
    {
      status := store.DeleteRevokedDevice(connector);
      trace := trace + [HubEvent(Hub.Delete(connector))];
      Recorded.Deletes(run, config, start, old(trace), connector);
    }

    /** `connection_state` of `device_status`, which sweeps before it looks. */
    method DeviceStatus(connector: string) returns (online: bool)
      requires Valid()
      modifies this`trace, store`instances
      ensures Valid() && trace == old(trace) + [HubEvent(Hub.LivenessRead)]
      ensures online == Hub.DeviceOnline(old(HubView()), connector)
    {
      var picked := RelaySession(connector, None);
      online := picked.Some?;
      HubTheorems.SweepTransparent(old(HubView()));
      assert online == Hub.DeviceOnline(HubView(), connector);
      trace := trace + [HubEvent(Hub.LivenessRead)];
      Recorded.ReadsLiveness(run, config, start, old(trace));
    }

    /** The devices listed by `online_agents` are exactly those whose status is online. */
    method OnlineAgents() returns (agents: set<string>)
      requires Valid()
      modifies this`trace, store`instances
      ensures Valid() && trace == old(trace) + [HubEvent(Hub.LivenessRead)]
      ensures forall connector :: connector in agents <==> Hub.DeviceOnline(old(HubView()), connector)
    {
      agents := ListOnline();
      trace := trace + [HubEvent(Hub.LivenessRead)];
      Recorded.ReadsLiveness(run, config, start, old(trace));
    }

    lemma InventoryIsExact()
      requires Valid()
      ensures forall c :: Hub.DeviceOnline(HubView(), c) <==>
        && c in store.devices && store.devices[c].enrolled
        && exists i :: i in Hub.SweepNow(HubView()).instances
                       && Hub.LiveRow(Hub.SweepNow(HubView()).instances, c, i, Hub.Cutoff(HubView()))
    {
      Promises();
      HubTheorems.SweepTransparent(HubView());
      HubTheorems.InventoryMatchesStatus(HubView());
    }

    method ListOnline() returns (agents: set<string>)
      requires Valid()
      modifies store`instances
      ensures HubView() == Hub.SweepNow(old(HubView()))
      ensures forall connector :: connector in agents <==> Hub.DeviceOnline(old(HubView()), connector)
    {
      InventoryIsExact();
      agents := store.OnlineAgents(Hub.After(now, -config.staleSeconds));
    }

    // --------------------------------------------------------------------------- clock and process

    method AdvanceClock(elapsed: nat)
      requires Valid()
      modifies this`now, this`trace
      ensures Valid() && trace == old(trace) + [HubEvent(Hub.Tick(elapsed))] && now == old(now) + elapsed
    {
      now := now + elapsed;
      trace := trace + [HubEvent(Hub.Tick(elapsed))];
      Recorded.Ticks(run, config, start, old(trace), elapsed);
    }

    /** The process stops and starts again: the tables survive, everything else is gone. */
    method ForgetMemory()
      modifies this`inFlight, this`cancelling, registry`connections, registry`registered, registry`pending, tasks
      ensures HubView() == Hub.RestartStep(old(HubView())) && DeskView() == RestartDesk(old(DeskView()))
    {
      inFlight, cancelling := map[], {};
      registry.pending, registry.registered := map[], map[];
      registry.connections := map g | g in registry.connections :: registry.connections[g].(stage := Hub.Closed);
      tasks.calls := seq(|tasks.calls|, c requires 0 <= c < |tasks.calls| reads tasks =>
        if Live(tasks.calls[c]) then tasks.calls[c].(phase := Ended(Lost)) else tasks.calls[c]);
    }

    method RestartProcess()
      requires Valid()
      modifies this`inFlight, this`cancelling, this`trace, registry`connections, registry`registered, registry`pending, tasks
      ensures Valid() && trace == old(trace) + [HubEvent(Hub.Restart)]
      ensures HubView() == Hub.RestartStep(old(HubView())) && DeskView() == RestartDesk(old(DeskView()))
    {
      ForgetMemory();
      trace := trace + [HubEvent(Hub.Restart)];
      Recorded.Restarts(run, config, start, old(trace));
    }
  }
}
