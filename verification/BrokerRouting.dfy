/** Where calls are routed: when an online device is refused as offline, how it comes to that, and
    what holds of every request at the moment it is dispatched. */
module BrokerRouting {
  import opened Basics
  import opened Broker
  import opened BrokerInvariants
  import opened BrokerShapes
  import opened BrokerHistory
  import opened BrokerTheorems
  import opened BrokerFrames
  import Hub
  import HubInvariants
  import HubTheorems

  // -------------------------------------------------------------------------------- rows and sessions

  /** Row `i` carries the generation of the session registered for its connector. */
  predicate Registered(h: Hub.State, i: string)
    requires i in h.instances
  {
    Maps(h.registered, h.instances[i].connector, h.instances[i].generation)
  }

  /** A live row is refused as offline exactly if it is not the row of the registered session. */
  lemma LiveRowRefusedIff(h: Hub.State, command: Command, i: string)
    requires HubInvariants.Inv(h) && Hub.LiveRow(h.instances, command.connector, i, Hub.Cutoff(h))
    ensures Gate(h, command, Some(i)) == Some("device_offline") <==> !Registered(h, i)
  {
    assert HubInvariants.RowBelongs(i, h.instances[i], h.devices, h.sessions);
    if command.connector in h.registered {
      assert HubInvariants.EntryAgrees(command.connector, h.registered[command.connector], h.sessions, h.connections, h.instances);
    }
  }

  /** The checks that come before the route lookup hold. */
  predicate Asks(w: World, command: Command) {
    && (command.assertion.None? ==> !Used(w.desk.calls, command.uuid))
    && (command.assertion.Some? ==> command.assertion.value.connector == command.connector)
  }

  /** The call was refused as offline, before it claimed anything. */
  predicate RefusedOffline(call: Call) {
    call.claim.Unclaimed? && call.phase == Ended(Raised("device_offline"))
  }

  lemma StartRefusedIff(w: World, command: Command, picked: Option<string>)
    requires Asks(w, command)
    requires Hub.RouteAnswer(Hub.SweepNow(w.hub).instances, command.connector, command.pinned, Hub.Cutoff(w.hub), picked)
    ensures var calls := StartStep(w, command, picked).desk.calls;
      |calls| == |w.desk.calls| + 1 &&
      (RefusedOffline(calls[|w.desk.calls|]) <==> Gate(Hub.SweepNow(w.hub), command, picked) == Some("device_offline"))
  {
    if Gate(Hub.SweepNow(w.hub), command, picked).None? {
      ReachingClaimSubmits(w, command, picked);
      SubmitIsNoRefusal(w.desk, command, Target(w, command, picked), DigestOf(w, command, picked));
    }
  }

  lemma SubmitIsNoRefusal(d: Desk, command: Command, g: string, digest: Digest)
    ensures |Submit(d, command, g, digest).calls| == |d.calls| + 1 && !Submit(d, command, g, digest).calls[|d.calls|].claim.Unclaimed?
  {
  }

  /** The sweep leaves a live row as it is. */
  lemma LiveRowSwept(h: Hub.State, connector: string, i: string)
    requires Hub.LiveRow(Hub.SweepNow(h).instances, connector, i, Hub.Cutoff(h))
    ensures Hub.LiveRow(h.instances, connector, i, Hub.Cutoff(h)) && h.instances[i] == Hub.SweepNow(h).instances[i]
  {
  }

  /** Exactly when a call is refused as offline: when the route finds no live row, or picks one that
      carries another generation than the registered session. */
  lemma RefusedOfflineIff(w: World, command: Command, picked: Option<string>)
    requires HubInvariants.Inv(w.hub) && Asks(w, command)
    requires Hub.RouteAnswer(Hub.SweepNow(w.hub).instances, command.connector, command.pinned, Hub.Cutoff(w.hub), picked)
    ensures picked.Some? ==> Hub.LiveRow(w.hub.instances, command.connector, picked.value, Hub.Cutoff(w.hub))
    ensures var calls := StartStep(w, command, picked).desk.calls;
      |calls| == |w.desk.calls| + 1 &&
      (RefusedOffline(calls[|w.desk.calls|]) <==> picked.None? || !Registered(w.hub, picked.value))
  {
    StartRefusedIff(w, command, picked);
    HubInvariants.SweepKeeps(w.hub);
    if picked.Some? {
      LiveRowSwept(w.hub, command.connector, picked.value);
      LiveRowRefusedIff(Hub.SweepNow(w.hub), command, picked.value);
    }
  }

  /** An unpinned call for an online device finds a row. */
  lemma OnlineIsFound(w: World, command: Command, picked: Option<string>)
    requires Hub.DeviceOnline(w.hub, command.connector) && command.pinned.None?
    requires Hub.RouteAnswer(Hub.SweepNow(w.hub).instances, command.connector, command.pinned, Hub.Cutoff(w.hub), picked)
    ensures picked.Some?
  {
    HubTheorems.SweepTransparent(w.hub);
  }

  /** Every live row of the connector is the row of its registered session. */
  ghost predicate LiveRowsRegistered(h: Hub.State, connector: string) {
    forall i :: i in h.instances && Hub.LiveRow(h.instances, connector, i, Hub.Cutoff(h)) ==> Registered(h, i)
  }

  /** Then no unpinned call for an online device is refused as offline, whatever row is picked. */
  lemma OnlineIsServed(w: World, command: Command, picked: Option<string>)
    requires HubInvariants.Inv(w.hub) && Asks(w, command)
    requires Hub.RouteAnswer(Hub.SweepNow(w.hub).instances, command.connector, command.pinned, Hub.Cutoff(w.hub), picked)
    requires Hub.DeviceOnline(w.hub, command.connector) && command.pinned.None? && LiveRowsRegistered(w.hub, command.connector)
    ensures var calls := StartStep(w, command, picked).desk.calls;
      |calls| == |w.desk.calls| + 1 && !RefusedOffline(calls[|w.desk.calls|])
  {
    RefusedOfflineIff(w, command, picked);
    OnlineIsFound(w, command, picked);
  }

  // ----------------------------------------------------------------------------------- stray rows

  /** Every online row is the row of a registered session. */
  ghost predicate NoStrays(instances: map<string, Hub.Instance>, registered: map<string, string>) {
    forall i :: i in instances && instances[i].online ==> Maps(registered, instances[i].connector, instances[i].generation)
  }

  /** Another row of this connector than `instance` is online. */
  predicate OtherOnline(instances: map<string, Hub.Instance>, connector: string, instance: string) {
    exists i :: i in instances && i != instance && instances[i].online && instances[i].connector == connector
  }

  /** A connection takes over the connector under another instance id than that of an online row. */
  predicate TakesOverBeside(h: Hub.State, e: Hub.Event) {
    && e.Authenticate?
    && Hub.Authenticates(h, e.generation, e.challengeId, e.secret, e.connector, e.epoch, e.signed)
    && OtherOnline(h.instances, e.connector, e.instance)
  }

  /** The event leaves an online row without its session: such a takeover, or a restart. */
  predicate LeavesStray(w: World, e: Event) {
    e.HubEvent? && (TakesOverBeside(w.hub, e.event) || (e.event.Restart? && exists i :: i in w.hub.instances && w.hub.instances[i].online))
  }

  /** A connection that still has to authenticate owns no row. */
  lemma NewcomerOwnsNoRow(h: Hub.State, g: string)
    requires HubInvariants.Inv(h) && Hub.Awaits(h, g)
    ensures forall i :: i in h.instances ==> h.instances[i].generation != g
  {
    forall i | i in h.instances ensures h.instances[i].generation != g {
      assert HubInvariants.RowBelongs(i, h.instances[i], h.devices, h.sessions);
    }
  }

  lemma TakeoverStraysIff(instances: map<string, Hub.Instance>, registered: map<string, string>, g: string,
                          instance: string, row: Hub.Instance)
    requires NoStrays(instances, registered) && forall i :: i in instances ==> instances[i].generation != g
    requires row.online && row.generation == g
    ensures !NoStrays(instances[instance := row], registered[row.connector := g]) <==> OtherOnline(instances, row.connector, instance)
  {
    var after := instances[instance := row];
    if OtherOnline(instances, row.connector, instance) {
      var i :| i in instances && i != instance && instances[i].online && instances[i].connector == row.connector;
      assert after[i] == instances[i];
    }
  }

  lemma AuthenticationOpens(h: Hub.State, e: Hub.Event)
    requires e.Authenticate?
    ensures var h' := Hub.Step(h, e);
      if Hub.Authenticates(h, e.generation, e.challengeId, e.secret, e.connector, e.epoch, e.signed)
      then && e.instance in h'.instances && h'.instances == h.instances[e.instance := h'.instances[e.instance]]
           && h'.instances[e.instance].online && h'.instances[e.instance].generation == e.generation
           && h'.instances[e.instance].connector == e.connector
           && h'.registered == h.registered[e.connector := e.generation]
      else h'.instances == h.instances && h'.registered == h.registered
  {
  }

  lemma AuthenticationStraysIff(h: Hub.State, e: Hub.Event)
    requires NoStrays(h.instances, h.registered) && HubInvariants.Inv(h) && e.Authenticate?
    ensures !NoStrays(Hub.Step(h, e).instances, Hub.Step(h, e).registered) <==> TakesOverBeside(h, e)
  {
    AuthenticationOpens(h, e);
    if Hub.Authenticates(h, e.generation, e.challengeId, e.secret, e.connector, e.epoch, e.signed) {
      NewcomerOwnsNoRow(h, e.generation);
      TakeoverStraysIff(h.instances, h.registered, e.generation, e.instance, Hub.Step(h, e).instances[e.instance]);
    }
  }

  /** Rows only close or go, or beat on under their generation. */
  ghost predicate RowsShrink(before: map<string, Hub.Instance>, after: map<string, Hub.Instance>) {
    forall i :: i in after && after[i].online ==>
      i in before && before[i].online && after[i].connector == before[i].connector && after[i].generation == before[i].generation
  }

  lemma ShrinkingLeavesNoStray(before: map<string, Hub.Instance>, after: map<string, Hub.Instance>, registered: map<string, string>)
    requires NoStrays(before, registered) && RowsShrink(before, after)
    ensures NoStrays(after, registered)
  {
  }

  /** The session that leaves the registry takes its only row with it. */
  lemma LeavingTakesRow(h: Hub.State, g: string)
    requires NoStrays(h.instances, h.registered) && HubInvariants.RowsBelong(h.instances, h.devices, h.sessions)
    requires g in h.sessions
    ensures NoStrays(Hub.Disconnected(h, g), h.registered - {h.sessions[g].connector}) || !Maps(h.registered, h.sessions[g].connector, g)
  {
    var after := Hub.Disconnected(h, g);
    forall i | i in after && after[i].online && Maps(h.registered, h.sessions[g].connector, g)
      ensures after[i].connector != h.sessions[g].connector && after[i] == h.instances[i]
    {
      assert HubInvariants.RowBelongs(i, h.instances[i], h.devices, h.sessions);
    }
  }

  lemma TeardownLeavesNoStray(h: Hub.State, g: string)
    requires NoStrays(h.instances, h.registered) && HubInvariants.RowsBelong(h.instances, h.devices, h.sessions)
    ensures NoStrays(Hub.TeardownStep(h, g).instances, Hub.TeardownStep(h, g).registered)
  {
    if g in h.sessions {
      LeavingTakesRow(h, g);
    }
  }

  lemma HeartbeatShrinks(h: Hub.State, g: string, epoch: int)
    ensures RowsShrink(h.instances, Hub.HeartbeatStep(h, g, epoch).instances)
  {
  }

  lemma RevocationShrinks(h: Hub.State, connector: string)
    ensures RowsShrink(h.instances, Hub.RevokeStep(h, connector).instances)
  {
  }

  lemma DeletionShrinks(h: Hub.State, connector: string)
    ensures RowsShrink(h.instances, Hub.DeleteStep(h, connector).instances)
  {
  }

  lemma SweepShrinks(h: Hub.State)
    ensures RowsShrink(h.instances, Hub.SweepNow(h).instances)
  {
  }

  lemma HubEventStraysIff(w: World, e: Hub.Event)
    requires NoStrays(w.hub.instances, w.hub.registered) && HubInvariants.Inv(w.hub)
    ensures var h' := Hub.Step(w.hub, e); !NoStrays(h'.instances, h'.registered) <==> LeavesStray(w, HubEvent(e))
  {
    var h := w.hub;
    match e
    case Authenticate(_, _, _, _, _, _, _) => AuthenticationStraysIff(h, e);
    case Teardown(g) => TeardownLeavesNoStray(h, g);
    case Heartbeat(g, epoch) =>
      HeartbeatShrinks(h, g, epoch);
      ShrinkingLeavesNoStray(h.instances, Hub.HeartbeatStep(h, g, epoch).instances, h.registered);
    case Revoke(c) => RevocationShrinks(h, c); ShrinkingLeavesNoStray(h.instances, Hub.RevokeStep(h, c).instances, h.registered);
    case Delete(c) => DeletionShrinks(h, c); ShrinkingLeavesNoStray(h.instances, Hub.DeleteStep(h, c).instances, h.registered);
    case LivenessRead => SweepShrinks(h); ShrinkingLeavesNoStray(h.instances, Hub.SweepNow(h).instances, h.registered);
    case Restart => RestartStraysIff(h);
    case _ => HubTheorems.OthersKeepInstances(h, e); OthersMoveNothing(h, e);
  }

  lemma RestartStraysIff(h: Hub.State)
    ensures !NoStrays(Hub.RestartStep(h).instances, Hub.RestartStep(h).registered) <==> exists i :: i in h.instances && h.instances[i].online
  {
  }

  /** Exactly which events leave an online row without its session. */
  lemma StraysIff(w: World, e: Event)
    requires NoStrays(w.hub.instances, w.hub.registered) && HubInvariants.Inv(w.hub)
    ensures !NoStrays(Apply(w, e).hub.instances, Apply(w, e).hub.registered) <==> LeavesStray(w, e)
  {
    if e.HubEvent? {
      HubEventStraysIff(w, e.event);
    } else {
      HubAfter(w, e);
      SweepShrinks(w.hub);
      ShrinkingLeavesNoStray(w.hub.instances, Hub.SweepNow(w.hub).instances, w.hub.registered);
    }
  }

  /** Exactly the runs in which every online row has its session. */
  lemma {:induction false} NoStraysIff(config: Hub.Config, now: int, events: seq<Event>)
    ensures Throughout(config, now, events, (w: World) => NoStrays(w.hub.instances, w.hub.registered)) <==>
            Never(config, now, events, LeavesStray)
  {
    var good := (w: World) => NoStrays(w.hub.instances, w.hub.registered);
    forall k | 0 <= k < |events| && good(Run(config, now, events[..k]))
      ensures LeavesStray(Run(config, now, events[..k]), events[k]) <==> !good(Run(config, now, events[..k + 1]))
    {
      RunKeeps(config, now, events[..k]);
      RunTakes(config, now, events, k);
      StraysIff(Run(config, now, events[..k]), events[k]);
    }
    ThroughoutIff(config, now, events, good, LeavesStray);
  }

  /** Over every run without such an event, an unpinned call for an online device is never refused as
      offline. */
  lemma {:induction false} OnlineMeansReachable(config: Hub.Config, now: int, events: seq<Event>, command: Command, picked: Option<string>)
    requires Never(config, now, events, LeavesStray)
    ensures var w := Run(config, now, events); var calls := StartStep(w, command, picked).desk.calls;
      Asks(w, command) && Hub.DeviceOnline(w.hub, command.connector) && command.pinned.None?
      && Hub.RouteAnswer(Hub.SweepNow(w.hub).instances, command.connector, command.pinned, Hub.Cutoff(w.hub), picked) ==>
        |calls| == |w.desk.calls| + 1 && !RefusedOffline(calls[|w.desk.calls|])
  {
    NoStraysIff(config, now, events);
    assert events[..|events|] == events;
    assert NoStrays(Run(config, now, events[..|events|]).hub.instances, Run(config, now, events[..|events|]).hub.registered);
    RunKeeps(config, now, events);
    NoStraysServe(Run(config, now, events), command, picked);
  }

  lemma NoStraysServe(w: World, command: Command, picked: Option<string>)
    requires HubInvariants.Inv(w.hub) && NoStrays(w.hub.instances, w.hub.registered)
    ensures var calls := StartStep(w, command, picked).desk.calls;
      Asks(w, command) && Hub.DeviceOnline(w.hub, command.connector) && command.pinned.None?
      && Hub.RouteAnswer(Hub.SweepNow(w.hub).instances, command.connector, command.pinned, Hub.Cutoff(w.hub), picked) ==>
        |calls| == |w.desk.calls| + 1 && !RefusedOffline(calls[|w.desk.calls|])
  {
    if Asks(w, command) && Hub.DeviceOnline(w.hub, command.connector) && command.pinned.None?
       && Hub.RouteAnswer(Hub.SweepNow(w.hub).instances, command.connector, command.pinned, Hub.Cutoff(w.hub), picked) {
      assert LiveRowsRegistered(w.hub, command.connector);
      OnlineIsServed(w, command, picked);
    }
  }

  // ------------------------------------------------------------------------- requests at their dispatch

  /** The frame carries out the command within both clocks: the assertion names this connector, gives
      the request id and has not expired, and the time asked for fits into the relay window. */
  predicate InTime(h: Hub.State, command: Command, frame: Frame)
    requires frame.RequestFrame?
  {
    && frame.requestId == (if command.assertion.Some? then command.assertion.value.requestId else command.uuid)
    && frame.tool == command.tool
    && frame.connector == command.connector && frame.arguments == command.arguments && frame.key == command.key
    && !ExceedsWindow(command.arguments, h.config.requestWindowSeconds)
    && (command.assertion.Some? ==>
          && command.assertion.value.connector == command.connector
          && command.assertion.value.expiresAt > h.now / 1_000_000)
  }

  /** The frame was dispatched in time by one of the events. */
  ghost predicate DispatchedInTime(config: Hub.Config, now: int, events: seq<Event>, frame: Frame)
    requires frame.RequestFrame?
  {
    exists j :: 0 <= j < |events| && events[j].Start? && InTime(Run(config, now, events[..j]).hub, events[j].command, frame)
  }

  lemma DispatchedStays(config: Hub.Config, now: int, events: seq<Event>, frame: Frame)
    requires events != [] && frame.RequestFrame? && DispatchedInTime(config, now, events[..|events| - 1], frame)
    ensures DispatchedInTime(config, now, events, frame)
  {
    var init := events[..|events| - 1];
    var j :| 0 <= j < |init| && init[j].Start? && InTime(Run(config, now, init[..j]).hub, init[j].command, frame);
    assert init[..j] == events[..j] && init[j] == events[j];
  }

  lemma StartSendsInTime(w: World, command: Command, picked: Option<string>, k: nat)
    ensures var sent := StartStep(w, command, picked).desk.sent;
      k < |sent| && sent[k].RequestFrame? ==> (k < |w.desk.sent| && sent[k] == w.desk.sent[k]) || InTime(w.hub, command, sent[k])
  {
    StartSends(w, command, picked);
  }

  lemma OldFramesStay(d: Desk, d': Desk, k: nat)
    requires SendsNoRequest(d, d') && k < |d'.sent| && d'.sent[k].RequestFrame?
    ensures k < |d.sent| && d'.sent[k] == d.sent[k]
  {
  }

  /** Every frame after the event was there before, or the event is a start that is in time. */
  lemma EventSendsInTime(w: World, e: Event, k: nat, frame: Frame)
    requires frame.RequestFrame?
    ensures k < |Apply(w, e).desk.sent| && Apply(w, e).desk.sent[k] == frame ==>
            (k < |w.desk.sent| && w.desk.sent[k] == frame) || (e.Start? && InTime(w.hub, e.command, frame))
  {
    if e.Start? {
      StartSendsInTime(w, e.command, e.picked, k);
    } else {
      OthersSendNoRequest(w, e);
      if k < |Apply(w, e).desk.sent| && Apply(w, e).desk.sent[k] == frame {
        OldFramesStay(w.desk, Apply(w, e).desk, k);
      }
    }
  }

  /** Every request frame of every run was sent by a start of the run that was in time. */
  lemma {:induction false} EveryRequestInTime(config: Hub.Config, now: int, events: seq<Event>, k: nat)
    ensures var sent := Run(config, now, events).desk.sent;
      k < |sent| && sent[k].RequestFrame? ==> DispatchedInTime(config, now, events, sent[k])
  {
    if events != [] {
      var init, last := events[..|events| - 1], events[|events| - 1];
      EveryRequestInTime(config, now, init, k);
      var frame := if k < |Run(config, now, events).desk.sent| then Some(Run(config, now, events).desk.sent[k]) else None;
      if frame.Some? && frame.value.RequestFrame? {
        EventSendsInTime(Run(config, now, init), last, k, frame.value);
        if k < |Run(config, now, init).desk.sent| && frame.value == Run(config, now, init).desk.sent[k] {
          DispatchedStays(config, now, events, frame.value);
        }
      }
    }
  }
}
