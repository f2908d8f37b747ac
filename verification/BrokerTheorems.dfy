/** The promises of the request broker, over every run. */
module BrokerTheorems {
  import opened Basics
  import opened Catalog
  import opened Broker
  import opened BrokerInvariants
  import opened BrokerHistory
  import Hub
  import HubInvariants
  import HubTheorems

  // --------------------------------------------------------------------------------------- guard

  /** In every run the guard holds precisely the slots of the live mutating calls, each under the
      request id of its call, and no two live calls share a slot. */
  lemma {:induction false} GuardIsExact(config: Hub.Config, now: int, events: seq<Event>)
    ensures GuardExact(Run(config, now, events).desk.calls, Run(config, now, events).desk.inFlight)
  {
    RunKeeps(config, now, events);
  }

  /** A slot is freed by the end of the call that holds it, and by nothing else. */
  lemma SlotFreedByItsHolder(w: World, e: Event, k: CollisionKey)
    requires Inv(w) && k in w.desk.inFlight
    ensures k !in Apply(w, e).desk.inFlight ==>
            exists c :: 0 <= c < |w.desk.calls| && c < |Apply(w, e).desk.calls|
                        && Holds(w.desk.calls[c], k) && Apply(w, e).desk.calls[c].phase.Ended?
  {
    ApplyKeeps(w, e);
    ApplyFollows(w, e);
    var c :| 0 <= c < |w.desk.calls| && Holds(w.desk.calls[c], k);
    assert CallFollows(w.desk.calls[c], Apply(w, e).desk.calls[c]);
    assert Holds(Apply(w, e).desk.calls[c], k) ==> k in Apply(w, e).desk.inFlight;
  }

  // -------------------------------------------------------------------------------------- futures

  /** What may resolve an open future: the response of the call's own session, an operator cancel,
      the timer, the cancellation of the waiting task, the teardown of that session, or a takeover of
      the connector. */
  predicate MayResolve(e: Event, c: nat, call: Call) {
    match e
    case Respond(g, _, requestId, _, _, _) => g == call.session && requestId == RequestId(call.command)
    case CancelResolve(x) => x == c
    case TimerFires(x, cancels) => x == c && cancels
    case Abandon(x) => x == c
    case HubEvent(event) =>
      || (event.Teardown? && event.generation == call.session)
      || (event.Authenticate? && event.connector == call.command.connector)
    case _ => false
  }

  /** No other event resolves a future, and a resolved one never changes again. */
  lemma ResolvedOnceByItsOwn(w: World, e: Event, c: nat)
    requires Inv(w) && c < |w.desk.calls|
    ensures c < |Apply(w, e).desk.calls|
    ensures Apply(w, e).desk.calls[c].future != w.desk.calls[c].future ==>
              w.desk.calls[c].future.Unresolved? && MayResolve(e, c, w.desk.calls[c])
  {
    ApplyFollows(w, e);
    assert CallFollows(w.desk.calls[c], Apply(w, e).desk.calls[c]);
    if w.desk.calls[c].future.Unresolved? {
      match e
      case HubEvent(event) => HubResolves(w, event, c);
      case Respond(_, _, _, _, _, _) => ResponseResolves(w, e, c);
      case CancelResolve(_) =>
      case TimerFires(_, _) =>
      case Abandon(_) =>
      case _ => OthersResolveNothing(w, e, c);
    }
  }

  lemma HubResolves(w: World, e: Hub.Event, c: nat)
    requires Filed(w.desk.pending, w.desk.calls, w.hub.registered) && c < |w.desk.calls| && w.desk.calls[c].future.Unresolved?
    requires HubInvariants.RegistryAgrees(w.hub.registered, w.hub.sessions, w.hub.connections, w.hub.instances)
    ensures !DeskAfter(w, e).calls[c].future.Unresolved? ==> MayResolve(HubEvent(e), c, w.desk.calls[c])
  {
    if Maps(w.desk.pending, SlotOf(w.desk.calls[c]), c) {
      assert FiledRight(SlotOf(w.desk.calls[c]), c, w.desk.calls, w.hub.registered);
      var own := w.desk.calls[c].command.connector;
      assert HubInvariants.EntryAgrees(own, w.hub.registered[own], w.hub.sessions, w.hub.connections, w.hub.instances);
      if e.Authenticate? && e.connector in w.hub.registered {
        assert HubInvariants.EntryAgrees(e.connector, w.hub.registered[e.connector], w.hub.sessions, w.hub.connections, w.hub.instances);
      }
    }
  }

  lemma ResponseResolves(w: World, e: Event, c: nat)
    requires Filed(w.desk.pending, w.desk.calls, w.hub.registered) && c < |w.desk.calls| && e.Respond?
    ensures Apply(w, e).desk.calls[c].future != w.desk.calls[c].future ==> MayResolve(e, c, w.desk.calls[c])
  {
    var slot := Slot(e.generation, e.requestId);
    if slot in w.desk.pending {
      assert FiledRight(slot, w.desk.pending[slot], w.desk.calls, w.hub.registered);
    }
  }

  lemma StartResolvesNothing(w: World, command: Command, picked: Option<string>, c: nat)
    requires c < |w.desk.calls|
    ensures c < |StartStep(w, command, picked).desk.calls| && StartStep(w, command, picked).desk.calls[c] == w.desk.calls[c]
  {
  }

  lemma EndResolvesNothing(d: Desk, x: nat, resultWins: bool, c: nat)
    requires c < |d.calls|
    ensures WakeStep(d, x, resultWins).calls[c].future == d.calls[c].future
    ensures c < |SendFailsStep(d, x).calls| && SendFailsStep(d, x).calls[c].future == d.calls[c].future
  {
  }

  lemma OthersResolveNothing(w: World, e: Event, c: nat)
    requires c < |w.desk.calls| && !e.HubEvent? && !e.Respond? && !e.CancelResolve? && !e.TimerFires? && !e.Abandon?
    ensures c < |Apply(w, e).desk.calls| && Apply(w, e).desk.calls[c].future == w.desk.calls[c].future
  {
    match e
    case Start(command, picked) => StartResolvesNothing(w, command, picked, c);
    case Wake(x, wins) => EndResolvesNothing(w.desk, x, wins, c);
    case SendFails(x) => EndResolvesNothing(w.desk, x, false, c);
    case SendDone(_) =>
    case CancelSend(_, _, _) =>
  }

  // -------------------------------------------------------------------------------------- routing

  /** A route that passes the registry check leads to a session of the present enrollment of an
      enrolled device, even if a session of an earlier enrollment is still open. */
  lemma RouteIsCurrent(h: Hub.State, connector: string, i: string)
    requires HubInvariants.Inv(h) && Hub.LiveRow(h.instances, connector, i, Hub.Cutoff(h))
    requires connector in h.registered && h.registered[connector] in h.sessions
    requires h.sessions[h.registered[connector]].instance == i
    ensures connector in h.devices && h.devices[connector].enrolled
    ensures var session := h.sessions[h.registered[connector]];
      && h.instances[i].generation == h.registered[connector]
      && session.enrollment == h.devices[connector].enrollment
      && session.profile == h.devices[connector].profile
  {
    assert HubInvariants.RowBelongs(i, h.instances[i], h.devices, h.sessions);
    assert HubInvariants.EntryAgrees(connector, h.registered[connector], h.sessions, h.connections, h.instances);
  }

  lemma SubmitSends(d: Desk, command: Command, g: string, digest: Digest)
    ensures var sent := Submit(d, command, g, digest).sent;
      sent == d.sent || sent == d.sent + [FrameFor(command, g, |d.calls|)]
  {
  }

  /** The frame goes to the registered session of an enrolled device, authenticated under its
      present enrollment, and a request stays inside the capability profile of that enrollment: what
      reaches beyond files needs the full profile, and what changes files a writing one. */
  ghost predicate Entitled(h: Hub.State, frame: Frame) {
    && frame.connector in h.devices
    && h.devices[frame.connector].enrolled
    && Maps(h.registered, frame.connector, frame.to)
    && frame.to in h.sessions
    && h.sessions[frame.to].enrollment == h.devices[frame.connector].enrollment
    && (frame.RequestFrame? ==>
          && CapabilityOf(frame.tool) in CapabilitiesFor(h.devices[frame.connector].profile)
          && (ReachesBeyondFiles(frame.tool) ==> h.devices[frame.connector].profile == FullAgent)
          && (ChangesFiles(frame.tool) ==> h.devices[frame.connector].profile != ReadOnly))
  }

  lemma RequestEntitled(h: Hub.State, d: Desk, command: Command, picked: Option<string>)
    requires HubInvariants.Inv(h)
    ensures Hub.RouteAnswer(h.instances, command.connector, command.pinned, Hub.Cutoff(h), picked)
            && Gate(h, command, picked).None? ==>
            Entitled(h, FrameFor(command, h.registered[command.connector], |d.calls|))
  {
    if Hub.RouteAnswer(h.instances, command.connector, command.pinned, Hub.Cutoff(h), picked) && Gate(h, command, picked).None? {
      RouteIsCurrent(h, command.connector, picked.value);
      GrantedVerb(command.tool, h.devices[command.connector].profile);
    }
  }

  /** What a profile that grants the verb is. */
  lemma GrantedVerb(tool: string, profile: Profile)
    requires CapabilityOf(tool) in CapabilitiesFor(profile)
    ensures ReachesBeyondFiles(tool) ==> profile == FullAgent
    ensures ChangesFiles(tool) ==> profile != ReadOnly
  {
    if ReachesBeyondFiles(tool) {
      BeyondFilesNeedsFullAgent(tool, profile);
    }
    if ChangesFiles(tool) {
      ChangingFilesNeedsWrite(tool, profile);
    }
  }

  lemma StartSends(w: World, command: Command, picked: Option<string>)
    ensures var w' := StartStep(w, command, picked); var h := Hub.SweepNow(w.hub);
      w'.desk.sent == w.desk.sent ||
      (&& w'.hub == h
       && Hub.RouteAnswer(h.instances, command.connector, command.pinned, Hub.Cutoff(h), picked)
       && Gate(h, command, picked).None?
       && w'.desk.sent == w.desk.sent + [FrameFor(command, h.registered[command.connector], |w.desk.calls|)])
  {
    var h := Hub.SweepNow(w.hub);
    if Hub.RouteAnswer(h.instances, command.connector, command.pinned, Hub.Cutoff(h), picked) && Gate(h, command, picked).None? {
      SubmitSends(w.desk, command, h.registered[command.connector], DigestFor(h, command, picked.value));
    }
  }

  lemma StartEntitled(w: World, command: Command, picked: Option<string>)
    requires HubInvariants.Inv(w.hub)
    ensures var w' := StartStep(w, command, picked);
      w'.desk.sent == w.desk.sent ||
      (exists frame :: w'.desk.sent == w.desk.sent + [frame] && Entitled(w'.hub, frame))
  {
    StartSends(w, command, picked);
    if StartStep(w, command, picked).desk.sent != w.desk.sent {
      HubInvariants.SweepKeeps(w.hub);
      RequestEntitled(Hub.SweepNow(w.hub), w.desk, command, picked);
    }
  }

  lemma CancelSends(w: World, connector: string, requestId: string, picked: Option<string>)
    ensures var w' := CancelSendStep(w, connector, requestId, picked); var h := Hub.SweepNow(w.hub);
      w'.desk.sent == w.desk.sent ||
      (&& w'.hub == h
       && Hub.RouteAnswer(h.instances, connector, None, Hub.Cutoff(h), picked)
       && CancelReaches(h, w.desk, connector, requestId, picked)
       && w'.desk.sent == w.desk.sent + [CancelFrame(h.registered[connector], connector, requestId)])
  {
  }

  lemma CancelFrameEntitled(h: Hub.State, d: Desk, connector: string, requestId: string, picked: Option<string>)
    requires HubInvariants.Inv(h)
    ensures Hub.RouteAnswer(h.instances, connector, None, Hub.Cutoff(h), picked)
            && CancelReaches(h, d, connector, requestId, picked) ==>
            Entitled(h, CancelFrame(h.registered[connector], connector, requestId))
  {
    if Hub.RouteAnswer(h.instances, connector, None, Hub.Cutoff(h), picked) && CancelReaches(h, d, connector, requestId, picked) {
      RouteIsCurrent(h, connector, picked.value);
    }
  }

  lemma CancelEntitled(w: World, connector: string, requestId: string, picked: Option<string>)
    requires HubInvariants.Inv(w.hub)
    ensures var w' := CancelSendStep(w, connector, requestId, picked);
      w'.desk.sent == w.desk.sent ||
      (exists frame :: w'.desk.sent == w.desk.sent + [frame] && Entitled(w'.hub, frame))
  {
    CancelSends(w, connector, requestId, picked);
    HubInvariants.SweepKeeps(w.hub);
    CancelFrameEntitled(Hub.SweepNow(w.hub), w.desk, connector, requestId, picked);
  }

  lemma OthersSendNothing(w: World, e: Event)
    requires !e.Start? && !e.CancelSend?
    ensures Apply(w, e).desk.sent == w.desk.sent
  {
    match e
    case HubEvent(_) =>
    case Wake(_, _) =>
    case Respond(_, _, _, _, _, _) =>
    case _ =>
  }

  /** Every frame of every run, request or cancel, was written to a device entitled to it. */
  lemma {:induction false} EveryFrameEntitled(config: Hub.Config, now: int, events: seq<Event>, e: Event)
    ensures var w := Run(config, now, events); var w' := Apply(w, e);
      w'.desk.sent == w.desk.sent ||
      (exists frame :: w'.desk.sent == w.desk.sent + [frame] && Entitled(w'.hub, frame))
  {
    RunKeeps(config, now, events);
    var w := Run(config, now, events);
    match e
    case Start(command, picked) => StartEntitled(w, command, picked);
    case CancelSend(connector, requestId, picked) => CancelEntitled(w, connector, requestId, picked);
    case _ => OthersSendNothing(w, e);
  }

  /** No mutating verb lies inside the read-only profile. */
  lemma ReadOnlyNeverMutates(tool: string)
    requires tool in MUTATING_RELAY_TOOLS
    ensures CapabilityOf(tool) !in CapabilitiesFor(ReadOnly)
  {
    // Names of equal length differ in their first, second or seventh letter.
    var name := CapabilityOf(tool);
    assert name[0] == tool[0] && name[1] == tool[1] && name[6] == if tool[6] == '.' then '_' else tool[6];
  }

  // ------------------------------------------------------------------------ the registry over runs

  /** In every run: single use of tokens and challenges, an inventory that matches the status of
      each device, and sound and honest instance rows. */
  lemma {:induction false} RegistryPromises(config: Hub.Config, now: int, events: seq<Event>)
    ensures var h := Run(config, now, events).hub;
      && HubTheorems.UsedOnce(h)
      && HubTheorems.InventoryExact(h)
      && (forall i :: i in h.instances ==> HubTheorems.SoundRow(h, i) && HubTheorems.HonestRow(h, i))
  {
    RunKeeps(config, now, events);
    var h := Run(config, now, events).hub;
    HubTheorems.SingleUse(h);
    HubTheorems.InventoryMatchesStatus(h);
    forall i | i in h.instances ensures HubTheorems.SoundRow(h, i) && HubTheorems.HonestRow(h, i) {
      HubTheorems.RowsAreSound(h, i);
      HubTheorems.LivenessIsHonest(h, i);
    }
  }

  /** The registry event `e` carries that takes row `i` away, if it carries one. */
  predicate TakesRow(e: Event, i: string, row: Hub.Instance) {
    e.HubEvent? && HubTheorems.Takes(e.event, i, row)
  }

  lemma RowSurvivesEvent(w: World, e: Event, i: string)
    requires HubInvariants.Inv(w.hub) && i in w.hub.instances && w.hub.instances[i].online
    requires HubTheorems.Steady(w.hub, i) && !TakesRow(e, i, w.hub.instances[i])
    ensures HubTheorems.StillOnline(Apply(w, e).hub.instances, i, w.hub.instances[i])
  {
    if e.HubEvent? {
      HubTheorems.RowSurvives(w.hub, e.event, i);
    } else {
      HubAfter(w, e);
      HubTheorems.SweepSparesSteady(w.hub, i);
    }
  }

  /** Instance `i` is online with a steady heartbeat after `events`, and remains steady, and is not
      taken, at every further step of `more`. */
  ghost predicate StaysSteady(config: Hub.Config, now: int, events: seq<Event>, more: seq<Event>, i: string, row: Hub.Instance) {
    forall k :: 0 <= k < |more| ==>
      HubTheorems.Steady(Run(config, now, events + more[..k]).hub, i) && !TakesRow(more[k], i, row)
  }

  lemma ReachedRowSurvives(config: Hub.Config, now: int, events: seq<Event>, e: Event, i: string)
    requires var h := Run(config, now, events).hub;
      i in h.instances && h.instances[i].online && HubTheorems.Steady(h, i) && !TakesRow(e, i, h.instances[i])
    ensures HubTheorems.StillOnline(Apply(Run(config, now, events), e).hub.instances, i, Run(config, now, events).hub.instances[i])
  {
    RunKeeps(config, now, events);
    RowSurvivesEvent(Run(config, now, events), e, i);
  }

  lemma SteadyBefore(config: Hub.Config, now: int, events: seq<Event>, more: seq<Event>, i: string, row: Hub.Instance)
    requires more != [] && StaysSteady(config, now, events, more, i, row)
    ensures StaysSteady(config, now, events, more[..|more| - 1], i, row)
  {
    var init := more[..|more| - 1];
    forall k | 0 <= k < |init|
      ensures HubTheorems.Steady(Run(config, now, events + init[..k]).hub, i) && !TakesRow(init[k], i, row)
    {
      assert init[..k] == more[..k] && init[k] == more[k];
    }
  }

  /** However often and in whatever order liveness is read, calls are routed and other devices come
      and go, an instance whose beats keep within the window less one second is never taken offline. */
  lemma {:induction false} SteadyInstanceStaysOnline(config: Hub.Config, now: int, events: seq<Event>, more: seq<Event>,
                                                     i: string, row: Hub.Instance)
    requires HubTheorems.StillOnline(Run(config, now, events).hub.instances, i, row)
    requires StaysSteady(config, now, events, more, i, row)
    ensures HubTheorems.StillOnline(Run(config, now, events + more).hub.instances, i, row)
    decreases |more|
  {
    if more == [] {
      assert events + more == events;
    } else {
      var init := more[..|more| - 1];
      SteadyBefore(config, now, events, more, i, row);
      SteadyInstanceStaysOnline(config, now, events, init, i, row);
      RunSplits(config, now, events, more);
      ReachedRowSurvives(config, now, events + init, more[|more| - 1], i);
    }
  }

  lemma EventRaisesEpochs(config: Hub.Config, now: int, events: seq<Event>, e: Event)
    ensures HubTheorems.EpochsRise(Run(config, now, events).hub.sessions, Apply(Run(config, now, events), e).hub.sessions)
  {
    RunKeeps(config, now, events);
    var w := Run(config, now, events);
    if e.HubEvent? {
      HubTheorems.StepRaisesEpochs(w.hub, e.event);
    } else {
      HubAfter(w, e);
    }
  }

  /** Over every run, the context epoch of a generation never falls; with the row belonging to its
      session, neither does that of an instance row while it carries one generation. */
  lemma {:induction false} EpochNeverFalls(config: Hub.Config, now: int, events: seq<Event>, more: seq<Event>, i: string)
    ensures var before := Run(config, now, events).hub.instances; var after := Run(config, now, events + more).hub.instances;
      i in before && i in after && before[i].generation == after[i].generation ==> before[i].epoch <= after[i].epoch
  {
    SessionEpochsRise(config, now, events, more);
    RunKeeps(config, now, events);
    RunKeeps(config, now, events + more);
    var h := Run(config, now, events).hub;
    var h' := Run(config, now, events + more).hub;
    assert i in h.instances ==> HubInvariants.RowBelongs(i, h.instances[i], h.devices, h.sessions);
    assert i in h'.instances ==> HubInvariants.RowBelongs(i, h'.instances[i], h'.devices, h'.sessions);
  }

  lemma {:induction false} SessionEpochsRise(config: Hub.Config, now: int, events: seq<Event>, more: seq<Event>)
    ensures HubTheorems.EpochsRise(Run(config, now, events).hub.sessions, Run(config, now, events + more).hub.sessions)
    decreases |more|
  {
    if more == [] {
      assert events + more == events;
    } else {
      var init := more[..|more| - 1];
      SessionEpochsRise(config, now, events, init);
      RunSplits(config, now, events, more);
      EventRaisesEpochs(config, now, events + init, more[|more| - 1]);
    }
  }
}
