/** Silence after a revocation: what is sent to a connector whose device is revoked or gone. */
module BrokerRevocation {
  import opened Basics
  import opened Broker
  import opened BrokerInvariants
  import opened BrokerHistory
  import opened BrokerTheorems
  import Hub
  import HubLaws
  import HubTheorems

  /** The connector is unknown or revoked. */
  predicate Barred(devices: map<string, Hub.Device>, connector: string) {
    connector in devices ==> !devices[connector].enrolled
  }

  /** The enrollment succeeds: the connector is free, the token is fresh and names this connector, and
      challenge and signature hold. */
  predicate Admits(w: World, e: Event, connector: string) {
    && e.HubEvent? && e.event.Enroll? && e.event.connector == connector
    && connector !in w.hub.devices
    && e.event.generation in w.hub.connections && w.hub.connections[e.event.generation].stage == Hub.AwaitingFirst
    && HubLaws.GoodToken(w.hub, e.event)
    && HubLaws.GoodChallenge(w.hub, e.event)
    && e.event.signed
  }

  /** Revocation bars a connector, whatever state it was in; once barred, deletion removes it. */
  lemma RemovalBars(s: Hub.State, connector: string)
    ensures Barred(Hub.RevokeStep(s, connector).devices, connector)
    ensures Barred(s.devices, connector) ==> connector !in Hub.DeleteStep(s, connector).devices
  {
  }

  /** What an enrollment message does to the device table: nothing, or one new device. */
  lemma EnrollmentAdmits(w: World, e: Event)
    requires e.HubEvent? && e.event.Enroll?
    ensures var devices := Hub.Step(w.hub, e.event).devices;
      if Admits(w, e, e.event.connector)
      then && devices.Keys == w.hub.devices.Keys + {e.event.connector} && devices[e.event.connector].enrolled
           && forall c :: c in w.hub.devices ==> devices[c] == w.hub.devices[c]
      else devices == w.hub.devices
  {
    if e.event.generation in w.hub.connections && w.hub.connections[e.event.generation].stage == Hub.AwaitingFirst {
      HubLaws.EnrollmentIff(w.hub, e.event);
    }
  }

  lemma SessionsKeepDevices(s: Hub.State, e: Hub.Event)
    requires e.Authenticate? || e.Heartbeat? || e.Malformed? || e.Teardown?
    ensures Hub.Step(s, e).devices == s.devices
  {
    match e
    case Authenticate(_, _, _, _, _, _, _) =>
    case Heartbeat(g, epoch) => HubTheorems.Fenced(s, g, epoch);
    case Malformed(g) => HubTheorems.Fenced(s, g, 0);
    case Teardown(g) => HubTheorems.Fenced(s, g, 0);
  }

  lemma OthersKeepBarred(s: Hub.State, e: Hub.Event, connector: string)
    requires Barred(s.devices, connector)
    requires !e.Enroll? && !(e.Authenticate? || e.Heartbeat? || e.Malformed? || e.Teardown?)
    ensures Barred(Hub.Step(s, e).devices, connector)
  {
  }

  /** Exactly which events lift the bar: an enrollment that succeeds, and nothing short of it. */
  lemma BarLiftedIff(w: World, e: Event, connector: string)
    requires Barred(w.hub.devices, connector)
    ensures !Barred(Apply(w, e).hub.devices, connector) <==> Admits(w, e, connector)
  {
    if e.HubEvent? {
      if e.event.Enroll? {
        EnrollmentAdmits(w, e);
      } else if e.event.Authenticate? || e.event.Heartbeat? || e.event.Malformed? || e.event.Teardown? {
        SessionsKeepDevices(w.hub, e.event);
      } else {
        OthersKeepBarred(w.hub, e.event, connector);
      }
    } else {
      HubAfter(w, e);
    }
  }

  /** It takes a token issued for this connector that was never spent, and spends it. */
  lemma AdmissionSpendsToken(w: World, e: Event, connector: string)
    requires Admits(w, e, connector)
    ensures var before, after := w.hub.tokens, Apply(w, e).hub.tokens;
      && e.event.token in before && before[e.event.token].connector == connector
      && before[e.event.token].consumedAt.None? && before[e.event.token].expiresAt > Sec(w.hub.now)
      && e.event.token in after && after[e.event.token].consumedAt.Some?
      && Apply(w, e).hub.devices[connector].profile == before[e.event.token].profile
  {
  }

  /** The frames from position `from` on are for other connectors. */
  ghost predicate SilentFrom(sent: seq<Frame>, from: nat, connector: string) {
    forall k :: from <= k < |sent| ==> sent[k].connector != connector
  }

  lemma EventIsSilent(config: Hub.Config, now: int, events: seq<Event>, e: Event, connector: string, from: nat)
    requires SilentFrom(Run(config, now, events).desk.sent, from, connector)
    requires Barred(Apply(Run(config, now, events), e).hub.devices, connector)
    ensures SilentFrom(Apply(Run(config, now, events), e).desk.sent, from, connector)
  {
    EveryFrameEntitled(config, now, events, e);
    var w := Run(config, now, events);
    if Apply(w, e).desk.sent != w.desk.sent {
      var frame :| Apply(w, e).desk.sent == w.desk.sent + [frame] && Entitled(Apply(w, e).hub, frame);
    }
  }

  /** No enrollment of this connector succeeds in the continuation `more`. */
  ghost predicate NotAdmitted(config: Hub.Config, now: int, events: seq<Event>, more: seq<Event>, connector: string) {
    forall k :: 0 <= k < |more| ==> !Admits(Run(config, now, events + more[..k]), more[k], connector)
  }

  lemma NotAdmittedBefore(config: Hub.Config, now: int, events: seq<Event>, more: seq<Event>, connector: string)
    requires more != [] && NotAdmitted(config, now, events, more, connector)
    ensures NotAdmitted(config, now, events, more[..|more| - 1], connector)
    ensures !Admits(Run(config, now, events + more[..|more| - 1]), more[|more| - 1], connector)
  {
    var init := more[..|more| - 1];
    forall k | 0 <= k < |init| ensures !Admits(Run(config, now, events + init[..k]), init[k], connector) {
      assert init[..k] == more[..k] && init[k] == more[k];
    }
  }

  /** From the moment a connector is barred, and through any further events, failed attempts to come
      back included, no request and no cancel is sent for it until an enrollment of it succeeds. */
  lemma {:induction false} RevokedStaysSilent(config: Hub.Config, now: int, events: seq<Event>, more: seq<Event>, connector: string)
    requires Barred(Run(config, now, events).hub.devices, connector)
    requires NotAdmitted(config, now, events, more, connector)
    ensures Barred(Run(config, now, events + more).hub.devices, connector)
    ensures SilentFrom(Run(config, now, events + more).desk.sent, |Run(config, now, events).desk.sent|, connector)
    decreases |more|
  {
    if more == [] {
      assert events + more == events;
    } else {
      var init, last := more[..|more| - 1], more[|more| - 1];
      NotAdmittedBefore(config, now, events, more, connector);
      RevokedStaysSilent(config, now, events, init, connector);
      RunSplits(config, now, events, more);
      BarLiftedIff(Run(config, now, events + init), last, connector);
      EventIsSilent(config, now, events + init, last, connector, |Run(config, now, events).desk.sent|);
    }
  }

  /** Whatever went before: once a device is revoked, or deleted after it was, its connector is
      silent until an enrollment of it succeeds. */
  lemma {:induction false} RemovalSilences(config: Hub.Config, now: int, events: seq<Event>, removal: Hub.Event, more: seq<Event>,
                                           connector: string)
    requires (removal.Revoke? || removal.Delete?) && removal.connector == connector
    requires removal.Delete? ==> Barred(Run(config, now, events).hub.devices, connector)
    requires NotAdmitted(config, now, events + [HubEvent(removal)], more, connector)
    ensures SilentFrom(Run(config, now, events + [HubEvent(removal)] + more).desk.sent, |Run(config, now, events).desk.sent|, connector)
  {
    var w := Run(config, now, events);
    RunSplits(config, now, events, [HubEvent(removal)]);
    assert events + [HubEvent(removal)][..0] == events;
    RemovalBars(w.hub, connector);
    RemovalSendsNothing(w, removal);
    RevokedStaysSilent(config, now, events + [HubEvent(removal)], more, connector);
  }

  lemma RemovalSendsNothing(w: World, removal: Hub.Event)
    requires removal.Revoke? || removal.Delete?
    ensures Apply(w, HubEvent(removal)).desk == w.desk
    ensures Apply(w, HubEvent(removal)).hub ==
            if removal.Revoke? then Hub.RevokeStep(w.hub, removal.connector) else Hub.DeleteStep(w.hub, removal.connector)
  {
  }
}
