/** What the device registry promises: single use, generation fencing and honest liveness. */
module HubTheorems {
  import opened Basics
  import opened Catalog
  import opened Hub
  import opened HubInvariants

  // -------------------------------------------------------------------------------- single use

  /** No token serves two enrollments, no challenge serves two enrollments, two sessions or one of
      each; a session answered a challenge issued on its own connection, and every device was
      enrolled with a spent token that names its connector and its profile. */
  ghost predicate UsedOnce(s: State) {
    && (forall j, k :: 0 <= j < k < |s.enrollments| ==>
          s.enrollments[j].token != s.enrollments[k].token && s.enrollments[j].challengeId != s.enrollments[k].challengeId)
    && (forall g, h :: g in s.sessions && h in s.sessions && g != h ==> s.sessions[g].challengeId != s.sessions[h].challengeId)
    && (forall g, k :: g in s.sessions && 0 <= k < |s.enrollments| ==> s.sessions[g].challengeId != s.enrollments[k].challengeId)
    && (forall g :: g in s.sessions ==>
          && g in s.connections && s.sessions[g].challengeId in s.connections[g].issued
          && s.sessions[g].challengeId in s.challenges && s.challenges[s.sessions[g].challengeId].consumedAt.Some?)
    && (forall c :: c in s.devices ==>
          && s.devices[c].enrollment < |s.enrollments|
          && var token := s.enrollments[s.devices[c].enrollment].token;
             && token in s.tokens && s.tokens[token].consumedAt.Some?
             && s.tokens[token].connector == c && s.tokens[token].profile == s.devices[c].profile)
  }

  lemma SingleUse(s: State)
    requires Inv(s)
    ensures UsedOnce(s)
  {
    forall g, h | g in s.sessions && h in s.sessions && g != h
      ensures s.sessions[g].challengeId != s.sessions[h].challengeId
    {
      assert s.connections[g].issued !! s.connections[h].issued;
    }
    forall c | c in s.devices
      ensures var e := s.enrollments[s.devices[c].enrollment]; Spent(e, s.tokens, s.challenges)
    {
    }
  }

  // ----------------------------------------------------------------------------------- fencing

  /** Only the row that carries generation `g` and the registry entry that names `g` may differ. */
  ghost predicate OnlyOwn(s: State, s': State, g: string) {
    && s'.instances.Keys == s.instances.Keys
    && (forall i :: i in s.instances && s.instances[i].generation != g ==> s'.instances[i] == s.instances[i])
    && (forall c :: c in s.registered && s.registered[c] != g ==> Maps(s'.registered, c, s.registered[c]))
    && s'.devices == s.devices
  }

  /** Whatever a connection does after it has authenticated, and its end, touch only what is its
      own: a superseded session cannot disturb the one that took over. */
  lemma Fenced(s: State, g: string, epoch: int)
    ensures OnlyOwn(s, HeartbeatStep(s, g, epoch), g)
    ensures OnlyOwn(s, MalformedStep(s, g), g)
    ensures OnlyOwn(s, TeardownStep(s, g), g)
  {
    HeartbeatFenced(s, g, epoch);
    TeardownFenced(s, g);
  }

  lemma HeartbeatFenced(s: State, g: string, epoch: int)
    ensures OnlyOwn(s, HeartbeatStep(s, g, epoch), g)
  {
  }

  lemma TeardownFenced(s: State, g: string)
    ensures OnlyOwn(s, TeardownStep(s, g), g)
  {
  }

  /** Sessions are never forgotten and their context epoch never falls. */
  ghost predicate EpochsRise(before: map<string, Session>, after: map<string, Session>) {
    forall g :: g in before ==> g in after && before[g].epoch <= after[g].epoch
  }

  lemma HeartbeatRaisesEpochs(s: State, g: string, epoch: int)
    ensures EpochsRise(s.sessions, HeartbeatStep(s, g, epoch).sessions)
  {
  }

  lemma AuthenticateRaisesEpochs(s: State, g: string, id: string, secret: string, connector: string,
                                 instance: string, epoch: int, signed: bool)
    requires SessionsSpend(s.sessions, s.connections, s.challenges, s.enrollments)
    ensures EpochsRise(s.sessions, AuthenticateStep(s, g, id, secret, connector, instance, epoch, signed).sessions)
  {
    assert g in s.sessions ==> PastHandshake(s.connections[g].stage);
  }

  lemma OthersKeepSessions(s: State, e: Event)
    requires !e.Authenticate? && !e.Heartbeat?
    ensures Step(s, e).sessions == s.sessions
  {
    match e
    case Enroll(_, _, _, _, _, _, _) =>
    case Revoke(_) =>
    case Delete(_) =>
    case _ =>
  }

  lemma StepRaisesEpochs(s: State, e: Event)
    requires SessionsSpend(s.sessions, s.connections, s.challenges, s.enrollments)
    ensures EpochsRise(s.sessions, Step(s, e).sessions)
  {
    match e
    case Authenticate(g, id, secret, connector, instance, epoch, signed) =>
      AuthenticateRaisesEpochs(s, g, id, secret, connector, instance, epoch, signed);
    case Heartbeat(g, epoch) => HeartbeatRaisesEpochs(s, g, epoch);
    case _ => OthersKeepSessions(s, e);
  }

  // ---------------------------------------------------------------------------------- liveness

  /** A sweep changes no answer of any liveness query at the same clock value. */
  lemma SweepTransparent(s: State)
    ensures forall connector, i :: LiveRow(SweepNow(s).instances, connector, i, Cutoff(s)) == LiveRow(s.instances, connector, i, Cutoff(s))
    ensures forall connector, i :: LatestRow(SweepNow(s).instances, connector, i, Cutoff(s)) == LatestRow(s.instances, connector, i, Cutoff(s))
    ensures forall connector :: DeviceOnline(SweepNow(s), connector) == DeviceOnline(s, connector)
    ensures OnlineAgents(SweepNow(s)) == OnlineAgents(s)
  {
    var swept := SweepNow(s);
    assert Cutoff(swept) == Cutoff(s);
    assert forall i :: i in s.instances ==> FreshRow(swept.instances[i], Cutoff(s)) == FreshRow(s.instances[i], Cutoff(s));
    assert forall connector, i :: i in s.instances ==>
      LiveRow(swept.instances, connector, i, Cutoff(s)) == LiveRow(s.instances, connector, i, Cutoff(s));
  }

  /** The inventory lists exactly the devices whose own status is online. */
  ghost predicate InventoryExact(s: State) {
    forall connector :: connector in OnlineAgents(s) <==> DeviceOnline(s, connector)
  }

  lemma InventoryMatchesStatus(s: State)
    requires Inv(s)
    ensures InventoryExact(s)
  {
    forall connector | DeviceOnline(s, connector) ensures connector in OnlineAgents(s) {
      var i :| i in s.instances && LiveRow(s.instances, connector, i, Cutoff(s));
      assert RowBelongs(i, s.instances[i], s.devices, s.sessions);
    }
    forall connector | connector in OnlineAgents(s) ensures DeviceOnline(s, connector) {
      var i :| i in s.instances && FreshRow(s.instances[i], Cutoff(s)) && s.instances[i].connector == connector;
      assert LiveRow(s.instances, connector, i, Cutoff(s));
    }
  }

  /** How long instance `i` has been silent, in exact ticks. */
  function Silence(s: State, i: string): int
    requires i in s.beats
  {
    s.now - s.beats[i]
  }

  /** Timestamps are truncated to seconds, so the window is honoured up to one second: an online
      row that counts as live has been silent for less than the window, one that the reaper closes
      for more than the window less one second, and the reaper closes exactly the rows that do not
      count. */
  ghost predicate HonestRow(s: State, i: string)
    requires i in s.instances
  {
    var row := s.instances[i];
    && i in s.beats
    && (FreshRow(row, Cutoff(s)) ==> Silence(s, i) < s.config.staleSeconds * TICKS)
    && (row.online && !Reap(row, Cutoff(s)).online ==> Silence(s, i) > (s.config.staleSeconds - 1) * TICKS)
    && (FreshRow(row, Cutoff(s)) <==> Reap(row, Cutoff(s)).online)
  }

  lemma LivenessIsHonest(s: State, i: string)
    requires Inv(s) && i in s.instances
    ensures HonestRow(s, i)
  {
    assert RowTimely(s.instances[i], s.beats[i], s.now);
  }

  /** An event that takes row `i` from its session: revocation of its device, teardown of its
      session, or a new authentication under the same instance id. */
  predicate Takes(e: Event, i: string, row: Instance) {
    || (e.Revoke? && e.connector == row.connector)
    || (e.Teardown? && e.generation == row.generation)
    || (e.Authenticate? && e.instance == i)
  }

  /** Row `i` is online under the connector and generation of `row`. */
  predicate StillOnline(instances: map<string, Instance>, i: string, row: Instance) {
    i in instances && instances[i].online && instances[i].generation == row.generation && instances[i].connector == row.connector
  }

  /** Instance `i` has been silent for at most the window less one second. */
  predicate Steady(s: State, i: string) {
    i in s.beats && s.now - s.beats[i] <= (s.config.staleSeconds - 1) * TICKS
  }

  lemma SweepSparesSteady(s: State, i: string)
    requires Inv(s) && i in s.instances && s.instances[i].online && Steady(s, i)
    ensures StillOnline(SweepNow(s).instances, i, s.instances[i])
  {
    LivenessIsHonest(s, i);
  }

  lemma HeartbeatSpares(s: State, g: string, epoch: int, i: string)
    requires i in s.instances && s.instances[i].online
    ensures StillOnline(HeartbeatStep(s, g, epoch).instances, i, s.instances[i])
  {
  }

  lemma RemovalSpares(s: State, connector: string, i: string)
    requires i in s.instances && s.instances[i].online
    requires s.instances[i].connector in s.devices && s.devices[s.instances[i].connector].enrolled
    ensures StillOnline(DeleteStep(s, connector).instances, i, s.instances[i])
    ensures connector != s.instances[i].connector ==> StillOnline(RevokeStep(s, connector).instances, i, s.instances[i])
  {
  }

  lemma OthersKeepInstances(s: State, e: Event)
    requires e.Tick? || e.IssueToken? || e.Connect? || e.Enroll? || e.Rechallenge? || e.Malformed? || e.Restart?
    ensures Step(s, e).instances == s.instances
  {
    match e
    case IssueToken(_, _, _, _) =>
    case Connect(_, _, _) =>
    case Enroll(_, _, _, _, _, _, _) =>
    case Rechallenge(_, _, _) =>
    case Malformed(_) =>
    case _ =>
  }

  lemma UntouchedRowSurvives(s: State, e: Event, i: string)
    requires i in s.instances && s.instances[i].online && !Takes(e, i, s.instances[i]) && !e.LivenessRead?
    requires s.instances[i].connector in s.devices && s.devices[s.instances[i].connector].enrolled
    ensures StillOnline(Step(s, e).instances, i, s.instances[i])
  {
    match e
    case Heartbeat(g, epoch) => HeartbeatSpares(s, g, epoch, i);
    case Teardown(g) => TeardownFenced(s, g);
    case Authenticate(_, _, _, _, _, _, _) =>
    case Revoke(connector) => RemovalSpares(s, connector, i);
    case Delete(connector) => RemovalSpares(s, connector, i);
    case _ => OthersKeepInstances(s, e);
  }

  /** A steady row stays online under every event that does not take it. */
  lemma RowSurvives(s: State, e: Event, i: string)
    requires Inv(s) && i in s.instances && s.instances[i].online && Steady(s, i) && !Takes(e, i, s.instances[i])
    ensures StillOnline(Step(s, e).instances, i, s.instances[i])
  {
    assert RowBelongs(i, s.instances[i], s.devices, s.sessions);
    if e.LivenessRead? {
      SweepSparesSteady(s, i);
    } else {
      UntouchedRowSurvives(s, e, i);
    }
  }

  /** The times of a row are in order, it is closed exactly when it has a closing time, and an
      online row belongs to an enrolled device. */
  ghost predicate SoundRow(s: State, i: string)
    requires i in s.instances
  {
    var row := s.instances[i];
    && row.connectedAt <= row.lastHeartbeatAt <= Sec(s.now)
    && (row.online <==> row.disconnectedAt.None?)
    && (row.disconnectedAt.Some? ==> row.lastHeartbeatAt <= row.disconnectedAt.value <= Sec(s.now))
    && (row.online ==> row.connector in s.devices && s.devices[row.connector].enrolled)
  }

  lemma RowsAreSound(s: State, i: string)
    requires Inv(s) && i in s.instances
    ensures SoundRow(s, i)
  {
    assert RowTimely(s.instances[i], s.beats[i], s.now);
    assert RowBelongs(i, s.instances[i], s.devices, s.sessions);
  }

  /** With the configured window, a device may miss four beats of the published interval in a row
      and its instance is still steady. */
  lemma MissedBeatsAreSteady(s: State, i: string, heartbeatTimeout: int)
    requires s.config.staleSeconds == InstanceStaleSeconds(heartbeatTimeout) && i in s.beats
    requires Silence(s, i) <= (INSTANCE_STALE_MULTIPLIER - 1) * HEARTBEAT_INTERVAL_SECONDS * TICKS
    ensures Steady(s, i)
  {
  }
}
