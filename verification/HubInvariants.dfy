/** What every step of the device registry keeps. */
module HubInvariants {
  import opened Basics
  import opened Catalog
  import opened Hub

  /** Enrollment `e` spent the token it names, issued for that connector and profile, and a challenge. */
  ghost predicate Spent(e: Enrollment, tokens: map<string, Token>, challenges: map<string, Challenge>) {
    && e.token in tokens
    && tokens[e.token].consumedAt.Some?
    && tokens[e.token].connector == e.connector
    && tokens[e.token].profile == e.profile
    && e.challengeId in challenges
    && challenges[e.challengeId].consumedAt.Some?
  }

  /** No two enrollments spent the same token or the same challenge. */
  ghost predicate EnrollmentsSpend(log: seq<Enrollment>, tokens: map<string, Token>, challenges: map<string, Challenge>) {
    && (forall k :: 0 <= k < |log| ==> Spent(log[k], tokens, challenges))
    && (forall j, k :: 0 <= j < k < |log| ==>
          log[j].token != log[k].token && log[j].challengeId != log[k].challengeId)
  }

  ghost predicate DevicesEnrolled(devices: map<string, Device>, log: seq<Enrollment>) {
    forall c :: c in devices ==>
      && devices[c].enrollment < |log|
      && log[devices[c].enrollment].connector == c
      && log[devices[c].enrollment].profile == devices[c].profile
  }

  ghost predicate ChallengesIssuedOnce(connections: map<string, Connection>, challenges: map<string, Challenge>) {
    && (forall g :: g in connections ==>
          && connections[g].challengeId in connections[g].issued
          && connections[g].issued <= challenges.Keys)
    && (forall g, h :: g in connections && h in connections && g != h ==>
          connections[g].issued !! connections[h].issued)
  }

  /** A session spent a challenge of its own connection, one that no enrollment spent. */
  ghost predicate SessionsSpend(sessions: map<string, Session>, connections: map<string, Connection>,
                                challenges: map<string, Challenge>, log: seq<Enrollment>) {
    forall g :: g in sessions ==>
      && g in connections
      && PastHandshake(connections[g].stage)
      && sessions[g].challengeId in connections[g].issued
      && sessions[g].challengeId in challenges
      && challenges[sessions[g].challengeId].consumedAt.Some?
      && forall k :: 0 <= k < |log| ==> log[k].challengeId != sessions[g].challengeId
  }

  predicate PastHandshake(stage: Stage) {
    stage.Serving? || stage.Failing? || stage.Closed?
  }

  /** Instance row `i` was written by the session whose generation it carries, under the present
      enrollment of its device; an online row has an enrolled device. */
  ghost predicate RowBelongs(i: string, row: Instance, devices: map<string, Device>, sessions: map<string, Session>) {
    && row.connector in devices
    && (row.online ==> devices[row.connector].enrolled)
    && row.generation in sessions
    && var session := sessions[row.generation];
       && session.connector == row.connector
       && session.instance == i
       && session.epoch == row.epoch
       && session.enrollment == devices[row.connector].enrollment
       && session.profile == devices[row.connector].profile
  }

  ghost predicate RowsBelong(instances: map<string, Instance>, devices: map<string, Device>, sessions: map<string, Session>) {
    forall i :: i in instances ==> RowBelongs(i, instances[i], devices, sessions)
  }

  /** The session registered for `c` belongs to `c` and has not been torn down; if its instance
      has a row of that connector, the row carries its generation. */
  ghost predicate EntryAgrees(c: string, g: string, sessions: map<string, Session>,
                              connections: map<string, Connection>, instances: map<string, Instance>) {
    && g in sessions
    && sessions[g].connector == c
    && g in connections
    && (connections[g].stage.Serving? || connections[g].stage.Failing?)
    && var i := sessions[g].instance;
       (i in instances && instances[i].connector == c ==> instances[i].generation == g)
  }

  ghost predicate RegistryAgrees(registered: map<string, string>, sessions: map<string, Session>,
                                 connections: map<string, Connection>, instances: map<string, Instance>) {
    forall c :: c in registered ==> EntryAgrees(c, registered[c], sessions, connections, instances)
  }

  ghost predicate RowTimely(row: Instance, beat: int, now: int) {
    && beat <= now
    && row.lastHeartbeatAt == Sec(beat)
    && row.connectedAt <= row.lastHeartbeatAt
    && (row.online <==> row.disconnectedAt.None?)
    && (row.disconnectedAt.Some? ==> row.lastHeartbeatAt <= row.disconnectedAt.value <= Sec(now))
  }

  ghost predicate RowsTimely(instances: map<string, Instance>, beats: map<string, int>, now: int) {
    forall i :: i in instances ==> i in beats && RowTimely(instances[i], beats[i], now)
  }

  ghost predicate Inv(s: State) {
    && EnrollmentsSpend(s.enrollments, s.tokens, s.challenges)
    && DevicesEnrolled(s.devices, s.enrollments)
    && ChallengesIssuedOnce(s.connections, s.challenges)
    && SessionsSpend(s.sessions, s.connections, s.challenges, s.enrollments)
    && RowsBelong(s.instances, s.devices, s.sessions)
    && RegistryAgrees(s.registered, s.sessions, s.connections, s.instances)
    && RowsTimely(s.instances, s.beats, s.now)
  }

  // ------------------------------------------------------- closing rows and moving stages

  /** The rows of `after` are rows of `before`, some of them closed no earlier than their last beat. */
  ghost predicate Closes(before: map<string, Instance>, after: map<string, Instance>, now: int) {
    && after.Keys <= before.Keys
    && forall i :: i in after ==> after[i] == before[i] || Closed(before[i], after[i], now)
  }

  ghost predicate Closed(row: Instance, closed: Instance, now: int) {
    && closed.disconnectedAt.Some?
    && closed == CloseRow(row, closed.disconnectedAt.value)
    && row.lastHeartbeatAt <= closed.disconnectedAt.value <= Sec(now)
  }

  lemma ClosingKeepsBelonging(before: map<string, Instance>, after: map<string, Instance>, now: int,
                              devices: map<string, Device>, sessions: map<string, Session>)
    requires RowsBelong(before, devices, sessions) && Closes(before, after, now)
    ensures RowsBelong(after, devices, sessions)
  {
    forall i | i in after ensures RowBelongs(i, after[i], devices, sessions) {
      assert RowBelongs(i, before[i], devices, sessions);
    }
  }

  lemma ClosingKeepsRegistry(before: map<string, Instance>, after: map<string, Instance>, now: int,
                             registered: map<string, string>, sessions: map<string, Session>,
                             connections: map<string, Connection>)
    requires RegistryAgrees(registered, sessions, connections, before) && Closes(before, after, now)
    ensures RegistryAgrees(registered, sessions, connections, after)
  {
    forall c | c in registered ensures EntryAgrees(c, registered[c], sessions, connections, after) {
      assert EntryAgrees(c, registered[c], sessions, connections, before);
    }
  }

  lemma ClosingKeepsTimes(before: map<string, Instance>, after: map<string, Instance>, now: int, beats: map<string, int>)
    requires RowsTimely(before, beats, now) && Closes(before, after, now)
    ensures RowsTimely(after, beats, now)
  {
    forall i | i in after ensures i in beats && RowTimely(after[i], beats[i], now) {
      assert RowTimely(before[i], beats[i], now);
    }
  }

  /** Connection `g` changes its stage and nothing else. */
  lemma StageKeepsChallenges(connections: map<string, Connection>, g: string, stage: Stage,
                             challenges: map<string, Challenge>)
    requires g in connections && ChallengesIssuedOnce(connections, challenges)
    ensures ChallengesIssuedOnce(connections[g := connections[g].(stage := stage)], challenges)
  {
  }

  lemma StageKeepsSessions(connections: map<string, Connection>, g: string, stage: Stage,
                           sessions: map<string, Session>, challenges: map<string, Challenge>, log: seq<Enrollment>)
    requires g in connections && SessionsSpend(sessions, connections, challenges, log)
    requires g in sessions ==> PastHandshake(stage)
    ensures SessionsSpend(sessions, connections[g := connections[g].(stage := stage)], challenges, log)
  {
  }

  lemma StageKeepsRegistry(connections: map<string, Connection>, g: string, stage: Stage,
                           registered: map<string, string>, sessions: map<string, Session>,
                           instances: map<string, Instance>)
    requires g in connections && RegistryAgrees(registered, sessions, connections, instances)
    requires stage.Serving? || stage.Failing? || (g in sessions ==> !Maps(registered, sessions[g].connector, g))
    ensures RegistryAgrees(registered, sessions, connections[g := connections[g].(stage := stage)], instances)
  {
    var after := connections[g := connections[g].(stage := stage)];
    forall c | c in registered ensures EntryAgrees(c, registered[c], sessions, after, instances) {
      assert EntryAgrees(c, registered[c], sessions, connections, instances);
    }
  }

  lemma StageKeeps(s: State, g: string, stage: Stage)
    requires Inv(s) && g in s.connections
    requires g in s.sessions ==> PastHandshake(stage)
    requires stage.Serving? || stage.Failing? || (g in s.sessions ==> !Maps(s.registered, s.sessions[g].connector, g))
    ensures Inv(SetStage(s, g, stage))
  {
    StageKeepsChallenges(s.connections, g, stage, s.challenges);
    StageKeepsSessions(s.connections, g, stage, s.sessions, s.challenges, s.enrollments);
    StageKeepsRegistry(s.connections, g, stage, s.registered, s.sessions, s.instances);
  }

  // ------------------------------------------------------------- spending tokens and challenges

  lemma SpendingTokenKeeps(s: State, token: string)
    requires Inv(s) && token in s.tokens && s.tokens[token].consumedAt.None?
    ensures Inv(s.(tokens := SpendToken(s.tokens, token, s.now)))
    ensures forall k :: 0 <= k < |s.enrollments| ==> s.enrollments[k].token != token
  {
    var after := SpendToken(s.tokens, token, s.now);
    forall k | 0 <= k < |s.enrollments|
      ensures s.enrollments[k].token != token && Spent(s.enrollments[k], after, s.challenges)
    {
      assert Spent(s.enrollments[k], s.tokens, s.challenges);
    }
  }

  /** Challenges only ever gain rows and get consumed. */
  ghost predicate ChallengesGrow(before: map<string, Challenge>, after: map<string, Challenge>) {
    && before.Keys <= after.Keys
    && forall id :: id in before && before[id].consumedAt.Some? ==> after[id].consumedAt.Some?
  }

  lemma GrowingKeepsEnrollments(log: seq<Enrollment>, tokens: map<string, Token>,
                                before: map<string, Challenge>, after: map<string, Challenge>)
    requires EnrollmentsSpend(log, tokens, before) && ChallengesGrow(before, after)
    ensures EnrollmentsSpend(log, tokens, after)
  {
    forall k | 0 <= k < |log| ensures Spent(log[k], tokens, after) {
      assert Spent(log[k], tokens, before);
    }
  }

  lemma GrowingKeepsSessions(sessions: map<string, Session>, connections: map<string, Connection>,
                             before: map<string, Challenge>, after: map<string, Challenge>, log: seq<Enrollment>)
    requires SessionsSpend(sessions, connections, before, log) && ChallengesGrow(before, after)
    ensures SessionsSpend(sessions, connections, after, log)
  {
  }

  lemma GrowingKeeps(s: State, challenges: map<string, Challenge>)
    requires Inv(s) && ChallengesGrow(s.challenges, challenges)
    ensures Inv(s.(challenges := challenges))
  {
    GrowingKeepsEnrollments(s.enrollments, s.tokens, s.challenges, challenges);
    GrowingKeepsSessions(s.sessions, s.connections, s.challenges, challenges, s.enrollments);
  }

  /** A challenge that is still open has been spent neither by an enrollment nor by a session. */
  lemma OpenChallengeUnused(s: State, id: string)
    requires Inv(s) && id in s.challenges && s.challenges[id].consumedAt.None?
    ensures forall k :: 0 <= k < |s.enrollments| ==> s.enrollments[k].challengeId != id
    ensures forall g :: g in s.sessions ==> s.sessions[g].challengeId != id
  {
    forall k | 0 <= k < |s.enrollments| ensures s.enrollments[k].challengeId != id {
      assert Spent(s.enrollments[k], s.tokens, s.challenges);
    }
  }

  // ------------------------------------------------------------------------------ enrollment

  lemma AdmittingKeepsRows(instances: map<string, Instance>, devices: map<string, Device>, sessions: map<string, Session>,
                           connector: string, device: Device)
    requires RowsBelong(instances, devices, sessions) && connector !in devices
    ensures RowsBelong(instances, devices[connector := device], sessions)
  {
    forall i | i in instances ensures RowBelongs(i, instances[i], devices[connector := device], sessions) {
      assert RowBelongs(i, instances[i], devices, sessions);
    }
  }

  lemma AdmittingKeepsSessions(s: State, entry: Enrollment)
    requires SessionsSpend(s.sessions, s.connections, s.challenges, s.enrollments)
    requires forall g :: g in s.sessions ==> s.sessions[g].challengeId != entry.challengeId
    ensures SessionsSpend(s.sessions, s.connections, s.challenges, s.enrollments + [entry])
  {
  }

  lemma AdmittingKeeps(s: State, publicKey: string, entry: Enrollment)
    requires Inv(s) && entry.connector !in s.devices
    requires Spent(entry, s.tokens, s.challenges)
    requires forall k :: 0 <= k < |s.enrollments| ==>
      s.enrollments[k].token != entry.token && s.enrollments[k].challengeId != entry.challengeId
    requires forall g :: g in s.sessions ==> s.sessions[g].challengeId != entry.challengeId
    ensures Inv(Admit(s, publicKey, entry))
  {
    AdmittingKeepsRows(s.instances, s.devices, s.sessions, entry.connector,
                       Device(publicKey, entry.profile, true, Sec(s.now), None, |s.enrollments|));
    AdmittingKeepsSessions(s, entry);
  }

  /** Once the token is spent: the challenge, the signature and the device row. */
  lemma AnsweringKeeps(s: State, g: string, id: string, publicKey: string, entry: Enrollment)
    requires Inv(s) && g in s.connections && s.connections[g].stage == AwaitingFirst
    requires id in s.challenges && s.challenges[id].consumedAt.None? && entry.challengeId == id
    requires entry.token in s.tokens && s.tokens[entry.token].consumedAt.Some?
    requires s.tokens[entry.token].connector == entry.connector && s.tokens[entry.token].profile == entry.profile
    requires forall k :: 0 <= k < |s.enrollments| ==> s.enrollments[k].token != entry.token
    ensures var spent := s.(challenges := SpendChallenge(s.challenges, id, s.now));
      && Inv(SetStage(spent, g, Stage.Closed))
      && (entry.connector !in s.devices ==> Inv(Admit(SetStage(spent, g, Enrolled), publicKey, entry)))
  {
    var spent := s.(challenges := SpendChallenge(s.challenges, id, s.now));
    OpenChallengeUnused(s, id);
    GrowingKeeps(s, spent.challenges);
    StageKeeps(spent, g, Stage.Closed);
    StageKeeps(spent, g, Enrolled);
    if entry.connector !in s.devices {
      AdmittingKeeps(SetStage(spent, g, Enrolled), publicKey, entry);
    }
  }

  lemma EnrollKeeps(s: State, g: string, id: string, secret: string, connector: string,
                    token: string, publicKey: string, signed: bool)
    requires Inv(s)
    ensures Inv(EnrollStep(s, g, id, secret, connector, token, publicKey, signed))
  {
    if g in s.connections && s.connections[g].stage == AwaitingFirst {
      if TokenVerdict(s.tokens, token, connector, s.now) != Accepted {
        StageKeeps(s, g, Stage.Closed);
      } else {
        SpendingTokenKeeps(s, token);
        var s1 := s.(tokens := SpendToken(s.tokens, token, s.now));
        if !ChallengeUsable(s1.challenges, id, secret, s1.now) {
          StageKeeps(s1, g, Stage.Closed);
        } else {
          AnsweringKeeps(s1, g, id, publicKey, Enrollment(connector, s.tokens[token].profile, token, id));
        }
      }
    }
  }

  // -------------------------------------------------------------------------- authentication

  lemma OpeningKeepsBelonging(s: State, g: string, instance: string, row: Instance, session: Session)
    requires RowsBelong(s.instances, s.devices, s.sessions) && g !in s.sessions
    requires row.generation == g && RowBelongs(instance, row, s.devices, s.sessions[g := session])
    ensures RowsBelong(s.instances[instance := row], s.devices, s.sessions[g := session])
  {
    forall i | i in s.instances && i != instance
      ensures RowBelongs(i, s.instances[i], s.devices, s.sessions[g := session])
    {
      assert RowBelongs(i, s.instances[i], s.devices, s.sessions);
    }
  }

  lemma OpeningKeepsRegistry(s: State, g: string, row: Instance, session: Session)
    requires RegistryAgrees(s.registered, s.sessions, s.connections, s.instances) && g !in s.sessions
    requires g in s.connections && s.connections[g].stage.Serving?
    requires row.generation == g && row.connector == session.connector
    ensures RegistryAgrees(s.registered[session.connector := g], s.sessions[g := session], s.connections,
                           s.instances[session.instance := row])
  {
    forall c | c in s.registered && c != session.connector
      ensures EntryAgrees(c, s.registered[c], s.sessions[g := session], s.connections, s.instances[session.instance := row])
    {
      assert EntryAgrees(c, s.registered[c], s.sessions, s.connections, s.instances);
    }
  }

  lemma OpeningKeepsSessions(s: State, g: string, session: Session)
    requires SessionsSpend(s.sessions, s.connections, s.challenges, s.enrollments)
    requires g in s.connections && s.connections[g].stage.Serving?
    requires session.challengeId in s.connections[g].issued && session.challengeId in s.challenges
    requires s.challenges[session.challengeId].consumedAt.Some?
    requires forall k :: 0 <= k < |s.enrollments| ==> s.enrollments[k].challengeId != session.challengeId
    ensures SessionsSpend(s.sessions[g := session], s.connections, s.challenges, s.enrollments)
  {
  }

  lemma OpeningKeepsTimes(instances: map<string, Instance>, beats: map<string, int>, now: int, i: string, row: Instance)
    requires RowsTimely(instances, beats, now) && RowTimely(row, now, now)
    ensures RowsTimely(instances[i := row], beats[i := now], now)
  {
  }

  lemma OpeningKeeps(s: State, g: string, session: Session)
    requires Inv(s) && g !in s.sessions && g in s.connections && s.connections[g].stage.Serving?
    requires RowBelongs(session.instance, OpenRow(s, g, session), s.devices, s.sessions[g := session])
    requires session.challengeId in s.connections[g].issued && session.challengeId in s.challenges
    requires s.challenges[session.challengeId].consumedAt.Some?
    requires forall k :: 0 <= k < |s.enrollments| ==> s.enrollments[k].challengeId != session.challengeId
    ensures Inv(OpenSession(s, g, session))
  {
    var row := OpenRow(s, g, session);
    OpeningKeepsBelonging(s, g, session.instance, row, session);
    OpeningKeepsRegistry(s, g, row, session);
    OpeningKeepsSessions(s, g, session);
    OpeningKeepsTimes(s.instances, s.beats, s.now, session.instance, row);
  }

  lemma AuthenticatedKeeps(s: State, g: string, id: string, session: Session)
    requires Inv(s) && id in s.challenges && s.challenges[id].consumedAt.None?
    requires g in s.connections && !PastHandshake(s.connections[g].stage) && s.connections[g].challengeId == id
    requires session.connector in s.devices && s.devices[session.connector].enrolled
    requires session.challengeId == id
    requires session.profile == s.devices[session.connector].profile
    requires session.enrollment == s.devices[session.connector].enrollment
    ensures Inv(OpenSession(SetStage(SpendIn(s, id), g, Serving), g, session))
  {
    OpenChallengeUnused(s, id);
    var s1 := SpendIn(s, id);
    GrowingKeeps(s, s1.challenges);
    StageKeeps(s1, g, Serving);
    OpeningKeeps(SetStage(s1, g, Serving), g, session);
  }

  lemma RefusedKeeps(s: State, g: string, id: string)
    requires Inv(s) && id in s.challenges && g in s.connections && !PastHandshake(s.connections[g].stage)
    ensures Inv(SetStage(SpendIn(s, id), g, Stage.Closed))
  {
    var s1 := SpendIn(s, id);
    GrowingKeeps(s, s1.challenges);
    StageKeeps(s1, g, Stage.Closed);
  }

  lemma AuthenticateKeeps(s: State, g: string, id: string, secret: string, connector: string,
                          instance: string, epoch: int, signed: bool)
    requires Inv(s)
    ensures Inv(AuthenticateStep(s, g, id, secret, connector, instance, epoch, signed))
  {
    if Authenticates(s, g, id, secret, connector, epoch, signed) {
      AuthenticatedKeeps(s, g, id, Session(connector, instance, epoch, s.devices[connector].profile, id,
                                           s.devices[connector].enrollment));
    } else if Answers(s, g, id, secret) {
      RefusedKeeps(s, g, id);
    } else if Awaits(s, g) {
      StageKeeps(s, g, Stage.Closed);
    }
  }

  // ----------------------------------------------------------------------------- live sessions

  lemma BeatKeepsBelonging(s: State, g: string, epoch: int)
    requires RowsBelong(s.instances, s.devices, s.sessions)
    requires Serves(s, g) && BeatAccepted(s, g, epoch)
    ensures var s' := HeartbeatStep(s, g, epoch); RowsBelong(s'.instances, s'.devices, s'.sessions)
  {
    var s' := HeartbeatStep(s, g, epoch);
    assert RowBelongs(s.sessions[g].instance, s.instances[s.sessions[g].instance], s.devices, s.sessions);
    forall i | i in s'.instances ensures RowBelongs(i, s'.instances[i], s'.devices, s'.sessions) {
      assert RowBelongs(i, s.instances[i], s.devices, s.sessions);
    }
  }

  lemma BeatKeepsRegistry(s: State, g: string, epoch: int)
    requires RegistryAgrees(s.registered, s.sessions, s.connections, s.instances)
    requires Serves(s, g) && BeatAccepted(s, g, epoch)
    ensures var s' := HeartbeatStep(s, g, epoch); RegistryAgrees(s'.registered, s'.sessions, s'.connections, s'.instances)
  {
    var s' := HeartbeatStep(s, g, epoch);
    forall c | c in s.registered ensures EntryAgrees(c, s.registered[c], s'.sessions, s'.connections, s'.instances) {
      assert EntryAgrees(c, s.registered[c], s.sessions, s.connections, s.instances);
    }
  }

  lemma BeatKeepsTimes(s: State, g: string, epoch: int)
    requires RowsTimely(s.instances, s.beats, s.now)
    requires Serves(s, g) && BeatAccepted(s, g, epoch)
    ensures var s' := HeartbeatStep(s, g, epoch); RowsTimely(s'.instances, s'.beats, s'.now)
  {
    var s' := HeartbeatStep(s, g, epoch);
    forall i | i in s'.instances ensures i in s'.beats && RowTimely(s'.instances[i], s'.beats[i], s'.now) {
      assert RowTimely(s.instances[i], s.beats[i], s.now);
    }
  }

  lemma BeatKeepsSessions(sessions: map<string, Session>, g: string, epoch: int, connections: map<string, Connection>,
                          challenges: map<string, Challenge>, log: seq<Enrollment>)
    requires g in sessions && SessionsSpend(sessions, connections, challenges, log)
    ensures SessionsSpend(sessions[g := sessions[g].(epoch := epoch)], connections, challenges, log)
  {
  }

  lemma HeartbeatKeeps(s: State, g: string, epoch: int)
    requires Inv(s)
    ensures Inv(HeartbeatStep(s, g, epoch))
  {
    if Serves(s, g) {
      if BeatAccepted(s, g, epoch) {
        var s' := HeartbeatStep(s, g, epoch);
        BeatKeepsBelonging(s, g, epoch);
        BeatKeepsRegistry(s, g, epoch);
        BeatKeepsTimes(s, g, epoch);
        BeatKeepsSessions(s.sessions, g, s'.sessions[g].epoch, s.connections, s.challenges, s.enrollments);
      } else {
        StageKeeps(s, g, Failing);
      }
    }
  }

  lemma MalformedKeeps(s: State, g: string)
    requires Inv(s)
    ensures Inv(MalformedStep(s, g))
  {
    if g in s.connections {
      match s.connections[g].stage
      case Serving => StageKeeps(s, g, Failing);
      case AwaitingFirst | AwaitingAuth | Enrolled => StageKeeps(s, g, Stage.Closed);
      case Failing | Closed =>
    }
  }

  lemma ClosingKeeps(s: State, instances: map<string, Instance>)
    requires Inv(s) && Closes(s.instances, instances, s.now)
    ensures Inv(s.(instances := instances))
  {
    ClosingKeepsBelonging(s.instances, instances, s.now, s.devices, s.sessions);
    ClosingKeepsRegistry(s.instances, instances, s.now, s.registered, s.sessions, s.connections);
    ClosingKeepsTimes(s.instances, instances, s.now, s.beats);
  }

  lemma SweepCloses(instances: map<string, Instance>, beats: map<string, int>, now: int, cutoff: int)
    requires RowsTimely(instances, beats, now)
    ensures Closes(instances, Swept(instances, cutoff), now)
  {
    forall i | i in instances
      ensures Reap(instances[i], cutoff) == instances[i] || Closed(instances[i], Reap(instances[i], cutoff), now)
    {
      assert RowTimely(instances[i], beats[i], now);
    }
  }

  lemma SweepKeeps(s: State)
    requires Inv(s)
    ensures Inv(SweepNow(s))
  {
    SweepCloses(s.instances, s.beats, s.now, Cutoff(s));
    ClosingKeeps(s, Swept(s.instances, Cutoff(s)));
  }

  lemma DisconnectCloses(s: State, g: string)
    requires RowsTimely(s.instances, s.beats, s.now) && g in s.sessions
    ensures Closes(s.instances, Disconnected(s, g), s.now)
  {
    var i := s.sessions[g].instance;
    if i in s.instances {
      assert RowTimely(s.instances[i], s.beats[i], s.now);
    }
  }

  lemma TeardownKeeps(s: State, g: string)
    requires Inv(s)
    ensures Inv(TeardownStep(s, g))
  {
    if g in s.connections && s.connections[g].stage != Stage.Closed {
      if g in s.sessions && Maps(s.registered, s.sessions[g].connector, g) {
        var s1 := s.(registered := s.registered - {s.sessions[g].connector});
        assert RegistryAgrees(s1.registered, s1.sessions, s1.connections, s1.instances);
        StageKeeps(s1, g, Stage.Closed);
        DisconnectCloses(s, g);
        ClosingKeeps(SetStage(s1, g, Stage.Closed), Disconnected(s, g));
      } else {
        StageKeeps(s, g, Stage.Closed);
      }
    }
  }

  lemma RevokeKeepsBelonging(s: State, connector: string)
    requires RowsBelong(s.instances, s.devices, s.sessions)
    ensures var s' := RevokeStep(s, connector); RowsBelong(s'.instances, s'.devices, s'.sessions)
  {
    var s' := RevokeStep(s, connector);
    forall i | i in s'.instances ensures RowBelongs(i, s'.instances[i], s'.devices, s'.sessions) {
      assert RowBelongs(i, s.instances[i], s.devices, s.sessions);
    }
  }

  lemma RevokeCloses(s: State, connector: string)
    requires RowsTimely(s.instances, s.beats, s.now)
    ensures Closes(s.instances, RevokeStep(s, connector).instances, s.now)
  {
    var after := RevokeStep(s, connector).instances;
    forall i | i in s.instances ensures after[i] == s.instances[i] || Closed(s.instances[i], after[i], s.now) {
      assert RowTimely(s.instances[i], s.beats[i], s.now);
    }
  }

  lemma RevokeKeeps(s: State, connector: string)
    requires Inv(s)
    ensures Inv(RevokeStep(s, connector))
  {
    var s' := RevokeStep(s, connector);
    RevokeCloses(s, connector);
    RevokeKeepsBelonging(s, connector);
    ClosingKeepsRegistry(s.instances, s'.instances, s.now, s.registered, s.sessions, s.connections);
    ClosingKeepsTimes(s.instances, s'.instances, s.now, s.beats);
  }

  lemma DeleteKeepsBelonging(s: State, connector: string)
    requires RowsBelong(s.instances, s.devices, s.sessions)
    ensures var s' := DeleteStep(s, connector); RowsBelong(s'.instances, s'.devices, s'.sessions)
  {
    var s' := DeleteStep(s, connector);
    forall i | i in s'.instances ensures RowBelongs(i, s'.instances[i], s'.devices, s'.sessions) {
      assert RowBelongs(i, s.instances[i], s.devices, s.sessions);
    }
  }

  lemma DeleteKeeps(s: State, connector: string)
    requires Inv(s)
    ensures Inv(DeleteStep(s, connector))
  {
    var s' := DeleteStep(s, connector);
    assert Closes(s.instances, s'.instances, s.now);
    DeleteKeepsBelonging(s, connector);
    ClosingKeepsRegistry(s.instances, s'.instances, s.now, s.registered, s.sessions, s.connections);
    ClosingKeepsTimes(s.instances, s'.instances, s.now, s.beats);
  }

  // --------------------------------------------------------------------------------- the rest

  lemma TickKeeps(s: State, elapsed: nat)
    requires Inv(s)
    ensures Inv(s.(now := s.now + elapsed))
  {
    forall i | i in s.instances ensures i in s.beats && RowTimely(s.instances[i], s.beats[i], s.now + elapsed) {
      assert RowTimely(s.instances[i], s.beats[i], s.now);
    }
  }

  lemma IssueTokenKeeps(s: State, token: string, connector: string, profile: Profile, ttl: int)
    requires Inv(s)
    ensures Inv(IssueTokenStep(s, token, connector, profile, ttl))
  {
    var s' := IssueTokenStep(s, token, connector, profile, ttl);
    forall k | 0 <= k < |s.enrollments| ensures Spent(s.enrollments[k], s'.tokens, s.challenges) {
      assert Spent(s.enrollments[k], s.tokens, s.challenges);
    }
  }

  lemma ConnectingKeepsRegistry(s: State, g: string, connection: Connection)
    requires RegistryAgrees(s.registered, s.sessions, s.connections, s.instances) && g !in s.sessions
    ensures RegistryAgrees(s.registered, s.sessions, s.connections[g := connection], s.instances)
  {
    forall c | c in s.registered
      ensures EntryAgrees(c, s.registered[c], s.sessions, s.connections[g := connection], s.instances)
    {
      assert EntryAgrees(c, s.registered[c], s.sessions, s.connections, s.instances);
    }
  }

  /** Connection `g` receives the fresh challenge `id`, as its first or as its second one. */
  lemma IssuingKeeps(s: State, g: string, id: string, challenge: Challenge, connection: Connection)
    requires Inv(s) && id !in s.challenges && g !in s.sessions
    requires connection.challengeId == id
    requires connection.issued == {id} + if g in s.connections then s.connections[g].issued else {}
    ensures Inv(s.(challenges := s.challenges[id := challenge], connections := s.connections[g := connection]))
  {
    GrowingKeeps(s, s.challenges[id := challenge]);
    ConnectingKeepsRegistry(s, g, connection);
    IssuingKeepsOwnership(s.connections, s.challenges, g, id, challenge, connection);
    assert SessionsSpend(s.sessions, s.connections[g := connection], s.challenges[id := challenge], s.enrollments);
  }

  lemma IssuingKeepsOwnership(connections: map<string, Connection>, challenges: map<string, Challenge>,
                              g: string, id: string, challenge: Challenge, connection: Connection)
    requires ChallengesIssuedOnce(connections, challenges) && id !in challenges
    requires connection.challengeId == id
    requires connection.issued == {id} + if g in connections then connections[g].issued else {}
    ensures ChallengesIssuedOnce(connections[g := connection], challenges[id := challenge])
  {
  }

  lemma RestartKeeps(s: State)
    requires Inv(s)
    ensures Inv(RestartStep(s))
  {
    var s' := RestartStep(s);
    assert ChallengesIssuedOnce(s'.connections, s'.challenges);
    assert SessionsSpend(s'.sessions, s'.connections, s'.challenges, s'.enrollments);
  }

  lemma HandshakeKeeps(s: State, e: Event)
    requires Inv(s) && (e.Connect? || e.Enroll? || e.Rechallenge? || e.Authenticate?)
    ensures Inv(Step(s, e))
  {
    match e
    case Connect(g, id, secret) =>
      if g !in s.connections && id !in s.challenges {
        IssuingKeeps(s, g, id, NewChallenge(s, secret), Connection(AwaitingFirst, id, {id}));
      }
    case Enroll(g, id, secret, connector, token, key, signed) =>
      EnrollKeeps(s, g, id, secret, connector, token, key, signed);
    case Rechallenge(g, id, secret) =>
      if g in s.connections && s.connections[g].stage == Enrolled && id !in s.challenges {
        IssuingKeeps(s, g, id, NewChallenge(s, secret), Connection(AwaitingAuth, id, s.connections[g].issued + {id}));
      }
    case Authenticate(g, id, secret, connector, instance, epoch, signed) =>
      AuthenticateKeeps(s, g, id, secret, connector, instance, epoch, signed);
  }

  /** Every event keeps the invariant of the device registry. */
  lemma StepKeeps(s: State, e: Event)
    requires Inv(s)
    ensures Inv(Step(s, e))
  {
    match e
    case Tick(elapsed) => TickKeeps(s, elapsed);
    case IssueToken(token, connector, profile, ttl) => IssueTokenKeeps(s, token, connector, profile, ttl);
    case Heartbeat(g, epoch) => HeartbeatKeeps(s, g, epoch);
    case Malformed(g) => MalformedKeeps(s, g);
    case Teardown(g) => TeardownKeeps(s, g);
    case Revoke(connector) => RevokeKeeps(s, connector);
    case Delete(connector) => DeleteKeeps(s, connector);
    case LivenessRead => SweepKeeps(s);
    case Restart => RestartKeeps(s);
    case _ => HandshakeKeeps(s, e);
  }
}
