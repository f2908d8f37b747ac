/** What each operation of the device registry asks for and does, with its conditions written out in
    the terms of its tables and its message. */
module HubLaws {
  import opened Basics
  import opened Catalog
  import opened Hub
  import opened HubInvariants
  import opened HubTheorems

  // ---------------------------------------------------------------------------- relay authentication

  /** An authentication message with a valid signature of an enrolled device, on a connection that has
      not authenticated yet, answering the unspent and unexpired challenge of this connection. */
  predicate SignedAnswer(s: State, e: Event) {
    && e.Authenticate?
    && e.generation in s.connections
    && (s.connections[e.generation].stage.AwaitingFirst? || s.connections[e.generation].stage.AwaitingAuth?)
    && s.connections[e.generation].challengeId == e.challengeId
    && e.challengeId in s.challenges
    && s.challenges[e.challengeId].secret == e.secret
    && s.challenges[e.challengeId].consumedAt == None
    && s.now / 1_000_000 < s.challenges[e.challengeId].expiresAt
    && e.connector in s.devices && s.devices[e.connector].enrolled
    && e.signed
    && 0 <= e.epoch
  }

  /** What a session is opened with. */
  ghost predicate Opened(s: State, s': State, e: Event)
    requires e.Authenticate? && e.connector in s.devices
  {
    && s'.sessions == s.sessions[e.generation :=
         Session(e.connector, e.instance, e.epoch, s.devices[e.connector].profile, e.challengeId, s.devices[e.connector].enrollment)]
    && s'.registered == s.registered[e.connector := e.generation]
    && s'.instances == s.instances[e.instance :=
         Instance(e.connector, e.generation, e.epoch, true, s.now / 1_000_000, s.now / 1_000_000, None)]
    && e.challengeId in s'.challenges && s'.challenges[e.challengeId].consumedAt.Some?
    && e.generation in s'.connections && s'.connections[e.generation].stage == Serving
  }

  lemma SignedAnswerAuthenticates(s: State, e: Event)
    requires e.Authenticate?
    ensures Authenticates(s, e.generation, e.challengeId, e.secret, e.connector, e.epoch, e.signed) <==> SignedAnswer(s, e)
  {
  }

  lemma AuthenticatedOpens(s: State, e: Event)
    requires e.Authenticate? && Authenticates(s, e.generation, e.challengeId, e.secret, e.connector, e.epoch, e.signed)
    ensures Opened(s, AuthenticateStep(s, e.generation, e.challengeId, e.secret, e.connector, e.instance, e.epoch, e.signed), e)
  {
  }

  /** A refused message spends the challenge it answers, closes a connection in handshake, or does nothing. */
  lemma RefusedAuthentication(s: State, g: string, id: string, secret: string, connector: string, instance: string, epoch: int, signed: bool)
    requires !Authenticates(s, g, id, secret, connector, epoch, signed)
    ensures AuthenticateStep(s, g, id, secret, connector, instance, epoch, signed) ==
            if Answers(s, g, id, secret) then SetStage(SpendIn(s, id), g, Closed)
            else if Awaits(s, g) then SetStage(s, g, Closed) else s
  {
  }

  lemma ClosingOpensNothing(s: State, g: string, s': State)
    requires g in s.connections && s' == SetStage(s, g, Closed)
    ensures s'.sessions == s.sessions && s'.registered == s.registered && s'.instances == s.instances
    ensures g in s'.connections && s'.connections[g].stage == Closed
  {
  }

  lemma RefusedOpensNothing(s: State, g: string, id: string, secret: string, connector: string, instance: string, epoch: int, signed: bool)
    requires !Authenticates(s, g, id, secret, connector, epoch, signed)
    ensures var s' := AuthenticateStep(s, g, id, secret, connector, instance, epoch, signed);
      && s'.sessions == s.sessions && s'.registered == s.registered && s'.instances == s.instances
      && (Awaits(s, g) ==> g in s'.connections && s'.connections[g].stage == Closed)
  {
    RefusedAuthentication(s, g, id, secret, connector, instance, epoch, signed);
    var s' := AuthenticateStep(s, g, id, secret, connector, instance, epoch, signed);
    if Answers(s, g, id, secret) {
      ClosingOpensNothing(SpendIn(s, id), g, s');
    } else if Awaits(s, g) {
      ClosingOpensNothing(s, g, s');
    }
  }

  /** The whole effect of an authentication message on sessions, rows and the registry. */
  lemma AuthenticationIff(s: State, e: Event)
    requires e.Authenticate?
    ensures var s' := Step(s, e);
      if SignedAnswer(s, e) then Opened(s, s', e)
      else s'.sessions == s.sessions && s'.registered == s.registered && s'.instances == s.instances
           && (e.generation in s.connections && (s.connections[e.generation].stage.AwaitingFirst? || s.connections[e.generation].stage.AwaitingAuth?) ==>
                 e.generation in s'.connections && s'.connections[e.generation].stage == Closed)
  {
    SignedAnswerAuthenticates(s, e);
    if SignedAnswer(s, e) {
      AuthenticatedOpens(s, e);
    } else {
      RefusedOpensNothing(s, e.generation, e.challengeId, e.secret, e.connector, e.instance, e.epoch, e.signed);
    }
  }

  /** No other event opens a session, registers one or brings a row online. */
  ghost predicate OpensNothing(s: State, s': State) {
    && s'.sessions.Keys == s.sessions.Keys
    && (forall c :: c in s'.registered ==> Maps(s.registered, c, s'.registered[c]))
    && (forall i :: i in s'.instances && s'.instances[i].online ==>
          i in s.instances && s.instances[i].online && s.instances[i].generation == s'.instances[i].generation)
  }

  lemma HeartbeatOpensNothing(s: State, g: string, epoch: int)
    ensures OpensNothing(s, HeartbeatStep(s, g, epoch))
  {
  }

  lemma TeardownOpensNothing(s: State, g: string)
    ensures OpensNothing(s, TeardownStep(s, g))
  {
  }

  lemma RevokeOpensNothing(s: State, connector: string)
    ensures OpensNothing(s, RevokeStep(s, connector))
  {
  }

  lemma DeleteOpensNothing(s: State, connector: string)
    ensures OpensNothing(s, DeleteStep(s, connector))
  {
  }

  lemma SweepOpensNothing(s: State)
    ensures OpensNothing(s, SweepNow(s))
  {
  }

  lemma HandshakeOpensNothing(s: State, e: Event)
    requires e.Tick? || e.IssueToken? || e.Connect? || e.Enroll? || e.Rechallenge? || e.Malformed?
    ensures OpensNothing(s, Step(s, e))
  {
    match e
    case IssueToken(_, _, _, _) =>
    case Connect(_, _, _) =>
    case Enroll(_, _, _, _, _, _, _) =>
    case Rechallenge(_, _, _) =>
    case Malformed(_) =>
    case Tick(_) =>
  }

  lemma OthersOpenNothing(s: State, e: Event)
    requires !e.Authenticate?
    ensures OpensNothing(s, Step(s, e))
  {
    match e
    case Heartbeat(g, epoch) => HeartbeatOpensNothing(s, g, epoch);
    case Teardown(g) => TeardownOpensNothing(s, g);
    case Revoke(c) => RevokeOpensNothing(s, c);
    case Delete(c) => DeleteOpensNothing(s, c);
    case LivenessRead => SweepOpensNothing(s);
    case Restart =>
    case _ => HandshakeOpensNothing(s, e);
  }

  /** A connection that has not authenticated has no session. */
  lemma NewcomerHasNoSession(s: State, g: string)
    requires SessionsSpend(s.sessions, s.connections, s.challenges, s.enrollments)
    requires g in s.connections && (s.connections[g].stage.AwaitingFirst? || s.connections[g].stage.AwaitingAuth?)
    ensures g !in s.sessions
  {
  }

  /** Exactly which events open a session. */
  lemma SessionOpensIff(s: State, e: Event)
    requires SessionsSpend(s.sessions, s.connections, s.challenges, s.enrollments)
    ensures (exists g :: g in Step(s, e).sessions && g !in s.sessions) <==> SignedAnswer(s, e)
    ensures SignedAnswer(s, e) ==> Opened(s, Step(s, e), e)
    ensures !SignedAnswer(s, e) ==> OpensNothing(s, Step(s, e))
  {
    if e.Authenticate? {
      AuthenticationIff(s, e);
      if SignedAnswer(s, e) {
        NewcomerHasNoSession(s, e.generation);
        assert e.generation in Step(s, e).sessions;
      }
    } else {
      OthersOpenNothing(s, e);
    }
  }

  /** A session keeps its connector and instance. */
  lemma SessionKeepsNames(s: State, e: Event, g: string)
    requires SessionsSpend(s.sessions, s.connections, s.challenges, s.enrollments) && g in s.sessions
    ensures g in Step(s, e).sessions
    ensures Step(s, e).sessions[g].connector == s.sessions[g].connector && Step(s, e).sessions[g].instance == s.sessions[g].instance
  {
    match e
    case Authenticate(_, _, _, _, _, _, _) =>
      AuthenticationIff(s, e);
      if SignedAnswer(s, e) {
        NewcomerHasNoSession(s, e.generation);
      }
    case Heartbeat(h, epoch) => HeartbeatKeepsNames(s, h, epoch, g);
    case _ => OthersKeepSessions(s, e);
  }

  lemma HeartbeatKeepsNames(s: State, h: string, epoch: int, g: string)
    requires g in s.sessions
    ensures var s' := HeartbeatStep(s, h, epoch);
      g in s'.sessions && s'.sessions[g].connector == s.sessions[g].connector && s'.sessions[g].instance == s.sessions[g].instance
  {
  }

  // ------------------------------------------------------------------------------------- enrollment

  /** The token of an enrollment message is unspent, unexpired and names its connector. */
  predicate GoodToken(s: State, e: Event)
    requires e.Enroll?
  {
    && e.token in s.tokens && s.tokens[e.token].connector == e.connector && s.tokens[e.token].consumedAt == None
    && s.now / 1_000_000 < s.tokens[e.token].expiresAt
  }

  /** Its challenge is unspent, unexpired and matches its secret. */
  predicate GoodChallenge(s: State, e: Event)
    requires e.Enroll?
  {
    && e.challengeId in s.challenges && s.challenges[e.challengeId].secret == e.secret
    && s.challenges[e.challengeId].consumedAt == None && s.now / 1_000_000 < s.challenges[e.challengeId].expiresAt
  }

  lemma GoodTokenAccepted(s: State, e: Event)
    requires e.Enroll?
    ensures GoodToken(s, e) <==> TokenVerdict(s.tokens, e.token, e.connector, s.now) == Accepted
    ensures GoodChallenge(s, e) <==> ChallengeUsable(s.challenges, e.challengeId, e.secret, s.now)
  {
  }

  lemma EnrollmentSpendsToken(s: State, g: string, id: string, secret: string, connector: string, token: string, publicKey: string, signed: bool)
    requires g in s.connections && s.connections[g].stage == AwaitingFirst
    ensures var s' := EnrollStep(s, g, id, secret, connector, token, publicKey, signed);
      var good := TokenVerdict(s.tokens, token, connector, s.now) == Accepted;
      s'.tokens == if good then SpendToken(s.tokens, token, s.now) else s.tokens
  {
  }

  lemma EnrollmentSpendsChallenge(s: State, g: string, id: string, secret: string, connector: string, token: string, publicKey: string, signed: bool)
    requires g in s.connections && s.connections[g].stage == AwaitingFirst
    ensures var s' := EnrollStep(s, g, id, secret, connector, token, publicKey, signed);
      var good := TokenVerdict(s.tokens, token, connector, s.now) == Accepted; var usable := ChallengeUsable(s.challenges, id, secret, s.now);
      s'.challenges == if good && usable then SpendChallenge(s.challenges, id, s.now) else s.challenges
  {
  }

  lemma EnrollmentAdmitsDevice(s: State, g: string, id: string, secret: string, connector: string, token: string, publicKey: string, signed: bool)
    requires g in s.connections && s.connections[g].stage == AwaitingFirst
    ensures var s' := EnrollStep(s, g, id, secret, connector, token, publicKey, signed);
      var good := TokenVerdict(s.tokens, token, connector, s.now) == Accepted; var usable := ChallengeUsable(s.challenges, id, secret, s.now);
      s'.devices == if good && usable && signed && connector !in s.devices
                    then s.devices[connector := Device(publicKey, s.tokens[token].profile, true, Sec(s.now), None, |s.enrollments|)]
                    else s.devices
  {
  }

  /** The whole effect of an enrollment message on a new connection: a good token is spent before
      anything else is looked at, a good challenge next, and neither is given back; the device is
      admitted, under the profile of the token, if the signature is valid and the connector free. */
  lemma EnrollmentIff(s: State, e: Event)
    requires e.Enroll? && e.generation in s.connections && s.connections[e.generation].stage == AwaitingFirst
    ensures var s' := Step(s, e); var second := Some(s.now / 1_000_000);
      && s'.tokens == (if GoodToken(s, e) then s.tokens[e.token := s.tokens[e.token].(consumedAt := second)] else s.tokens)
      && s'.challenges == (if GoodToken(s, e) && GoodChallenge(s, e)
                           then s.challenges[e.challengeId := s.challenges[e.challengeId].(consumedAt := second)] else s.challenges)
      && s'.devices == (if GoodToken(s, e) && GoodChallenge(s, e) && e.signed && e.connector !in s.devices
                        then s.devices[e.connector := Device(e.publicKey, s.tokens[e.token].profile, true, s.now / 1_000_000, None, |s.enrollments|)]
                        else s.devices)
  {
    GoodTokenAccepted(s, e);
    EnrollmentSpendsToken(s, e.generation, e.challengeId, e.secret, e.connector, e.token, e.publicKey, e.signed);
    EnrollmentSpendsChallenge(s, e.generation, e.challengeId, e.secret, e.connector, e.token, e.publicKey, e.signed);
    EnrollmentAdmitsDevice(s, e.generation, e.challengeId, e.secret, e.connector, e.token, e.publicKey, e.signed);
  }

  // --------------------------------------------------------------------------- tokens and challenges

  /** What each verdict on a token means. */
  lemma TokenVerdicts(tokens: map<string, Token>, token: string, connector: string, now: int)
    ensures var verdict := TokenVerdict(tokens, token, connector, now);
      && (verdict == Accepted <==>
            token in tokens && tokens[token].connector == connector && tokens[token].consumedAt == None
            && now / 1_000_000 < tokens[token].expiresAt)
      && (verdict == Invalid <==> token !in tokens)
      && (verdict == ConnectorMismatch <==> token in tokens && tokens[token].connector != connector)
      && (verdict == Consumed <==> token in tokens && tokens[token].connector == connector && tokens[token].consumedAt != None)
  {
  }

  /** A fresh token is good for its own connector and profile, until its time is up. */
  lemma TokenLives(s: State, token: string, connector: string, profile: Profile, ttl: int, other: string, later: int)
    requires token !in s.tokens
    ensures var tokens := IssueTokenStep(s, token, connector, profile, ttl).tokens;
      && token in tokens && tokens[token].profile == profile
      && (TokenVerdict(tokens, token, other, later) == Accepted <==>
            other == connector && later / 1_000_000 < (s.now + ttl * 1_000_000) / 1_000_000)
  {
    assert After(s.now, ttl) == (s.now + ttl * 1_000_000) / 1_000_000;
  }

  /** The challenge is good for its own secret, for two minutes from `issued`. */
  ghost predicate GoodForTwoMinutes(challenges: map<string, Challenge>, id: string, secret: string, issued: int) {
    forall other, later :: ChallengeUsable(challenges, id, other, later) <==>
      other == secret && later / 1_000_000 < (issued + 120_000_000) / 1_000_000
  }

  lemma NewChallengeLives(s: State, id: string, secret: string)
    ensures GoodForTwoMinutes(s.challenges[id := NewChallenge(s, secret)], id, secret, s.now)
  {
    assert After(s.now, CHALLENGE_TTL_SECONDS) == (s.now + 120_000_000) / 1_000_000;
  }

  /** A fresh challenge is the one its connection has to answer. */
  lemma ChallengeLives(s: State, g: string, id: string, secret: string)
    requires id !in s.challenges
    ensures g !in s.connections ==>
      var s' := ConnectStep(s, g, id, secret);
      && g in s'.connections && s'.connections[g].stage == AwaitingFirst && s'.connections[g].challengeId == id
      && GoodForTwoMinutes(s'.challenges, id, secret, s.now)
    ensures g in s.connections && s.connections[g].stage == Enrolled ==>
      var s' := RechallengeStep(s, g, id, secret);
      && g in s'.connections && s'.connections[g].stage == AwaitingAuth && s'.connections[g].challengeId == id
      && GoodForTwoMinutes(s'.challenges, id, secret, s.now)
  {
    NewChallengeLives(s, id, secret);
  }

  // ------------------------------------------------------------------------------------ heartbeats

  /** A beat of a serving session moves its row and its epoch if the row is online under its generation
      and the epoch does not fall; otherwise it ends the session and moves nothing. */
  lemma HeartbeatIff(s: State, g: string, epoch: int)
    requires g in s.connections && s.connections[g].stage == Serving && g in s.sessions
    ensures var s' := HeartbeatStep(s, g, epoch); var i := s.sessions[g].instance;
      if i in s.instances && s.instances[i].online && s.instances[i].generation == g && s.instances[i].epoch <= epoch
      then && s'.connections == s.connections
           && s'.instances == s.instances[i := s.instances[i].(epoch := epoch, lastHeartbeatAt := s.now / 1_000_000)]
           && s'.sessions[g].epoch >= epoch && s'.sessions[g].epoch >= s.sessions[g].epoch
           && i in s'.beats && s'.beats[i] == s.now
      else && s'.connections[g].stage == Failing
           && s'.instances == s.instances && s'.sessions == s.sessions && s'.beats == s.beats
  {
  }

  // ---------------------------------------------------------------------------------------- sweeps

  /** A sweep closes, at its last heartbeat, each online row whose last heartbeat second is not after
      the second one window ago, and touches no other row and no other table. */
  lemma SweepIff(s: State, i: string)
    requires i in s.instances && RowsTimely(s.instances, s.beats, s.now)
    ensures var s' := SweepNow(s); var row := s.instances[i];
      && s' == s.(instances := s'.instances) && s'.instances.Keys == s.instances.Keys
      && s'.instances[i] ==
         if row.online && row.lastHeartbeatAt <= (s.now - s.config.staleSeconds * 1_000_000) / 1_000_000
         then row.(online := false, disconnectedAt := Some(row.lastHeartbeatAt)) else row
  {
    assert RowTimely(s.instances[i], s.beats[i], s.now);
    assert Cutoff(s) == (s.now - s.config.staleSeconds * 1_000_000) / 1_000_000;
  }

  // --------------------------------------------------------------------------------------- routing

  /** The row is online for this connector, and its last heartbeat second is after the second one
      window ago. */
  predicate Answerable(s: State, connector: string, i: string) {
    && i in s.instances && s.instances[i].connector == connector && s.instances[i].online
    && (s.now - s.config.staleSeconds * 1_000_000) / 1_000_000 < s.instances[i].lastHeartbeatAt
  }

  /** What the route query may answer: the pinned instance if and only if it is answerable; without a
      pin an answerable row that beat last, and nothing only if there is none. */
  lemma RouteIff(s: State, connector: string, pinned: Option<string>, picked: Option<string>)
    ensures RouteAnswer(s.instances, connector, pinned, Cutoff(s), picked) <==>
            if pinned.Some? then picked == (if Answerable(s, connector, pinned.value) then pinned else None)
            else if picked.Some? then
              && Answerable(s, connector, picked.value)
              && forall j :: j in s.instances && Answerable(s, connector, j) ==>
                   s.instances[j].lastHeartbeatAt <= s.instances[picked.value].lastHeartbeatAt
            else forall j :: j in s.instances ==> !Answerable(s, connector, j)
  {
    assert forall j :: j in s.instances ==> (LiveRow(s.instances, connector, j, Cutoff(s)) <==> Answerable(s, connector, j));
  }

  /** The status of a device is online if and only if it has an answerable row. */
  lemma OnlineIff(s: State, connector: string)
    ensures DeviceOnline(s, connector) <==> exists i :: i in s.instances && Answerable(s, connector, i)
  {
    assert forall j :: j in s.instances ==> (LiveRow(s.instances, connector, j, Cutoff(s)) <==> Answerable(s, connector, j));
  }

  // ------------------------------------------------------------------------------- lost connections

  /** The session of the connection is the one registered for its connector. */
  predicate HoldsEntry(s: State, g: string) {
    g in s.sessions && s.sessions[g].connector in s.registered && s.registered[s.sessions[g].connector] == g
  }

  lemma SupersededLeavesNothing(s: State, g: string)
    requires g in s.connections && s.connections[g].stage != Closed && !HoldsEntry(s, g)
    ensures TeardownStep(s, g) == SetStage(s, g, Closed)
  {
  }

  lemma HolderLeaves(s: State, g: string)
    requires g in s.connections && s.connections[g].stage != Closed && HoldsEntry(s, g)
    ensures TeardownStep(s, g) ==
            SetStage(s, g, Closed).(registered := s.registered - {s.sessions[g].connector}, instances := Disconnected(s, g))
  {
  }

  lemma OwnRowCloses(s: State, g: string, i: string)
    requires g in s.sessions && i in s.instances
    ensures Disconnected(s, g).Keys == s.instances.Keys
    ensures Disconnected(s, g)[i] == if i == s.sessions[g].instance && s.instances[i].generation == g
                                     then s.instances[i].(online := false, disconnectedAt := Some(s.now / 1_000_000))
                                     else s.instances[i]
  {
  }

  /** The end of a connection: if its session is the registered one, the entry goes and the row of the
      session closes at the present second; otherwise no row and no entry changes. */
  lemma TeardownIff(s: State, g: string, i: string)
    requires g in s.connections && s.connections[g].stage != Closed && i in s.instances
    ensures var s' := TeardownStep(s, g);
      && g in s'.connections && s'.connections[g].stage == Closed && s'.sessions == s.sessions && s'.devices == s.devices
      && s'.instances.Keys == s.instances.Keys
      && s'.registered == (if HoldsEntry(s, g) then s.registered - {s.sessions[g].connector} else s.registered)
      && s'.instances[i] == if HoldsEntry(s, g) && i == s.sessions[g].instance && s.instances[i].generation == g
                            then s.instances[i].(online := false, disconnectedAt := Some(s.now / 1_000_000))
                            else s.instances[i]
  {
    if HoldsEntry(s, g) {
      HolderLeaves(s, g);
      OwnRowCloses(s, g, i);
    } else {
      SupersededLeavesNothing(s, g);
    }
  }

  // --------------------------------------------------------------------------- revocation and deletion

  /** Revocation disables this device and closes exactly its online rows, at the present second. */
  lemma RevocationIff(s: State, connector: string)
    requires connector in s.devices
    ensures var s' := RevokeStep(s, connector);
      && s'.devices.Keys == s.devices.Keys
      && !s'.devices[connector].enrolled && s'.devices[connector].revokedAt == Some(s.now / 1_000_000)
      && (forall c :: c in s.devices && c != connector ==> s'.devices[c] == s.devices[c])
      && s'.instances.Keys == s.instances.Keys
      && (forall i :: i in s.instances ==>
            s'.instances[i] == if s.instances[i].connector == connector && s.instances[i].online
                               then s.instances[i].(online := false, disconnectedAt := Some(s.now / 1_000_000)) else s.instances[i])
  {
  }

  /** Deletion takes a device away if and only if it is there and revoked, and with it exactly its rows. */
  lemma DeletionIff(s: State, connector: string)
    ensures var s' := DeleteStep(s, connector);
      if connector in s.devices && !s.devices[connector].enrolled
      then && s'.devices.Keys == s.devices.Keys - {connector}
           && (forall c :: c in s'.devices ==> s'.devices[c] == s.devices[c])
           && (forall i :: i in s'.instances <==> i in s.instances && s.instances[i].connector != connector)
           && (forall i :: i in s'.instances ==> s'.instances[i] == s.instances[i])
      else s' == s
  {
  }
}
