/** Device registry, relay handshake and liveness: the tables of the store that concern devices,
    the handshake of each relay connection and the registry of live sessions.

    The state also carries history that the program does not store but its promises speak of:
    the log of enrollments, every session ever authenticated, the challenges issued on each
    connection, and the exact tick of the last accepted beat of each instance. */
module Hub {
  import opened Basics
  import opened Catalog

  datatype Config = Config(requestWindowSeconds: int, staleSeconds: int)

  datatype Token = Token(connector: string, profile: Profile, expiresAt: int, consumedAt: Option<int>)

  datatype Challenge = Challenge(secret: string, expiresAt: int, consumedAt: Option<int>)

  /** `enrollment` is the position in the enrollment log of the enrollment that made this row. */
  datatype Device = Device(publicKey: string, profile: Profile, enrolled: bool, enrolledAt: int,
                           revokedAt: Option<int>, enrollment: nat)

  datatype Instance = Instance(connector: string, generation: string, epoch: int, online: bool,
                               connectedAt: int, lastHeartbeatAt: int, disconnectedAt: Option<int>)

  datatype Enrollment = Enrollment(connector: string, profile: Profile, token: string, challengeId: string)

  datatype Stage = AwaitingFirst | Enrolled | AwaitingAuth | Serving | Failing | Closed

  /** One relay WebSocket; its key is the connection generation drawn when it was accepted. */
  datatype Connection = Connection(stage: Stage, challengeId: string, issued: set<string>)

  datatype Session = Session(connector: string, instance: string, epoch: int, profile: Profile,
                             challengeId: string, enrollment: nat)

  datatype State = State(
    config: Config,
    now: int,
    tokens: map<string, Token>,
    challenges: map<string, Challenge>,
    devices: map<string, Device>,
    instances: map<string, Instance>,
    connections: map<string, Connection>,
    sessions: map<string, Session>,
    registered: map<string, string>,
    enrollments: seq<Enrollment>,
    beats: map<string, int>)

  datatype Event =
    | Tick(elapsed: nat)
    | IssueToken(token: string, connector: string, profile: Profile, ttlSeconds: int)
    | Connect(generation: string, challengeId: string, secret: string)
    | Enroll(generation: string, challengeId: string, secret: string, connector: string,
             token: string, publicKey: string, signed: bool)
    | Rechallenge(generation: string, challengeId: string, secret: string)
    | Authenticate(generation: string, challengeId: string, secret: string, connector: string,
                   instance: string, epoch: int, signed: bool)
    | Heartbeat(generation: string, epoch: int)
    | Malformed(generation: string)
    | Teardown(generation: string)
    | Revoke(connector: string)
    | Delete(connector: string)
    | LivenessRead
    | Restart

  function Initial(config: Config, now: int): State {
    State(config, now, map[], map[], map[], map[], map[], map[], map[], [], map[])
  }

  // ---------------------------------------------------------------- tables

  /** The timestamp `seconds` from now. */
  function After(now: int, seconds: int): int {
    Sec(now + seconds * TICKS)
  }

  datatype TokenStatus = Accepted | Invalid | ConnectorMismatch | Consumed | Expired

  /** The checks of token consumption, in the order in which the store makes them. */
  function TokenVerdict(tokens: map<string, Token>, token: string, connector: string, now: int): TokenStatus {
    if token !in tokens then Invalid
    else if tokens[token].connector != connector then ConnectorMismatch
    else if tokens[token].consumedAt.Some? then Consumed
    else if tokens[token].expiresAt <= Sec(now) then Expired
    else Accepted
  }

  function SpendToken(tokens: map<string, Token>, token: string, now: int): map<string, Token>
    requires token in tokens
  {
    tokens[token := tokens[token].(consumedAt := Some(Sec(now)))]
  }

  predicate ChallengeUsable(challenges: map<string, Challenge>, id: string, secret: string, now: int) {
    && id in challenges
    && challenges[id].consumedAt.None?
    && challenges[id].expiresAt > Sec(now)
    && challenges[id].secret == secret
  }

  function SpendChallenge(challenges: map<string, Challenge>, id: string, now: int): map<string, Challenge>
    requires id in challenges
  {
    challenges[id := challenges[id].(consumedAt := Some(Sec(now)))]
  }

  /** The oldest stored heartbeat second that no longer counts as live. */
  function Cutoff(s: State): int {
    After(s.now, -s.config.staleSeconds)
  }

  predicate FreshRow(row: Instance, cutoff: int) {
    row.online && row.lastHeartbeatAt > cutoff
  }

  function CloseRow(row: Instance, at: int): Instance {
    row.(online := false, disconnectedAt := Some(at))
  }

  /** The reaper closes a stale row at its last heartbeat, keeping an earlier closing time. */
  function Reap(row: Instance, cutoff: int): Instance {
    if row.online && row.lastHeartbeatAt <= cutoff
    then CloseRow(row, if row.disconnectedAt.Some? then row.disconnectedAt.value else row.lastHeartbeatAt)
    else row
  }

  function Swept(instances: map<string, Instance>, cutoff: int): map<string, Instance> {
    map i | i in instances :: Reap(instances[i], cutoff)
  }

  function SweepNow(s: State): State {
    s.(instances := Swept(s.instances, Cutoff(s)))
  }

  // ----------------------------------------------------------------- queries

  /** Row `i` answers a liveness query for `connector`. */
  predicate LiveRow(instances: map<string, Instance>, connector: string, i: string, cutoff: int) {
    i in instances && instances[i].connector == connector && FreshRow(instances[i], cutoff)
  }

  /** Row `i` is one that `ORDER BY last_heartbeat_at DESC LIMIT 1` may return. */
  predicate LatestRow(instances: map<string, Instance>, connector: string, i: string, cutoff: int) {
    && LiveRow(instances, connector, i, cutoff)
    && forall j :: j in instances && LiveRow(instances, connector, j, cutoff) ==>
         instances[j].lastHeartbeatAt <= instances[i].lastHeartbeatAt
  }

  /** `picked` is a possible answer of the routing query: the pinned instance when one is named,
      otherwise a freshest one; nothing only when no row qualifies. */
  predicate RouteAnswer(instances: map<string, Instance>, connector: string, pinned: Option<string>,
                        cutoff: int, picked: Option<string>) {
    match pinned
    case Some(i) => picked == if LiveRow(instances, connector, i, cutoff) then Some(i) else None
    case None =>
      match picked
      case Some(i) => LatestRow(instances, connector, i, cutoff)
      case None => forall i :: i in instances ==> !LiveRow(instances, connector, i, cutoff)
  }

  /** `connection_state` of `device_status`. */
  predicate DeviceOnline(s: State, connector: string) {
    exists i :: i in s.instances && LiveRow(s.instances, connector, i, Cutoff(s))
  }

  /** The set of `device_id` values listed by `online_agents`. */
  function OnlineAgents(s: State): set<string> {
    set i | i in s.instances
            && FreshRow(s.instances[i], Cutoff(s))
            && s.instances[i].connector in s.devices
            && s.devices[s.instances[i].connector].enrolled
      :: s.instances[i].connector
  }

  // --------------------------------------------------------------- handshake

  function IssueTokenStep(s: State, token: string, connector: string, profile: Profile, ttl: int): (after: State)
    ensures after.registered == s.registered && after.sessions == s.sessions && after.instances == s.instances
  {
    if token in s.tokens then s
    else s.(tokens := s.tokens[token := Token(connector, profile, After(s.now, ttl), None)])
  }

  function NewChallenge(s: State, secret: string): Challenge {
    Challenge(secret, After(s.now, CHALLENGE_TTL_SECONDS), None)
  }

  function ConnectStep(s: State, g: string, id: string, secret: string): (after: State)
    ensures after.registered == s.registered && after.sessions == s.sessions && after.instances == s.instances
  {
    if g in s.connections || id in s.challenges then s
    else s.(challenges := s.challenges[id := NewChallenge(s, secret)],
            connections := s.connections[g := Connection(AwaitingFirst, id, {id})])
  }

  /** The second challenge, sent after an enrollment on the same connection. */
  function RechallengeStep(s: State, g: string, id: string, secret: string): (after: State)
    ensures after.registered == s.registered && after.sessions == s.sessions && after.instances == s.instances
  {
    if g !in s.connections || s.connections[g].stage != Enrolled || id in s.challenges then s
    else s.(challenges := s.challenges[id := NewChallenge(s, secret)],
            connections := s.connections[g := Connection(AwaitingAuth, id, s.connections[g].issued + {id})])
  }

  function SetStage(s: State, g: string, stage: Stage): State
    requires g in s.connections
  {
    s.(connections := s.connections[g := s.connections[g].(stage := stage)])
  }

  /** Enrollment spends the token before it looks at the challenge, and the challenge before it
      looks at the signature; a later failure does not give either back. */
  function EnrollStep(s: State, g: string, id: string, secret: string, connector: string,
                      token: string, publicKey: string, signed: bool): (after: State)
    ensures after.registered == s.registered && after.sessions == s.sessions && after.instances == s.instances
  {
    if g !in s.connections || s.connections[g].stage != AwaitingFirst then s
    else if TokenVerdict(s.tokens, token, connector, s.now) != Accepted then SetStage(s, g, Closed)
    else
      var s1 := s.(tokens := SpendToken(s.tokens, token, s.now));
      if !ChallengeUsable(s1.challenges, id, secret, s1.now) then SetStage(s1, g, Closed)
      else
        var s2 := s1.(challenges := SpendChallenge(s1.challenges, id, s1.now));
        if !signed || connector in s2.devices then SetStage(s2, g, Closed)
        else
          Admit(SetStage(s2, g, Enrolled), publicKey, Enrollment(connector, s.tokens[token].profile, token, id))
  }

  /** A new device row, under the profile that the token carries. */
  function Admit(s: State, publicKey: string, entry: Enrollment): State {
    s.(devices := s.devices[entry.connector :=
         Device(publicKey, entry.profile, true, Sec(s.now), None, |s.enrollments|)],
       enrollments := s.enrollments + [entry])
  }

  /** The connection still has to authenticate. */
  predicate Awaits(s: State, g: string) {
    g in s.connections && (s.connections[g].stage.AwaitingFirst? || s.connections[g].stage.AwaitingAuth?)
  }

  /** The message answers the challenge of this connection, which can still be consumed. */
  predicate Answers(s: State, g: string, id: string, secret: string) {
    Awaits(s, g) && id == s.connections[g].challengeId && ChallengeUsable(s.challenges, id, secret, s.now)
  }

  /** Authentication succeeds; a negative context epoch is refused by the table. */
  predicate Authenticates(s: State, g: string, id: string, secret: string, connector: string,
                          epoch: int, signed: bool) {
    && Answers(s, g, id, secret)
    && connector in s.devices
    && s.devices[connector].enrolled
    && signed
    && epoch >= 0
  }

  function SpendIn(s: State, id: string): State
    requires id in s.challenges
  {
    s.(challenges := SpendChallenge(s.challenges, id, s.now))
  }

  /** From the authentication message to the registration of the session; an answered challenge
      is spent whatever comes of it. */
  function AuthenticateStep(s: State, g: string, id: string, secret: string, connector: string,
                            instance: string, epoch: int, signed: bool): (after: State)
    ensures after.registered == if Authenticates(s, g, id, secret, connector, epoch, signed)
                                then s.registered[connector := g] else s.registered
    ensures forall i :: i in s.instances && i != instance ==> Maps(after.instances, i, s.instances[i])
    ensures after.devices == s.devices
  {
    if Authenticates(s, g, id, secret, connector, epoch, signed) then
      OpenSession(SetStage(SpendIn(s, id), g, Serving), g,
                  Session(connector, instance, epoch, s.devices[connector].profile, id, s.devices[connector].enrollment))
    else if Answers(s, g, id, secret) then SetStage(SpendIn(s, id), g, Closed)
    else if Awaits(s, g) then SetStage(s, g, Closed)
    else s
  }

  function OpenRow(s: State, g: string, session: Session): Instance {
    Instance(session.connector, g, session.epoch, true, Sec(s.now), Sec(s.now), None)
  }

  /** The presence row is written and the session takes over the registry entry of its connector. */
  function OpenSession(s: State, g: string, session: Session): State {
    s.(instances := s.instances[session.instance := OpenRow(s, g, session)],
       sessions := s.sessions[g := session],
       registered := s.registered[session.connector := g],
       beats := s.beats[session.instance := s.now])
  }

  // -------------------------------------------------------------- live sessions

  predicate Serves(s: State, g: string) {
    g in s.connections && s.connections[g].stage == Serving && g in s.sessions
  }

  predicate BeatAccepted(s: State, g: string, epoch: int)
    requires g in s.sessions
  {
    var i := s.sessions[g].instance;
    i in s.instances && s.instances[i].online && s.instances[i].generation == g && epoch >= s.instances[i].epoch
  }

  function HeartbeatStep(s: State, g: string, epoch: int): (after: State)
    ensures after.registered == s.registered && after.sessions.Keys == s.sessions.Keys
  {
    if !Serves(s, g) then s
    else if !BeatAccepted(s, g, epoch) then SetStage(s, g, Failing)
    else
      var session := s.sessions[g];
      var row := s.instances[session.instance];
      s.(instances := s.instances[session.instance := row.(epoch := epoch, lastHeartbeatAt := Sec(s.now))],
         sessions := s.sessions[g := session.(epoch := if session.epoch > epoch then session.epoch else epoch)],
         beats := s.beats[session.instance := s.now])
  }

  /** A frame that the relay rejects; a session that was serving still has to be torn down. */
  function MalformedStep(s: State, g: string): (after: State)
    ensures after.registered == s.registered && after.sessions == s.sessions && after.instances == s.instances
  {
    if g !in s.connections then s
    else match s.connections[g].stage
      case Serving => SetStage(s, g, Failing)
      case AwaitingFirst | AwaitingAuth | Enrolled => SetStage(s, g, Closed)
      case Failing | Closed => s
  }

  /** `disconnect_instance`: closes the row of this generation, even one already closed. */
  function Disconnected(s: State, g: string): map<string, Instance>
    requires g in s.sessions
  {
    var i := s.sessions[g].instance;
    if i in s.instances && s.instances[i].generation == g
    then s.instances[i := CloseRow(s.instances[i], Sec(s.now))]
    else s.instances
  }

  /** The end of a relay handler: only the session still registered closes its instance row. */
  function TeardownStep(s: State, g: string): State {
    if g !in s.connections || s.connections[g].stage == Closed then s
    else
      var s1 := SetStage(s, g, Closed);
      if g in s.sessions && Maps(s.registered, s.sessions[g].connector, g)
      then s1.(registered := s.registered - {s.sessions[g].connector}, instances := Disconnected(s, g))
      else s1
  }

  function RevokeStep(s: State, connector: string): (after: State)
    ensures after.registered == s.registered && after.sessions == s.sessions
  {
    if connector !in s.devices then s
    else
      s.(devices := s.devices[connector := s.devices[connector].(enrolled := false, revokedAt := Some(Sec(s.now)))],
         instances := map i | i in s.instances ::
           if s.instances[i].connector == connector && s.instances[i].online
           then CloseRow(s.instances[i], Sec(s.now))
           else s.instances[i])
  }

  function DeleteStep(s: State, connector: string): (after: State)
    ensures after.registered == s.registered && after.sessions == s.sessions
  {
    if connector !in s.devices || s.devices[connector].enrolled then s
    else
      s.(devices := s.devices - {connector},
         instances := map i | i in s.instances && s.instances[i].connector != connector :: s.instances[i])
  }

  /** The process stops and starts again: tables survive, connections and the registry do not. */
  function RestartStep(s: State): State {
    s.(connections := map g | g in s.connections :: s.connections[g].(stage := Closed),
       registered := map[])
  }

  function Step(s: State, e: Event): State {
    match e
    case Tick(elapsed) => s.(now := s.now + elapsed)
    case IssueToken(token, connector, profile, ttl) => IssueTokenStep(s, token, connector, profile, ttl)
    case Connect(g, id, secret) => ConnectStep(s, g, id, secret)
    case Enroll(g, id, secret, connector, token, key, signed) =>
      EnrollStep(s, g, id, secret, connector, token, key, signed)
    case Rechallenge(g, id, secret) => RechallengeStep(s, g, id, secret)
    case Authenticate(g, id, secret, connector, instance, epoch, signed) =>
      AuthenticateStep(s, g, id, secret, connector, instance, epoch, signed)
    case Heartbeat(g, epoch) => HeartbeatStep(s, g, epoch)
    case Malformed(g) => MalformedStep(s, g)
    case Teardown(g) => TeardownStep(s, g)
    case Revoke(connector) => RevokeStep(s, connector)
    case Delete(connector) => DeleteStep(s, connector)
    case LivenessRead => SweepNow(s)
    case Restart => RestartStep(s)
  }
}
