/** Concrete runs. A request id is brought twice: a frame is sent twice, a call is taken off file, a
    live call sits on a settled row, and a replay answers another command. A device is taken over
    under a second instance id: it is online, and every call for it is refused as offline. */
module BrokerWitness {
  import opened Basics
  import opened Catalog
  import opened Broker
  import opened BrokerShapes
  import opened BrokerLedger
  import opened BrokerReplays
  import opened BrokerFrames
  import opened BrokerOrphans
  import opened BrokerInvariants
  import opened BrokerRouting
  import Hub
  import HubInvariants

  const CONFIG: Hub.Config := Hub.Config(120, InstanceStaleSeconds(45))

  /** A listing of one folder, under an assertion that names the request id. */
  function Listing(folder: string, requestId: string): Command {
    Command("hub", "pc", "files.list", map["path" := Str(folder)], "key", None, Some(Assertion("pc", requestId, 100)), "")
  }

  function ListingDigest(folder: string): Digest {
    Digest("pc", "files.list", map["path" := Str(folder)], "i", 0)
  }

  // The registry while device "pc" pairs over connection "g".

  function Issued(): Hub.State { Hub.IssueTokenStep(Hub.Initial(CONFIG, 0), "token", "pc", ReadOnly, 600) }

  function Connected(): Hub.State { Hub.ConnectStep(Issued(), "g", "c1", "s1") }

  function Enrolled(): Hub.State { Hub.EnrollStep(Connected(), "g", "c1", "s1", "pc", "token", "key", true) }

  function Challenged(): Hub.State { Hub.RechallengeStep(Enrolled(), "g", "c2", "s2") }

  function Ready(): Hub.State { Hub.AuthenticateStep(Challenged(), "g", "c2", "s2", "pc", "i", 0, true) }

  function Pairing(): seq<Event> {
    [HubEvent(Hub.IssueToken("token", "pc", ReadOnly, 600)),
     HubEvent(Hub.Connect("g", "c1", "s1")),
     HubEvent(Hub.Enroll("g", "c1", "s1", "pc", "token", "key", true)),
     HubEvent(Hub.Rechallenge("g", "c2", "s2")),
     HubEvent(Hub.Authenticate("g", "c2", "s2", "pc", "i", 0, true))]
  }

  lemma ConnectedHolds()
    ensures var h := Connected();
      && h.config == CONFIG && h.now == 0
      && h.tokens == map["token" := Hub.Token("pc", ReadOnly, 600, None)]
      && h.challenges == map["c1" := Hub.Challenge("s1", 120, None)]
      && h.connections == map["g" := Hub.Connection(Hub.AwaitingFirst, "c1", {"c1"})]
      && h.devices == map[] && h.instances == map[] && h.registered == map[] && h.sessions == map[] && h.enrollments == []
  {
  }

  lemma EnrolledHolds()
    ensures var h := Enrolled();
      && h.config == CONFIG && h.now == 0
      && h.devices == map["pc" := Hub.Device("key", ReadOnly, true, 0, None, 0)]
      && h.challenges.Keys == {"c1"}
      && "g" in h.connections && h.connections["g"].stage == Hub.Enrolled
      && h.instances == map[] && h.registered == map[] && h.sessions == map[]
  {
    ConnectedHolds();
  }

  lemma ChallengedHolds()
    ensures var h := Challenged();
      && h.config == CONFIG && h.now == 0
      && h.devices == map["pc" := Hub.Device("key", ReadOnly, true, 0, None, 0)]
      && "c2" in h.challenges && h.challenges["c2"] == Hub.Challenge("s2", 120, None)
      && "g" in h.connections && h.connections["g"].stage == Hub.AwaitingAuth && h.connections["g"].challengeId == "c2"
      && h.instances == map[] && h.registered == map[] && h.sessions == map[]
  {
    EnrolledHolds();
    assert "c1"[1] != "c2"[1];
  }

  /** All that the broker looks at: instance "i" of device "pc" is online and registered. */
  ghost predicate Paired(h: Hub.State) {
    && h.config == CONFIG && h.now == 0
    && h.instances == map["i" := Hub.Instance("pc", "g", 0, true, 0, 0, None)]
    && h.registered == map["pc" := "g"]
    && h.sessions == map["g" := Hub.Session("pc", "i", 0, ReadOnly, "c2", 0)]
    && Hub.Serves(h, "g")
  }

  lemma ReadyHolds()
    ensures Paired(Ready())
  {
    ChallengedHolds();
  }

  lemma RunOne(events: seq<Event>, e: Event)
    ensures Run(CONFIG, 0, events + [e]) == Apply(Run(CONFIG, 0, events), e)
  {
    assert (events + [e])[..|events|] == events;
  }

  lemma EnrollmentRuns()
    ensures Run(CONFIG, 0, Pairing()[..3]) == World(Enrolled(), Initial(CONFIG, 0).desk)
  {
    var p := Pairing();
    RunOne([], p[0]);
    assert [] + [p[0]] == p[..1];
    RunOne(p[..1], p[1]);
    assert p[..1] + [p[1]] == p[..2];
    RunOne(p[..2], p[2]);
    assert p[..2] + [p[2]] == p[..3];
  }

  lemma PairingRuns()
    ensures Run(CONFIG, 0, Pairing()) == World(Ready(), Initial(CONFIG, 0).desk)
  {
    var p := Pairing();
    RechallengeRuns();
    RunOne(p[..4], p[4]);
    assert p[..4] + [p[4]] == p;
    AuthenticationRuns(Initial(CONFIG, 0).desk);
  }

  lemma RechallengeRuns()
    ensures Run(CONFIG, 0, Pairing()[..4]) == World(Challenged(), Initial(CONFIG, 0).desk)
  {
    var p := Pairing();
    EnrollmentRuns();
    RunOne(p[..3], p[3]);
    assert p[..3] + [p[3]] == p[..4];
  }

  lemma AuthenticationRuns(d: Desk)
    ensures Apply(World(Challenged(), d), Pairing()[4]) == World(Ready(), d)
  {
    ChallengedHolds();
  }

  // --------------------------------------------------------------------- steps at the paired registry

  /** After pairing and `events` the registry is `h` and the desk is `d`. */
  ghost predicate Reaches(events: seq<Event>, h: Hub.State, d: Desk) {
    Run(CONFIG, 0, Pairing() + events) == World(h, d)
  }

  lemma NothingYet()
    ensures Reaches([], Ready(), Initial(CONFIG, 0).desk)
  {
    PairingRuns();
    assert Pairing() + [] == Pairing();
  }

  lemma Next(events: seq<Event>, h: Hub.State, d: Desk, e: Event, d': Desk)
    requires Reaches(events, h, d) && Apply(World(h, d), e) == World(h, d')
    ensures Reaches(events + [e], h, d')
  {
    RunOne(Pairing() + events, e);
    assert Pairing() + (events + [e]) == Pairing() + events + [e];
  }

  lemma ListingGranted()
    ensures CapabilityOf("files.list") in CapabilitiesFor(ReadOnly)
  {
    assert CapabilityOf("files.list") == "files_list";
  }

  lemma RouteFound(h: Hub.State)
    requires Paired(h)
    ensures Hub.SweepNow(h) == h && Hub.RouteAnswer(h.instances, "pc", None, Hub.Cutoff(h), Some("i"))
  {
    assert Hub.SweepNow(h).instances == h.instances;
    assert Hub.LiveRow(h.instances, "pc", "i", Hub.Cutoff(h));
  }

  lemma GatePassed(h: Hub.State, folder: string, requestId: string)
    requires Paired(h)
    ensures Gate(h, Listing(folder, requestId), Some("i")).None?
  {
    ListingGranted();
  }

  function ListingEvent(folder: string, requestId: string): Event {
    Start(Listing(folder, requestId), Some("i"))
  }

  /** The desk after a listing is submitted. */
  function Listed(d: Desk, folder: string, requestId: string): Desk {
    Submit(d, Listing(folder, requestId), "g", ListingDigest(folder))
  }

  lemma ListingApplies(h: Hub.State, d: Desk, folder: string, requestId: string)
    requires Paired(h)
    ensures StartStep(World(h, d), Listing(folder, requestId), Some("i")) == World(h, Listed(d, folder, requestId))
  {
    RouteFound(h);
    GatePassed(h, folder, requestId);
  }

  lemma Lists(events: seq<Event>, h: Hub.State, d: Desk, folder: string, requestId: string)
    requires Reaches(events, h, d) && Paired(h)
    ensures Reaches(events + [ListingEvent(folder, requestId)], h, Listed(d, folder, requestId))
  {
    ListingApplies(h, d, folder, requestId);
    Next(events, h, d, ListingEvent(folder, requestId), Listed(d, folder, requestId));
  }

  lemma Writes(events: seq<Event>, h: Hub.State, d: Desk, c: nat)
    requires Reaches(events, h, d)
    ensures Reaches(events + [SendDone(c)], h, SendDoneStep(d, c))
  {
    Next(events, h, d, SendDone(c), SendDoneStep(d, c));
  }

  lemma Wakes(events: seq<Event>, h: Hub.State, d: Desk, c: nat)
    requires Reaches(events, h, d)
    ensures Reaches(events + [Wake(c, false)], h, WakeStep(d, c, false))
  {
    Next(events, h, d, Wake(c, false), WakeStep(d, c, false));
  }

  lemma AbandonApplies(h: Hub.State, d: Desk, c: nat)
    ensures Apply(World(h, d), Abandon(c)) == World(h, AbandonStep(d, c))
  {
  }

  lemma Abandons(events: seq<Event>, h: Hub.State, d: Desk, c: nat)
    requires Reaches(events, h, d)
    ensures Reaches(events + [Abandon(c)], h, AbandonStep(d, c))
  {
    AbandonApplies(h, d, c);
    Next(events, h, d, Abandon(c), AbandonStep(d, c));
  }

  const ANSWER: Reply := ReplyOf(StatusOk, Null, 2)

  function AnswerTo(requestId: string): Event {
    Respond("g", "pc", requestId, StatusOk, Null, 2)
  }

  lemma AnswerApplies(h: Hub.State, d: Desk, requestId: string, c: nat)
    requires Paired(h)
    requires Maps(d.pending, Slot("g", requestId), c) && c < |d.calls| && d.calls[c].future.Unresolved?
    ensures RespondStep(World(h, d), "g", "pc", requestId, StatusOk, Null, 2) == World(h, Resolve(d, c, Resolved(ANSWER)))
  {
  }

  lemma RespondApplies(w: World, requestId: string)
    ensures Apply(w, AnswerTo(requestId)) == RespondStep(w, "g", "pc", requestId, StatusOk, Null, 2)
  {
  }

  lemma NextAnswer(events: seq<Event>, h: Hub.State, d: Desk, requestId: string, d': Desk)
    requires Reaches(events, h, d)
    requires RespondStep(World(h, d), "g", "pc", requestId, StatusOk, Null, 2) == World(h, d')
    ensures Reaches(events + [AnswerTo(requestId)], h, d')
  {
    RespondApplies(World(h, d), requestId);
    Next(events, h, d, AnswerTo(requestId), d');
  }

  lemma Answers(events: seq<Event>, h: Hub.State, d: Desk, requestId: string, c: nat)
    requires Reaches(events, h, d) && Paired(h)
    requires Maps(d.pending, Slot("g", requestId), c) && c < |d.calls| && d.calls[c].future.Unresolved?
    ensures Reaches(events + [AnswerTo(requestId)], h, Resolve(d, c, Resolved(ANSWER)))
  {
    AnswerApplies(h, d, requestId, c);
    NextAnswer(events, h, d, requestId, Resolve(d, c, Resolved(ANSWER)));
  }

  /** The call of a listing in `phase`, with its future. */
  function ListingCall(folder: string, requestId: string, future: Future, phase: Phase): Call {
    Call(Listing(folder, requestId), "g", Some(ListingDigest(folder)), New, future, false, phase)
  }

  lemma ListedHolds(d: Desk, folder: string, requestId: string)
    requires AnswersNew(d.requests, Listing(folder, requestId))
    ensures var d' := Listed(d, folder, requestId); var command := Listing(folder, requestId);
      && d'.calls == d.calls + [ListingCall(folder, requestId, Unresolved, Sending)]
      && d'.requests == Insert(d.requests, KeyOf(command), Row(requestId, ListingDigest(folder), Pending, |d.calls|))
      && d'.pending == d.pending[Slot("g", requestId) := |d.calls|]
      && d'.sent == d.sent + [FrameFor(command, "g", |d.calls|)]
  {
    SubmitShape(d, Listing(folder, requestId), "g", ListingDigest(folder));
  }

  /** The desk after a listing is submitted, written and answered; its task has not resumed. */
  function Answered(d: Desk, folder: string, requestId: string): Desk {
    var d1 := SendDoneStep(Listed(d, folder, requestId), |d.calls|);
    Resolve(d1, |d.calls|, Resolved(ANSWER))
  }

  lemma AnsweredHolds(d: Desk, folder: string, requestId: string)
    requires AnswersNew(d.requests, Listing(folder, requestId))
    ensures var d' := Answered(d, folder, requestId); var command := Listing(folder, requestId);
      && d'.calls == d.calls + [ListingCall(folder, requestId, Resolved(ANSWER), Waiting)]
      && d'.requests == Insert(d.requests, KeyOf(command), Row(requestId, ListingDigest(folder), Pending, |d.calls|))
      && d'.pending == d.pending[Slot("g", requestId) := |d.calls|]
  {
    ListedHolds(d, folder, requestId);
  }

  function Exchange(c: nat, folder: string, requestId: string): seq<Event> {
    [ListingEvent(folder, requestId), SendDone(c), AnswerTo(requestId)]
  }

  lemma ListedWaits(d: Desk, folder: string, requestId: string)
    requires AnswersNew(d.requests, Listing(folder, requestId))
    ensures var d' := Listed(d, folder, requestId);
      Maps(d'.pending, Slot("g", requestId), |d.calls|) && |d.calls| < |d'.calls| && d'.calls[|d.calls|].future.Unresolved?
  {
    ListedHolds(d, folder, requestId);
  }

  lemma Exchanges(events: seq<Event>, h: Hub.State, d: Desk, folder: string, requestId: string)
    requires Reaches(events, h, d) && Paired(h) && AnswersNew(d.requests, Listing(folder, requestId))
    ensures Reaches(events + Exchange(|d.calls|, folder, requestId), h, Answered(d, folder, requestId))
  {
    var n := |d.calls|;
    Lists(events, h, d, folder, requestId);
    ListedWaits(d, folder, requestId);
    WritesAndAnswers(events + [ListingEvent(folder, requestId)], h, Listed(d, folder, requestId), n, requestId);
    assert events + [ListingEvent(folder, requestId)] + [SendDone(n), AnswerTo(requestId)] == events + Exchange(n, folder, requestId);
  }

  lemma WritesAndAnswers(events: seq<Event>, h: Hub.State, d: Desk, c: nat, requestId: string)
    requires Reaches(events, h, d) && Paired(h)
    requires Maps(d.pending, Slot("g", requestId), c) && c < |d.calls| && d.calls[c].future.Unresolved?
    ensures Reaches(events + [SendDone(c), AnswerTo(requestId)], h, Resolve(SendDoneStep(d, c), c, Resolved(ANSWER)))
  {
    Writes(events, h, d, c);
    Answers(events + [SendDone(c)], h, SendDoneStep(d, c), requestId, c);
    assert events + [SendDone(c)] + [AnswerTo(requestId)] == events + [SendDone(c), AnswerTo(requestId)];
  }

  /** The task of an answered listing resumes and settles its pending row. */
  lemma WakeSettles(d: Desk, c: nat, folder: string, requestId: string)
    requires c < |d.calls| && d.calls[c] == ListingCall(folder, requestId, Resolved(ANSWER), Waiting)
    requires RowPending(d.calls[c], d.requests)
    ensures var d' := WakeStep(d, c, false); var key := KeyOf(Listing(folder, requestId));
      && d'.calls == d.calls[c := ListingCall(folder, requestId, Resolved(ANSWER), Ended(Returned(ANSWER)))]
      && d'.requests == d.requests[key := d.requests[key].(state := Completed(ANSWER, c))]
  {
  }

  /** A listing under another id finds its row settled. */
  lemma ListingIsReplayed(d: Desk, folder: string, requestId: string)
    requires var key := KeyOf(Listing(folder, requestId));
      && key in d.requests && d.requests[key].requestId != requestId && d.requests[key].digest == ListingDigest(folder)
      && d.requests[key].state.Completed? && d.requests[key].state.reply == ANSWER
    ensures var d' := Listed(d, folder, requestId);
      && d'.requests == d.requests
      && d'.calls == d.calls + [Concluded(Listing(folder, requestId), Some(ListingDigest(folder)), Replay, Returned(ANSWER))]
  {
  }

  /** The desk on which every run below begins. */
  function Empty(): Desk { Initial(CONFIG, 0).desk }

  lemma FirstExchange()
    ensures Reaches(Exchange(0, "a", "r"), Ready(), Answered(Empty(), "a", "r"))
  {
    ReadyHolds();
    NothingYet();
    Exchanges([], Ready(), Empty(), "a", "r");
    assert [] + Exchange(0, "a", "r") == Exchange(0, "a", "r");
  }

  // ------------------------------------------------------------------------------ one id, two frames

  function Twice(): seq<Event> { [ListingEvent("a", "r")] + [ListingEvent("a", "r")] }

  lemma TwiceRuns()
    ensures Reaches(Twice(), Ready(), Listed(Listed(Empty(), "a", "r"), "a", "r"))
  {
    ReadyHolds();
    NothingYet();
    Lists([], Ready(), Empty(), "a", "r");
    assert [] + [ListingEvent("a", "r")] == [ListingEvent("a", "r")];
    Lists([ListingEvent("a", "r")], Ready(), Listed(Empty(), "a", "r"), "a", "r");
  }

  lemma TwiceHolds()
    ensures var d := Listed(Listed(Empty(), "a", "r"), "a", "r");
      !OneFramePerKey(d.sent, d.calls) && !OpenOnFile(d.calls, d.pending)
  {
    ListedHolds(Empty(), "a", "r");
    ListedHolds(Listed(Empty(), "a", "r"), "a", "r");
    var d := Listed(Listed(Empty(), "a", "r"), "a", "r");
    assert FrameKey(d.sent[0], d.calls) == FrameKey(d.sent[1], d.calls);
    assert Open(d.calls[0]) && !Maps(d.pending, SlotOf(d.calls[0]), 0);
  }

  /** The same call, brought twice under one request id, is sent twice under one key, and the second
      call takes the first off file. */
  lemma SameIdIsSentTwice()
    ensures var d := Run(CONFIG, 0, Pairing() + Twice()).desk;
      !OneFramePerKey(d.sent, d.calls) && !OpenOnFile(d.calls, d.pending)
  {
    TwiceRuns();
    TwiceHolds();
  }

  // ----------------------------------------------------------------- one id, and a call is orphaned

  /** The first listing is answered; before its task resumes, the second is started. */
  function Crossing(): seq<Event> { Exchange(0, "a", "r") + [ListingEvent("a", "r")] }

  function Crossed(): Desk { Listed(Answered(Empty(), "a", "r"), "a", "r") }

  lemma CrossingRuns()
    ensures Reaches(Crossing(), Ready(), Crossed())
  {
    ReadyHolds();
    FirstExchange();
    Lists(Exchange(0, "a", "r"), Ready(), Answered(Empty(), "a", "r"), "a", "r");
  }

  lemma CrossedHolds()
    ensures var d := Crossed(); var d' := WakeStep(d, 0, false);
      OpenOnFile(d.calls, d.pending) && !OpenOnFile(d'.calls, d'.pending)
  {
    AnsweredHolds(Empty(), "a", "r");
    ListedHolds(Answered(Empty(), "a", "r"), "a", "r");
    var d := Crossed();
    assert d.calls[0] == ListingCall("a", "r", Resolved(ANSWER), Waiting);
    assert d.calls[1] == ListingCall("a", "r", Unresolved, Sending);
    WakeShape(d, 0, false);
    FinishPops(d, WakeStep(d, 0, false), 0);
    assert SharesSlot(d.calls, 0);
    PoppingDisplacesIff(d, WakeStep(d, 0, false), 0);
  }

  lemma CrossedWakes()
    ensures Reaches(Crossing() + [Wake(0, false)], Ready(), WakeStep(Crossed(), 0, false))
  {
    CrossingRuns();
    Wakes(Crossing(), Ready(), Crossed(), 0);
  }

  /** A call takes another off file when it ends: the second call is started into the slot of the
      first, which is answered but not resumed, and the first pops the entry of the second. */
  lemma EndingCallOrphansAnother()
    ensures var before := Run(CONFIG, 0, Pairing() + Crossing()).desk;
      OpenOnFile(before.calls, before.pending)
    ensures var after := Run(CONFIG, 0, Pairing() + (Crossing() + [Wake(0, false)])).desk;
      !OpenOnFile(after.calls, after.pending)
  {
    CrossingRuns();
    CrossedWakes();
    CrossedHolds();
  }

  // ------------------------------------------------------------ one id, and a live call on a settled row

  function Settling(): seq<Event> { Exchange(0, "a", "r") + [Wake(0, false)] + [ListingEvent("a", "r")] }

  function Settled(): Desk { WakeStep(Answered(Empty(), "a", "r"), 0, false) }

  lemma SettledRuns()
    ensures Reaches(Exchange(0, "a", "r") + [Wake(0, false)], Ready(), Settled())
  {
    FirstExchange();
    Wakes(Exchange(0, "a", "r"), Ready(), Answered(Empty(), "a", "r"), 0);
  }

  lemma SettlingRuns()
    ensures Reaches(Settling(), Ready(), Listed(Settled(), "a", "r"))
  {
    ReadyHolds();
    SettledRuns();
    Lists(Exchange(0, "a", "r") + [Wake(0, false)], Ready(), Settled(), "a", "r");
  }

  lemma SettledHolds()
    ensures |Settled().calls| == 1
    ensures Settled().requests == map[KeyOf(Listing("a", "r")) := Row("r", ListingDigest("a"), Completed(ANSWER, 0), 0)]
  {
    AnsweredHolds(Empty(), "a", "r");
    WakeSettles(Answered(Empty(), "a", "r"), 0, "a", "r");
  }

  lemma SettlingHolds()
    ensures !UnsettledPending(Listed(Settled(), "a", "r"))
  {
    SettledHolds();
    ListedHolds(Settled(), "a", "r");
    var d := Listed(Settled(), "a", "r");
    assert Unsettled(d.calls[1]) && !RowPending(d.calls[1], d.requests);
  }

  /** The id of a settled row is brought again, and a live call sits on the settled row. */
  lemma LiveCallOnSettledRow()
    ensures !UnsettledPending(Run(CONFIG, 0, Pairing() + Settling()).desk)
  {
    SettlingRuns();
    SettlingHolds();
  }

  // --------------------------------------------------------- one id, and a replay of another command

  /** A listing of folder "a" is lost. */
  function Losing(): seq<Event> { [ListingEvent("a", "r")] + [Abandon(0)] }

  /** Folder "b" is listed under the same id and key, answered and settled. */
  function Swapping(): seq<Event> { Losing() + Exchange(1, "b", "r") + [Wake(1, false)] }

  /** Folder "a" is asked for again, under a fresh id. */
  function Mixing(): seq<Event> { Swapping() + [ListingEvent("a", "q")] }

  function LostDesk(): Desk { AbandonStep(Listed(Empty(), "a", "r"), 0) }

  function Swapped(): Desk { WakeStep(Answered(LostDesk(), "b", "r"), 1, false) }

  lemma LostHolds()
    ensures |LostDesk().calls| == 1
    ensures LostDesk().requests == map[KeyOf(Listing("a", "r")) := Row("r", ListingDigest("a"), Pending, 0)]
  {
    ListedHolds(Empty(), "a", "r");
  }

  lemma SwappedHolds()
    ensures var d := Swapped();
      && |d.calls| == 2 && d.calls[1].digest == Some(ListingDigest("b"))
      && d.requests == map[KeyOf(Listing("a", "r")) := Row("r", ListingDigest("a"), Completed(ANSWER, 1), 0)]
  {
    LostHolds();
    AnsweredHolds(LostDesk(), "b", "r");
    assert KeyOf(Listing("b", "r")) == KeyOf(Listing("a", "r"));
    WakeSettles(Answered(LostDesk(), "b", "r"), 1, "b", "r");
  }

  lemma LosingRuns()
    ensures Reaches(Losing(), Ready(), LostDesk())
  {
    ReadyHolds();
    NothingYet();
    Lists([], Ready(), Empty(), "a", "r");
    assert [] + [ListingEvent("a", "r")] == [ListingEvent("a", "r")];
    Abandons([ListingEvent("a", "r")], Ready(), Listed(Empty(), "a", "r"), 0);
  }

  lemma LostThenExchanged()
    ensures Reaches(Losing() + Exchange(1, "b", "r"), Ready(), Answered(LostDesk(), "b", "r"))
  {
    ReadyHolds();
    LosingRuns();
    LostHolds();
    Exchanges(Losing(), Ready(), LostDesk(), "b", "r");
  }

  lemma SwappingRuns()
    ensures Reaches(Swapping(), Ready(), Swapped())
  {
    LostThenExchanged();
    Wakes(Losing() + Exchange(1, "b", "r"), Ready(), Answered(LostDesk(), "b", "r"), 1);
  }

  lemma MixingRuns()
    ensures Reaches(Mixing(), Ready(), Listed(Swapped(), "a", "q"))
  {
    ReadyHolds();
    SwappingRuns();
    Lists(Swapping(), Ready(), Swapped(), "a", "q");
  }

  lemma MixingHolds()
    ensures var d := Listed(Swapped(), "a", "q");
      && |d.calls| == 3 && d.calls[2].claim.Replay? && d.calls[2].phase == Ended(Returned(ANSWER))
      && d.calls[1].digest != d.calls[2].digest
      && !ReplaysAlike(d.calls, d.requests)
  {
    SwappedHolds();
    assert "a"[0] != "b"[0] && "q"[0] != "r"[0];
    assert ListingDigest("a").arguments["path"] != ListingDigest("b").arguments["path"];
    assert KeyOf(Listing("a", "q")) == KeyOf(Listing("a", "r"));
    ListingIsReplayed(Swapped(), "a", "q");
  }

  /** The replay hands out the listing of another folder. */
  lemma ReplayAnswersAnotherCommand()
    ensures var d := Run(CONFIG, 0, Pairing() + Mixing()).desk;
      && |d.calls| == 3 && d.calls[2].claim.Replay? && d.calls[2].phase == Ended(Returned(ANSWER))
      && d.calls[1].digest != d.calls[2].digest
      && !ReplaysAlike(d.calls, d.requests)
  {
    MixingRuns();
    MixingHolds();
  }

  // ------------------------------------------------------------- a takeover, and an online device refused

  /** A second connection takes device "pc" over as instance "j"; ten seconds later the first, which
      is still open, sends a heartbeat for instance "i". */
  function Straying(): seq<Event> {
    [HubEvent(Hub.Connect("k", "c3", "s3"))] + [HubEvent(Hub.Authenticate("k", "c3", "s3", "pc", "j", 0, true))]
    + [HubEvent(Hub.Tick(10_000_000))] + [HubEvent(Hub.Heartbeat("g", 0))]
  }

  function Joined(): Hub.State { Hub.ConnectStep(Ready(), "k", "c3", "s3") }

  function TakenOver(): Hub.State { Hub.AuthenticateStep(Joined(), "k", "c3", "s3", "pc", "j", 0, true) }

  function Aged(): Hub.State { TakenOver().(now := 10_000_000) }

  function Strayed(): Hub.State { Hub.HeartbeatStep(Aged(), "g", 0) }

  lemma JoinedHolds()
    ensures var h := Joined();
      && h.config == CONFIG && h.now == 0
      && h.devices == map["pc" := Hub.Device("key", ReadOnly, true, 0, None, 0)]
      && "c3" in h.challenges && h.challenges["c3"] == Hub.Challenge("s3", 120, None)
      && "k" in h.connections && h.connections["k"].stage == Hub.AwaitingFirst && h.connections["k"].challengeId == "c3"
      && Paired(h.(connections := Ready().connections)) && Hub.Serves(h, "g")
  {
    ChallengedHolds();
    ReadyHolds();
    ReadyIds();
    assert "c3"[1] != "c1"[1] && "c3"[1] != "c2"[1];
  }

  lemma ReadyIds()
    ensures Ready().challenges.Keys == {"c1", "c2"} && Ready().connections.Keys == {"g"}
    ensures Ready().devices == map["pc" := Hub.Device("key", ReadOnly, true, 0, None, 0)]
  {
    ConnectedHolds();
    EnrolledHolds();
    ChallengedHolds();
    assert Enrolled().connections.Keys == {"g"};
    assert Challenged().challenges.Keys == {"c1", "c2"} && Challenged().connections.Keys == {"g"};
  }

  /** Both rows are online, and the registered session is that of "j". */
  ghost predicate Shared(h: Hub.State, now: int, beat: int) {
    && h.config == CONFIG && h.now == now
    && h.instances == map["i" := Hub.Instance("pc", "g", 0, true, 0, beat, None), "j" := Hub.Instance("pc", "k", 0, true, 0, 0, None)]
    && h.registered == map["pc" := "k"]
  }

  lemma TakeoverShares(h: Hub.State)
    requires h.config == CONFIG && h.now == 0
    requires h.devices == map["pc" := Hub.Device("key", ReadOnly, true, 0, None, 0)]
    requires "c3" in h.challenges && h.challenges["c3"] == Hub.Challenge("s3", 120, None)
    requires "k" in h.connections && h.connections["k"].stage == Hub.AwaitingFirst && h.connections["k"].challengeId == "c3"
    requires h.instances == map["i" := Hub.Instance("pc", "g", 0, true, 0, 0, None)] && h.registered == map["pc" := "g"]
    requires Hub.Serves(h, "g") && h.sessions["g"] == Hub.Session("pc", "i", 0, ReadOnly, "c2", 0)
    ensures var h' := Hub.AuthenticateStep(h, "k", "c3", "s3", "pc", "j", 0, true);
      Shared(h', 0, 0) && Hub.Serves(h', "g") && h'.sessions["g"] == h.sessions["g"]
  {
    assert Hub.Authenticates(h, "k", "c3", "s3", "pc", 0, true);
    assert "i"[0] != "j"[0] && "g"[0] != "k"[0];
  }

  lemma TakenOverHolds()
    ensures Shared(TakenOver(), 0, 0) && Hub.Serves(TakenOver(), "g")
    ensures TakenOver().sessions["g"] == Hub.Session("pc", "i", 0, ReadOnly, "c2", 0)
  {
    JoinedHolds();
    TakeoverShares(Joined());
  }

  lemma BeatShares(h: Hub.State)
    requires Shared(h, 10_000_000, 0) && Hub.Serves(h, "g") && h.sessions["g"] == Hub.Session("pc", "i", 0, ReadOnly, "c2", 0)
    ensures Shared(Hub.HeartbeatStep(h, "g", 0), 10_000_000, 10)
  {
    assert Hub.BeatAccepted(h, "g", 0);
  }

  lemma StrayedHolds()
    ensures Shared(Strayed(), 10_000_000, 10)
  {
    TakenOverHolds();
    BeatShares(Aged());
  }

  lemma NextHub(events: seq<Event>, h: Hub.State, e: Hub.Event)
    requires Reaches(events, h, Empty())
    requires e.Connect? || e.Tick? || e.Heartbeat? || (e.Authenticate? && DeskAfter(World(h, Empty()), e) == Empty())
    ensures Reaches(events + [HubEvent(e)], Hub.Step(h, e), Empty())
  {
    RunOne(Pairing() + events, HubEvent(e));
    assert Pairing() + (events + [HubEvent(e)]) == Pairing() + events + [HubEvent(e)];
  }

  lemma NothingToFail(h: Hub.State, e: Hub.Event)
    requires e.Authenticate?
    ensures DeskAfter(World(h, Empty()), e) == Empty()
  {
    if e.connector in h.registered {
      assert FailPending(Empty(), h.registered[e.connector]) == Empty();
    }
  }

  lemma StrayingRuns()
    ensures Reaches(Straying(), Strayed(), Empty())
  {
    var join, take := Hub.Connect("k", "c3", "s3"), Hub.Authenticate("k", "c3", "s3", "pc", "j", 0, true);
    NothingYet();
    NextHub([], Ready(), join);
    assert [] + [HubEvent(join)] == [HubEvent(join)];
    NothingToFail(Joined(), take);
    NextHub([HubEvent(join)], Joined(), take);
    AgingRuns([HubEvent(join)] + [HubEvent(take)]);
  }

  lemma AgingRuns(events: seq<Event>)
    requires Reaches(events, TakenOver(), Empty())
    ensures Reaches(events + [HubEvent(Hub.Tick(10_000_000))] + [HubEvent(Hub.Heartbeat("g", 0))], Strayed(), Empty())
  {
    Ages(events, TakenOver());
    Beats(events + [HubEvent(Hub.Tick(10_000_000))], Aged());
    TakenOverHolds();
  }

  lemma Ages(events: seq<Event>, h: Hub.State)
    requires Reaches(events, h, Empty())
    ensures h.now == 0 ==> Reaches(events + [HubEvent(Hub.Tick(10_000_000))], h.(now := 10_000_000), Empty())
  {
    NextHub(events, h, Hub.Tick(10_000_000));
  }

  lemma Beats(events: seq<Event>, h: Hub.State)
    ensures Reaches(events, h, Empty()) ==> Reaches(events + [HubEvent(Hub.Heartbeat("g", 0))], Hub.HeartbeatStep(h, "g", 0), Empty())
  {
    if Reaches(events, h, Empty()) {
      NextHub(events, h, Hub.Heartbeat("g", 0));
    }
  }

  lemma StrayIsFreshest(h: Hub.State, picked: Option<string>)
    requires Shared(h, 10_000_000, 10)
    ensures Hub.LiveRow(h.instances, "pc", "i", Hub.Cutoff(h)) && Hub.LiveRow(h.instances, "pc", "j", Hub.Cutoff(h))
    ensures Hub.RouteAnswer(Hub.SweepNow(h).instances, "pc", None, Hub.Cutoff(h), picked) <==> picked == Some("i")
  {
    assert Hub.Cutoff(h) == -65;
    assert Hub.SweepNow(h).instances == h.instances;
    assert "i" in h.instances && "j" in h.instances;
    assert forall x :: x in h.instances ==> x == "i" || x == "j";
    assert Hub.LiveRow(h.instances, "pc", "i", -65);
  }

  /** Wherever two rows are shared like this, the device is online with a live, registered row, and an
      unpinned call is refused as offline. */
  lemma SharedRefuses(w: World, command: Command, picked: Option<string>)
    requires HubInvariants.Inv(w.hub) && Shared(w.hub, 10_000_000, 10) && command.connector == "pc" && command.pinned.None?
    ensures var calls := StartStep(w, command, picked).desk.calls;
      Asks(w, command) && Hub.RouteAnswer(Hub.SweepNow(w.hub).instances, "pc", None, Hub.Cutoff(w.hub), picked) ==>
        |calls| == |w.desk.calls| + 1 && RefusedOffline(calls[|w.desk.calls|])
  {
    StrayIsFreshest(w.hub, picked);
    if Asks(w, command) && Hub.RouteAnswer(Hub.SweepNow(w.hub).instances, "pc", None, Hub.Cutoff(w.hub), picked) {
      RefusedOfflineIff(w, command, picked);
      assert "g"[0] != "k"[0];
    }
  }

  lemma StrayedIsShared()
    ensures var w := Run(CONFIG, 0, Pairing() + Straying());
      HubInvariants.Inv(w.hub) && Shared(w.hub, 10_000_000, 10) && w.desk.calls == []
  {
    StrayingRuns();
    StrayedHolds();
    RunKeeps(CONFIG, 0, Pairing() + Straying());
  }

  lemma SharedIsOnline(h: Hub.State)
    requires Shared(h, 10_000_000, 10)
    ensures Hub.DeviceOnline(h, "pc") && Hub.LiveRow(h.instances, "pc", "j", Hub.Cutoff(h)) && Registered(h, "j")
    ensures Hub.RouteAnswer(Hub.SweepNow(h).instances, "pc", None, Hub.Cutoff(h), Some("i"))
  {
    StrayIsFreshest(h, Some("i"));
  }

  /** A device is online, and instance "j" is live with a working, registered session; the route query
      picks the row of the session it took over from. */
  lemma DeviceStaysOnline()
    ensures var h := Run(CONFIG, 0, Pairing() + Straying()).hub;
      && Hub.DeviceOnline(h, "pc") && Hub.LiveRow(h.instances, "pc", "j", Hub.Cutoff(h)) && Registered(h, "j")
      && Hub.RouteAnswer(Hub.SweepNow(h).instances, "pc", None, Hub.Cutoff(h), Some("i"))
  {
    StrayedIsShared();
    SharedIsOnline(Run(CONFIG, 0, Pairing() + Straying()).hub);
  }

  /** Yet every unpinned call for it is refused as offline, whatever row the route query picks. */
  lemma OnlineDeviceRefused(command: Command, picked: Option<string>)
    requires command.connector == "pc" && command.pinned.None?
    ensures var w := Run(CONFIG, 0, Pairing() + Straying()); var calls := StartStep(w, command, picked).desk.calls;
      Asks(w, command) && Hub.RouteAnswer(Hub.SweepNow(w.hub).instances, "pc", None, Hub.Cutoff(w.hub), picked) ==>
        |calls| == 1 && RefusedOffline(calls[0])
  {
    StrayedIsShared();
    SharedRefuses(Run(CONFIG, 0, Pairing() + Straying()), command, picked);
  }
}
