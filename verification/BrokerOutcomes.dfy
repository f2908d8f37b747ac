/** What callers are told: the outcome of a call follows from its future. */
module BrokerOutcomes {
  import opened Basics
  import opened Catalog
  import opened Broker
  import opened BrokerInvariants
  import opened BrokerHistory
  import Hub

  /** The outcome of a claimed call is decided by its future: it returns what resolved the future,
      fails as too large only what is too large, and times out only when the timer fired. */
  ghost predicate ToldTheTruth(call: Call) {
    call.claim.New? && call.phase.Ended? ==>
      match call.phase.outcome
      case Returned(reply) => call.future == Resolved(reply) && reply.bytes <= RESULT_MAX_BYTES
      case Raised(code) =>
        && (code == "device_timeout" ==> call.timedOut)
        && (code == "result_too_large" ==> call.future.Resolved? && call.future.reply.bytes > RESULT_MAX_BYTES)
        && code in {"device_timeout", "result_too_large", "device_offline", "command_in_flight"}
      case Lost => true
  }

  ghost predicate AllToldTheTruth(calls: seq<Call>) {
    forall c :: 0 <= c < |calls| ==> ToldTheTruth(calls[c])
  }

  // --------------------------------------------------------------------- calls that end with an event

  lemma WakeTellsTruth(d: Desk, x: nat, resultWins: bool, c: nat)
    requires c < |d.calls| && Live(d.calls[c])
    ensures ToldTheTruth(WakeStep(d, x, resultWins).calls[c])
  {
  }

  lemma EndsTellTruth(d: Desk, x: nat, c: nat)
    requires c < |d.calls| && Live(d.calls[c])
    ensures |SendFailsStep(d, x).calls| == |AbandonStep(d, x).calls| == |d.calls|
    ensures ToldTheTruth(SendFailsStep(d, x).calls[c]) && ToldTheTruth(AbandonStep(d, x).calls[c])
  {
  }

  lemma HubEventTellsTruth(w: World, e: Hub.Event, c: nat)
    requires c < |w.desk.calls| && Live(w.desk.calls[c])
    ensures ToldTheTruth(DeskAfter(w, e).calls[c])
  {
    match e
    case Authenticate(_, _, _, connector, _, _, _) =>
      if connector in w.hub.registered {
        FailPendingResolves(w.desk, w.hub.registered[connector]);
        assert SameStanding(w.desk.calls[c], FailPending(w.desk, w.hub.registered[connector]).calls[c]);
      }
    case Teardown(g) =>
      FailPendingResolves(w.desk, g);
      assert SameStanding(w.desk.calls[c], FailPending(w.desk, g).calls[c]);
    case Restart =>
    case _ =>
  }

  lemma StandingTellsTruth(d: Desk, d': Desk, c: nat)
    requires Resolves(d, d') && c < |d.calls| && Live(d.calls[c])
    ensures ToldTheTruth(d'.calls[c])
  {
    assert SameStanding(d.calls[c], d'.calls[c]);
  }

  /** A call that was live is live still, or was told the truth when it ended. */
  lemma EndingTellsTruth(w: World, e: Event, c: nat)
    requires c < |w.desk.calls| && Live(w.desk.calls[c])
    ensures c < |Apply(w, e).desk.calls| && ToldTheTruth(Apply(w, e).desk.calls[c])
  {
    match e
    case Wake(x, wins) => WakeTellsTruth(w.desk, x, wins, c);
    case SendFails(x) => EndsTellTruth(w.desk, x, c);
    case Abandon(x) => EndsTellTruth(w.desk, x, c);
    case HubEvent(event) => HubEventTellsTruth(w, event, c);
    case Start(_, _) =>
    case SendDone(x) => SendDoneResolves(w.desk, x); StandingTellsTruth(w.desk, SendDoneStep(w.desk, x), c);
    case TimerFires(x, cancels) =>
      TimerResolves(w.desk, x, cancels);
      StandingTellsTruth(w.desk, TimerStep(w.desk, x, cancels), c);
    case CancelResolve(x) => CancelResolveResolves(w.desk, x); StandingTellsTruth(w.desk, CancelResolveStep(w.desk, x), c);
    case Respond(_, _, _, _, _, _) => RespondResolves(w, e); StandingTellsTruth(w.desk, Apply(w, e).desk, c);
    case CancelSend(_, _, _) =>
  }

  // ------------------------------------------------------------------------------------- new calls

  lemma SubmitTellsTruth(d: Desk, command: Command, g: string, digest: Digest)
    ensures ToldTheTruth(Submit(d, command, g, digest).calls[|d.calls|])
  {
  }

  lemma StartTellsTruth(w: World, command: Command, picked: Option<string>)
    ensures var calls := StartStep(w, command, picked).desk.calls;
      |calls| > |w.desk.calls| ==> ToldTheTruth(calls[|w.desk.calls|])
  {
    if !(command.assertion.Some? && command.assertion.value.connector != command.connector) {
      var h := Hub.SweepNow(w.hub);
      if Hub.RouteAnswer(h.instances, command.connector, command.pinned, Hub.Cutoff(h), picked) && Gate(h, command, picked).None? {
        SubmitTellsTruth(w.desk, command, h.registered[command.connector], DigestFor(h, command, picked.value));
      }
    }
  }

  // ------------------------------------------------------------------------------------------ runs

  lemma EndedStaysTold(x: Call, y: Call)
    requires CallFollows(x, y) && !Live(x) && ToldTheTruth(x)
    ensures ToldTheTruth(y)
  {
  }

  lemma OldCallTellsTruth(w: World, e: Event, c: nat)
    requires c < |w.desk.calls| && !Live(w.desk.calls[c]) && ToldTheTruth(w.desk.calls[c])
    ensures c < |Apply(w, e).desk.calls| && ToldTheTruth(Apply(w, e).desk.calls[c])
  {
    ApplyFollows(w, e);
    EndedStaysTold(w.desk.calls[c], Apply(w, e).desk.calls[c]);
  }

  lemma NewCallTellsTruth(w: World, e: Event, c: nat)
    requires |w.desk.calls| <= c
    ensures c < |Apply(w, e).desk.calls| ==> ToldTheTruth(Apply(w, e).desk.calls[c])
  {
    CallsComeFromStarts(w, e);
    if c < |Apply(w, e).desk.calls| {
      StartTellsTruth(w, e.command, e.picked);
    }
  }

  lemma CallTellsTruth(w: World, e: Event, c: nat)
    requires AllToldTheTruth(w.desk.calls)
    ensures c < |Apply(w, e).desk.calls| ==> ToldTheTruth(Apply(w, e).desk.calls[c])
  {
    if c >= |w.desk.calls| {
      NewCallTellsTruth(w, e, c);
    } else if Live(w.desk.calls[c]) {
      EndingTellsTruth(w, e, c);
    } else {
      OldCallTellsTruth(w, e, c);
    }
  }

  /** In every run, every caller was told what its own future says. */
  lemma {:induction false} CallersAreToldTheTruth(config: Hub.Config, now: int, events: seq<Event>)
    ensures AllToldTheTruth(Run(config, now, events).desk.calls)
  {
    if events != [] {
      var init := events[..|events| - 1];
      CallersAreToldTheTruth(config, now, init);
      forall c | 0 <= c < |Run(config, now, events).desk.calls| ensures ToldTheTruth(Run(config, now, events).desk.calls[c]) {
        CallTellsTruth(Run(config, now, init), events[|events| - 1], c);
      }
    }
  }

  // ----------------------------------------------------------------------- device answers, end to end

  /** The reply carries the answer of the device with its size: the members of an object as they are, under a code
      "ok" that they may overrule; any other result in full; an error under its own name. */
  ghost predicate Carries(reply: Reply, status: ResponseStatus, payload: Json, bytes: nat) {
    && reply.bytes == bytes
    && (status.StatusOk? && payload.Obj? ==>
          && reply.members.Keys == payload.members.Keys + {"code"}
          && (forall k :: k in payload.members ==> reply.members[k] == payload.members[k])
          && ("code" !in payload.members ==> reply.members["code"] == Str("ok")))
    && (status.StatusOk? && !payload.Obj? ==> reply.members == map["code" := Str("ok"), "result" := payload])
    && (status.StatusError? ==> reply.members == map["code" := Str("device_error"), "error" := payload])
  }

  lemma ReplyCarries(status: ResponseStatus, payload: Json, bytes: nat)
    requires !status.StatusOther?
    ensures Carries(ReplyOf(status, payload, bytes), status, payload, bytes)
  {
  }

  /** Event `e` is a response that resolves the future of call `c`. */
  ghost predicate Resolving(w: World, e: Event, c: nat) {
    && e.Respond?
    && c < |w.desk.calls| && w.desk.calls[c].future.Unresolved?
    && c < |Apply(w, e).desk.calls| && !Apply(w, e).desk.calls[c].future.Unresolved?
  }

  /** A response that resolves a future comes from the session of its call, under the call's id. */
  lemma ResponseFindsItsCall(w: World, e: Event, c: nat)
    requires Filed(w.desk.pending, w.desk.calls, w.hub.registered)
    ensures Resolving(w, e, c) ==>
      && SlotOf(w.desk.calls[c]) == Slot(e.generation, e.requestId) && Live(w.desk.calls[c])
      && Apply(w, e).desk.calls[c].future == Resolved(ReplyOf(e.status, e.payload, e.bytes)) && !e.status.StatusOther?
  {
    if Resolving(w, e, c) {
      assert FiledRight(Slot(e.generation, e.requestId), c, w.desk.calls, w.hub.registered);
    }
  }

  lemma OutcomeOfResolved(before: Call, after: Call)
    requires CallFollows(before, after) && ToldTheTruth(after) && before.claim.New? && before.future.Resolved?
    ensures after.phase.Ended? && after.phase.outcome.Returned? ==>
              after.phase.outcome.reply == before.future.reply && before.future.reply.bytes <= 1_048_576
  {
  }

  /** Whatever happens in between, the caller of the request that a response answers is handed
      that answer and no other, if it is handed anything. */
  lemma AnswerReachesCaller(config: Hub.Config, now: int, events: seq<Event>, e: Event, more: seq<Event>, c: nat)
    ensures var w := Run(config, now, events); var calls := Run(config, now, events + [e] + more).desk.calls;
      Resolving(w, e, c) ==>
      && SlotOf(w.desk.calls[c]) == Slot(e.generation, e.requestId)
      && c < |calls|
      && (calls[c].phase.Ended? && calls[c].phase.outcome.Returned? ==>
            e.bytes <= 1_048_576 && Carries(calls[c].phase.outcome.reply, e.status, e.payload, e.bytes))
  {
    var w := Run(config, now, events);
    if Resolving(w, e, c) {
      RunKeeps(config, now, events);
      ResponseFindsItsCall(w, e, c);
      assert ClaimHolds(w.desk.calls[c], w.desk.requests);
      ApplyFollows(w, e);
      assert CallFollows(w.desk.calls[c], Apply(w, e).desk.calls[c]);
      AnsweredCallIsHanded(config, now, events, e, more, c);
      ReplyCarries(e.status, e.payload, e.bytes);
    }
  }

  lemma AnsweredCallIsHanded(config: Hub.Config, now: int, events: seq<Event>, e: Event, more: seq<Event>, c: nat)
    ensures var before := Apply(Run(config, now, events), e).desk.calls;
      var after := Run(config, now, events + [e] + more).desk.calls;
      c < |before| && before[c].claim.New? && before[c].future.Resolved? ==>
      && c < |after|
      && (after[c].phase.Ended? && after[c].phase.outcome.Returned? ==>
            after[c].phase.outcome.reply == before[c].future.reply && before[c].future.reply.bytes <= 1_048_576)
  {
    RunSplits(config, now, events, [e]);
    assert events + [e][..0] == events;
    RunFollows(config, now, events + [e], more);
    CallersAreToldTheTruth(config, now, events + [e] + more);
    var before := Run(config, now, events + [e]).desk.calls;
    if c < |before| && before[c].claim.New? && before[c].future.Resolved? {
      OutcomeOfResolved(before[c], Run(config, now, events + [e] + more).desk.calls[c]);
    }
  }
}
