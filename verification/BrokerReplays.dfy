/** What a replay hands out: over every run the answer of the call that settled the row, and when
    that call asked for something else. */
module BrokerReplays {
  import opened Basics
  import opened Broker
  import opened BrokerInvariants
  import opened BrokerShapes
  import opened BrokerHistory
  import opened BrokerLedger
  import Hub

  // ---------------------------------------------------------------------------------- every replay

  /** The replay was told exactly what `first` returned, or `{"code": x}` where x is the error that
      `first` raised; both calls came under one key, which `first` had claimed. */
  ghost predicate Agrees(first: Call, replay: Call) {
    && Claims(first, KeyOf(replay.command))
    && first.phase.Ended?
    && (first.phase == replay.phase
        || (first.phase.outcome.Raised? && replay.phase == Ended(Returned(CodeReply(first.phase.outcome.code)))))
  }

  /** Every replay agrees with another call, the one that settled the row, which carries the request
      id of the row; and the replay asks for what the row was first claimed for. */
  ghost predicate ReplaysAgree(calls: seq<Call>, requests: map<RequestKey, Row>) {
    forall c :: 0 <= c < |calls| && calls[c].claim.Replay? ==>
      && KeyOf(calls[c].command) in requests
      && var row := requests[KeyOf(calls[c].command)];
         && !row.state.Pending? && row.state.settler < |calls| && row.state.settler != c
         && Agrees(calls[row.state.settler], calls[c])
         && RequestId(calls[row.state.settler].command) == row.requestId
         && calls[c].digest == Some(row.digest)
  }

  lemma LedgerMakesReplaysAgree(calls: seq<Call>, requests: map<RequestKey, Row>)
    requires ClaimsHold(calls, requests) && Ledger(requests, calls)
    ensures ReplaysAgree(calls, requests)
  {
    forall c | 0 <= c < |calls| && calls[c].claim.Replay?
      ensures KeyOf(calls[c].command) in requests && !requests[KeyOf(calls[c].command)].state.Pending?
      ensures var row := requests[KeyOf(calls[c].command)];
        && row.state.settler < |calls| && row.state.settler != c
        && Agrees(calls[row.state.settler], calls[c])
        && RequestId(calls[row.state.settler].command) == row.requestId
        && calls[c].digest == Some(row.digest)
    {
      var key := KeyOf(calls[c].command);
      assert ClaimHolds(calls[c], requests);
      assert RowTells(key, requests[key], calls);
      assert ClaimHolds(calls[requests[key].state.settler], requests);
    }
  }

  /** Over every run, whatever request ids callers bring. */
  lemma {:induction false} ReplayAgreement(config: Hub.Config, now: int, events: seq<Event>)
    ensures ReplaysAgree(Run(config, now, events).desk.calls, Run(config, now, events).desk.requests)
  {
    RunKeeps(config, now, events);
    RunLedger(config, now, events);
    var d := Run(config, now, events).desk;
    LedgerMakesReplaysAgree(d.calls, d.requests);
  }

  /** A settled row is settled for good, and with it every answer it will ever give. */
  lemma {:induction false} SettledForGood(config: Hub.Config, now: int, events: seq<Event>, more: seq<Event>, key: RequestKey)
    ensures var before := Run(config, now, events).desk.requests;
      key in before && !before[key].state.Pending? ==>
        Maps(Run(config, now, events + more).desk.requests, key, before[key])
  {
    RunFollows(config, now, events, more);
    var before := Run(config, now, events).desk.requests;
    if key in before {
      assert RowFollows(before[key], Run(config, now, events + more).desk.requests[key]);
    }
  }

  // ------------------------------------------------------------- rows settled by another command

  /** Every settled row was settled by a call that asked for what the row was claimed for: the same
      tool and arguments, of the same instance in the same context epoch. */
  ghost predicate SettledAlike(d: Desk) {
    forall key :: key in d.requests && !d.requests[key].state.Pending? ==>
      d.requests[key].state.settler < |d.calls| && d.calls[d.requests[key].state.settler].digest == Some(d.requests[key].digest)
  }

  /** The call that claimed the row asks for something else. */
  predicate Differs(call: Call, requests: map<RequestKey, Row>) {
    KeyOf(call.command) in requests && call.digest != Some(requests[KeyOf(call.command)].digest)
  }

  /** A call that asks for something else is the first to conclude on a pending row. */
  ghost predicate SettlesOtherwise(w: World, e: Event) {
    exists c: nat :: Concludes(w.desk, e, c) && RowPending(w.desk.calls[c], w.desk.requests)
                     && Differs(w.desk.calls[c], w.desk.requests)
  }

  lemma FadingKeepsAlike(d: Desk, d': Desk)
    requires SettledAlike(d) && Fades(d, d')
    ensures SettledAlike(d')
  {
    assert forall c :: 0 <= c < |d.calls| ==> FadesTo(d.calls[c], d'.calls[c]);
  }

  lemma StartKeepsAlike(w: World, command: Command, picked: Option<string>)
    requires SettledAlike(w.desk)
    ensures SettledAlike(StartStep(w, command, picked).desk)
  {
    StartShape(w, command, picked);
  }

  lemma FinishingBreaksAlikeIff(d: Desk, d': Desk, c: nat)
    requires SettledAlike(d) && ClaimsHold(d.calls, d.requests) && Finishes(d, d', c)
    ensures !SettledAlike(d') <==> RowPending(d.calls[c], d.requests) && Differs(d.calls[c], d.requests)
  {
    var outcome, state :| Tells(state, outcome, c) && d' == Finish(d, c, outcome, state);
    var key := KeyOf(d.calls[c].command);
    assert ClaimHolds(d.calls[c], d.requests);
    if RowPending(d.calls[c], d.requests) {
      assert d'.requests[key].state == state && d'.requests[key].digest == d.requests[key].digest;
      assert d'.calls[c].digest == d.calls[c].digest;
    }
  }

  /** Exactly which events settle a row with the answer to another command. */
  lemma AlikeBreaksIff(w: World, e: Event)
    requires SettledAlike(w.desk) && ClaimsHold(w.desk.calls, w.desk.requests)
    ensures !SettledAlike(Apply(w, e).desk) <==> SettlesOtherwise(w, e)
  {
    if e.Start? {
      StartKeepsAlike(w, e.command, e.picked);
    } else if c :| Concludes(w.desk, e, c) {
      ConcludingShape(w, e, c);
      FinishingBreaksAlikeIff(w.desk, Apply(w, e).desk, c);
      assert forall y: nat :: Concludes(w.desk, e, y) ==> y == c;
    } else {
      OthersFade(w, e);
      FadingKeepsAlike(w.desk, Apply(w, e).desk);
    }
  }

  /** Exactly the runs in which no row is ever settled with the answer to another command. */
  lemma {:induction false} SettledAlikeIff(config: Hub.Config, now: int, events: seq<Event>)
    ensures Throughout(config, now, events, (w: World) => SettledAlike(w.desk)) <==>
            Never(config, now, events, (w, e) => SettlesOtherwise(w, e))
  {
    var good := (w: World) => SettledAlike(w.desk);
    var bad := (w, e) => SettlesOtherwise(w, e);
    forall k | 0 <= k < |events| && good(Run(config, now, events[..k]))
      ensures bad(Run(config, now, events[..k]), events[k]) <==> !good(Run(config, now, events[..k + 1]))
    {
      RunKeeps(config, now, events[..k]);
      RunTakes(config, now, events, k);
      AlikeBreaksIff(Run(config, now, events[..k]), events[k]);
    }
    ThroughoutIff(config, now, events, good, bad);
  }

  /** Exactly when a replay answers another command than it was asked: when the call that settled
      its row asked for something else than the row was claimed for. */
  lemma ReplayMisleadsIff(calls: seq<Call>, requests: map<RequestKey, Row>, c: nat)
    requires ReplaysAgree(calls, requests) && c < |calls| && calls[c].claim.Replay?
    ensures var row := requests[KeyOf(calls[c].command)];
      calls[row.state.settler].digest != calls[c].digest <==> Differs(calls[row.state.settler], requests)
  {
  }

  /** A replay and the call that settled its row asked for the same thing. */
  ghost predicate ReplaysAlike(calls: seq<Call>, requests: map<RequestKey, Row>) {
    forall c :: 0 <= c < |calls| && calls[c].claim.Replay? ==>
      && KeyOf(calls[c].command) in requests
      && var row := requests[KeyOf(calls[c].command)];
         && !row.state.Pending? && row.state.settler < |calls|
         && calls[row.state.settler].digest == calls[c].digest
  }

  lemma AlikeMakesReplaysAlike(d: Desk)
    requires ReplaysAgree(d.calls, d.requests) && SettledAlike(d)
    ensures ReplaysAlike(d.calls, d.requests)
  {
    forall c | 0 <= c < |d.calls| && d.calls[c].claim.Replay?
      ensures d.calls[d.requests[KeyOf(d.calls[c].command)].state.settler].digest == d.calls[c].digest
    {
      ReplayMisleadsIff(d.calls, d.requests, c);
    }
  }

  /** In a run that never settles a row with the answer to another command, every replay answers the
      very command it was asked: same tool and arguments, instance and context epoch. */
  lemma {:induction false} ReplaysOfRowsSettledAlike(config: Hub.Config, now: int, events: seq<Event>)
    requires Never(config, now, events, (w, e) => SettlesOtherwise(w, e))
    ensures ReplaysAlike(Run(config, now, events).desk.calls, Run(config, now, events).desk.requests)
  {
    SettledAlikeIff(config, now, events);
    assert events[..|events|] == events;
    assert SettledAlike(Run(config, now, events[..|events|]).desk);
    ReplayAgreement(config, now, events);
    AlikeMakesReplaysAlike(Run(config, now, events).desk);
  }

  // -------------------------------------------------------- where calls that differ come from

  /** Every call that claimed a row asks for what the row was first claimed for. */
  ghost predicate ClaimsAlike(d: Desk) {
    forall c :: 0 <= c < |d.calls| && d.calls[c].claim.New? ==> !Differs(d.calls[c], d.requests)
  }

  /** The start claims an existing row for something else, by bringing its request id again. */
  predicate ClaimsOtherwise(w: World, e: Event) {
    ClaimsAgain(w, e) && DigestOf(w, e.command, e.picked) != w.desk.requests[KeyOf(e.command)].digest
  }

  lemma FadingKeepsClaimsAlike(d: Desk, d': Desk)
    requires ClaimsAlike(d) && Fades(d, d')
    ensures ClaimsAlike(d')
  {
    assert forall c :: 0 <= c < |d.calls| ==> FadesTo(d.calls[c], d'.calls[c]);
  }

  lemma FinishingKeepsClaimsAlike(d: Desk, d': Desk, c: nat)
    requires ClaimsAlike(d) && Finishes(d, d', c)
    ensures ClaimsAlike(d')
  {
  }

  lemma ClaimingBreaksAlikeIff(d: Desk, d': Desk, command: Command, g: string, digest: Digest)
    requires ClaimsAlike(d) && ClaimsHold(d.calls, d.requests) && Claimed(d, d', command, g, digest)
    ensures !ClaimsAlike(d') <==> KeyOf(command) in d.requests && digest != d.requests[KeyOf(command)].digest
  {
    var n := |d.calls|;
    assert d'.calls[n] == Claimant(d, command, g, digest);
    forall c | 0 <= c < n && d.calls[c].claim.New? ensures !Differs(d'.calls[c], d'.requests) {
      assert ClaimHolds(d.calls[c], d.requests);
    }
  }

  lemma StartBreaksAlikeIff(w: World, e: Event)
    requires ClaimsAlike(w.desk) && ClaimsHold(w.desk.calls, w.desk.requests) && e.Start?
    ensures !ClaimsAlike(StartStep(w, e.command, e.picked).desk) <==> ClaimsOtherwise(w, e)
  {
    StartShape(w, e.command, e.picked);
    if ClaimsRow(w, e.command, e.picked) {
      ClaimingBreaksAlikeIff(w.desk, StartStep(w, e.command, e.picked).desk, e.command,
                             Target(w, e.command, e.picked), DigestOf(w, e.command, e.picked));
    }
  }

  /** Exactly which events let a call claim a row for something else. */
  lemma ClaimsAlikeBreaksIff(w: World, e: Event)
    requires ClaimsAlike(w.desk) && ClaimsHold(w.desk.calls, w.desk.requests)
    ensures !ClaimsAlike(Apply(w, e).desk) <==> ClaimsOtherwise(w, e)
  {
    if e.Start? {
      StartBreaksAlikeIff(w, e);
    } else if c :| Concludes(w.desk, e, c) {
      ConcludingShape(w, e, c);
      FinishingKeepsClaimsAlike(w.desk, Apply(w, e).desk, c);
    } else {
      OthersFade(w, e);
      FadingKeepsClaimsAlike(w.desk, Apply(w, e).desk);
    }
  }

  lemma {:induction false} RunClaimsAlike(config: Hub.Config, now: int, events: seq<Event>)
    requires Never(config, now, events, ClaimsOtherwise)
    ensures ClaimsAlike(Run(config, now, events).desk)
  {
    if events != [] {
      var init := events[..|events| - 1];
      NeverLast(config, now, events, ClaimsOtherwise);
      RunClaimsAlike(config, now, init);
      RunKeeps(config, now, init);
      ClaimsAlikeBreaksIff(Run(config, now, init), events[|events| - 1]);
    }
  }

  lemma ClaimsAlikeMakesReplaysAlike(d: Desk)
    requires ReplaysAgree(d.calls, d.requests) && ClaimsAlike(d)
    ensures ReplaysAlike(d.calls, d.requests)
  {
  }

  /** In a run in which no start claims an existing row for something else, every replay answers the
      very command it was asked: same tool and arguments, instance and context epoch. */
  lemma {:induction false} ReplaysAnswerTheirCommand(config: Hub.Config, now: int, events: seq<Event>)
    requires Never(config, now, events, ClaimsOtherwise)
    ensures ReplaysAlike(Run(config, now, events).desk.calls, Run(config, now, events).desk.requests)
  {
    ReplayAgreement(config, now, events);
    RunClaimsAlike(config, now, events);
    ClaimsAlikeMakesReplaysAlike(Run(config, now, events).desk);
  }
}
