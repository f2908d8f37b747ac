/** How often a request is sent: at most once per idempotency key, and exactly when more often. */
module BrokerFrames {
  import opened Basics
  import opened Broker
  import opened BrokerInvariants
  import opened BrokerShapes
  import opened BrokerHistory
  import opened BrokerLedger
  import Hub

  // ------------------------------------------------------------------------------- frames and keys

  /** The idempotency key under which a request frame was sent. */
  function FrameKey(frame: Frame, calls: seq<Call>): RequestKey
    requires frame.RequestFrame? && frame.call < |calls|
  {
    KeyOf(calls[frame.call].command)
  }

  ghost predicate SentByCalls(sent: seq<Frame>, calls: seq<Call>) {
    forall k :: 0 <= k < |sent| && sent[k].RequestFrame? ==> sent[k].call < |calls|
  }

  /** Two request frames under one (connector, client, idempotency key) carry the same request id. */
  ghost predicate OneIdPerKey(sent: seq<Frame>, calls: seq<Call>) {
    && SentByCalls(sent, calls)
    && forall j, k :: 0 <= j < k < |sent| && sent[j].RequestFrame? && sent[k].RequestFrame? ==>
         (FrameKey(sent[j], calls) == FrameKey(sent[k], calls) ==> sent[j].requestId == sent[k].requestId)
  }

  /** There is at most one request frame per (connector, client, idempotency key). */
  ghost predicate OneFramePerKey(sent: seq<Frame>, calls: seq<Call>) {
    && SentByCalls(sent, calls)
    && forall j, k :: 0 <= j < k < |sent| && sent[j].RequestFrame? && sent[k].RequestFrame? ==>
         FrameKey(sent[j], calls) != FrameKey(sent[k], calls)
  }

  lemma FramesCarryRowIds(d: Desk)
    requires ClaimsHold(d.calls, d.requests) && FramesExact(d.sent, d.calls)
    ensures OneIdPerKey(d.sent, d.calls)
  {
  }

  /** Over every run, whatever request ids callers bring, one key stands for one request id. */
  lemma {:induction false} SameKeySameRequestId(config: Hub.Config, now: int, events: seq<Event>)
    ensures OneIdPerKey(Run(config, now, events).desk.sent, Run(config, now, events).desk.calls)
  {
    RunKeeps(config, now, events);
    FramesCarryRowIds(Run(config, now, events).desk);
  }

  // ------------------------------------------------------------------------------- at most once

  /** A request frame was sent under this key. */
  ghost predicate KeySent(sent: seq<Frame>, calls: seq<Call>, key: RequestKey) {
    exists k :: 0 <= k < |sent| && sent[k].RequestFrame? && sent[k].call < |calls| && FrameKey(sent[k], calls) == key
  }

  /** The start is sent although a frame was sent under its key. */
  ghost predicate SendsAgain(w: World, e: Event) {
    e.Start? && Sends(w, e.command, e.picked) && KeySent(w.desk.sent, w.desk.calls, KeyOf(e.command))
  }

  /** Nothing, or a cancel frame, is sent. */
  ghost predicate SendsNoRequest(d: Desk, d': Desk) {
    d'.sent == d.sent || (exists frame: Frame :: frame.CancelFrame? && d'.sent == d.sent + [frame])
  }

  lemma EndsSendNothing(d: Desk, c: nat, resultWins: bool)
    ensures WakeStep(d, c, resultWins).sent == SendFailsStep(d, c).sent == AbandonStep(d, c).sent == d.sent
  {
  }

  lemma ResolvingSendsNothing(w: World, e: Event)
    requires e.HubEvent? || e.Respond? || e.SendDone? || e.TimerFires? || e.CancelResolve?
    ensures Apply(w, e).desk.sent == w.desk.sent
  {
    match e
    case HubEvent(_) =>
    case Respond(_, _, _, _, _, _) =>
    case _ =>
  }

  lemma CancelSendsNoRequest(w: World, connector: string, requestId: string, picked: Option<string>)
    ensures SendsNoRequest(w.desk, CancelSendStep(w, connector, requestId, picked).desk)
  {
  }

  lemma OthersSendNoRequest(w: World, e: Event)
    requires !e.Start?
    ensures SendsNoRequest(w.desk, Apply(w, e).desk)
  {
    match e
    case Wake(c, wins) => EndsSendNothing(w.desk, c, wins);
    case SendFails(c) => EndsSendNothing(w.desk, c, false);
    case Abandon(c) => EndsSendNothing(w.desk, c, false);
    case CancelSend(connector, requestId, picked) => CancelSendsNoRequest(w, connector, requestId, picked);
    case _ => ResolvingSendsNothing(w, e);
  }

  lemma SilenceKeepsFrames(d: Desk, d': Desk)
    requires OneFramePerKey(d.sent, d.calls) && CallsFollow(d.calls, d'.calls) && SendsNoRequest(d, d')
    ensures OneFramePerKey(d'.sent, d'.calls)
  {
    assert forall c :: 0 <= c < |d.calls| ==> CallFollows(d.calls[c], d'.calls[c]);
  }

  lemma ClaimingBreaksFramesIff(d: Desk, d': Desk, command: Command, g: string, digest: Digest)
    requires OneFramePerKey(d.sent, d.calls) && Claimed(d, d', command, g, digest)
    ensures !OneFramePerKey(d'.sent, d'.calls) <==> SlotFree(d.inFlight, command) && KeySent(d.sent, d.calls, KeyOf(command))
  {
    var n, m := |d.calls|, |d.sent|;
    assert d'.calls[n] == Claimant(d, command, g, digest);
    assert forall c :: 0 <= c < n ==> d'.calls[c] == d.calls[c];
    if SlotFree(d.inFlight, command) {
      assert FrameKey(d'.sent[m], d'.calls) == KeyOf(command);
      if k :| 0 <= k < m && d.sent[k].RequestFrame? && d.sent[k].call < n && FrameKey(d.sent[k], d.calls) == KeyOf(command) {
        assert FrameKey(d'.sent[k], d'.calls) == FrameKey(d'.sent[m], d'.calls);
      }
    }
  }

  lemma StartBreaksFramesIff(w: World, e: Event)
    requires OneFramePerKey(w.desk.sent, w.desk.calls) && e.Start?
    ensures var d' := StartStep(w, e.command, e.picked).desk;
      !OneFramePerKey(d'.sent, d'.calls) <==> SendsAgain(w, e)
  {
    StartShape(w, e.command, e.picked);
    var d' := StartStep(w, e.command, e.picked).desk;
    if ClaimsRow(w, e.command, e.picked) {
      ClaimingBreaksFramesIff(w.desk, d', e.command, Target(w, e.command, e.picked), DigestOf(w, e.command, e.picked));
    } else if d' != w.desk {
      AppendFollows(w.desk.calls, d'.calls[|w.desk.calls|]);
      SilenceKeepsFrames(w.desk, d');
    }
  }

  /** Exactly which events send a second frame under one key. */
  lemma FramesBreakIff(w: World, e: Event)
    requires OneFramePerKey(w.desk.sent, w.desk.calls)
    ensures !OneFramePerKey(Apply(w, e).desk.sent, Apply(w, e).desk.calls) <==> SendsAgain(w, e)
  {
    if e.Start? {
      StartBreaksFramesIff(w, e);
    } else {
      ApplyFollows(w, e);
      OthersSendNoRequest(w, e);
      SilenceKeepsFrames(w.desk, Apply(w, e).desk);
    }
  }

  /** Exactly the runs in which no key is sent twice. */
  lemma {:induction false} OneFramePerKeyIff(config: Hub.Config, now: int, events: seq<Event>)
    ensures Throughout(config, now, events, (w: World) => OneFramePerKey(w.desk.sent, w.desk.calls)) <==>
            Never(config, now, events, (w, e) => SendsAgain(w, e))
  {
    var good := (w: World) => OneFramePerKey(w.desk.sent, w.desk.calls);
    var bad := (w, e) => SendsAgain(w, e);
    forall k | 0 <= k < |events| && good(Run(config, now, events[..k]))
      ensures bad(Run(config, now, events[..k]), events[k]) <==> !good(Run(config, now, events[..k + 1]))
    {
      RunTakes(config, now, events, k);
      FramesBreakIff(Run(config, now, events[..k]), events[k]);
    }
    ThroughoutIff(config, now, events, good, bad);
  }

  /** A call sent under a key that was sent before claims the row of that key again. */
  lemma SendingAgainClaimsAgain(w: World, e: Event)
    requires ClaimsHold(w.desk.calls, w.desk.requests) && FramesExact(w.desk.sent, w.desk.calls) && SendsAgain(w, e)
    ensures ClaimsAgain(w, e)
  {
    var k :| 0 <= k < |w.desk.sent| && w.desk.sent[k].RequestFrame? && w.desk.sent[k].call < |w.desk.calls|
             && FrameKey(w.desk.sent[k], w.desk.calls) == KeyOf(e.command);
    assert Framed(w.desk.sent[k], w.desk.calls);
    assert ClaimHolds(w.desk.calls[w.desk.sent[k].call], w.desk.requests);
  }

  /** In a run in which no start claims a row again, restarts of the process included, at most one
      request frame is ever sent per (connector, client, idempotency key). Calls refused before the
      claim may be brought again under the same id as often as their callers like. */
  lemma {:induction false} AtMostOneFramePerKey(config: Hub.Config, now: int, events: seq<Event>)
    requires Never(config, now, events, ClaimsAgain)
    ensures OneFramePerKey(Run(config, now, events).desk.sent, Run(config, now, events).desk.calls)
  {
    if events != [] {
      var w := Run(config, now, events[..|events| - 1]);
      NeverLast(config, now, events, ClaimsAgain);
      AtMostOneFramePerKey(config, now, events[..|events| - 1]);
      RunKeeps(config, now, events[..|events| - 1]);
      FramesBreakIff(w, events[|events| - 1]);
      if SendsAgain(w, events[|events| - 1]) {
        SendingAgainClaimsAgain(w, events[|events| - 1]);
      }
    }
  }

  lemma ClaimingAgainUsesId(w: World, e: Event)
    requires RowsOwned(w.desk.requests, w.desk.calls)
    ensures ClaimsAgain(w, e) ==> Used(w.desk.calls, RequestId(e.command))
  {
    if ClaimsAgain(w, e) {
      var row := w.desk.requests[KeyOf(e.command)];
      assert Owned(KeyOf(e.command), row, w.desk.calls);
      assert RequestId(w.desk.calls[row.owner].command) == row.requestId;
    }
  }

  /** When no request id is brought twice, no start claims a row again. */
  lemma {:induction false} DistinctIdsClaimOnce(config: Hub.Config, now: int, events: seq<Event>)
    requires DistinctRequestIds(events)
    ensures Never(config, now, events, ClaimsAgain)
  {
    forall k | 0 <= k < |events| ensures !ClaimsAgain(Run(config, now, events[..k]), events[k]) {
      if events[k].Start? {
        RunKeeps(config, now, events[..k]);
        assert events[..k + 1][..k] == events[..k];
        NextIdUnused(config, now, events[..k + 1]);
        ClaimingAgainUsesId(Run(config, now, events[..k]), events[k]);
      }
    }
  }

  // -------------------------------------------------------------------- later calls under one key

  /** What a later call under a claimed key is told, by the row it finds. */
  ghost predicate Told(row: Row, call: Call) {
    || (call.claim.Unclaimed? && call.phase.Ended? && call.phase.outcome.Raised?)
    || (call.claim.Conflict? && call.digest.Some? && call.digest.value != row.digest
        && call.phase == Ended(Raised("idempotency_conflict")))
    || (call.claim.Busy? && call.digest == Some(row.digest) && row.state.Pending?
        && call.phase == Ended(Raised("request_pending")))
    || (call.claim.Replay? && call.digest == Some(row.digest) && !row.state.Pending?
        && call.phase == Ended(Returned(row.state.reply)))
  }

  lemma SubmitUnderClaimedKey(d: Desk, command: Command, g: string, digest: Digest)
    requires KeyOf(command) in d.requests && d.requests[KeyOf(command)].requestId != RequestId(command)
    ensures var d' := Submit(d, command, g, digest);
      && d'.sent == d.sent && d'.requests == d.requests && d'.inFlight == d.inFlight && d'.pending == d.pending
      && Told(d.requests[KeyOf(command)], d'.calls[|d.calls|])
  {
  }

  /** A call under a claimed key with another request id sends nothing and changes no row: it is
      refused before the claim, or told of the conflict, the pending call or the stored result. */
  lemma LaterCallsSendNothing(w: World, command: Command, picked: Option<string>)
    requires KeyOf(command) in w.desk.requests && w.desk.requests[KeyOf(command)].requestId != RequestId(command)
    ensures var d' := StartStep(w, command, picked).desk;
      && d'.sent == w.desk.sent && d'.requests == w.desk.requests && d'.inFlight == w.desk.inFlight
      && (|d'.calls| > |w.desk.calls| ==> Told(w.desk.requests[KeyOf(command)], d'.calls[|w.desk.calls|]))
  {
    ReachingClaimSubmits(w, command, picked);
    if ReachesClaim(w, command, picked) {
      SubmitUnderClaimedKey(w.desk, command, Target(w, command, picked), DigestOf(w, command, picked));
    }
  }

  // ------------------------------------------------------------------------------ keys that are stuck

  /** The row is pending, and every call that claimed it has ended: refused by the guard or lost. */
  ghost predicate Stuck(d: Desk, key: RequestKey) {
    && key in d.requests && d.requests[key].state.Pending?
    && forall c :: 0 <= c < |d.calls| && Claims(d.calls[c], key) ==> !Live(d.calls[c])
  }

  /** The start is sent under this key, by bringing the request id that claimed the row once more. */
  predicate Revives(w: World, e: Event, key: RequestKey) {
    ClaimsAgain(w, e) && KeyOf(e.command) == key && SlotFree(w.desk.inFlight, e.command)
  }

  lemma FadingKeepsStuck(d: Desk, d': Desk, key: RequestKey)
    requires Stuck(d, key) && Fades(d, d')
    ensures Stuck(d', key)
  {
    assert forall c :: 0 <= c < |d.calls| ==> FadesTo(d.calls[c], d'.calls[c]);
  }

  lemma FinishingKeepsStuck(d: Desk, d': Desk, c: nat, key: RequestKey)
    requires Stuck(d, key) && ClaimsHold(d.calls, d.requests) && Finishes(d, d', c)
    ensures Stuck(d', key)
  {
    assert ClaimHolds(d.calls[c], d.requests);
  }

  lemma ClaimingBreaksStuckIff(d: Desk, d': Desk, command: Command, g: string, digest: Digest, key: RequestKey)
    requires Stuck(d, key) && Claimed(d, d', command, g, digest)
    ensures !Stuck(d', key) <==> KeyOf(command) == key && SlotFree(d.inFlight, command)
  {
    assert d'.calls[|d.calls|] == Claimant(d, command, g, digest);
    assert forall c :: 0 <= c < |d.calls| ==> d'.calls[c] == d.calls[c];
  }

  lemma StartBreaksStuckIff(w: World, e: Event, key: RequestKey)
    requires Stuck(w.desk, key) && e.Start?
    ensures !Stuck(StartStep(w, e.command, e.picked).desk, key) <==> Revives(w, e, key)
  {
    StartShape(w, e.command, e.picked);
    if ClaimsRow(w, e.command, e.picked) {
      ClaimingBreaksStuckIff(w.desk, StartStep(w, e.command, e.picked).desk, e.command,
                             Target(w, e.command, e.picked), DigestOf(w, e.command, e.picked), key);
    }
  }

  /** Exactly which events release a stuck key. */
  lemma StuckBreaksIff(w: World, e: Event, key: RequestKey)
    requires Stuck(w.desk, key) && ClaimsHold(w.desk.calls, w.desk.requests)
    ensures !Stuck(Apply(w, e).desk, key) <==> Revives(w, e, key)
  {
    if e.Start? {
      StartBreaksStuckIff(w, e, key);
    } else if c :| Concludes(w.desk, e, c) {
      ConcludingShape(w, e, c);
      FinishingKeepsStuck(w.desk, Apply(w, e).desk, c, key);
    } else {
      OthersFade(w, e);
      FadingKeepsStuck(w.desk, Apply(w, e).desk, key);
    }
  }

  /** No start of the continuation `more` is sent under the stuck key. */
  ghost predicate NeverRevived(config: Hub.Config, now: int, events: seq<Event>, more: seq<Event>, key: RequestKey) {
    forall k :: 0 <= k < |more| ==> !Revives(Run(config, now, events + more[..k]), more[k], key)
  }

  lemma NeverRevivedBefore(config: Hub.Config, now: int, events: seq<Event>, more: seq<Event>, key: RequestKey)
    requires more != [] && NeverRevived(config, now, events, more, key)
    ensures NeverRevived(config, now, events, more[..|more| - 1], key)
    ensures !Revives(Run(config, now, events + more[..|more| - 1]), more[|more| - 1], key)
  {
    var init := more[..|more| - 1];
    forall k | 0 <= k < |init| ensures !Revives(Run(config, now, events + init[..k]), init[k], key) {
      assert init[..k] == more[..k] && init[k] == more[k];
    }
  }

  /** A stuck key is stuck for good, restarts included, until its own request id is sent again. */
  lemma {:induction false} StuckForGood(config: Hub.Config, now: int, events: seq<Event>, more: seq<Event>, key: RequestKey)
    requires NeverRevived(config, now, events, more, key)
    ensures Stuck(Run(config, now, events).desk, key) ==> Stuck(Run(config, now, events + more).desk, key)
    decreases |more|
  {
    if more == [] {
      assert events + more == events;
    } else {
      var init := more[..|more| - 1];
      NeverRevivedBefore(config, now, events, more, key);
      StuckForGood(config, now, events, init, key);
      RunSplits(config, now, events, more);
      RunKeeps(config, now, events + init);
      if Stuck(Run(config, now, events + init).desk, key) {
        StuckBreaksIff(Run(config, now, events + init), more[|more| - 1], key);
      }
    }
  }

  /** Every call under a stuck key with another request id is over at once: refused before the claim,
      or told of the conflict or of the pending request. It is never sent and never answered. */
  lemma StuckKeyRefuses(w: World, command: Command, picked: Option<string>)
    requires Stuck(w.desk, KeyOf(command)) && w.desk.requests[KeyOf(command)].requestId != RequestId(command)
    ensures var d' := StartStep(w, command, picked).desk;
      && d'.sent == w.desk.sent && d'.requests == w.desk.requests
      && (|d'.calls| > |w.desk.calls| ==>
            var call := d'.calls[|w.desk.calls|];
            && call.phase.Ended? && call.phase.outcome.Raised? && !call.claim.New? && !call.claim.Replay?
            && (call.claim.Conflict? ==> call.phase.outcome.code == "idempotency_conflict")
            && (call.claim.Busy? ==> call.phase.outcome.code == "request_pending"))
  {
    LaterCallsSendNothing(w, command, picked);
  }

  /** Exactly when a claimed key is sent again: the table answers "new" to the request id that
      claimed the row, whether or not the row is settled, so the call that brings this id once more
      is sent once more unless its collision slot is taken. */
  lemma ClaimedKeySentAgainIff(w: World, command: Command, picked: Option<string>)
    requires KeyOf(command) in w.desk.requests
    ensures ReachesClaim(w, command, picked) ==>
            (StartStep(w, command, picked).desk.sent != w.desk.sent <==>
             (&& w.desk.requests[KeyOf(command)].requestId == RequestId(command)
              && SlotFree(w.desk.inFlight, command)))
  {
    StartShape(w, command, picked);
  }
}
