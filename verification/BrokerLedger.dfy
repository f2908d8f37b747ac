/** The idempotency table as a ledger of the calls that claimed its rows, whatever request ids the
    callers bring. */
module BrokerLedger {
  import opened Basics
  import opened Broker
  import opened BrokerInvariants
  import opened BrokerShapes
  import opened BrokerHistory
  import Hub

  // ---------------------------------------------------------------------------------- the ledger

  /** A pending row was claimed by unsettled calls only; a settled row holds what one of the calls
      that claimed it was told. */
  ghost predicate RowTells(key: RequestKey, row: Row, calls: seq<Call>) {
    if row.state.Pending? then forall c :: 0 <= c < |calls| && Claims(calls[c], key) ==> Unsettled(calls[c])
    else
      && row.state.settler < |calls|
      && Claims(calls[row.state.settler], key)
      && calls[row.state.settler].phase.Ended?
      && Tells(row.state, calls[row.state.settler].phase.outcome, row.state.settler)
  }

  ghost predicate Ledger(requests: map<RequestKey, Row>, calls: seq<Call>) {
    forall key :: key in requests ==> RowTells(key, requests[key], calls)
  }

  lemma FadingKeepsLedger(d: Desk, d': Desk)
    requires Ledger(d.requests, d.calls) && Fades(d, d')
    ensures Ledger(d'.requests, d'.calls)
  {
    assert forall c :: 0 <= c < |d.calls| ==> FadesTo(d.calls[c], d'.calls[c]);
    forall key | key in d.requests ensures RowTells(key, d.requests[key], d'.calls) {
      assert RowTells(key, d.requests[key], d.calls);
    }
  }

  lemma DecliningKeepsLedger(d: Desk, d': Desk)
    requires Ledger(d.requests, d.calls) && Declined(d, d')
    ensures Ledger(d'.requests, d'.calls)
  {
    forall key | key in d.requests ensures RowTells(key, d.requests[key], d'.calls) {
      assert RowTells(key, d.requests[key], d.calls);
    }
  }

  lemma ClaimingKeepsLedger(d: Desk, d': Desk, command: Command, g: string, digest: Digest)
    requires Ledger(d.requests, d.calls) && ClaimsHold(d.calls, d.requests) && Claimed(d, d', command, g, digest)
    ensures Ledger(d'.requests, d'.calls)
  {
    forall key | key in d'.requests ensures RowTells(key, d'.requests[key], d'.calls) {
      assert forall c :: 0 <= c < |d.calls| && Claims(d.calls[c], key) ==> ClaimHolds(d.calls[c], d.requests);
      assert key in d.requests ==> RowTells(key, d.requests[key], d.calls);
    }
  }

  lemma FinishingKeepsLedger(d: Desk, d': Desk, c: nat)
    requires Ledger(d.requests, d.calls) && ClaimsHold(d.calls, d.requests) && Finishes(d, d', c)
    ensures Ledger(d'.requests, d'.calls)
  {
    var outcome, state :| Tells(state, outcome, c) && d' == Finish(d, c, outcome, state);
    assert ClaimHolds(d.calls[c], d.requests);
    forall key | key in d'.requests ensures RowTells(key, d'.requests[key], d'.calls) {
      assert RowTells(key, d.requests[key], d.calls);
    }
  }

  /** Every event keeps the ledger. */
  lemma ApplyLedger(w: World, e: Event)
    requires ClaimsHold(w.desk.calls, w.desk.requests) && Ledger(w.desk.requests, w.desk.calls)
    ensures Ledger(Apply(w, e).desk.requests, Apply(w, e).desk.calls)
  {
    if e.Start? {
      StartLedger(w, e.command, e.picked);
    } else if c :| Concludes(w.desk, e, c) {
      ConcludingShape(w, e, c);
      FinishingKeepsLedger(w.desk, Apply(w, e).desk, c);
    } else {
      OthersFade(w, e);
      FadingKeepsLedger(w.desk, Apply(w, e).desk);
    }
  }

  lemma StartLedger(w: World, command: Command, picked: Option<string>)
    requires ClaimsHold(w.desk.calls, w.desk.requests) && Ledger(w.desk.requests, w.desk.calls)
    ensures var d' := StartStep(w, command, picked).desk; Ledger(d'.requests, d'.calls)
  {
    StartShape(w, command, picked);
    var d' := StartStep(w, command, picked).desk;
    if ClaimsRow(w, command, picked) {
      ClaimingKeepsLedger(w.desk, d', command, Target(w, command, picked), DigestOf(w, command, picked));
    } else if d' != w.desk {
      DecliningKeepsLedger(w.desk, d');
    }
  }

  /** The ledger is right after every run. */
  lemma {:induction false} RunLedger(config: Hub.Config, now: int, events: seq<Event>)
    ensures var d := Run(config, now, events).desk; Ledger(d.requests, d.calls)
  {
    if events != [] {
      var init := events[..|events| - 1];
      RunLedger(config, now, init);
      RunKeeps(config, now, init);
      ApplyLedger(Run(config, now, init), events[|events| - 1]);
    }
  }

  // -------------------------------------------------------------------------------- pending rows

  /** A key has a row exactly if some call claimed it, and the row is pending exactly while every
      call that claimed it is unsettled. */
  ghost predicate PendingUntilConcluded(requests: map<RequestKey, Row>, calls: seq<Call>) {
    && (forall key :: key in requests <==> exists c :: 0 <= c < |calls| && Claims(calls[c], key))
    && (forall key :: key in requests ==>
          (requests[key].state.Pending? <==>
           forall c :: 0 <= c < |calls| && Claims(calls[c], key) ==> Unsettled(calls[c])))
  }

  lemma LedgerTellsPending(requests: map<RequestKey, Row>, calls: seq<Call>)
    requires ClaimsHold(calls, requests) && RowsOwned(requests, calls) && Ledger(requests, calls)
    ensures PendingUntilConcluded(requests, calls)
  {
    forall key ensures key in requests <==> exists c :: 0 <= c < |calls| && Claims(calls[c], key) {
      if key in requests {
        assert Owned(key, requests[key], calls);
        assert Claims(calls[requests[key].owner], key);
      }
    }
    forall key | key in requests
      ensures requests[key].state.Pending? <==>
              forall c :: 0 <= c < |calls| && Claims(calls[c], key) ==> Unsettled(calls[c])
    {
      assert RowTells(key, requests[key], calls);
    }
  }

  /** Over every run, whatever request ids callers bring. */
  lemma {:induction false} PendingRowsExactly(config: Hub.Config, now: int, events: seq<Event>)
    ensures PendingUntilConcluded(Run(config, now, events).desk.requests, Run(config, now, events).desk.calls)
  {
    RunKeeps(config, now, events);
    RunLedger(config, now, events);
    var d := Run(config, now, events).desk;
    LedgerTellsPending(d.requests, d.calls);
  }

  // ---------------------------------------------------------------- unsettled calls on settled rows

  /** The row of the call is pending. */
  predicate RowPending(call: Call, requests: map<RequestKey, Row>) {
    KeyOf(call.command) in requests && requests[KeyOf(call.command)].state.Pending?
  }

  /** Every unsettled call has a pending row. */
  ghost predicate UnsettledPending(d: Desk) {
    forall c :: 0 <= c < |d.calls| && Unsettled(d.calls[c]) ==> RowPending(d.calls[c], d.requests)
  }

  /** The start claims a row that is settled already, by bringing the id that claimed it once more. */
  predicate ClaimsSettled(w: World, e: Event) {
    && e.Start? && ClaimsRow(w, e.command, e.picked)
    && KeyOf(e.command) in w.desk.requests && !w.desk.requests[KeyOf(e.command)].state.Pending?
  }

  /** A call concludes while another call that claimed the same row is unsettled. */
  ghost predicate ConcludesFirst(w: World, e: Event) {
    exists c: nat, x: nat :: Concludes(w.desk, e, c) && x != c && x < |w.desk.calls| && Unsettled(w.desk.calls[x])
                             && KeyOf(w.desk.calls[x].command) == KeyOf(w.desk.calls[c].command)
  }

  lemma FadingKeepsPending(d: Desk, d': Desk)
    requires UnsettledPending(d) && Fades(d, d')
    ensures UnsettledPending(d')
  {
    forall c | 0 <= c < |d'.calls| && Unsettled(d'.calls[c]) ensures RowPending(d'.calls[c], d'.requests) {
      assert FadesTo(d.calls[c], d'.calls[c]);
    }
  }

  lemma ClaimingBreaksPendingIff(d: Desk, d': Desk, command: Command, g: string, digest: Digest)
    requires UnsettledPending(d) && Claimed(d, d', command, g, digest)
    ensures !UnsettledPending(d') <==> KeyOf(command) in d.requests && !d.requests[KeyOf(command)].state.Pending?
  {
    var n := |d.calls|;
    assert d'.calls[n] == Claimant(d, command, g, digest) && Unsettled(d'.calls[n]);
    forall c | 0 <= c < n && Unsettled(d'.calls[c]) ensures RowPending(d'.calls[c], d'.requests) {
      assert RowPending(d.calls[c], d.requests);
    }
  }

  lemma FinishingBreaksPendingIff(d: Desk, d': Desk, c: nat)
    requires UnsettledPending(d) && ClaimsHold(d.calls, d.requests) && Finishes(d, d', c)
    ensures !UnsettledPending(d') <==>
            exists x :: x != c && 0 <= x < |d.calls| && Unsettled(d.calls[x])
                        && KeyOf(d.calls[x].command) == KeyOf(d.calls[c].command)
  {
    var outcome, state :| Tells(state, outcome, c) && d' == Finish(d, c, outcome, state);
    assert ClaimHolds(d.calls[c], d.requests);
    assert RowPending(d.calls[c], d.requests) && !RowPending(d.calls[c], d'.requests);
    if x :| x != c && 0 <= x < |d.calls| && Unsettled(d.calls[x]) && KeyOf(d.calls[x].command) == KeyOf(d.calls[c].command) {
      assert d'.calls[x] == d.calls[x] && !RowPending(d'.calls[x], d'.requests);
    }
  }

  lemma StartBreaksPendingIff(w: World, e: Event)
    requires UnsettledPending(w.desk) && e.Start?
    ensures !UnsettledPending(Apply(w, e).desk) <==> ClaimsSettled(w, e)
  {
    var d' := StartStep(w, e.command, e.picked).desk;
    StartShape(w, e.command, e.picked);
    if ClaimsRow(w, e.command, e.picked) {
      ClaimingBreaksPendingIff(w.desk, d', e.command, Target(w, e.command, e.picked), DigestOf(w, e.command, e.picked));
    } else {
      assert forall c :: 0 <= c < |d'.calls| && Unsettled(d'.calls[c]) ==> c < |w.desk.calls| && d'.calls[c] == w.desk.calls[c];
    }
  }

  /** Exactly which events leave an unsettled call on a settled row. */
  lemma PendingBreaksIff(w: World, e: Event)
    requires UnsettledPending(w.desk) && ClaimsHold(w.desk.calls, w.desk.requests)
    ensures !UnsettledPending(Apply(w, e).desk) <==> ClaimsSettled(w, e) || ConcludesFirst(w, e)
  {
    if e.Start? {
      StartBreaksPendingIff(w, e);
    } else if c :| Concludes(w.desk, e, c) {
      ConcludingShape(w, e, c);
      FinishingBreaksPendingIff(w.desk, Apply(w, e).desk, c);
      assert forall y :: Concludes(w.desk, e, y) ==> y == c;
    } else {
      OthersFade(w, e);
      FadingKeepsPending(w.desk, Apply(w, e).desk);
    }
  }

  ghost predicate PendingBreaks(w: World, e: Event) {
    ClaimsSettled(w, e) || ConcludesFirst(w, e)
  }

  /** Exactly the runs that never leave an unsettled call on a settled row. */
  lemma {:induction false} UnsettledPendingIff(config: Hub.Config, now: int, events: seq<Event>)
    ensures Throughout(config, now, events, (w: World) => UnsettledPending(w.desk)) <==>
            Never(config, now, events, (w, e) => PendingBreaks(w, e))
  {
    var good := (w: World) => UnsettledPending(w.desk);
    var bad := (w, e) => PendingBreaks(w, e);
    forall k | 0 <= k < |events| && good(Run(config, now, events[..k]))
      ensures bad(Run(config, now, events[..k]), events[k]) <==> !good(Run(config, now, events[..k + 1]))
    {
      RunKeeps(config, now, events[..k]);
      RunTakes(config, now, events, k);
      PendingBreaksIff(Run(config, now, events[..k]), events[k]);
    }
    ThroughoutIff(config, now, events, good, bad);
  }

  // -------------------------------------------------------------------------- one claim per row

  ghost predicate OneClaimPerKey(calls: seq<Call>) {
    forall c, d :: 0 <= c < d < |calls| && calls[c].claim.New? && calls[d].claim.New? ==>
      KeyOf(calls[c].command) != KeyOf(calls[d].command)
  }

  /** The start claims a row that exists, by bringing the id that claimed it once more. */
  predicate ClaimsAgain(w: World, e: Event) {
    e.Start? && ClaimsRow(w, e.command, e.picked) && KeyOf(e.command) in w.desk.requests
  }

  lemma FadingKeepsClaims(d: Desk, d': Desk)
    requires OneClaimPerKey(d.calls) && Fades(d, d')
    ensures OneClaimPerKey(d'.calls)
  {
    assert forall c :: 0 <= c < |d.calls| ==> FadesTo(d.calls[c], d'.calls[c]);
  }

  lemma ClaimingBreaksClaimsIff(d: Desk, d': Desk, command: Command, g: string, digest: Digest)
    requires OneClaimPerKey(d.calls) && ClaimsHold(d.calls, d.requests) && RowsOwned(d.requests, d.calls)
    requires Claimed(d, d', command, g, digest)
    ensures !OneClaimPerKey(d'.calls) <==> KeyOf(command) in d.requests
  {
    var n := |d.calls|;
    var key := KeyOf(command);
    assert d'.calls[n] == Claimant(d, command, g, digest) && Claims(d'.calls[n], key);
    if key in d.requests {
      assert Owned(key, d.requests[key], d.calls);
      assert Claims(d'.calls[d.requests[key].owner], key);
    } else {
      assert forall c :: 0 <= c < n ==> ClaimHolds(d.calls[c], d.requests);
    }
  }

  lemma FinishingKeepsClaims(d: Desk, d': Desk, c: nat)
    requires OneClaimPerKey(d.calls) && Finishes(d, d', c)
    ensures OneClaimPerKey(d'.calls)
  {
  }

  lemma StartBreaksClaimsIff(w: World, command: Command, picked: Option<string>)
    requires OneClaimPerKey(w.desk.calls)
    requires ClaimsHold(w.desk.calls, w.desk.requests) && RowsOwned(w.desk.requests, w.desk.calls)
    ensures !OneClaimPerKey(StartStep(w, command, picked).desk.calls) <==>
            ClaimsRow(w, command, picked) && KeyOf(command) in w.desk.requests
  {
    StartShape(w, command, picked);
    if ClaimsRow(w, command, picked) {
      ClaimingBreaksClaimsIff(w.desk, StartStep(w, command, picked).desk, command, Target(w, command, picked), DigestOf(w, command, picked));
    }
  }

  /** Exactly which events let a second call claim a row. */
  lemma ClaimsBreakIff(w: World, e: Event)
    requires OneClaimPerKey(w.desk.calls)
    requires ClaimsHold(w.desk.calls, w.desk.requests) && RowsOwned(w.desk.requests, w.desk.calls)
    ensures !OneClaimPerKey(Apply(w, e).desk.calls) <==> ClaimsAgain(w, e)
  {
    if e.Start? {
      StartBreaksClaimsIff(w, e.command, e.picked);
    } else if c :| Concludes(w.desk, e, c) {
      ConcludingShape(w, e, c);
      FinishingKeepsClaims(w.desk, Apply(w, e).desk, c);
    } else {
      OthersFade(w, e);
      FadingKeepsClaims(w.desk, Apply(w, e).desk);
    }
  }

  /** Exactly the runs in which every row is claimed by one call. */
  lemma {:induction false} OneClaimPerKeyIff(config: Hub.Config, now: int, events: seq<Event>)
    ensures Throughout(config, now, events, (w: World) => OneClaimPerKey(w.desk.calls)) <==>
            Never(config, now, events, ClaimsAgain)
  {
    var good := (w: World) => OneClaimPerKey(w.desk.calls);
    forall k | 0 <= k < |events| && good(Run(config, now, events[..k]))
      ensures ClaimsAgain(Run(config, now, events[..k]), events[k]) <==> !good(Run(config, now, events[..k + 1]))
    {
      RunKeeps(config, now, events[..k]);
      RunTakes(config, now, events, k);
      ClaimsBreakIff(Run(config, now, events[..k]), events[k]);
    }
    ThroughoutIff(config, now, events, good, ClaimsAgain);
  }
}
