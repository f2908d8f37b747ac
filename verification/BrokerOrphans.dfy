/** No call is forgotten: every call that still waits is on file with the session that can answer
    it, and exactly which events take one off file. */
module BrokerOrphans {
  import opened Basics
  import opened Broker
  import opened BrokerInvariants
  import opened BrokerShapes
  import opened BrokerHistory
  import Hub

  /** The call is in progress and its future is open. */
  predicate Open(call: Call) {
    Live(call) && call.future.Unresolved?
  }

  /** Every open call is filed under its own slot. */
  ghost predicate OpenOnFile(calls: seq<Call>, pending: map<Slot, nat>) {
    forall c :: 0 <= c < |calls| && Open(calls[c]) ==> Maps(pending, SlotOf(calls[c]), c)
  }

  // ------------------------------------------------------------ events that neither start nor end a call

  /** What is live was live, and what was on file and is still open is on file. */
  ghost predicate Narrows(d: Desk, d': Desk) {
    |d'.calls| == |d.calls| && forall c :: 0 <= c < |d.calls| && Live(d'.calls[c]) ==>
      && Live(d.calls[c]) && SlotOf(d'.calls[c]) == SlotOf(d.calls[c])
      && (Open(d'.calls[c]) ==>
            Open(d.calls[c]) && (Maps(d.pending, SlotOf(d.calls[c]), c) ==> Maps(d'.pending, SlotOf(d.calls[c]), c)))
  }

  lemma FailPendingNarrows(d: Desk, g: string)
    ensures Narrows(d, FailPending(d, g))
  {
    var d' := FailPending(d, g);
    forall c | 0 <= c < |d.calls| && Maps(d.pending, SlotOf(d.calls[c]), c)
      ensures d'.calls[c].future.Unresolved? ==> Maps(d'.pending, SlotOf(d.calls[c]), c)
    {
      assert d.calls[c].session == g ==> FiledIn(d.calls, d.pending, g, c);
    }
  }

  lemma ResolveNarrows(d: Desk, c: nat, future: Future)
    requires c < |d.calls| && !future.Unresolved?
    ensures Narrows(d, Resolve(d, c, future))
  {
  }

  lemma SendDoneNarrows(d: Desk, c: nat)
    ensures Narrows(d, SendDoneStep(d, c))
  {
  }

  lemma TimerNarrows(d: Desk, c: nat, cancels: bool)
    ensures Narrows(d, TimerStep(d, c, cancels))
  {
  }

  lemma CancelNarrows(d: Desk, c: nat)
    ensures Narrows(d, CancelResolveStep(d, c))
  {
  }

  lemma RespondNarrows(w: World, e: Event)
    requires e.Respond?
    ensures Narrows(w.desk, Apply(w, e).desk)
  {
    var slot := Slot(e.generation, e.requestId);
    if slot in w.desk.pending && w.desk.pending[slot] < |w.desk.calls| {
      ResolveNarrows(w.desk, w.desk.pending[slot], Resolved(ReplyOf(e.status, e.payload, e.bytes)));
    }
  }

  lemma HubEventNarrows(w: World, e: Hub.Event)
    ensures Narrows(w.desk, DeskAfter(w, e))
  {
    match e
    case Authenticate(_, _, _, connector, _, _, _) =>
      if connector in w.hub.registered {
        FailPendingNarrows(w.desk, w.hub.registered[connector]);
      }
    case Teardown(g) => FailPendingNarrows(w.desk, g);
    case Restart =>
    case _ =>
  }

  lemma OthersNarrow(w: World, e: Event)
    requires !e.Start? && forall c: nat :: !Ends(w.desk, e, c)
    ensures Narrows(w.desk, Apply(w, e).desk)
  {
    match e
    case HubEvent(event) => HubEventNarrows(w, event);
    case SendDone(c) => SendDoneNarrows(w.desk, c);
    case TimerFires(c, cancels) => TimerNarrows(w.desk, c, cancels);
    case CancelResolve(c) => CancelNarrows(w.desk, c);
    case Respond(_, _, _, _, _, _) => RespondNarrows(w, e);
    case Wake(c, _) => assert !Ends(w.desk, e, c);
    case SendFails(c) => assert !Ends(w.desk, e, c);
    case Abandon(c) => assert !Ends(w.desk, e, c);
    case CancelSend(_, _, _) =>
  }

  // -------------------------------------------------------------------------------- ending a call

  /** Call `c` is over and popped the entry of its slot, whoever is filed there. */
  ghost predicate Pops(d: Desk, d': Desk, c: nat) {
    && c < |d.calls| == |d'.calls| && Live(d.calls[c]) && !Live(d'.calls[c])
    && (forall x :: 0 <= x < |d.calls| && x != c ==> d'.calls[x] == d.calls[x])
    && d'.pending == d.pending - {SlotOf(d.calls[c])}
  }

  lemma FinishPops(d: Desk, d': Desk, c: nat)
    requires Finishes(d, d', c)
    ensures Pops(d, d', c)
  {
  }

  lemma AbandonPops(d: Desk, c: nat)
    requires c < |d.calls| && Live(d.calls[c])
    ensures Pops(d, AbandonStep(d, c), c)
  {
  }

  lemma EndingPops(w: World, e: Event, c: nat)
    requires Ends(w.desk, e, c)
    ensures Pops(w.desk, Apply(w, e).desk, c)
  {
    if Concludes(w.desk, e, c) {
      ConcludingShape(w, e, c);
      FinishPops(w.desk, Apply(w, e).desk, c);
    } else {
      AbandonPops(w.desk, c);
    }
  }

  /** Another call is open in the slot of call `c`. */
  ghost predicate SharesSlot(calls: seq<Call>, c: nat)
    requires c < |calls|
  {
    exists x :: 0 <= x < |calls| && x != c && Open(calls[x]) && SlotOf(calls[x]) == SlotOf(calls[c])
  }

  lemma PoppingDisplacesIff(d: Desk, d': Desk, c: nat)
    requires OpenOnFile(d.calls, d.pending) && Pops(d, d', c)
    ensures !OpenOnFile(d'.calls, d'.pending) <==> SharesSlot(d.calls, c)
  {
    if SharesSlot(d.calls, c) {
      var x :| 0 <= x < |d.calls| && x != c && Open(d.calls[x]) && SlotOf(d.calls[x]) == SlotOf(d.calls[c]);
      assert Open(d'.calls[x]) && !Maps(d'.pending, SlotOf(d'.calls[x]), x);
    }
  }

  // ------------------------------------------------------------------------------- starting a call

  /** An open call sits in this slot. */
  ghost predicate OpenIn(calls: seq<Call>, slot: Slot) {
    exists c :: 0 <= c < |calls| && Open(calls[c]) && SlotOf(calls[c]) == slot
  }

  /** The slot into which a call that reaches the claim would be sent. */
  function TargetSlot(w: World, command: Command, picked: Option<string>): Slot
    requires ReachesClaim(w, command, picked)
  {
    Slot(Target(w, command, picked), RequestId(command))
  }

  lemma ClaimingDisplacesIff(d: Desk, d': Desk, command: Command, g: string, digest: Digest)
    requires OpenOnFile(d.calls, d.pending) && Claimed(d, d', command, g, digest)
    ensures !OpenOnFile(d'.calls, d'.pending) <==>
            SlotFree(d.inFlight, command) && OpenIn(d.calls, Slot(g, RequestId(command)))
  {
    assert d'.calls[|d.calls|] == Claimant(d, command, g, digest);
    assert forall c :: 0 <= c < |d.calls| ==> d'.calls[c] == d.calls[c];
    if SlotFree(d.inFlight, command) && OpenIn(d.calls, Slot(g, RequestId(command))) {
      var c :| 0 <= c < |d.calls| && Open(d.calls[c]) && SlotOf(d.calls[c]) == Slot(g, RequestId(command));
      assert !Maps(d'.pending, SlotOf(d'.calls[c]), c);
    }
  }

  lemma StartDisplacesIff(w: World, command: Command, picked: Option<string>)
    requires OpenOnFile(w.desk.calls, w.desk.pending)
    ensures var d' := StartStep(w, command, picked).desk;
      !OpenOnFile(d'.calls, d'.pending) <==>
      Sends(w, command, picked) && OpenIn(w.desk.calls, TargetSlot(w, command, picked))
  {
    StartShape(w, command, picked);
    if ClaimsRow(w, command, picked) {
      ClaimingDisplacesIff(w.desk, StartStep(w, command, picked).desk, command, Target(w, command, picked), DigestOf(w, command, picked));
    }
  }

  // ------------------------------------------------------------------------------ who displaces whom

  /** The event takes an open call off file: a start sent into its slot, or the end of another call
      that was in its slot before. */
  ghost predicate Displaces(w: World, e: Event) {
    || (e.Start? && Sends(w, e.command, e.picked) && OpenIn(w.desk.calls, TargetSlot(w, e.command, e.picked)))
    || (exists c: nat :: Ends(w.desk, e, c) && SharesSlot(w.desk.calls, c))
  }

  /** Exactly which events take an open call off file. */
  lemma DisplacesIff(w: World, e: Event)
    requires OpenOnFile(w.desk.calls, w.desk.pending)
    ensures !OpenOnFile(Apply(w, e).desk.calls, Apply(w, e).desk.pending) <==> Displaces(w, e)
  {
    if e.Start? {
      StartDisplacesIff(w, e.command, e.picked);
    } else if c: nat :| Ends(w.desk, e, c) {
      EndingPops(w, e, c);
      PoppingDisplacesIff(w.desk, Apply(w, e).desk, c);
      assert forall y: nat :: Ends(w.desk, e, y) ==> y == c;
    } else {
      OthersNarrow(w, e);
    }
  }

  /** Exactly the runs that keep every open call on file. */
  lemma {:induction false} OpenOnFileIff(config: Hub.Config, now: int, events: seq<Event>)
    ensures Throughout(config, now, events, (w: World) => OpenOnFile(w.desk.calls, w.desk.pending)) <==>
            Never(config, now, events, (w, e) => Displaces(w, e))
  {
    var good := (w: World) => OpenOnFile(w.desk.calls, w.desk.pending);
    var bad := (w, e) => Displaces(w, e);
    forall k | 0 <= k < |events| && good(Run(config, now, events[..k]))
      ensures bad(Run(config, now, events[..k]), events[k]) <==> !good(Run(config, now, events[..k + 1]))
    {
      RunTakes(config, now, events, k);
      DisplacesIff(Run(config, now, events[..k]), events[k]);
    }
    ThroughoutIff(config, now, events, good, bad);
  }

  // ---------------------------------------------------------------------- one live call per slot

  ghost predicate LiveSlotsDistinct(calls: seq<Call>) {
    forall c, d :: 0 <= c < d < |calls| && Live(calls[c]) && Live(calls[d]) ==> SlotOf(calls[c]) != SlotOf(calls[d])
  }

  /** A call in progress holds this slot. */
  predicate HeldSlot(calls: seq<Call>, slot: Slot) {
    exists c :: 0 <= c < |calls| && Live(calls[c]) && SlotOf(calls[c]) == slot
  }

  /** The start is sent into a slot that a call in progress holds. */
  predicate SentIntoHeldSlot(w: World, e: Event) {
    e.Start? && Sends(w, e.command, e.picked) && HeldSlot(w.desk.calls, TargetSlot(w, e.command, e.picked))
  }

  lemma ClaimingBreaksSlotsIff(d: Desk, d': Desk, command: Command, g: string, digest: Digest)
    requires LiveSlotsDistinct(d.calls) && Claimed(d, d', command, g, digest)
    ensures !LiveSlotsDistinct(d'.calls) <==>
            SlotFree(d.inFlight, command) && HeldSlot(d.calls, Slot(g, RequestId(command)))
  {
    var n := |d.calls|;
    assert d'.calls[n] == Claimant(d, command, g, digest);
    assert forall c :: 0 <= c < n ==> d'.calls[c] == d.calls[c];
    if SlotFree(d.inFlight, command) && HeldSlot(d.calls, Slot(g, RequestId(command))) {
      var c :| 0 <= c < n && Live(d.calls[c]) && SlotOf(d.calls[c]) == Slot(g, RequestId(command));
      assert SlotOf(d'.calls[c]) == SlotOf(d'.calls[n]);
    }
  }

  lemma StartBreaksSlotsIff(w: World, e: Event)
    requires LiveSlotsDistinct(w.desk.calls) && e.Start?
    ensures !LiveSlotsDistinct(StartStep(w, e.command, e.picked).desk.calls) <==> SentIntoHeldSlot(w, e)
  {
    StartShape(w, e.command, e.picked);
    if ClaimsRow(w, e.command, e.picked) {
      ClaimingBreaksSlotsIff(w.desk, StartStep(w, e.command, e.picked).desk, e.command,
                             Target(w, e.command, e.picked), DigestOf(w, e.command, e.picked));
    }
  }

  /** Exactly which events put two live calls into one slot. */
  lemma SlotsBreakIff(w: World, e: Event)
    requires LiveSlotsDistinct(w.desk.calls)
    ensures !LiveSlotsDistinct(Apply(w, e).desk.calls) <==> SentIntoHeldSlot(w, e)
  {
    if e.Start? {
      StartBreaksSlotsIff(w, e);
    } else if c: nat :| Ends(w.desk, e, c) {
      EndingPops(w, e, c);
    } else {
      OthersNarrow(w, e);
    }
  }

  lemma OwnSlotUnshared(calls: seq<Call>, c: nat)
    requires LiveSlotsDistinct(calls) && c < |calls| && Live(calls[c])
    ensures !SharesSlot(calls, c)
  {
  }

  /** While live calls have slots of their own, only a start can take a call off file. */
  lemma DistinctSlotsDisplaceByStart(w: World, e: Event)
    requires LiveSlotsDistinct(w.desk.calls) && Displaces(w, e)
    ensures SentIntoHeldSlot(w, e)
  {
    forall c: nat | Ends(w.desk, e, c) ensures !SharesSlot(w.desk.calls, c) {
      OwnSlotUnshared(w.desk.calls, c);
    }
  }

  lemma {:induction false} RunKeepsOnFile(config: Hub.Config, now: int, events: seq<Event>)
    requires Never(config, now, events, SentIntoHeldSlot)
    ensures var d := Run(config, now, events).desk; LiveSlotsDistinct(d.calls) && OpenOnFile(d.calls, d.pending)
  {
    if events != [] {
      var w, e := Run(config, now, events[..|events| - 1]), events[|events| - 1];
      NeverLast(config, now, events, SentIntoHeldSlot);
      RunKeepsOnFile(config, now, events[..|events| - 1]);
      SlotsBreakIff(w, e);
      DisplacesIff(w, e);
      if Displaces(w, e) {
        DistinctSlotsDisplaceByStart(w, e);
      }
    }
  }

  /** An open call is filed, under its own request id, in the session that is at this moment
      registered for its connector. */
  ghost predicate OpenCallsFiled(calls: seq<Call>, pending: map<Slot, nat>, registered: map<string, string>) {
    forall c :: 0 <= c < |calls| && Open(calls[c]) ==>
      && Maps(pending, SlotOf(calls[c]), c)
      && Maps(registered, calls[c].command.connector, calls[c].session)
  }

  lemma FilingLeavesNoOrphan(calls: seq<Call>, pending: map<Slot, nat>, registered: map<string, string>)
    requires OpenOnFile(calls, pending) && Filed(pending, calls, registered)
    ensures OpenCallsFiled(calls, pending, registered)
  {
  }

  /** Over every run in which no call is sent into a slot that a call in progress holds. */
  lemma {:induction false} NoCallIsOrphaned(config: Hub.Config, now: int, events: seq<Event>)
    requires Never(config, now, events, SentIntoHeldSlot)
    ensures var w := Run(config, now, events); OpenCallsFiled(w.desk.calls, w.desk.pending, w.hub.registered)
  {
    RunKeeps(config, now, events);
    RunKeepsOnFile(config, now, events);
    var w := Run(config, now, events);
    FilingLeavesNoOrphan(w.desk.calls, w.desk.pending, w.hub.registered);
  }

  // ------------------------------------------------------------------------- calls that are off file

  /** The call is open, and nobody who answers for its session would find it. */
  ghost predicate OffFile(d: Desk, c: nat) {
    c < |d.calls| && Open(d.calls[c]) && !Maps(d.pending, SlotOf(d.calls[c]), c)
  }

  /** All that can still resolve a call off file: its own timer, the cancellation of its own task,
      and a cancel that was under way already. */
  predicate LastResort(e: Event, c: nat) {
    || (e.TimerFires? && e.call == c && e.cancels)
    || (e.Abandon? && e.call == c)
    || (e.CancelResolve? && e.call == c)
  }

  lemma FailPendingSparesOffFile(d: Desk, g: string, c: nat)
    requires OffFile(d, c)
    ensures OffFile(FailPending(d, g), c)
  {
  }

  lemma HubEventSparesOffFile(w: World, e: Hub.Event, c: nat)
    requires OffFile(w.desk, c)
    ensures !e.Restart? ==> OffFile(DeskAfter(w, e), c)
    ensures DeskAfter(w, e).calls[c].future == w.desk.calls[c].future
  {
    match e
    case Authenticate(_, _, _, connector, _, _, _) =>
      if connector in w.hub.registered {
        FailPendingSparesOffFile(w.desk, w.hub.registered[connector], c);
      }
    case Teardown(g) => FailPendingSparesOffFile(w.desk, g, c);
    case _ =>
  }

  lemma ResponseSparesOffFile(w: World, e: Event, c: nat)
    requires OffFile(w.desk, c) && e.Respond? && Filed(w.desk.pending, w.desk.calls, w.hub.registered)
    ensures OffFile(Apply(w, e).desk, c)
  {
    var slot := Slot(e.generation, e.requestId);
    if slot in w.desk.pending {
      assert FiledRight(slot, w.desk.pending[slot], w.desk.calls, w.hub.registered);
    }
  }

  lemma StartSparesOffFile(w: World, e: Event, c: nat)
    requires OffFile(w.desk, c) && e.Start?
    ensures OffFile(StartStep(w, e.command, e.picked).desk, c)
  {
    StartShape(w, e.command, e.picked);
  }

  lemma EndSparesOffFile(w: World, e: Event, x: nat, c: nat)
    requires OffFile(w.desk, c) && Ends(w.desk, e, x) && x != c
    ensures OffFile(Apply(w, e).desk, c)
  {
    EndingPops(w, e, x);
  }

  lemma WaitingSparesOffFile(d: Desk, x: nat, cancels: bool, c: nat)
    requires OffFile(d, c)
    ensures OffFile(SendDoneStep(d, x), c)
    ensures x != c || !cancels ==> OffFile(TimerStep(d, x, cancels), c)
    ensures x != c ==> OffFile(CancelResolveStep(d, x), c)
  {
  }

  lemma OthersSpareOffFile(w: World, e: Event, c: nat)
    requires OffFile(w.desk, c) && Filed(w.desk.pending, w.desk.calls, w.hub.registered)
    requires !LastResort(e, c) && !e.HubEvent? && !e.Start? && forall x: nat :: !Ends(w.desk, e, x)
    ensures OffFile(Apply(w, e).desk, c)
  {
    match e
    case Respond(_, _, _, _, _, _) => ResponseSparesOffFile(w, e, c);
    case SendDone(x) => WaitingSparesOffFile(w.desk, x, false, c);
    case TimerFires(x, cancels) => WaitingSparesOffFile(w.desk, x, cancels, c);
    case CancelResolve(x) => WaitingSparesOffFile(w.desk, x, false, c);
    case Wake(x, _) => assert !Ends(w.desk, e, x);
    case SendFails(x) => assert !Ends(w.desk, e, x);
    case Abandon(x) => assert !Ends(w.desk, e, x);
    case CancelSend(_, _, _) =>
  }

  /** An open call off file stays open and off file under every event but its last resorts, the
      failure of its own write, and a restart. In particular no response and no loss of a connection
      reaches it. */
  lemma OffFileStays(w: World, e: Event, c: nat)
    requires Inv(w) && OffFile(w.desk, c)
    ensures OffFile(Apply(w, e).desk, c) || LastResort(e, c) || e == SendFails(c) || e == HubEvent(Hub.Restart)
  {
    if e.HubEvent? {
      HubEventSparesOffFile(w, e.event, c);
    } else if e.Start? {
      StartSparesOffFile(w, e, c);
    } else if x: nat :| Ends(w.desk, e, x) {
      if x != c {
        EndSparesOffFile(w, e, x, c);
      }
    } else if !LastResort(e, c) {
      OthersSpareOffFile(w, e, c);
    }
  }

  /** The same for whole continuations. */
  lemma {:induction false} OffFileForGood(config: Hub.Config, now: int, events: seq<Event>, more: seq<Event>, c: nat)
    requires forall k :: 0 <= k < |more| ==>
      !LastResort(more[k], c) && more[k] != SendFails(c) && more[k] != HubEvent(Hub.Restart)
    ensures OffFile(Run(config, now, events).desk, c) ==> OffFile(Run(config, now, events + more).desk, c)
    decreases |more|
  {
    if more == [] {
      assert events + more == events;
    } else {
      var init := more[..|more| - 1];
      OffFileForGood(config, now, events, init, c);
      RunSplits(config, now, events, more);
      RunKeeps(config, now, events + init);
      if OffFile(Run(config, now, events + init).desk, c) {
        OffFileStays(Run(config, now, events + init), more[|more| - 1], c);
      }
    }
  }
}
