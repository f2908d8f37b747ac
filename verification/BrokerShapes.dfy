/** The shapes that one event can give to the calls and the idempotency table: a call is appended,
    a call concludes and settles its row, or calls merely move on or get lost. */
module BrokerShapes {
  import opened Basics
  import opened Catalog
  import opened Broker
  import opened BrokerInvariants
  import Hub

  /** The call claimed the row of `key`. */
  predicate Claims(call: Call, key: RequestKey) {
    call.claim.New? && KeyOf(call.command) == key
  }

  /** A claiming call that has not concluded: in progress, refused by the collision guard, or lost. */
  predicate Unsettled(call: Call) {
    call.claim.New? && (Live(call) || call.phase.outcome.Lost? || call.phase.outcome == Raised("command_in_flight"))
  }

  // ------------------------------------------------------------------------------- starting a call

  /** The desk gained an ended call that claimed nothing, and is otherwise the same. */
  ghost predicate Declined(d: Desk, d': Desk) {
    && d' == d.(calls := d'.calls)
    && |d'.calls| == |d.calls| + 1 && d'.calls == d.calls + [d'.calls[|d.calls|]]
    && !d'.calls[|d.calls|].claim.New? && d'.calls[|d.calls|].phase.Ended?
  }

  /** The call that `command` adds when the table answers "new": sent, or refused by the guard. */
  function Claimant(d: Desk, command: Command, g: string, digest: Digest): Call {
    if SlotFree(d.inFlight, command) then Call(command, g, Some(digest), New, Unresolved, false, Sending)
    else Concluded(command, Some(digest), New, Raised("command_in_flight"))
  }

  /** The call claimed its row, which it found or inserted, and was sent if its slot was free. */
  ghost predicate Claimed(d: Desk, d': Desk, command: Command, g: string, digest: Digest) {
    && d'.calls == d.calls + [Claimant(d, command, g, digest)]
    && d'.requests == Insert(d.requests, KeyOf(command), Row(RequestId(command), digest, Pending, |d.calls|))
    && d'.sent == (if SlotFree(d.inFlight, command) then d.sent + [FrameFor(command, g, |d.calls|)] else d.sent)
    && d'.pending == (if SlotFree(d.inFlight, command) then d.pending[Slot(g, RequestId(command)) := |d.calls|] else d.pending)
  }

  lemma SubmitShape(d: Desk, command: Command, g: string, digest: Digest)
    ensures var d' := Submit(d, command, g, digest);
      if AnswersNew(d.requests, command) then Claimed(d, d', command, g, digest) else Declined(d, d')
  {
  }

  /** The call passes every check and the table answers "new". */
  predicate ClaimsRow(w: World, command: Command, picked: Option<string>) {
    ReachesClaim(w, command, picked) && AnswersNew(w.desk.requests, command)
  }

  /** The digest under which a call that reaches the claim is submitted. */
  function DigestOf(w: World, command: Command, picked: Option<string>): Digest
    requires ReachesClaim(w, command, picked)
  {
    DigestFor(Hub.SweepNow(w.hub), command, picked.value)
  }

  /** The session to which a call that reaches the claim would be sent. */
  function Target(w: World, command: Command, picked: Option<string>): string
    requires ReachesClaim(w, command, picked)
  {
    w.hub.registered[command.connector]
  }

  lemma ReachingClaimSubmits(w: World, command: Command, picked: Option<string>)
    ensures ReachesClaim(w, command, picked) ==>
              StartStep(w, command, picked).desk ==
              Submit(w.desk, command, Target(w, command, picked), DigestOf(w, command, picked))
    ensures !ReachesClaim(w, command, picked) ==>
              var d' := StartStep(w, command, picked).desk; d' == w.desk || Declined(w.desk, d')
  {
  }

  /** Exactly the calls that pass every check and are answered "new" claim a row. */
  lemma StartShape(w: World, command: Command, picked: Option<string>)
    ensures var d' := StartStep(w, command, picked).desk;
      if ClaimsRow(w, command, picked)
      then Claimed(w.desk, d', command, Target(w, command, picked), DigestOf(w, command, picked))
      else d' == w.desk || Declined(w.desk, d')
  {
    ReachingClaimSubmits(w, command, picked);
    if ReachesClaim(w, command, picked) {
      SubmitShape(w.desk, command, Target(w, command, picked), DigestOf(w, command, picked));
    }
  }

  // -------------------------------------------------------------------------------- ending a call

  /** The event makes call `c` conclude: its wait is over, or its frame cannot be written. */
  predicate Concludes(d: Desk, e: Event, c: nat) {
    || (e.Wake? && e.call == c && Resumes(d, c))
    || (e.SendFails? && e.call == c && c < |d.calls| && d.calls[c].phase == Sending)
  }

  /** The event makes call `c` end, concluded or lost. */
  predicate Ends(d: Desk, e: Event, c: nat) {
    Concludes(d, e, c) || (e.Abandon? && e.call == c && c < |d.calls| && Live(d.calls[c]))
  }

  /** What call `c` is told and what it leaves in its row say the same. */
  ghost predicate Tells(state: RowState, outcome: Outcome, c: nat) {
    match state
    case Pending => false
    case Completed(reply, settler) => settler == c && outcome == Returned(reply)
    case Failed(reply, settler) =>
      settler == c && outcome.Raised? && outcome.code != "command_in_flight" && reply == CodeReply(outcome.code)
  }

  ghost predicate Finishes(d: Desk, d': Desk, c: nat) {
    c < |d.calls| && Live(d.calls[c]) &&
    exists outcome, state :: Tells(state, outcome, c) && d' == Finish(d, c, outcome, state)
  }

  /** Calls move on or get lost; none concludes, and the table is the same. */
  ghost predicate Fades(d: Desk, d': Desk) {
    && d'.requests == d.requests
    && |d'.calls| == |d.calls|
    && forall c :: 0 <= c < |d.calls| ==> FadesTo(d.calls[c], d'.calls[c])
  }

  ghost predicate FadesTo(x: Call, y: Call) {
    || SameStanding(x, y)
    || (&& Live(x) && y.phase == Ended(Lost)
        && x.command == y.command && x.session == y.session && x.digest == y.digest && x.claim == y.claim)
  }

  lemma FinishShape(d: Desk, c: nat, outcome: Outcome, state: RowState)
    requires c < |d.calls| && Live(d.calls[c]) && Tells(state, outcome, c)
    ensures Finishes(d, Finish(d, c, outcome, state), c)
  {
  }

  lemma WakeShape(d: Desk, c: nat, resultWins: bool)
    requires Resumes(d, c)
    ensures Finishes(d, WakeStep(d, c, resultWins), c)
  {
    var call := d.calls[c];
    if TimesOut(call, resultWins) {
      FinishShape(d, c, Raised("device_timeout"), Failed(CodeReply("device_timeout"), c));
    } else if call.future.Broken? {
      FinishShape(d, c, Raised("device_offline"), Failed(CodeReply("device_offline"), c));
    } else if call.future.reply.bytes > RESULT_MAX_BYTES {
      FinishShape(d, c, Raised("result_too_large"), Failed(CodeReply("result_too_large"), c));
    } else {
      FinishShape(d, c, Returned(call.future.reply), Completed(call.future.reply, c));
    }
  }

  lemma SendFailsShape(d: Desk, c: nat)
    requires c < |d.calls| && d.calls[c].phase == Sending
    ensures Finishes(d, SendFailsStep(d, c), c)
  {
    FinishShape(d, c, Raised("device_offline"), Failed(CodeReply("device_offline"), c));
  }

  lemma ConcludingShape(w: World, e: Event, c: nat)
    requires Concludes(w.desk, e, c)
    ensures Finishes(w.desk, Apply(w, e).desk, c)
  {
    if e.Wake? {
      WakeShape(w.desk, c, e.resultWins);
    } else {
      SendFailsShape(w.desk, c);
    }
  }

  lemma StandingFades(d: Desk, d': Desk)
    requires Standing(d.calls, d'.calls) && d'.requests == d.requests
    ensures Fades(d, d')
  {
  }

  lemma AbandonFades(d: Desk, c: nat)
    ensures Fades(d, AbandonStep(d, c))
  {
  }

  lemma RestartFades(d: Desk)
    ensures Fades(d, RestartDesk(d))
  {
  }

  lemma HubEventFades(w: World, e: Hub.Event)
    ensures Fades(w.desk, DeskAfter(w, e))
  {
    match e
    case Authenticate(_, _, _, connector, _, _, _) =>
      if connector in w.hub.registered {
        FailPendingResolves(w.desk, w.hub.registered[connector]);
        StandingFades(w.desk, FailPending(w.desk, w.hub.registered[connector]));
      }
    case Teardown(g) =>
      FailPendingResolves(w.desk, g);
      StandingFades(w.desk, FailPending(w.desk, g));
    case Restart => RestartFades(w.desk);
    case _ =>
  }

  /** No other event lets a call conclude. */
  lemma OthersFade(w: World, e: Event)
    requires !e.Start? && forall c :: !Concludes(w.desk, e, c)
    ensures Fades(w.desk, Apply(w, e).desk)
  {
    match e
    case HubEvent(event) => HubEventFades(w, event);
    case SendDone(c) => SendDoneResolves(w.desk, c); StandingFades(w.desk, SendDoneStep(w.desk, c));
    case TimerFires(c, cancels) => TimerResolves(w.desk, c, cancels); StandingFades(w.desk, TimerStep(w.desk, c, cancels));
    case CancelResolve(c) => CancelResolveResolves(w.desk, c); StandingFades(w.desk, CancelResolveStep(w.desk, c));
    case Abandon(c) => AbandonFades(w.desk, c);
    case Respond(_, _, _, _, _, _) => RespondResolves(w, e); StandingFades(w.desk, Apply(w, e).desk);
    case Wake(c, _) => assert !Concludes(w.desk, e, c);
    case SendFails(c) => assert !Concludes(w.desk, e, c);
    case CancelSend(_, _, _) =>
  }
}
