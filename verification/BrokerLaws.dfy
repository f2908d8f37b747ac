/** What each operation of the broker asks for and does, with its conditions written out in the terms
    of calls, rows, sessions and messages. */
module BrokerLaws {
  import opened Basics
  import opened Catalog
  import opened Broker
  import opened BrokerInvariants
  import opened BrokerShapes
  import opened BrokerHistory
  import opened BrokerLedger
  import opened BrokerReplays
  import opened BrokerTheorems
  import opened BrokerFrames
  import opened BrokerOutcomes
  import opened BrokerRouting
  import Hub
  import HubInvariants
  import HubLaws
  import HubTheorems

  // ------------------------------------------------------------------------------- the end of a wait

  /** The timer of the call fired, and its future was cancelled or its result comes too late. */
  predicate Late(call: Call, resultWins: bool) {
    call.timedOut && (call.future == Cancelled || !resultWins)
  }

  /** What a call that waited is told, by its future, its timer and the size of its result. */
  predicate ToldByFuture(call: Call, resultWins: bool, outcome: Outcome) {
    && (outcome == Raised("device_timeout") <==> Late(call, resultWins))
    && (outcome == Raised("device_offline") <==> !Late(call, resultWins) && call.future == Broken)
    && (outcome == Raised("result_too_large") <==> !Late(call, resultWins) && call.future.Resolved? && call.future.reply.bytes > 1_048_576)
    && (outcome.Returned? <==> !Late(call, resultWins) && call.future.Resolved? && call.future.reply.bytes <= 1_048_576)
    && (outcome.Returned? ==> outcome.reply == call.future.reply)
  }

  /** The row of the call after it concluded: a settled row stays, a pending one keeps what it was told. */
  ghost predicate RowKeeps(before: map<RequestKey, Row>, after: map<RequestKey, Row>, key: RequestKey, outcome: Outcome) {
    && after.Keys == before.Keys
    && (forall k :: k in before && k != key ==> after[k] == before[k])
    && (key in before && before[key].state != Pending ==> after[key] == before[key])
    && (key in before && before[key].state == Pending ==>
          && after[key] == before[key].(state := after[key].state)
          && (outcome.Returned? ==> after[key].state.Completed? && after[key].state.reply == outcome.reply)
          && (outcome.Raised? ==> after[key].state.Failed? && after[key].state.reply.members == map["code" := Str(outcome.code)]))
  }

  /** A waiting call whose future is decided ends, and is told exactly this. */
  lemma WakeTells(d: Desk, c: nat, resultWins: bool)
    requires c < |d.calls| && d.calls[c].phase == Waiting
    requires d.calls[c].future == Broken || d.calls[c].future.Resolved? || (d.calls[c].future == Cancelled && d.calls[c].timedOut)
    ensures var d' := WakeStep(d, c, resultWins);
      && |d'.calls| == |d.calls| && d'.calls[c].phase.Ended?
      && ToldByFuture(d.calls[c], resultWins, d'.calls[c].phase.outcome)
  {
  }

  lemma WakeKeepsRow(d: Desk, c: nat, resultWins: bool)
    requires c < |d.calls| && Resumes(d, c)
    ensures var d' := WakeStep(d, c, resultWins);
      d'.calls[c].phase.Ended? && RowKeeps(d.requests, d'.requests, KeyOf(d.calls[c].command), d'.calls[c].phase.outcome)
  {
  }

  /** A waiting call whose future is open goes on waiting. */
  lemma OpenGoesOnWaiting(d: Desk, c: nat, resultWins: bool)
    requires c < |d.calls| && d.calls[c].phase == Waiting && d.calls[c].future == Unresolved
    ensures WakeStep(d, c, resultWins) == d
  {
  }

  /** A call whose frame cannot be written is offline, and so is its pending row. */
  lemma FailedWriteTells(d: Desk, c: nat)
    requires c < |d.calls| && d.calls[c].phase == Sending
    ensures var d' := SendFailsStep(d, c);
      && |d'.calls| == |d.calls| && d'.calls[c].phase == Ended(Raised("device_offline"))
      && RowKeeps(d.requests, d'.requests, KeyOf(d.calls[c].command), Raised("device_offline"))
  {
  }

  /** What the timer does: it marks the call and, if the runtime cancels at once, an open future. */
  lemma TimerMarks(d: Desk, c: nat, cancels: bool)
    requires c < |d.calls| && d.calls[c].phase == Waiting
    ensures TimerStep(d, c, cancels) ==
            d.(calls := d.calls[c := d.calls[c].(timedOut := true,
                 future := if cancels && d.calls[c].future == Unresolved then Cancelled else d.calls[c].future)])
  {
  }

  /** A lost call is told nothing, and its row stays as it is. */
  lemma AbandonTells(d: Desk, c: nat)
    requires c < |d.calls| && !d.calls[c].phase.Ended?
    ensures var d' := AbandonStep(d, c);
      |d'.calls| == |d.calls| && d'.calls[c].phase == Ended(Lost) && d'.requests == d.requests
  {
  }

  // ---------------------------------------------------------------------------------- why a call ended

  /** The event ends call `c`, and its outcome follows from how the call stood before. */
  ghost predicate EndedBy(w: World, e: Event, c: nat, outcome: Outcome) {
    && c < |w.desk.calls| && !w.desk.calls[c].phase.Ended?
    && match e
       case Wake(x, resultWins) => x == c && ToldByFuture(w.desk.calls[c], resultWins, outcome)
       case SendFails(x) => x == c && w.desk.calls[c].phase == Sending && outcome == Raised("device_offline")
       case Abandon(x) => x == c && outcome == Lost
       case HubEvent(event) => event == Hub.Restart && outcome == Lost
       case _ => false
  }

  lemma WakeEnds(w: World, x: nat, resultWins: bool, c: nat)
    requires c < |w.desk.calls| && !w.desk.calls[c].phase.Ended? && WakeStep(w.desk, x, resultWins).calls[c].phase.Ended?
    ensures EndedBy(w, Wake(x, resultWins), c, WakeStep(w.desk, x, resultWins).calls[c].phase.outcome)
  {
    if Resumes(w.desk, x) {
      WakeTells(w.desk, x, resultWins);
    }
  }

  lemma LossEnds(w: World, x: nat, c: nat)
    requires c < |w.desk.calls| && !w.desk.calls[c].phase.Ended?
    ensures |SendFailsStep(w.desk, x).calls| == |AbandonStep(w.desk, x).calls| == |w.desk.calls|
    ensures SendFailsStep(w.desk, x).calls[c].phase.Ended? ==> EndedBy(w, SendFails(x), c, SendFailsStep(w.desk, x).calls[c].phase.outcome)
    ensures AbandonStep(w.desk, x).calls[c].phase.Ended? ==> EndedBy(w, Abandon(x), c, AbandonStep(w.desk, x).calls[c].phase.outcome)
  {
  }

  lemma HubEventEnds(w: World, e: Hub.Event, c: nat)
    requires c < |w.desk.calls| && !w.desk.calls[c].phase.Ended? && DeskAfter(w, e).calls[c].phase.Ended?
    ensures EndedBy(w, HubEvent(e), c, DeskAfter(w, e).calls[c].phase.outcome)
  {
  }

  lemma StandingEndsNothing(d: Desk, d': Desk, c: nat)
    requires Standing(d.calls, d'.calls) && c < |d.calls| && !d.calls[c].phase.Ended?
    ensures !d'.calls[c].phase.Ended?
  {
    assert SameStanding(d.calls[c], d'.calls[c]);
  }

  /** Only these events end a call, and always with the outcome that follows. */
  lemma EndHasCause(w: World, e: Event, c: nat)
    requires c < |w.desk.calls| && !w.desk.calls[c].phase.Ended?
    ensures c < |Apply(w, e).desk.calls|
    ensures Apply(w, e).desk.calls[c].phase.Ended? ==> EndedBy(w, e, c, Apply(w, e).desk.calls[c].phase.outcome)
  {
    match e
    case Wake(x, wins) =>
      if WakeStep(w.desk, x, wins).calls[c].phase.Ended? {
        WakeEnds(w, x, wins, c);
      }
    case SendFails(x) => LossEnds(w, x, c);
    case Abandon(x) => LossEnds(w, x, c);
    case HubEvent(event) =>
      if DeskAfter(w, event).calls[c].phase.Ended? {
        HubEventEnds(w, event, c);
      }
    case Start(command, picked) => StartResolvesNothing(w, command, picked, c);
    case SendDone(x) => SendDoneResolves(w.desk, x); StandingEndsNothing(w.desk, SendDoneStep(w.desk, x), c);
    case TimerFires(x, cancels) =>
      TimerResolves(w.desk, x, cancels);
      StandingEndsNothing(w.desk, TimerStep(w.desk, x, cancels), c);
    case CancelResolve(x) => CancelResolveResolves(w.desk, x); StandingEndsNothing(w.desk, CancelResolveStep(w.desk, x), c);
    case Respond(_, _, _, _, _, _) => RespondResolves(w, e); StandingEndsNothing(w.desk, Apply(w, e).desk, c);
    case CancelSend(_, _, _) =>
  }

  /** Some event of the run ended the call with this outcome. */
  ghost predicate EndedInRun(config: Hub.Config, now: int, events: seq<Event>, c: nat, outcome: Outcome) {
    exists j :: 0 <= j < |events| && EndedBy(Run(config, now, events[..j]), events[j], c, outcome)
  }

  lemma EndedStays(config: Hub.Config, now: int, events: seq<Event>, c: nat, outcome: Outcome)
    requires events != [] && EndedInRun(config, now, events[..|events| - 1], c, outcome)
    ensures EndedInRun(config, now, events, c, outcome)
  {
    var init := events[..|events| - 1];
    var j :| 0 <= j < |init| && EndedBy(Run(config, now, init[..j]), init[j], c, outcome);
    assert init[..j] == events[..j] && init[j] == events[j];
  }

  /** The call was never in progress: it ended with its own start. */
  predicate EndedAtStart(call: Call) {
    call.phase.Ended? && call.session == ""
    && (call.claim.New? ==> call.phase.outcome == Raised("command_in_flight"))
  }

  /** `calls` are the calls after the event. */
  lemma NewCallStands(w: World, e: Event, calls: seq<Call>, c: nat)
    requires |w.desk.calls| <= c
    ensures calls == Apply(w, e).desk.calls && c < |calls| && calls[c].phase.Ended? ==> EndedAtStart(calls[c])
  {
    CallsComeFromStarts(w, e);
    if calls == Apply(w, e).desk.calls && c < |calls| {
      NewCallOfStart(w, e.command, e.picked);
    }
  }

  lemma NewCallOfStart(w: World, command: Command, picked: Option<string>)
    ensures var calls := StartStep(w, command, picked).desk.calls;
      |calls| > |w.desk.calls| && calls[|w.desk.calls|].phase.Ended? ==> EndedAtStart(calls[|w.desk.calls|])
  {
    ReachingClaimSubmits(w, command, picked);
    if ReachesClaim(w, command, picked) {
      NewCallOfSubmit(w.desk, command, Target(w, command, picked), DigestOf(w, command, picked));
    }
  }

  lemma NewCallOfSubmit(d: Desk, command: Command, g: string, digest: Digest)
    ensures var call := Submit(d, command, g, digest).calls[|d.calls|]; call.phase.Ended? ==> EndedAtStart(call)
  {
  }

  /** Over every run, every call that has ended did so with its own start, or by an event of the run
      from which its outcome follows: its future, its timer, the size of its result, a failed write,
      the cancellation of its task, or a restart. */
  lemma {:induction false} EveryEndHasCause(config: Hub.Config, now: int, events: seq<Event>, c: nat)
    ensures var calls := Run(config, now, events).desk.calls;
      c < |calls| && calls[c].phase.Ended? ==>
        EndedAtStart(calls[c]) || EndedInRun(config, now, events, c, calls[c].phase.outcome)
  {
    if events != [] {
      EveryEndHasCause(config, now, events[..|events| - 1], c);
      EndByLast(config, now, events, c);
    }
  }

  lemma EndByLast(config: Hub.Config, now: int, events: seq<Event>, c: nat)
    requires events != []
    requires var calls := Run(config, now, events[..|events| - 1]).desk.calls;
      c < |calls| && calls[c].phase.Ended? ==>
        EndedAtStart(calls[c]) || EndedInRun(config, now, events[..|events| - 1], c, calls[c].phase.outcome)
    ensures var calls := Run(config, now, events).desk.calls;
      c < |calls| && calls[c].phase.Ended? ==>
        EndedAtStart(calls[c]) || EndedInRun(config, now, events, c, calls[c].phase.outcome)
  {
    var w := Run(config, now, events[..|events| - 1]);
    if c >= |w.desk.calls| {
      NewCallStands(w, events[|events| - 1], Run(config, now, events).desk.calls, c);
    } else if !w.desk.calls[c].phase.Ended? {
      EndHasCause(w, events[|events| - 1], c);
    } else {
      ApplyFollows(w, events[|events| - 1]);
      assert CallFollows(w.desk.calls[c], Apply(w, events[|events| - 1]).desk.calls[c]);
      if !EndedAtStart(w.desk.calls[c]) {
        EndedStays(config, now, events, c, w.desk.calls[c].phase.outcome);
      }
    }
  }
}
