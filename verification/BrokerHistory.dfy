/** What no event ever undoes: sent frames, settled rows, finished calls and resolved futures. */
module BrokerHistory {
  import opened Basics
  import opened Catalog
  import opened Broker
  import opened BrokerInvariants
  import Hub

  /** `y` is a later view of call `x`. */
  ghost predicate CallFollows(x: Call, y: Call) {
    && y.command == x.command && y.session == x.session && y.digest == x.digest && y.claim == x.claim
    && (x.phase.Ended? ==> y.phase == x.phase)
    && (!x.future.Unresolved? ==> y.future == x.future)
    && (x.timedOut ==> y.timedOut)
  }

  ghost predicate CallsFollow(before: seq<Call>, after: seq<Call>) {
    |before| <= |after| && forall c :: 0 <= c < |before| ==> CallFollows(before[c], after[c])
  }

  ghost predicate Follows(d: Desk, d': Desk) {
    CallsFollow(d.calls, d'.calls) && TableGrows(d.requests, d'.requests) && d.sent <= d'.sent
  }

  lemma FollowsTransitive(a: Desk, b: Desk, c: Desk)
    requires Follows(a, b) && Follows(b, c)
    ensures Follows(a, c)
  {
    forall x | 0 <= x < |a.calls| ensures CallFollows(a.calls[x], c.calls[x]) {
      assert CallFollows(a.calls[x], b.calls[x]) && CallFollows(b.calls[x], c.calls[x]);
    }
    forall key | key in a.requests ensures key in c.requests && RowFollows(a.requests[key], c.requests[key]) {
      assert RowFollows(a.requests[key], b.requests[key]) && RowFollows(b.requests[key], c.requests[key]);
    }
  }

  // --------------------------------------------------------------------------------- desk steps

  lemma AppendFollows(calls: seq<Call>, call: Call)
    ensures CallsFollow(calls, calls + [call])
  {
  }

  lemma SubmitFollows(d: Desk, command: Command, g: string, digest: Digest)
    ensures Follows(d, Submit(d, command, g, digest))
  {
    var d' := Submit(d, command, g, digest);
    assert d'.calls == d.calls + [d'.calls[|d.calls|]];
    AppendFollows(d.calls, d'.calls[|d.calls|]);
  }

  lemma StartFollows(w: World, command: Command, picked: Option<string>)
    ensures Follows(w.desk, StartStep(w, command, picked).desk)
  {
    if command.assertion.None? && Used(w.desk.calls, command.uuid) {
    } else if command.assertion.Some? && command.assertion.value.connector != command.connector {
      AppendFollows(w.desk.calls, Concluded(command, None, Unclaimed, Raised("app_assertion_connector_mismatch")));
    } else {
      var h := Hub.SweepNow(w.hub);
      if Hub.RouteAnswer(h.instances, command.connector, command.pinned, Hub.Cutoff(h), picked) {
        var refusal := Gate(h, command, picked);
        if refusal.Some? {
          AppendFollows(w.desk.calls, Concluded(command, None, Unclaimed, Raised(refusal.value)));
        } else {
          SubmitFollows(w.desk, command, h.registered[command.connector], DigestFor(h, command, picked.value));
        }
      }
    }
  }

  lemma ResolveFollows(d: Desk, c: nat, future: Future)
    requires c < |d.calls|
    ensures Follows(d, Resolve(d, c, future))
  {
  }

  lemma FailPendingFollows(d: Desk, g: string)
    ensures Follows(d, FailPending(d, g))
  {
  }

  lemma EndFollows(d: Desk, c: nat, outcome: Outcome)
    requires c < |d.calls| && Live(d.calls[c])
    ensures Follows(d, EndCall(d, c, outcome))
  {
  }

  lemma FinishFollows(d: Desk, c: nat, outcome: Outcome, state: RowState)
    requires c < |d.calls| && Live(d.calls[c])
    ensures Follows(d, Finish(d, c, outcome, state))
  {
    EndFollows(d, c, outcome);
  }

  lemma WakeFollows(d: Desk, c: nat, resultWins: bool)
    ensures Follows(d, WakeStep(d, c, resultWins))
  {
    if Resumes(d, c) {
      if TimesOut(d.calls[c], resultWins) {
        FinishFollows(d, c, Raised("device_timeout"), Failed(CodeReply("device_timeout"), c));
      } else if d.calls[c].future.Broken? {
        FinishFollows(d, c, Raised("device_offline"), Failed(CodeReply("device_offline"), c));
      } else if d.calls[c].future.reply.bytes > RESULT_MAX_BYTES {
        FinishFollows(d, c, Raised("result_too_large"), Failed(CodeReply("result_too_large"), c));
      } else {
        FinishFollows(d, c, Returned(d.calls[c].future.reply), Completed(d.calls[c].future.reply, c));
      }
    }
  }

  lemma AbandonFollows(d: Desk, c: nat)
    ensures Follows(d, AbandonStep(d, c))
  {
  }

  lemma TimerFollows(d: Desk, c: nat, cancels: bool)
    ensures Follows(d, TimerStep(d, c, cancels))
  {
    if Waits(d, c) {
      ResolveFollows(d, c, Cancelled);
    }
  }

  lemma RespondFollows(w: World, e: Event)
    requires e.Respond?
    ensures Follows(w.desk, Apply(w, e).desk)
  {
    var slot := Slot(e.generation, e.requestId);
    if slot in w.desk.pending && w.desk.pending[slot] < |w.desk.calls| {
      ResolveFollows(w.desk, w.desk.pending[slot], Resolved(ReplyOf(e.status, e.payload, e.bytes)));
    }
  }

  lemma HubEventFollows(w: World, e: Hub.Event)
    ensures Follows(w.desk, DeskAfter(w, e))
  {
    match e
    case Authenticate(_, _, _, connector, _, _, _) =>
      if connector in w.hub.registered {
        FailPendingFollows(w.desk, w.hub.registered[connector]);
      }
    case Teardown(g) => FailPendingFollows(w.desk, g);
    case Restart =>
      assert CallsFollow(w.desk.calls, RestartDesk(w.desk).calls);
    case _ =>
  }

  /** One event. */
  lemma ApplyFollows(w: World, e: Event)
    ensures Follows(w.desk, Apply(w, e).desk)
  {
    match e
    case HubEvent(event) => HubEventFollows(w, event);
    case Start(command, picked) => StartFollows(w, command, picked);
    case SendFails(c) =>
      if c < |w.desk.calls| && w.desk.calls[c].phase == Sending {
        FinishFollows(w.desk, c, Raised("device_offline"), Failed(CodeReply("device_offline"), c));
      }
    case TimerFires(c, cancels) => TimerFollows(w.desk, c, cancels);
    case Wake(c, wins) => WakeFollows(w.desk, c, wins);
    case Abandon(c) => AbandonFollows(w.desk, c);
    case Respond(_, _, _, _, _, _) => RespondFollows(w, e);
    case CancelResolve(c) =>
      if c < |w.desk.calls| {
        ResolveFollows(w.desk, c, Resolved(CodeReply("cancelled")));
      }
    case CancelSend(_, _, _) =>
    case SendDone(c) =>
  }

  lemma RunSplits(config: Hub.Config, now: int, events: seq<Event>, more: seq<Event>)
    requires more != []
    ensures Run(config, now, events + more) == Apply(Run(config, now, events + more[..|more| - 1]), more[|more| - 1])
  {
    assert (events + more)[..|events + more| - 1] == events + more[..|more| - 1];
  }

  /** Whole runs: whatever comes after, a sent frame stays sent, a settled row keeps its result, a
      finished call keeps its outcome and a resolved future keeps its value. */
  lemma {:induction false} RunFollows(config: Hub.Config, now: int, events: seq<Event>, more: seq<Event>)
    ensures Follows(Run(config, now, events).desk, Run(config, now, events + more).desk)
    decreases |more|
  {
    if more == [] {
      assert events + more == events;
    } else {
      var init := more[..|more| - 1];
      RunFollows(config, now, events, init);
      RunSplits(config, now, events, more);
      var w := Run(config, now, events + init);
      ApplyFollows(w, more[|more| - 1]);
      FollowsTransitive(Run(config, now, events).desk, w.desk, Run(config, now, events + more).desk);
    }
  }

  // ---------------------------------------------------------------------- what holds throughout a run

  /** `good` holds in the first world of the run and after each of its events. */
  ghost predicate Throughout(config: Hub.Config, now: int, events: seq<Event>, good: World -> bool) {
    forall k :: 0 <= k <= |events| ==> good(Run(config, now, events[..k]))
  }

  /** No event of the run is `bad` in the world it meets. */
  ghost predicate Never(config: Hub.Config, now: int, events: seq<Event>, bad: (World, Event) -> bool) {
    forall k :: 0 <= k < |events| ==> !bad(Run(config, now, events[..k]), events[k])
  }

  lemma NeverLast(config: Hub.Config, now: int, events: seq<Event>, bad: (World, Event) -> bool)
    requires events != [] && Never(config, now, events, bad)
    ensures Never(config, now, events[..|events| - 1], bad)
    ensures !bad(Run(config, now, events[..|events| - 1]), events[|events| - 1])
  {
    var init := events[..|events| - 1];
    forall k | 0 <= k < |init| ensures !bad(Run(config, now, init[..k]), init[k]) {
      assert init[..k] == events[..k] && init[k] == events[k];
    }
  }

  lemma RunTakes(config: Hub.Config, now: int, events: seq<Event>, k: nat)
    requires k < |events|
    ensures Run(config, now, events[..k + 1]) == Apply(Run(config, now, events[..k]), events[k])
  {
    assert events[..k + 1][..k] == events[..k];
  }

  /** If `bad` events are exactly those that break `good`, then `good` holds throughout a run if and
      only if no event of the run is bad. */
  lemma ThroughoutIff(config: Hub.Config, now: int, events: seq<Event>, good: World -> bool, bad: (World, Event) -> bool)
    requires good(Initial(config, now))
    requires forall k :: 0 <= k < |events| && good(Run(config, now, events[..k])) ==>
               (bad(Run(config, now, events[..k]), events[k]) <==> !good(Run(config, now, events[..k + 1])))
    ensures Throughout(config, now, events, good) <==> Never(config, now, events, bad)
  {
    if Throughout(config, now, events, good) {
      forall k | 0 <= k < |events| ensures !bad(Run(config, now, events[..k]), events[k]) {
        assert good(Run(config, now, events[..k])) && good(Run(config, now, events[..k + 1]));
      }
    }
    if Never(config, now, events, bad) {
      forall k | 0 <= k <= |events| ensures good(Run(config, now, events[..k])) {
        GoodAt(config, now, events, good, bad, k);
      }
    }
  }

  lemma {:induction false} GoodAt(config: Hub.Config, now: int, events: seq<Event>, good: World -> bool,
                                  bad: (World, Event) -> bool, k: nat)
    requires good(Initial(config, now)) && Never(config, now, events, bad) && k <= |events|
    requires forall j :: 0 <= j < |events| && good(Run(config, now, events[..j])) ==>
               (bad(Run(config, now, events[..j]), events[j]) <==> !good(Run(config, now, events[..j + 1])))
    ensures good(Run(config, now, events[..k]))
  {
    if k == 0 {
      assert events[..0] == [];
    } else {
      GoodAt(config, now, events, good, bad, k - 1);
      assert !bad(Run(config, now, events[..k - 1]), events[k - 1]);
    }
  }

  // ----------------------------------------------------------------------------- where calls come from

  /** A new call is the work of a start event, and carries its command. */
  lemma CallsComeFromStarts(w: World, e: Event)
    ensures var calls' := Apply(w, e).desk.calls;
      |calls'| > |w.desk.calls| ==>
        e.Start? && |calls'| == |w.desk.calls| + 1 && calls'[|w.desk.calls|].command == e.command
  {
    match e
    case HubEvent(_) =>
    case Start(_, _) =>
    case Wake(_, _) =>
    case Respond(_, _, _, _, _, _) =>
    case CancelSend(_, _, _) =>
    case _ =>
  }

  /** No two calls of the run bring the same request id. */
  ghost predicate DistinctRequestIds(events: seq<Event>) {
    forall i, j :: 0 <= i < j < |events| && events[i].Start? && events[j].Start? ==>
      RequestId(events[i].command) != RequestId(events[j].command)
  }

  /** Some start event of the run carries this command. */
  ghost predicate Started(events: seq<Event>, command: Command) {
    exists i :: 0 <= i < |events| && events[i].Start? && events[i].command == command
  }

  lemma StartedStays(events: seq<Event>, command: Command)
    requires events != [] && Started(events[..|events| - 1], command)
    ensures Started(events, command)
  {
    var i :| 0 <= i < |events| - 1 && events[..|events| - 1][i].Start? && events[..|events| - 1][i].command == command;
    assert events[i] == events[..|events| - 1][i];
  }

  /** A call of the next world is a call of this one or the one just started. */
  lemma CallOrigin(w: World, e: Event, c: nat)
    requires c < |Apply(w, e).desk.calls|
    ensures var command := Apply(w, e).desk.calls[c].command;
      (c < |w.desk.calls| && command == w.desk.calls[c].command) || (e.Start? && command == e.command)
  {
    CallsComeFromStarts(w, e);
    if c < |w.desk.calls| {
      CallKeepsCommand(w, e, c);
    }
  }

  lemma {:induction false} CallHasStart(config: Hub.Config, now: int, events: seq<Event>, c: nat)
    requires c < |Run(config, now, events).desk.calls|
    ensures Started(events, Run(config, now, events).desk.calls[c].command)
  {
    if events != [] {
      var init := events[..|events| - 1];
      CallOrigin(Run(config, now, init), events[|events| - 1], c);
      if c < |Run(config, now, init).desk.calls| {
        CallHasStart(config, now, init, c);
        if Started(init, Run(config, now, events).desk.calls[c].command) {
          StartedStays(events, Run(config, now, events).desk.calls[c].command);
        }
      }
    }
  }

  lemma CallKeepsCommand(w: World, e: Event, c: nat)
    requires c < |w.desk.calls| && c < |Apply(w, e).desk.calls|
    ensures Apply(w, e).desk.calls[c].command == w.desk.calls[c].command
  {
    ApplyFollows(w, e);
    assert CallFollows(w.desk.calls[c], Apply(w, e).desk.calls[c]);
  }

  /** In a run of distinct request ids, the id of the next start has not been used. */
  lemma NextIdUnused(config: Hub.Config, now: int, events: seq<Event>)
    requires events != [] && DistinctRequestIds(events) && events[|events| - 1].Start?
    ensures !Used(Run(config, now, events[..|events| - 1]).desk.calls, RequestId(events[|events| - 1].command))
  {
    var init := events[..|events| - 1];
    var calls := Run(config, now, init).desk.calls;
    forall c | 0 <= c < |calls| ensures RequestId(calls[c].command) != RequestId(events[|events| - 1].command) {
      CallHasStart(config, now, init, c);
      var i :| 0 <= i < |init| && init[i].Start? && init[i].command == calls[c].command;
      assert events[i] == init[i];
    }
  }
}
