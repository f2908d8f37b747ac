/** What sessions do to the calls they hold: where sessions come from, and when a response, a cancel,
    a takeover or the loss of a connection reaches a call, with each condition written out. */
module SessionLaws {
  import opened Basics
  import opened Broker
  import opened BrokerInvariants
  import opened BrokerHistory
  import opened BrokerOutcomes
  import opened BrokerOrphans
  import Hub
  import HubInvariants
  import HubLaws

  // ------------------------------------------------------------------------- where sessions come from

  /** An event of the run opened session `g` by a signed answer to a challenge of its own connection. */
  ghost predicate OpenedInRun(config: Hub.Config, now: int, events: seq<Event>, g: string, session: Hub.Session) {
    exists j :: 0 <= j < |events| && OpenedBy(Run(config, now, events[..j]), events[j], g, session)
  }

  predicate OpenedBy(w: World, e: Event, g: string, session: Hub.Session) {
    && e.HubEvent? && HubLaws.SignedAnswer(w.hub, e.event)
    && e.event.generation == g && e.event.connector == session.connector && e.event.instance == session.instance
  }

  lemma OpenedStays(config: Hub.Config, now: int, events: seq<Event>, g: string, session: Hub.Session)
    requires events != [] && OpenedInRun(config, now, events[..|events| - 1], g, session)
    ensures OpenedInRun(config, now, events, g, session)
  {
    var init := events[..|events| - 1];
    var j :| 0 <= j < |init| && OpenedBy(Run(config, now, init[..j]), init[j], g, session);
    assert init[..j] == events[..j] && init[j] == events[j];
  }

  ghost predicate SameNames(a: Hub.Session, b: Hub.Session) {
    a.connector == b.connector && a.instance == b.instance
  }

  /** A session after an event was there before, under the same names, or is opened by the event. */
  lemma SessionOrigin(w: World, e: Event, g: string)
    requires HubInvariants.Inv(w.hub)
    ensures var after := Apply(w, e).hub.sessions;
      g in after ==> (g in w.hub.sessions && SameNames(w.hub.sessions[g], after[g])) || OpenedBy(w, e, g, after[g])
  {
    if e.HubEvent? {
      HubLaws.SessionOpensIff(w.hub, e.event);
      if g in w.hub.sessions {
        HubLaws.SessionKeepsNames(w.hub, e.event, g);
      }
    } else {
      HubAfter(w, e);
    }
  }

  /** Over every run, every session was opened by an authentication message of the run with a valid
      signature of its device. */
  lemma {:induction false} EverySessionIsSigned(config: Hub.Config, now: int, events: seq<Event>, g: string)
    ensures var sessions := Run(config, now, events).hub.sessions;
      g in sessions ==> OpenedInRun(config, now, events, g, sessions[g])
  {
    if events != [] {
      var init := events[..|events| - 1];
      EverySessionIsSigned(config, now, init, g);
      RunKeeps(config, now, init);
      SessionOrigin(Run(config, now, init), events[|events| - 1], g);
      SessionByLast(config, now, events, g);
    }
  }

  lemma SessionByLast(config: Hub.Config, now: int, events: seq<Event>, g: string)
    requires events != []
    ensures var before := Run(config, now, events[..|events| - 1]).hub.sessions; var after := Run(config, now, events).hub.sessions;
      (g in before && g in after && SameNames(before[g], after[g])
       && OpenedInRun(config, now, events[..|events| - 1], g, before[g])) ==> OpenedInRun(config, now, events, g, after[g])
  {
    var init := events[..|events| - 1];
    var before := Run(config, now, init).hub.sessions;
    var after := Run(config, now, events).hub.sessions;
    if g in before && g in after && SameNames(before[g], after[g]) && OpenedInRun(config, now, init, g, before[g]) {
      NamesDecide(config, now, init, g, before[g], after[g]);
      OpenedStays(config, now, events, g, after[g]);
    }
  }

  lemma NamesDecide(config: Hub.Config, now: int, events: seq<Event>, g: string, a: Hub.Session, b: Hub.Session)
    requires SameNames(a, b) && OpenedInRun(config, now, events, g, a)
    ensures OpenedInRun(config, now, events, g, b)
  {
    var j :| 0 <= j < |events| && OpenedBy(Run(config, now, events[..j]), events[j], g, a);
    assert OpenedBy(Run(config, now, events[..j]), events[j], g, b);
  }

  // -------------------------------------------------------------------------------------- responses

  /** Call `c` is filed in session `g` under this request id, and waits for an answer. */
  ghost predicate Awaiting(d: Desk, g: string, requestId: string, c: nat) {
    && Slot(g, requestId) in d.pending && d.pending[Slot(g, requestId)] == c
    && c < |d.calls| && d.calls[c].future == Unresolved
  }

  /** The response is for the connector of its session, has a status of the protocol, and there is a
      call that waits for it. */
  ghost predicate Fits(w: World, g: string, connector: string, requestId: string, status: ResponseStatus)
    requires g in w.hub.sessions
  {
    && connector == w.hub.sessions[g].connector
    && (status == StatusOk || status == StatusError)
    && exists c: nat :: Awaiting(w.desk, g, requestId, c)
  }

  /** A response that fits, be it a result or an error, resolves exactly the call that waits for it, with
      its content in full; one that does not ends the session and touches no call. */
  lemma ResponseIff(w: World, g: string, connector: string, requestId: string, status: ResponseStatus, payload: Json, bytes: nat)
    requires g in w.hub.connections && w.hub.connections[g].stage == Hub.Serving && g in w.hub.sessions
    ensures var w' := RespondStep(w, g, connector, requestId, status, payload, bytes);
      if Fits(w, g, connector, requestId, status)
      then var c := w.desk.pending[Slot(g, requestId)];
           && w'.hub == w.hub && |w'.desk.calls| == |w.desk.calls|
           && w'.desk == w.desk.(calls := w.desk.calls[c := w.desk.calls[c].(future := w'.desk.calls[c].future)])
           && w'.desk.calls[c].future.Resolved? && Carries(w'.desk.calls[c].future.reply, status, payload, bytes)
      else && w'.desk == w.desk && g in w'.hub.connections && w'.hub.connections[g].stage == Hub.Failing
           && w'.hub.instances == w.hub.instances && w'.hub.registered == w.hub.registered && w'.hub.sessions == w.hub.sessions
  {
    FitsMatches(w, g, connector, requestId, status);
    if Fits(w, g, connector, requestId, status) {
      ReplyCarries(status, payload, bytes);
      ResponseResolvesOne(w, g, connector, requestId, status, payload, bytes);
    }
  }

  lemma FitsMatches(w: World, g: string, connector: string, requestId: string, status: ResponseStatus)
    requires g in w.hub.sessions
    ensures Fits(w, g, connector, requestId, status) <==> ResponseMatches(w, g, connector, requestId, status)
  {
    if ResponseMatches(w, g, connector, requestId, status) {
      assert Awaiting(w.desk, g, requestId, w.desk.pending[Slot(g, requestId)]);
    }
  }

  lemma ResponseResolvesOne(w: World, g: string, connector: string, requestId: string, status: ResponseStatus, payload: Json, bytes: nat)
    requires Hub.Serves(w.hub, g) && ResponseMatches(w, g, connector, requestId, status)
    ensures var c := w.desk.pending[Slot(g, requestId)];
      RespondStep(w, g, connector, requestId, status, payload, bytes) ==
      w.(desk := w.desk.(calls := w.desk.calls[c := w.desk.calls[c].(future := Resolved(ReplyOf(status, payload, bytes)))]))
  {
  }

  // ---------------------------------------------------------------------------------------- cancels

  /** The route found the row of the registered session, and the request is filed there. */
  predicate CanCancel(h: Hub.State, d: Desk, connector: string, requestId: string, picked: Option<string>) {
    && picked.Some? && connector in h.registered && h.registered[connector] in h.sessions
    && h.sessions[h.registered[connector]].instance == picked.value
    && Slot(h.registered[connector], requestId) in d.pending
  }

  /** A cancel is sent exactly for a request on file with the routed session: one frame, naming it, to
      that session; and the call that was filed there is marked. Otherwise nothing changes. */
  lemma CancelIff(w: World, connector: string, requestId: string, picked: Option<string>)
    requires Hub.RouteAnswer(Hub.SweepNow(w.hub).instances, connector, None, Hub.Cutoff(w.hub), picked)
    ensures var d' := CancelSendStep(w, connector, requestId, picked).desk;
      if CanCancel(w.hub, w.desk, connector, requestId, picked)
      then var g := w.hub.registered[connector];
           && d' == w.desk.(sent := d'.sent, cancelling := d'.cancelling)
           && d'.sent == w.desk.sent + [CancelFrame(g, connector, requestId)]
           && d'.cancelling == w.desk.cancelling + {w.desk.pending[Slot(g, requestId)]}
      else d' == w.desk
  {
  }

  /** The second half of a cancel gives the marked call, if it still waits, the answer "cancelled". */
  lemma CancelResolvesIff(d: Desk, c: nat)
    requires c < |d.calls|
    ensures var d' := CancelResolveStep(d, c);
      && |d'.calls| == |d.calls|
      && (forall x :: 0 <= x < |d.calls| && x != c ==> d'.calls[x] == d.calls[x])
      && (if c in d.cancelling && d.calls[c].future == Unresolved
          then d'.calls[c] == d.calls[c].(future := d'.calls[c].future) && d'.calls[c].future.Resolved?
               && d'.calls[c].future.reply.members == map["code" := Str("cancelled")] && d'.calls[c].future.reply.bytes <= 1_048_576
          else d'.calls[c] == d.calls[c])
  {
  }

  lemma CancelKeepsClaim(w: World, c: nat)
    requires c < |w.desk.calls| && c in w.desk.cancelling && w.desk.calls[c].future == Unresolved
    ensures var calls := Apply(w, CancelResolve(c)).desk.calls;
      && c < |calls| && calls[c].claim == w.desk.calls[c].claim
      && calls[c].future.Resolved? && calls[c].future.reply.members == map["code" := Str("cancelled")]
  {
    CancelResolvesIff(w.desk, c);
  }

  /** Whatever happens in between, the caller of a request that was cancelled while it waited is handed
      "cancelled" and no other answer, if it is handed any. */
  lemma CancelReachesCaller(config: Hub.Config, now: int, events: seq<Event>, more: seq<Event>, c: nat)
    ensures var d := Run(config, now, events).desk; var calls := Run(config, now, events + [CancelResolve(c)] + more).desk.calls;
      c < |d.calls| && c in d.cancelling && Open(d.calls[c]) ==>
        && c < |calls|
        && (calls[c].phase.Ended? && calls[c].phase.outcome.Returned? ==>
              calls[c].phase.outcome.reply.members == map["code" := Str("cancelled")])
  {
    var w := Run(config, now, events);
    if c < |w.desk.calls| && c in w.desk.cancelling && Open(w.desk.calls[c]) {
      RunKeeps(config, now, events);
      LiveCallClaimed(w.desk, c);
      CancelKeepsClaim(w, c);
      AnsweredCallIsHanded(config, now, events, CancelResolve(c), more, c);
    }
  }

  lemma LiveCallClaimed(d: Desk, c: nat)
    requires ClaimsHold(d.calls, d.requests) && c < |d.calls| && Open(d.calls[c])
    ensures d.calls[c].claim.New?
  {
    assert ClaimHolds(d.calls[c], d.requests);
  }

  // --------------------------------------------------------------------------------- lost connections

  /** The calls filed in session `g` that wait break; every other call, and every other entry, stays. */
  ghost predicate BreaksOnly(d: Desk, d': Desk, g: string) {
    && |d'.calls| == |d.calls|
    && (forall c :: 0 <= c < |d.calls| ==>
          d'.calls[c] == if d.calls[c].session == g && d.calls[c].future == Unresolved && Maps(d.pending, SlotOf(d.calls[c]), c)
                         then d.calls[c].(future := Broken) else d.calls[c])
    && (forall slot :: slot in d'.pending <==> slot in d.pending && slot.generation != g)
    && (forall slot :: slot in d'.pending ==> d'.pending[slot] == d.pending[slot])
  }

  lemma FailPendingBreaksOnly(d: Desk, g: string)
    ensures BreaksOnly(d, FailPending(d, g), g)
  {
  }

  /** The end of a connection breaks exactly the waiting calls it holds. */
  lemma TeardownBreaks(w: World, g: string)
    requires g in w.hub.connections && w.hub.connections[g].stage != Hub.Closed
    ensures BreaksOnly(w.desk, DeskAfter(w, Hub.Teardown(g)), g)
  {
    FailPendingBreaksOnly(w.desk, g);
  }

  /** A takeover, by a signed answer, breaks exactly the waiting calls of the session it replaces; an
      answer that is not accepted breaks nothing. */
  lemma TakeoverBreaksIff(w: World, e: Hub.Event)
    requires e.Authenticate?
    ensures if HubLaws.SignedAnswer(w.hub, e) && e.connector in w.hub.registered
            then BreaksOnly(w.desk, DeskAfter(w, e), w.hub.registered[e.connector])
            else DeskAfter(w, e) == w.desk
  {
    HubLaws.SignedAnswerAuthenticates(w.hub, e);
    if e.connector in w.hub.registered {
      FailPendingBreaksOnly(w.desk, w.hub.registered[e.connector]);
    }
  }
}
