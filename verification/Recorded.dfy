/** Runs recorded event by event: what the world of a recorded run is after one more event, kind by
    kind. `run` gives the world after each run; naming it keeps whole runs out of the steps. */
module Recorded {
  import opened Basics
  import opened Catalog
  import opened Broker
  import Hub

  /** `run` maps each sequence of events to the world after that run. */
  ghost predicate IsRun(run: seq<Event> -> World, config: Hub.Config, now: int) {
    forall events {:trigger Run(config, now, events)} :: run(events) == Run(config, now, events)
  }

  lemma Extends(run: seq<Event> -> World, config: Hub.Config, now: int, events: seq<Event>, e: Event)
    requires IsRun(run, config, now)
    ensures run(events + [e]) == Apply(run(events), e)
  {
    assert Run(config, now, events) == run(events);
    assert Run(config, now, events + [e]) == run(events + [e]);
    assert (events + [e])[..|events|] == events;
  }

  lemma Starts(run: seq<Event> -> World, config: Hub.Config, now: int, events: seq<Event>, command: Command, picked: Option<string>)
    requires IsRun(run, config, now)
    ensures var w := run(events);
      run(events + [Start(command, picked)]) ==
      StartStep(w, command, picked)
  {
    Extends(run, config, now, events, Start(command, picked));
  }

  lemma SendsDone(run: seq<Event> -> World, config: Hub.Config, now: int, events: seq<Event>, c: nat)
    requires IsRun(run, config, now)
    ensures var w := run(events);
      run(events + [SendDone(c)]) ==
      w.(desk := SendDoneStep(w.desk, c))
  {
    Extends(run, config, now, events, SendDone(c));
  }

  lemma SendsFail(run: seq<Event> -> World, config: Hub.Config, now: int, events: seq<Event>, c: nat)
    requires IsRun(run, config, now)
    ensures var w := run(events);
      run(events + [SendFails(c)]) ==
      w.(desk := SendFailsStep(w.desk, c))
  {
    Extends(run, config, now, events, SendFails(c));
  }

  lemma TimesOut(run: seq<Event> -> World, config: Hub.Config, now: int, events: seq<Event>, c: nat, cancels: bool)
    requires IsRun(run, config, now)
    ensures var w := run(events);
      run(events + [TimerFires(c, cancels)]) ==
      w.(desk := TimerStep(w.desk, c, cancels))
  {
    Extends(run, config, now, events, TimerFires(c, cancels));
  }

  lemma Wakes(run: seq<Event> -> World, config: Hub.Config, now: int, events: seq<Event>, c: nat, resultWins: bool)
    requires IsRun(run, config, now)
    ensures var w := run(events);
      run(events + [Wake(c, resultWins)]) ==
      w.(desk := WakeStep(w.desk, c, resultWins))
  {
    Extends(run, config, now, events, Wake(c, resultWins));
  }

  lemma Abandons(run: seq<Event> -> World, config: Hub.Config, now: int, events: seq<Event>, c: nat)
    requires IsRun(run, config, now)
    ensures var w := run(events);
      run(events + [Abandon(c)]) ==
      w.(desk := AbandonStep(w.desk, c))
  {
    Extends(run, config, now, events, Abandon(c));
  }

  lemma Responds(run: seq<Event> -> World, config: Hub.Config, now: int, events: seq<Event>, g: string, connector: string, requestId: string, status: ResponseStatus, payload: Json, bytes: nat)
    requires IsRun(run, config, now)
    ensures var w := run(events);
      run(events + [Respond(g, connector, requestId, status, payload, bytes)]) ==
      RespondStep(w, g, connector, requestId, status, payload, bytes)
  {
    Extends(run, config, now, events, Respond(g, connector, requestId, status, payload, bytes));
  }

  lemma CancelApplies(w: World, e: Event)
    requires e.CancelSend?
    ensures Apply(w, e) == CancelSendStep(w, e.connector, e.requestId, e.picked)
  {
  }

  lemma Cancels(run: seq<Event> -> World, config: Hub.Config, now: int, events: seq<Event>, connector: string, requestId: string, picked: Option<string>)
    requires IsRun(run, config, now)
    ensures var w := run(events);
      run(events + [CancelSend(connector, requestId, picked)]) ==
      CancelSendStep(w, connector, requestId, picked)
  {
    Extends(run, config, now, events, CancelSend(connector, requestId, picked));
    CancelApplies(run(events), CancelSend(connector, requestId, picked));
  }

  lemma CancelResolveApplies(w: World, e: Event)
    requires e.CancelResolve?
    ensures Apply(w, e) == w.(desk := CancelResolveStep(w.desk, e.call))
  {
  }

  lemma ResolvesCancelled(run: seq<Event> -> World, config: Hub.Config, now: int, events: seq<Event>, c: nat)
    requires IsRun(run, config, now)
    ensures var w := run(events);
      run(events + [CancelResolve(c)]) ==
      w.(desk := CancelResolveStep(w.desk, c))
  {
    Extends(run, config, now, events, CancelResolve(c));
    CancelResolveApplies(run(events), CancelResolve(c));
  }

  lemma Ticks(run: seq<Event> -> World, config: Hub.Config, now: int, events: seq<Event>, elapsed: nat)
    requires IsRun(run, config, now)
    ensures var w := run(events);
      run(events + [HubEvent(Hub.Tick(elapsed))]) ==
      w.(hub := w.hub.(now := w.hub.now + elapsed))
  {
    Extends(run, config, now, events, HubEvent(Hub.Tick(elapsed)));
  }

  lemma IssuesToken(run: seq<Event> -> World, config: Hub.Config, now: int, events: seq<Event>, token: string, connector: string, profile: Profile, ttl: int)
    requires IsRun(run, config, now)
    ensures var w := run(events);
      run(events + [HubEvent(Hub.IssueToken(token, connector, profile, ttl))]) ==
      w.(hub := Hub.IssueTokenStep(w.hub, token, connector, profile, ttl))
  {
    Extends(run, config, now, events, HubEvent(Hub.IssueToken(token, connector, profile, ttl)));
  }

  lemma Connects(run: seq<Event> -> World, config: Hub.Config, now: int, events: seq<Event>, g: string, id: string, secret: string)
    requires IsRun(run, config, now)
    ensures var w := run(events);
      run(events + [HubEvent(Hub.Connect(g, id, secret))]) ==
      w.(hub := Hub.ConnectStep(w.hub, g, id, secret))
  {
    Extends(run, config, now, events, HubEvent(Hub.Connect(g, id, secret)));
  }

  lemma Enrolls(run: seq<Event> -> World, config: Hub.Config, now: int, events: seq<Event>, g: string, id: string, secret: string, connector: string, token: string, key: string, signed: bool)
    requires IsRun(run, config, now)
    ensures var w := run(events);
      run(events + [HubEvent(Hub.Enroll(g, id, secret, connector, token, key, signed))]) ==
      w.(hub := Hub.EnrollStep(w.hub, g, id, secret, connector, token, key, signed))
  {
    Extends(run, config, now, events, HubEvent(Hub.Enroll(g, id, secret, connector, token, key, signed)));
  }

  lemma Rechallenges(run: seq<Event> -> World, config: Hub.Config, now: int, events: seq<Event>, g: string, id: string, secret: string)
    requires IsRun(run, config, now)
    ensures var w := run(events);
      run(events + [HubEvent(Hub.Rechallenge(g, id, secret))]) ==
      w.(hub := Hub.RechallengeStep(w.hub, g, id, secret))
  {
    Extends(run, config, now, events, HubEvent(Hub.Rechallenge(g, id, secret)));
  }

  lemma Authenticates(run: seq<Event> -> World, config: Hub.Config, now: int, events: seq<Event>, g: string, id: string, secret: string, connector: string, instance: string, epoch: int, signed: bool)
    requires IsRun(run, config, now)
    ensures var w := run(events);
      run(events + [HubEvent(Hub.Authenticate(g, id, secret, connector, instance, epoch, signed))]) ==
      World(Hub.AuthenticateStep(w.hub, g, id, secret, connector, instance, epoch, signed),
              DeskAfter(w, Hub.Authenticate(g, id, secret, connector, instance, epoch, signed)))
  {
    Extends(run, config, now, events, HubEvent(Hub.Authenticate(g, id, secret, connector, instance, epoch, signed)));
  }

  lemma Beats(run: seq<Event> -> World, config: Hub.Config, now: int, events: seq<Event>, g: string, epoch: int)
    requires IsRun(run, config, now)
    ensures var w := run(events);
      run(events + [HubEvent(Hub.Heartbeat(g, epoch))]) ==
      w.(hub := Hub.HeartbeatStep(w.hub, g, epoch))
  {
    Extends(run, config, now, events, HubEvent(Hub.Heartbeat(g, epoch)));
  }

  lemma Rejects(run: seq<Event> -> World, config: Hub.Config, now: int, events: seq<Event>, g: string)
    requires IsRun(run, config, now)
    ensures var w := run(events);
      run(events + [HubEvent(Hub.Malformed(g))]) ==
      w.(hub := Hub.MalformedStep(w.hub, g))
  {
    Extends(run, config, now, events, HubEvent(Hub.Malformed(g)));
  }

  lemma TearsDown(run: seq<Event> -> World, config: Hub.Config, now: int, events: seq<Event>, g: string)
    requires IsRun(run, config, now)
    ensures var w := run(events);
      run(events + [HubEvent(Hub.Teardown(g))]) ==
      World(Hub.TeardownStep(w.hub, g), DeskAfter(w, Hub.Teardown(g)))
  {
    Extends(run, config, now, events, HubEvent(Hub.Teardown(g)));
  }

  lemma Revokes(run: seq<Event> -> World, config: Hub.Config, now: int, events: seq<Event>, connector: string)
    requires IsRun(run, config, now)
    ensures var w := run(events);
      run(events + [HubEvent(Hub.Revoke(connector))]) ==
      w.(hub := Hub.RevokeStep(w.hub, connector))
  {
    Extends(run, config, now, events, HubEvent(Hub.Revoke(connector)));
  }

  lemma Deletes(run: seq<Event> -> World, config: Hub.Config, now: int, events: seq<Event>, connector: string)
    requires IsRun(run, config, now)
    ensures var w := run(events);
      run(events + [HubEvent(Hub.Delete(connector))]) ==
      w.(hub := Hub.DeleteStep(w.hub, connector))
  {
    Extends(run, config, now, events, HubEvent(Hub.Delete(connector)));
  }

  lemma ReadsLiveness(run: seq<Event> -> World, config: Hub.Config, now: int, events: seq<Event>)
    requires IsRun(run, config, now)
    ensures var w := run(events);
      run(events + [HubEvent(Hub.LivenessRead)]) ==
      w.(hub := Hub.SweepNow(w.hub))
  {
    Extends(run, config, now, events, HubEvent(Hub.LivenessRead));
  }

  lemma Restarts(run: seq<Event> -> World, config: Hub.Config, now: int, events: seq<Event>)
    requires IsRun(run, config, now)
    ensures var w := run(events);
      run(events + [HubEvent(Hub.Restart)]) ==
      World(Hub.RestartStep(w.hub), RestartDesk(w.desk))
  {
    Extends(run, config, now, events, HubEvent(Hub.Restart));
  }
}
