/** Deadlines over whole runs: what they are a function of, how far apart packets can be, and how long
    identification can take. */
module Deadlines {
  import opened Prelude
  import opened Configuration
  import opened Events
  import opened Machine
  import opened History
  import opened Grammar

  // ---------------------------------------------------------------- deadlines are a function of history

  predicate FromLivePeer(e: Event) { e.RStartup? || e.RData? || e.RHeartbeat? }

  /** The time of the last STARTUP, data or heartbeat of the peer. */
  function LastHeard(events: seq<Event>): Option<nat> {
    if events == [] then None
    else if FromLivePeer(Last(events)) then EventTime(Last(events))
    else LastHeard(Prefix(events))
  }

  /** In DATA_READY the send deadline is `ts` after the last packet this side queued, the response
      deadline `tr` after the last sign of life from the peer. */
  predicate Timed(c: ConnectionConfig, s: State, trail: seq<Entry>, heard: Option<nat>) {
    s.DataReady? ==>
      && trail != [] && trail[|trail| - 1].at.Some?
      && s.ts == trail[|trail| - 1].at.value + c.ts
      && heard.Some? && s.tr == heard.value + c.tr
  }

  lemma NextKeepsTimed(config: Config, c: Core, e: Event, trail: seq<Entry>, heard: Option<nat>)
    requires Sound(config, c)
    requires c.state.DataReady? ==> Timed(Lookup(config, c.id).value, c.state, trail, heard)
    ensures var o := Next(config, c, e);
            o.core.state.DataReady? ==>
              && Lookup(config, o.core.id).Some?
              && Timed(Lookup(config, o.core.id).value, o.core.state, trail + Tagged(o, e),
                       if FromLivePeer(e) then EventTime(e) else heard)
  {
    var o := Next(config, c, e);
    var added := Tagged(o, e);
    if added == [] {
      assert trail + added == trail;
    } else {
      assert |added| == 1;
      assert (trail + added)[|trail|] == added[0] == Entry(o.sent[0], o.core.server, EventTime(e));
      assert o.core.state.DataReady? ==> EventTime(e).Some?;
    }
  }

  lemma {:induction false} DeadlinesFollowHistory(config: Config, id: Option<string>, events: seq<Event>)
    ensures var c := Run(config, Initial(id), events).core;
            c.state.DataReady? ==>
              && Lookup(config, c.id).Some?
              && Timed(Lookup(config, c.id).value, c.state, Trail(config, Initial(id), events), LastHeard(events))
  {
    hide Next;
    if events == [] {
    } else {
      var c := Run(config, Initial(id), Prefix(events)).core;
      DeadlinesFollowHistory(config, id, Prefix(events));
      RunKeepsSound(config, id, Prefix(events));
      NextKeepsTimed(config, c, Last(events), Trail(config, Initial(id), Prefix(events)), LastHeard(Prefix(events)));
    }
  }

  /** With events handled at most `late` after the send deadline, consecutive packets of one
      DATA_READY stay are at most `ts + late` apart. */
  lemma Cadence(config: Config, id: Option<string>, events: seq<Event>, e: Event, late: nat)
    requires Run(config, Initial(id), events).core.state.DataReady?
    requires Run(config, Initial(id), events + [e]).core.state.DataReady?
    requires EventTime(e).Some? ==> EventTime(e).value <= Run(config, Initial(id), events).core.state.ts + late
    ensures var t := Trail(config, Initial(id), events + [e]);
            var n := |Trail(config, Initial(id), events)|;
            var found := Lookup(config, Run(config, Initial(id), events).core.id);
            n > 0 && found.Some? &&
            (n < |t| ==> |t| == n + 1 && t[n].at.Some? && t[n - 1].at.Some?
                         && t[n].at.value <= t[n - 1].at.value + found.value.ts + late)
  {
    hide Next, Timed;
    var c := Run(config, Initial(id), events).core;
    var o := Next(config, c, e);
    var before := Trail(config, Initial(id), events);
    assert Prefix(events + [e]) == events;
    DeadlinesFollowHistory(config, id, events);
    DeadlinesFollowHistory(config, id, events + [e]);
    LeavingQueuesOneShutdown(config, id, events, e);
    StampedBySender(Lookup(config, c.id).value, c.state, before, LastHeard(events));
    StampedBySender(Lookup(config, o.core.id).value, o.core.state,
                    Trail(config, Initial(id), events + [e]), LastHeard(events + [e]));
  }

  lemma StampedBySender(c: ConnectionConfig, s: State, trail: seq<Entry>, heard: Option<nat>)
    requires s.DataReady? && Timed(c, s, trail, heard)
    ensures trail != [] && trail[|trail| - 1].at.Some? && s.ts == trail[|trail| - 1].at.value + c.ts
  {
  }

  // ---------------------------------------------------------------- bounded identification

  /** The time of the last transport connection. */
  function LastSetup(events: seq<Event>): Option<nat> {
    if events == [] then None
    else if Last(events).RSetup? then EventTime(Last(events))
    else LastSetup(Prefix(events))
  }

  predicate OnTime(s: State, e: Event, late: nat) {
    s.IdPending? && EventTime(e).Some? ==> EventTime(e).value <= s.ti + late
  }

  /** No event is handled in ID_PENDING more than `late` after its deadline. */
  ghost predicate TiIsPunctual(config: Config, start: Core, events: seq<Event>, late: nat) {
    forall i :: 0 <= i < |events| ==> OnTime(Run(config, start, events[..i]).core.state, events[i], late)
  }

  /** Where the identification deadlines are, measured from the transport connection. */
  predicate IdentificationClock(config: Config, c: Core, setup: Option<nat>, late: nat) {
    match c.state
    case ConnectionPending => !c.server
    case IdPending(ti) =>
      setup.Some? &&
      if c.server then config.serverTi.Some? && ti == setup.value + config.serverTi.value
      else Lookup(config, c.id).Some? && ti == setup.value + Lookup(config, c.id).value.ti
    case AcceptPending(ti) =>
      && c.server && setup.Some? && config.serverTi.Some? && Lookup(config, c.id).Some?
      && ti <= setup.value + config.serverTi.value + late + Lookup(config, c.id).value.ti
    case _ => true
  }

  lemma NextKeepsIdentificationClock(config: Config, c: Core, e: Event, setup: Option<nat>, late: nat)
    requires IdentificationClock(config, c, setup, late) && OnTime(c.state, e, late)
    ensures IdentificationClock(config, Next(config, c, e).core, if e.RSetup? then EventTime(e) else setup, late)
  {
    if c.state.Idle? || c.state.ConnectionPending? || c.state.IdPending? {
      IdentificationClockRuns(config, c, e, setup, late);
    } else {
      IdentificationStartsOverOnly(config, c, e);
    }
  }

  lemma IdentificationClockRuns(config: Config, c: Core, e: Event, setup: Option<nat>, late: nat)
    requires IdentificationClock(config, c, setup, late) && OnTime(c.state, e, late)
    requires c.state.Idle? || c.state.ConnectionPending? || c.state.IdPending?
    ensures IdentificationClock(config, Next(config, c, e).core, if e.RSetup? then EventTime(e) else setup, late)
  {
  }

  lemma IdentificationStartsOverOnly(config: Config, c: Core, e: Event)
    requires !c.state.Idle? && !c.state.ConnectionPending? && !c.state.IdPending?
    ensures var s := Next(config, c, e).core.state;
            !s.ConnectionPending? && !s.IdPending? && !s.AcceptPending?
  {
  }

  lemma {:induction false} RunKeepsIdentificationClock(
    config: Config, id: Option<string>, events: seq<Event>, late: nat)
    requires TiIsPunctual(config, Initial(id), events, late)
    ensures IdentificationClock(config, Run(config, Initial(id), events).core, LastSetup(events), late)
  {
    hide Next;
    if events == [] {
    } else {
      var n := |events| - 1;
      forall i | 0 <= i < n
        ensures events[..n][..i] == events[..i]
        ensures OnTime(Run(config, Initial(id), events[..i]).core.state, events[..n][i], late)
      {
      }
      RunKeepsIdentificationClock(config, id, events[..n], late);
      assert OnTime(Run(config, Initial(id), events[..n]).core.state, events[n], late);
      NextKeepsIdentificationClock(config, Run(config, Initial(id), events[..n]).core, events[n],
                                   LastSetup(events[..n]), late);
    }
  }

  /** With Ti served at most `late` after its deadline, a server has left ID_PENDING and ACCEPT_PENDING by
      `serverTi + ti + 2 late` after the transport connection, a client by `ti + late`. */
  lemma IdentificationIsBounded(config: Config, id: Option<string>, events: seq<Event>, late: nat, now: nat)
    requires TiIsPunctual(config, Initial(id), events, late)
    ensures var c := Run(config, Initial(id), events).core;
            var setup := LastSetup(events);
            (c.state.IdPending? || c.state.AcceptPending?) && now <= c.state.ti + late ==>
              && setup.Some?
              && (c.server ==>
                    && config.serverTi.Some?
                    && (c.state.IdPending? ==> now <= setup.value + config.serverTi.value + late)
                    && (c.state.AcceptPending? ==>
                          Lookup(config, c.id).Some? &&
                          now <= setup.value + config.serverTi.value + Lookup(config, c.id).value.ti + 2 * late))
              && (!c.server ==>
                    && c.state.IdPending? && Lookup(config, c.id).Some?
                    && now <= setup.value + Lookup(config, c.id).value.ti + late)
  {
    hide Next;
    RunKeepsIdentificationClock(config, id, events, late);
  }

  /** In a configuration as `Validate` returns it, with any server entry, every incoming transport
      connection, the first or a later one, gets its timer: at least the `ti` of each server entry if that was
      left to `Validate`. */
  lemma ServerAlwaysStarts(config: Config, completed: Config, c: Core, now: nat, k: string)
    requires IsCompleted(config, completed) && c.state.Idle?
    requires k in config.connections && config.connections[k].role.Server?
    ensures var s := Next(completed, c, RSetup(now)).core.state;
            && s.IdPending?
            && (config.serverTi.None? ==> s.ti >= now + config.connections[k].ti)
            && (config.serverTi.Some? ==> s.ti == now + config.serverTi.value)
  {
    assert HasServer(config);
  }
}
