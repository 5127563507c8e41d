/** The whole condition is exact: if the two are not compatible, or whichever part of `Roomy` fails, some
    punctual run ends in failure, and one of biased drivers at that. */
module Exactness {
  import opened Prelude
  import opened Configuration
  import opened Packets
  import opened Events
  import opened Machine
  import opened Drivers
  import opened Network
  import opened Sessions
  import opened Safety
  import opened Progress
  import opened Timing
  import opened Service
  import opened Limits
  import opened Tightness

  // ---------------------------------------------------------------- single steps

  /** A wait of any length, if everything is in time at its end. */
  lemma Wait(setting: Setting, env: Env, w: World, to: nat)
    requires setting.Punctual? && w.a.queue == w.b.queue == []
    requires w.now <= to && Prompt(env, w.(now := to), setting.late, setting.latency)
    ensures Play(setting, env, w, [Advance(to)]) == w.(now := to)
  {
    OneStep(setting, env, w, Advance(to));
  }

  /** An identification timeout, once due, ends the connection. */
  lemma CallerTiFires(setting: Setting, env: Env, w: World)
    requires setting.Punctual? && w.a.open && w.a.queue == [] && w.a.core.state.IdPending? && w.a.core.state.ti <= w.now
    ensures !Healthy(Play(setting, env, w, [Local(Caller, TiTimeout)]))
  {
    OneStep(setting, env, w, Local(Caller, TiTimeout));
  }

  lemma CalleeTiFires(setting: Setting, env: Env, w: World)
    requires setting.Punctual? && w.b.open && w.b.queue == []
    requires w.b.core.state.IdPending? || (w.b.core.state.AcceptPending? && Lookup(env.b, w.b.core.id).Some?)
    requires w.b.core.state.ti <= w.now
    ensures !Healthy(Play(setting, env, w, [Local(Callee, TiTimeout)]))
  {
    OneStep(setting, env, w, Local(Callee, TiTimeout));
  }

  // ---------------------------------------------------------------- identification without room

  predicate StartsInTime(t: Tempo) {
    t.tb <= t.ta + t.latency
  }

  /** The caller's handshake is on the wire until `to`. */
  lemma HelloTravels(setting: Setting, env: Env, t: Tempo, to: nat) returns (acts: seq<Action>)
    requires WellMatched(env) && Follows(setting, t) && Start(env, t.ta, t.tb).now <= to <= t.ta + t.latency
    ensures var w := Start(env, t.ta, t.tb);
            Play(setting, env, w, acts) == w.(now := to, a := w.a.(queue := []), ab := w.a.queue)
  {
    hide Play;
    StartIs(env, t.ta, t.tb);
    var w := Start(env, t.ta, t.tb);
    OneStep(setting, env, w, Flush(Caller));
    var w1 := Effect(env, w, Flush(Caller));
    Wait(setting, env, w1, to);
    PlayAppend(setting, env, w, [Flush(Caller)], [Advance(to)]);
    acts := [Flush(Caller)] + [Advance(to)];
  }

  /** The handshake reaches the callee at `at`, and the answer is on its way. */
  lemma HelloArrives(setting: Setting, env: Env, t: Tempo, at: nat, order: seq<string>) returns (acts: seq<Action>)
    requires WellMatched(env) && Follows(setting, t) && Enumerates(order, env.b.connections)
    requires Start(env, t.ta, t.tb).now <= at <= t.ta + t.latency
    requires at < t.tb + env.b.serverTi.value
    ensures var w := Start(env, t.ta, t.tb);
            Play(setting, env, w, acts)
            == World(at, w.a.(queue := []),
                     Peer(Core(AcceptPending(at + ConfB(env).ti), true, ConfB(env).initialTarget, Some(env.kb)),
                          [], [], [], true),
                     [], [Stamped(HelloB(env), at)])
  {
    hide Next, PacketEvent, Take, Read, Play;
    var w := Start(env, t.ta, t.tb);
    StartIs(env, t.ta, t.tb);
    StartIsSafe(env, t.ta, t.tb);
    var s1 := HelloTravels(setting, env, t, at);
    var w1 := Play(setting, env, w, s1);
    assert View(w1) == View(w).(now := at);
    OneStep(setting, env, w1, Deliver(Callee, order));
    ReadHelloB(env, w1, order);
    var w2 := Effect(env, w1, Deliver(Callee, order));
    OneStep(setting, env, w2, Flush(Callee));
    PlayAppend(setting, env, w, s1, [Deliver(Callee, order)]);
    PlayAppend(setting, env, w, s1 + [Deliver(Callee, order)], [Flush(Callee)]);
    acts := s1 + [Deliver(Callee, order)] + [Flush(Callee)];
  }

  /** The server's own timer can run out before the handshake is there. */
  lemma ServerTimerTooShort(setting: Setting, env: Env, t: Tempo) returns (acts: seq<Action>)
    requires WellMatched(env) && StartsInTime(t) && Follows(setting, t)
    requires t.tb + env.b.serverTi.value <= t.ta + t.latency
    ensures !Healthy(Play(setting, env, Start(env, t.ta, t.tb), acts))
  {
    hide Play, Healthy, Start;
    var w := Start(env, t.ta, t.tb);
    StartIs(env, t.ta, t.tb);
    var due := Max(w.now, t.tb + env.b.serverTi.value);
    var s1 := HelloTravels(setting, env, t, due);
    CalleeTiFires(setting, env, Play(setting, env, w, s1));
    acts := s1 + [Local(Callee, TiTimeout)];
    PlayAppend(setting, env, w, s1, [Local(Callee, TiTimeout)]);
  }

  /** The caller's timer can run out while the two handshakes cross the network. */
  lemma CallerTimerTooShort(setting: Setting, env: Env, t: Tempo) returns (acts: seq<Action>)
    requires WellMatched(env) && StartsInTime(t) && Follows(setting, t)
    requires ConfA(env).ti <= 2 * t.latency
    ensures !Healthy(Play(setting, env, Start(env, t.ta, t.tb), acts))
  {
    hide Play, Healthy, Start;
    var w := Start(env, t.ta, t.tb);
    StartIs(env, t.ta, t.tb);
    var due := Max(w.now, t.ta + ConfA(env).ti);
    var fire := [Local(Caller, TiTimeout)];
    if t.tb + env.b.serverTi.value <= t.ta + t.latency {
      acts := ServerTimerTooShort(setting, env, t);
    } else if due <= t.ta + t.latency {
      var s1 := HelloTravels(setting, env, t, due);
      CallerTiFires(setting, env, Play(setting, env, w, s1));
      acts := s1 + fire;
      PlayAppend(setting, env, w, s1, fire);
    } else {
      var order := SomeOrder(env.b.connections);
      var s1 := HelloArrives(setting, env, t, t.ta + t.latency, order);
      var v := Play(setting, env, w, s1);
      Wait(setting, env, v, due);
      CallerTiFires(setting, env, v.(now := due));
      PlayAppend(setting, env, w, s1, [Advance(due)]);
      PlayAppend(setting, env, w, s1 + [Advance(due)], fire);
      acts := s1 + [Advance(due)] + fire;
    }
  }

  /** The answer reaches the caller at `at`, which accepts, and starts up if it is to. */
  lemma AnswerArrives(setting: Setting, env: Env, w: World, at: nat, order: seq<string>) returns (acts: seq<Action>)
    requires setting.Punctual? && WellMatched(env) && Enumerates(order, env.a.connections)
    requires w.a.core.state.IdPending? && !w.a.core.server && Named(w.a.core, env.a, env.ka)
    requires w.a.open && w.a.queue == [] && w.a.accepted == w.a.received == []
    requires w.b.core.state.AcceptPending? && Named(w.b.core, env.b, env.kb)
    requires w.b.queue == w.ab == [] && w.ba == [Stamped(HelloB(env), w.now)]
    requires w.now <= at <= w.now + setting.latency && at < w.a.core.state.ti
    ensures var v := Play(setting, env, w, acts);
            && v.now == at && v.b == w.b && v.a.queue == v.ba == [] && InTime(v.ab, v.now, 0)
            && (v.a.core.state.Ready? || v.a.core.state.AssociationPending?) && !AutoStarts(v.a.core)
  {
    hide Next, PacketEvent, Take, Read, Play;
    Wait(setting, env, w, at);
    var w1 := w.(now := at);
    assert View(w1).ba == w1.ba && View(w1).ab == [];
    OneStep(setting, env, w1, Deliver(Caller, order));
    ReadHelloA(env, w1, order);
    var w2 := Effect(env, w1, Deliver(Caller, order));
    OneStep(setting, env, w2, Flush(Caller));
    var w3 := Effect(env, w2, Flush(Caller));
    PlayAppend(setting, env, w, [Advance(at)], [Deliver(Caller, order)]);
    PlayAppend(setting, env, w, [Advance(at)] + [Deliver(Caller, order)], [Flush(Caller)]);
    acts := [Advance(at)] + [Deliver(Caller, order)] + [Flush(Caller)];
    if AutoStarts(w3.a.core) {
      var s2 := StartsUp(setting, env, w3);
      PlayAppend(setting, env, w, acts, s2);
      acts := acts + s2;
    }
  }

  lemma StartsUp(setting: Setting, env: Env, w: World) returns (acts: seq<Action>)
    requires setting.Punctual? && w.a.open && w.a.queue == []
    requires AutoStarts(w.a.core) && Lookup(env.a, w.a.core.id).Some?
    ensures var cc := Lookup(env.a, w.a.core.id).value;
            Play(setting, env, w, acts)
            == w.(a := w.a.(core := w.a.core.(state := AssociationPending(w.now + cc.tr))),
                  ab := w.ab + [Stamped(STARTUP_PACKET, w.now)])
  {
    hide Next, Take, Play, IsLocal;
    var start := Local(Caller, LStartup(w.now));
    StartupIsLocal(w.now);
    OneStep(setting, env, w, start);
    StartupIs(env.a, w.a, w.now);
    var w1 := Effect(env, w, start);
    OneStep(setting, env, w1, Flush(Caller));
    PlayAppend(setting, env, w, [start], [Flush(Caller)]);
    acts := [start] + [Flush(Caller)];
  }

  lemma StartupIsLocal(now: nat)
    ensures IsLocal(LStartup(now))
  {
  }

  lemma StartupIs(config: Config, p: Peer, now: nat)
    requires AutoStarts(p.core) && Lookup(config, p.core.id).Some? && p.open
    ensures Take(config, p, LStartup(now), now)
            == p.(core := p.core.(state := AssociationPending(now + Lookup(config, p.core.id).value.tr)),
                  queue := p.queue + [Stamped(STARTUP_PACKET, now)])
  {
    var o := Next(config, p.core, LStartup(now));
    assert Stamp(o.sent, now) == [Stamped(STARTUP_PACKET, now)];
  }

  /** The callee's second timer can run out while its handshake and the ACCEPT cross the network. */
  lemma CalleeTimerTooShort(setting: Setting, env: Env, t: Tempo) returns (acts: seq<Action>)
    requires WellMatched(env) && StartsInTime(t) && Follows(setting, t)
    requires ConfB(env).ti <= 2 * t.latency
    ensures !Healthy(Play(setting, env, Start(env, t.ta, t.tb), acts))
  {
    hide Play, Healthy, Start;
    if t.tb + env.b.serverTi.value <= t.ta + t.latency {
      acts := ServerTimerTooShort(setting, env, t);
    } else if ConfA(env).ti <= 2 * t.latency {
      acts := CallerTimerTooShort(setting, env, t);
    } else {
      StartIs(env, t.ta, t.tb);
      var w := Start(env, t.ta, t.tb);
      var order := SomeOrder(env.b.connections);
      var s1 := HelloArrives(setting, env, t, w.now, order);
      var s2 := AnswerIsSlow(setting, env, Play(setting, env, w, s1));
      PlayAppend(setting, env, w, s1, s2);
      acts := s1 + s2;
    }
  }

  /** The callee's handshake and the ACCEPT that answers it take as long as they may. */
  lemma AnswerIsSlow(setting: Setting, env: Env, w: World) returns (acts: seq<Action>)
    requires setting.Punctual? && WellMatched(env) && ConfB(env).ti <= 2 * setting.latency
    requires w.a.core.state.IdPending? && !w.a.core.server && Named(w.a.core, env.a, env.ka)
    requires w.a.open && w.a.queue == [] && w.a.accepted == w.a.received == []
    requires w.b.core.state == AcceptPending(w.now + ConfB(env).ti) && Named(w.b.core, env.b, env.kb) && w.b.open
    requires w.b.queue == w.ab == [] && w.ba == [Stamped(HelloB(env), w.now)]
    requires w.now + setting.latency < w.a.core.state.ti
    ensures !Healthy(Play(setting, env, w, acts))
  {
    hide Play, Healthy;
    var due := w.now + ConfB(env).ti;
    var fire := [Local(Callee, TiTimeout)];
    if ConfB(env).ti <= setting.latency {
      Wait(setting, env, w, due);
      CalleeTiFires(setting, env, w.(now := due));
      PlayAppend(setting, env, w, [Advance(due)], fire);
      acts := [Advance(due)] + fire;
    } else {
      var order := SomeOrder(env.a.connections);
      var s1 := AnswerArrives(setting, env, w, w.now + setting.latency, order);
      var v := Play(setting, env, w, s1);
      Wait(setting, env, v, due);
      CalleeTiFires(setting, env, v.(now := due));
      PlayAppend(setting, env, w, s1, [Advance(due)]);
      PlayAppend(setting, env, w, s1 + [Advance(due)], fire);
      acts := s1 + [Advance(due)] + fire;
    }
  }

  // ---------------------------------------------------------------- bring-up without room

  /** Both identified and about to associate, with nothing under way. */
  ghost predicate AboutToStart(env: Env, w: World) {
    && env.ka in env.a.connections && env.kb in env.b.connections
    && w.a.open && AutoStarts(w.a.core) && w.a.core.id == Some(env.ka)
    && w.b.open && AutoStarts(w.b.core) && w.b.core.id == Some(env.kb)
    && w.a.queue == w.b.queue == w.ab == w.ba == []
  }

  predicate Sign(p: Packet) { p == STARTUP_PACKET || p == HEARTBEAT_PACKET }

  /** The callee is in DATA_READY since `since`; its startups and heartbeats are held back from the caller,
      which is still associating. */
  ghost predicate Stalled(env: Env, w: World, since: nat, late: nat) {
    && env.ka in env.a.connections && env.kb in env.b.connections
    && w.a.open && w.a.core.state.AssociationPending? && w.a.core.id == Some(env.ka)
    && w.b.open && w.b.core.state.DataReady? && w.b.core.id == Some(env.kb)
    && w.b.core.state.tr == since + ConfB(env).tr
    && w.now <= w.b.core.state.ts + late
    && w.a.queue == w.b.queue == w.ab == []
    && w.ba != [] && w.ba[0].packet == STARTUP_PACKET
    && forall i :: 0 <= i < |w.ba| ==> Sign(w.ba[i].packet) && since <= w.ba[i].at
  }

  lemma StartupMakesDataReady(config: Config, p: Peer, now: nat, order: seq<string>)
    requires p.core.state.AssociationPending? && Lookup(config, p.core.id).Some? && p.open && p.queue == []
    ensures var cc := Lookup(config, p.core.id).value;
            Read(config, p, STARTUP_PACKET, now, order)
            == p.(core := p.core.(state := State.DataReady(now + cc.tr, now + cc.ts)),
                  queue := [Stamped(STARTUP_PACKET, now)])
  {
    var o := Next(config, p.core, RStartup(now));
    assert Stamp(o.sent, now) == [Stamped(STARTUP_PACKET, now)];
  }

  /** Both start up; the callee reads at once, the caller does not. */
  lemma CalleeGoesAhead(setting: Setting, env: Env, w: World) returns (acts: seq<Action>)
    requires setting.Punctual? && AboutToStart(env, w) && (setting.biased ==> 0 < ConfB(env).tr)
    ensures var v := Play(setting, env, w, acts);
            Stalled(env, v, w.now, setting.late) && v.now == w.now
  {
    hide Next, PacketEvent, Take, Read, IsLocal;
    var order := SomeOrder(env.b.connections);
    StartupIsLocal(w.now);
    StartupIs(env.a, w.a, w.now);
    PlaySnoc(setting, env, w, [], Local(Caller, LStartup(w.now)));
    acts := [] + [Local(Caller, LStartup(w.now))];
    var w1 := Play(setting, env, w, acts);
    PlaySnoc(setting, env, w, acts, Flush(Caller));
    acts := acts + [Flush(Caller)];
    var w2 := Play(setting, env, w, acts);
    assert w2.ab == [Stamped(STARTUP_PACKET, w.now)] && w2.a.queue == [];
    StartupIs(env.b, w2.b, w.now);
    var s2 := CalleeStartsAndReads(setting, env, w2, order);
    PlayAppend(setting, env, w, acts, s2);
    acts := acts + s2;
  }

  lemma CalleeStartsAndReads(setting: Setting, env: Env, w: World, order: seq<string>) returns (acts: seq<Action>)
    requires setting.Punctual? && env.kb in env.b.connections && Enumerates(order, env.b.connections)
    requires setting.biased ==> 0 < ConfB(env).tr
    requires w.b.open && AutoStarts(w.b.core) && w.b.core.id == Some(env.kb)
    requires w.a.queue == w.b.queue == w.ba == [] && w.ab == [Stamped(STARTUP_PACKET, w.now)]
    ensures var v := Play(setting, env, w, acts);
            && v.now == w.now && v.a == w.a && v.ab == [] && v.b.queue == []
            && v.b.open && v.b.core.id == w.b.core.id
            && v.b.core.state == State.DataReady(w.now + ConfB(env).tr, w.now + ConfB(env).ts)
            && v.ba == [Stamped(STARTUP_PACKET, w.now), Stamped(STARTUP_PACKET, w.now)]
  {
    hide Next, PacketEvent, Take, Read, IsLocal, Play;
    var start, flush, read := Local(Callee, LStartup(w.now)), Flush(Callee), Deliver(Callee, order);
    StartupIsLocal(w.now);
    StartupIs(env.b, w.b, w.now);
    OneStep(setting, env, w, start);
    var w1 := Effect(env, w, start);
    OneStep(setting, env, w1, flush);
    var w2 := Effect(env, w1, flush);
    OneStep(setting, env, w2, read);
    StartupMakesDataReady(env.b, w2.b, w2.now, order);
    var w3 := Effect(env, w2, read);
    OneStep(setting, env, w3, flush);
    PlayAppend(setting, env, w, [start], [flush]);
    PlayAppend(setting, env, w, [start] + [flush], [read]);
    PlayAppend(setting, env, w, [start] + [flush] + [read], [flush]);
    acts := [start] + [flush] + [read] + [flush];
  }

  lemma StalledBeats(setting: Setting, env: Env, w: World, since: nat) returns (acts: seq<Action>)
    requires setting.Punctual? && Stalled(env, w, since, setting.late) && since <= w.now && w.b.core.state.ts <= w.now
    ensures var v := Play(setting, env, w, acts);
            Stalled(env, v, since, setting.late) && v.now == w.now && v.b.core.state.ts == w.now + ConfB(env).ts
  {
    hide Next, Take, IsLocal;
    TimersAreLocal(w.now);
    var beat := Local(Callee, TsTimeout(w.now));
    PlaySnoc(setting, env, w, [], beat);
    BeatIs(env.b, w.b, w.now);
    acts := [] + [beat];
    PlaySnoc(setting, env, w, acts, Flush(Callee));
    acts := acts + [Flush(Callee)];
  }

  lemma {:induction false} StallUntil(setting: Setting, env: Env, w: World, since: nat, until: nat)
    returns (acts: seq<Action>)
    requires setting.Punctual? && Stalled(env, w, since, setting.late)
    requires since <= w.now <= until <= since + setting.latency
    requires ConfB(env).ts + setting.late > 0
    ensures var v := Play(setting, env, w, acts);
            Stalled(env, v, since, setting.late) && v.now == until
    decreases until - w.now
  {
    hide Play;
    if w.now == until {
      acts := [];
      PlayNothing(setting, env, w);
    } else {
      var s1: seq<Action> := [];
      if w.b.core.state.ts <= w.now {
        s1 := StalledBeats(setting, env, w, since);
      } else {
        PlayNothing(setting, env, w);
      }
      var w1 := Play(setting, env, w, s1);
      Wait(setting, env, w1, w1.now + 1);
      var s2 := StallUntil(setting, env, w1.(now := w1.now + 1), since, until);
      PlayAppend(setting, env, w, s1, [Advance(w1.now + 1)]);
      PlayAppend(setting, env, w, s1 + [Advance(w1.now + 1)], s2);
      acts := s1 + [Advance(w1.now + 1)] + s2;
    }
  }

  lemma SignIsHeard(config: Config, p: Peer, packet: Packet, now: nat, order: seq<string>)
    requires p.core.state.DataReady? && Lookup(config, p.core.id).Some? && p.open && Sign(packet)
    ensures Read(config, p, packet, now, order)
            == p.(core := p.core.(state := State.DataReady(now + Lookup(config, p.core.id).value.tr, p.core.state.ts)))
  {
    var e := if packet == STARTUP_PACKET then RStartup(now) else RHeartbeat(now);
    var o := Next(config, p.core, e);
    assert Stamp(o.sent, now) == [];
  }

  /** The caller reads everything that was held back. */
  lemma {:induction false} Drain(setting: Setting, env: Env, w: World, order: seq<string>) returns (acts: seq<Action>)
    requires setting.Punctual? && env.ka in env.a.connections && Enumerates(order, env.a.connections)
    requires setting.biased ==> 0 < ConfA(env).tr && Blocks(w.a.core, w.now)
    requires w.a.open && w.a.queue == [] && w.a.core.state.DataReady? && w.a.core.id == Some(env.ka)
    requires forall i :: 0 <= i < |w.ba| ==> Sign(w.ba[i].packet)
    ensures var v := Play(setting, env, w, acts);
            && v.ba == [] && v.now == w.now && v.b == w.b && v.ab == w.ab
            && v.a.open && v.a.queue == w.a.queue && v.a.core.id == w.a.core.id
            && v.a.core.state.DataReady? && v.a.core.state.ts == w.a.core.state.ts
    decreases |w.ba|
  {
    hide Play, Next, Take, Read, PacketEvent;
    if w.ba == [] {
      acts := [];
      PlayNothing(setting, env, w);
    } else {
      var act := Deliver(Caller, order);
      OneStep(setting, env, w, act);
      SignIsHeard(env.a, w.a, w.ba[0].packet, w.now, order);
      var rest := Drain(setting, env, Effect(env, w, act), order);
      PlayAppend(setting, env, w, [act], rest);
      acts := [act] + rest;
    }
  }

  /** The caller retries if that is due. */
  lemma StalledRetries(setting: Setting, env: Env, w: World, since: nat) returns (acts: seq<Action>)
    requires setting.Punctual? && Stalled(env, w, since, setting.late) && 0 < ConfA(env).tr
    ensures var v := Play(setting, env, w, acts);
            && v.now == w.now && v.b == w.b && v.ba == w.ba && v.a.queue == []
            && (v.ab == [] || v.ab == [Stamped(STARTUP_PACKET, w.now)])
            && v.a.open && v.a.core.state.AssociationPending? && v.a.core.id == w.a.core.id
            && v.now < v.a.core.state.tr
  {
    hide Play, Next, Take, IsLocal;
    if w.now < w.a.core.state.tr {
      PlayNothing(setting, env, w);
      acts := [];
    } else {
      TimersAreLocal(w.now);
      var retry := Local(Caller, TrTimeout(w.now));
      OneStep(setting, env, w, retry);
      RetryIs(env.a, w.a, w.now);
      var w1 := Effect(env, w, retry);
      OneStep(setting, env, w1, Flush(Caller));
      PlayAppend(setting, env, w, [retry], [Flush(Caller)]);
      acts := [retry] + [Flush(Caller)];
    }
  }

  lemma RetryIs(config: Config, p: Peer, now: nat)
    requires p.core.state.AssociationPending? && Lookup(config, p.core.id).Some? && p.open && p.queue == []
    ensures Take(config, p, TrTimeout(now), now)
            == p.(core := p.core.(state := AssociationPending(now + Lookup(config, p.core.id).value.tr)),
                  queue := [Stamped(STARTUP_PACKET, now)])
  {
    var o := Next(config, p.core, TrTimeout(now));
    assert Stamp(o.sent, now) == [Stamped(STARTUP_PACKET, now)];
  }

  /** The caller, retrying first if it has to, catches up at `w.now`; its startups are on the wire. */
  lemma CallerCatchesUp(setting: Setting, env: Env, w: World, since: nat) returns (acts: seq<Action>)
    requires setting.Punctual? && Stalled(env, w, since, setting.late) && TimeCanPass(setting, env)
    ensures var v := Play(setting, env, w, acts);
            && HeldBack(setting, env, v, w.now) && v.now == w.now
            && v.b.core.state.tr == w.b.core.state.tr
  {
    hide Play, Next, Take, Read, PacketEvent;
    var order := SomeOrder(env.a.connections);
    var s1: seq<Action> := [];
    if setting.biased {
      s1 := StalledRetries(setting, env, w, since);
    } else {
      PlayNothing(setting, env, w);
    }
    var w1 := Play(setting, env, w, s1);
    var first := Deliver(Caller, order);
    OneStep(setting, env, w1, first);
    StartupMakesDataReady(env.a, w1.a, w.now, order);
    var w2 := Effect(env, w1, first);
    OneStep(setting, env, w2, Flush(Caller));
    var w3 := Effect(env, w2, Flush(Caller));
    PlayAppend(setting, env, w, s1, [first]);
    PlayAppend(setting, env, w, s1 + [first], [Flush(Caller)]);
    var s4 := Drain(setting, env, w3, order);
    PlayAppend(setting, env, w, s1 + [first] + [Flush(Caller)], s4);
    acts := s1 + [first] + [Flush(Caller)] + s4;
  }

  lemma StalledTimesOut(setting: Setting, env: Env, w: World, since: nat)
    requires setting.Punctual? && Stalled(env, w, since, setting.late) && w.b.core.state.tr == w.now
    ensures !Healthy(Play(setting, env, w, [Local(Callee, TrTimeout(w.now))]))
  {
    TimersAreLocal(w.now);
    OneStep(setting, env, w, Local(Callee, TrTimeout(w.now)));
  }

  /** A peer that goes ahead can time out before the answer to its startup has crossed the network twice. */
  lemma CalleeCanStarve(setting: Setting, env: Env, w: World) returns (acts: seq<Action>)
    requires setting.Punctual? && AboutToStart(env, w)
    requires TimeCanPass(setting, env)
    requires ConfB(env).tr <= 2 * setting.latency
    ensures !Healthy(Play(setting, env, w, acts))
  {
    hide Play, Healthy;
    var s1 := CalleeGoesAhead(setting, env, w);
    var w1 := Play(setting, env, w, s1);
    var end := w.now + ConfB(env).tr;
    var fire := [Local(Callee, TrTimeout(end))];
    if ConfB(env).tr <= setting.latency {
      var s2 := StallUntil(setting, env, w1, w.now, end);
      PlayAppend(setting, env, w, s1, s2);
      StalledTimesOut(setting, env, Play(setting, env, w1, s2), w.now);
      PlayAppend(setting, env, w, s1 + s2, fire);
      acts := s1 + s2 + fire;
    } else {
      var s2 := StallUntil(setting, env, w1, w.now, w.now + setting.latency);
      var w2 := Play(setting, env, w1, s2);
      PlayAppend(setting, env, w, s1, s2);
      var s3 := CallerCatchesUp(setting, env, w2, w.now);
      var w3 := Play(setting, env, w2, s3);
      PlayAppend(setting, env, w, s1 + s2, s3);
      var s4 := SilenceFails(setting, env, w3, w2.now, end);
      PlayAppend(setting, env, w, s1 + s2 + s3, s4);
      acts := s1 + s2 + s3 + s4;
    }
  }

  lemma ResponseTimersTooShort(setting: Setting, env: Env, t: Tempo) returns (acts: seq<Action>)
    requires WellMatched(env) && BothWantData(env) && Follows(setting, t)
    requires TimeCanPass(setting, env) && (setting.biased ==> HasTime(env, t.ta, t.tb))
    requires ConfA(env).tr <= 2 * t.latency || ConfB(env).tr <= 2 * t.latency
    ensures !Healthy(Play(setting, env, Start(env, t.ta, t.tb), acts))
  {
    hide Play, Healthy, Start;
    var w := Start(env, t.ta, t.tb);
    var orderA := SomeOrder(env.a.connections);
    var orderB := SomeOrder(env.b.connections);
    var s1 := BothGetReady(setting, env, t.ta, t.tb, orderA, orderB);
    var v := Play(setting, env, w, s1);
    if ConfB(env).tr <= 2 * t.latency {
      var s2 := CalleeCanStarve(setting, env, v);
      PlayAppend(setting, env, w, s1, s2);
      acts := s1 + s2;
    } else {
      var s2 := CalleeCanStarve(setting, MirrorEnv(env), Mirror(v));
      PlayMirrors(setting, MirrorEnv(env), Mirror(v), s2);
      MirrorIsAsHealthy(Play(setting, MirrorEnv(env), Mirror(v), s2));
      PlayAppend(setting, env, w, s1, FlipAll(s2));
      acts := s1 + FlipAll(s2);
    }
  }

  // ---------------------------------------------------------------- the theorem

  lemma CrampedIdentificationFails(setting: Setting, env: Env, t: Tempo) returns (acts: seq<Action>)
    requires WellMatched(env) && StartsInTime(t) && Follows(setting, t)
    requires || ConfA(env).ti <= 2 * t.latency || ConfB(env).ti <= 2 * t.latency
             || t.tb + env.b.serverTi.value <= t.ta + t.latency
    ensures !Healthy(Play(setting, env, Start(env, t.ta, t.tb), acts))
  {
    hide Play, Healthy, Start;
    if ConfA(env).ti <= 2 * t.latency {
      acts := CallerTimerTooShort(setting, env, t);
    } else if ConfB(env).ti <= 2 * t.latency {
      acts := CalleeTimerTooShort(setting, env, t);
    } else {
      acts := ServerTimerTooShort(setting, env, t);
    }
  }

  lemma CrampedAssociationFails(setting: Setting, env: Env, t: Tempo) returns (acts: seq<Action>)
    requires WellMatched(env) && BothWantData(env) && Follows(setting, t)
    requires TimeCanPass(setting, env) && (setting.biased ==> HasTime(env, t.ta, t.tb))
    requires Silence(ConfA(env), t) >= ConfB(env).tr || Silence(ConfB(env), t) >= ConfA(env).tr
    ensures !Healthy(Play(setting, env, Start(env, t.ta, t.tb), acts))
  {
    hide Play, Healthy, Start;
    if ConfA(env).tr <= 2 * t.latency || ConfB(env).tr <= 2 * t.latency {
      acts := ResponseTimersTooShort(setting, env, t);
    } else {
      acts := UncoveredHeartbeatsFail(setting, env, t);
    }
  }

  lemma StartIsPrompt(env: Env, t: Tempo)
    requires WellMatched(env) && StartsInTime(t)
    ensures Prompt(env, Start(env, t.ta, t.tb), t.late, t.latency)
  {
    StartIs(env, t.ta, t.tb);
  }

  /** All punctual runs keep both peers connected if and only if the two are compatible and the timers are
      roomy; and it is the same whether all punctual runs are meant or only those of biased drivers. That each
      side has `ts <= tr`, which is what a configuration is validated for, plays no part. */
  lemma ConnectedExactlyWhenRoomy(setting: Setting, env: Env, t: Tempo)
    requires WellMatched(env) && StartsInTime(t) && Follows(setting, t)
    requires BothWantData(env) ==> TimeCanPass(setting, env)
    ensures (forall acts :: Healthy(Play(setting, env, Start(env, t.ta, t.tb), acts)))
            <==> Compatible(env) && Roomy(env, t)
  {
    hide Play, Start, Healthy, TargetsAgree;
    if || ConfA(env).ti <= 2 * t.latency || ConfB(env).ti <= 2 * t.latency
       || t.tb + env.b.serverTi.value <= t.ta + t.latency {
      var acts := CrampedIdentificationFails(setting, env, t);
    } else if !Compatible(env) {
      var acts := DisagreementFails(setting, env, t.ta, t.tb);
    } else if !Roomy(env, t) {
      var acts := CrampedAssociationFails(setting, env, t);
    } else {
      StartIsPrompt(env, t);
      forall acts
        ensures Healthy(Play(setting, env, Start(env, t.ta, t.tb), acts))
      {
        PunctualPeersStayConnected(setting, env, t, acts);
      }
    }
  }
}
