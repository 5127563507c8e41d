/** The timing condition of the punctual service is exact: with any less room between one side's heartbeats
    and the other side's response deadline there is a punctual run in which a peer times out. */
module Tightness {
  import opened Prelude
  import opened Configuration
  import opened Packets
  import opened Events
  import opened Machine
  import opened Drivers
  import opened Network
  import opened Sessions
  import opened Safety
  import opened Progress
  import opened Timing
  import opened Limits

  // ---------------------------------------------------------------- runs can be mirrored

  function FlipAll(acts: seq<Action>): (r: seq<Action>)
    ensures |r| == |acts|
  {
    seq(|acts|, i requires 0 <= i < |acts| => Flip(acts[i]))
  }

  lemma PermittedMirrors(setting: Setting, env: Env, w: World, act: Action)
    ensures Permitted(setting, env, w, act) <==> Permitted(setting, MirrorEnv(env), Mirror(w), Flip(act))
    ensures Permitted(setting, env, w, act) ==> Possible(w, act)
  {
  }

  lemma {:induction false} PlayMirrors(setting: Setting, env: Env, w: World, acts: seq<Action>)
    ensures Play(setting, MirrorEnv(env), Mirror(w), FlipAll(acts)) == Mirror(Play(setting, env, w, acts))
  {
    hide Permitted, Effect, Flip;
    if acts == [] {
    } else {
      var n := |acts| - 1;
      PlayMirrors(setting, env, w, acts[..n]);
      assert FlipAll(acts)[..n] == FlipAll(acts[..n]);
      var before := Play(setting, env, w, acts[..n]);
      PermittedMirrors(setting, env, before, acts[n]);
      if Permitted(setting, env, before, acts[n]) {
        EffectMirrors(env, before, acts[n]);
      }
    }
  }

  // ---------------------------------------------------------------- bring-up in an instant

  predicate Fresh(c: Core, cc: ConnectionConfig, now: nat) {
    c.state.DataReady? ==> c.state.tr == now + cc.tr && c.state.ts == now + cc.ts
  }

  predicate BothFresh(env: Env, w: World)
    requires env.ka in env.a.connections && env.kb in env.b.connections
  {
    Fresh(w.a.core, ConfA(env), w.now) && Fresh(w.b.core, ConfB(env), w.now)
  }

  lemma CallerReadsFresh(env: Env, s: Session, order: seq<string>)
    requires WellMatched(env) && Compatible(env) && Shape(env, s) && s.ba != [] && Listens(s.a, s.now)
    requires Fresh(s.a, ConfA(env), s.now)
    ensures var r := CallerEvent(env.a, s, order);
            r.Ok? && Fresh(Next(env.a, s.a, r.value).core, ConfA(env), s.now)
  {
    hide PacketEvent;
    if Answering(env, s) {
      CallerHearsHello(env, s, order);
    } else {
      if s.a.state.Ready? {
        ReadyHearsNothing(env, s);
      }
      TrafficNext(env.a, s.a, s.ba[0].packet, s.now, order);
    }
  }

  lemma CalleeReadsFresh(env: Env, s: Session, order: seq<string>)
    requires WellMatched(env) && Compatible(env) && Shape(env, s) && s.ab != [] && Listens(s.b, s.now)
    requires Enumerates(order, env.b.connections) && Fresh(s.b, ConfB(env), s.now)
    ensures var r := CallerEvent(env.b, Turn(s), order);
            r.Ok? && Fresh(Next(env.b, s.b, r.value).core, ConfB(env), s.now)
  {
    hide PacketEvent;
    if Greeting(env, s) {
      CalleeHearsHello(env, s, order);
    } else if Accepting(env, s) {
      CalleeHearsAccept(env, s, order);
    } else {
      if s.b.state.Ready? {
        UpTurns(env, s);
        ReadyHearsNothing(MirrorEnv(env), Turn(s));
      }
      TrafficNext(env.b, s.b, s.ab[0].packet, s.now, order);
    }
  }

  lemma QuietKeepsFresh(env: Env, w: World, act: Action)
    requires WellMatched(env) && Compatible(env) && Safe(env, w) && BothFresh(env, w)
    requires Permitted(Cooperative, env, w, act) && Quiet(act)
    ensures BothFresh(env, Effect(env, w, act))
  {
    hide Next, Shape, PacketEvent;
    match act
    case Flush(_) =>
    case Deliver(side, order) =>
      if side.Caller? {
        CallerReadsFresh(env, View(w), order);
        assert View(w).ba[0] == w.ba[0];
      } else {
        CalleeReadsFresh(env, View(w), order);
        assert View(w).ab[0] == w.ab[0];
      }
    case Local(side, e) =>
      ShapeFindsConfiguration(env, View(w));
      if side.Caller? {
        CooperativeNext(env.a, w.a.core, e, w.now);
      } else {
        CooperativeNext(env.b, w.b.core, e, w.now);
      }
  }

  lemma {:induction false} BringUp(setting: Setting, env: Env, w: World) returns (acts: seq<Action>)
    requires setting.Punctual? && WellMatched(env) && BothWantData(env) && Safe(env, w) && BothFresh(env, w)
    requires setting.biased ==> Renews(env, 0) && BothAhead(w, 0)
    ensures var v := Play(setting, env, w, acts);
            Safe(env, v) && Done(v) && BothFresh(env, v) && v.now == w.now
    decreases StepsLeft(w)
  {
    hide Permitted, Effect, Shape, Ahead, Renews;
    if Done(w) {
      acts := [];
    } else {
      WantingAgrees(env);
      DoneIsQuiescent(env, w);
      var act := UnfinishedMoves(env, w);
      if setting.biased {
        if act.Deliver? {
          AheadBlocks(env, w, act.side);
        }
        QuietStaysAhead(env, w, act, 0);
      }
      QuietIsPunctual(setting, env, w, act);
      QuietStepCounts(env, w, act);
      QuietKeepsFresh(env, w, act);
      CooperativeStepIsSafe(env, w, act);
      var rest := BringUp(setting, env, Effect(env, w, act));
      acts := [act] + rest;
      PlaySnoc(setting, env, w, [], act);
      assert [] + [act] == [act];
      PlayAppend(setting, env, w, [act], rest);
    }
  }

  // ---------------------------------------------------------------- waiting without a word from the caller

  /** Both in DATA_READY with nothing under way but, perhaps, heartbeats of the caller. */
  ghost predicate Waiting(env: Env, w: World) {
    && env.ka in env.a.connections && env.kb in env.b.connections
    && w.a.open && w.a.core.state.DataReady? && w.a.core.id == Some(env.ka)
    && w.b.open && w.b.core.state.DataReady? && w.b.core.id == Some(env.kb)
    && w.a.queue == w.b.queue == w.ba == []
  }

  function WithA(w: World, tr: nat, ts: nat): World {
    w.(a := w.a.(core := w.a.core.(state := State.DataReady(tr, ts))))
  }

  function WithB(w: World, tr: nat, ts: nat): World {
    w.(b := w.b.(core := w.b.core.(state := State.DataReady(tr, ts))))
  }

  lemma BeatIs(config: Config, p: Peer, now: nat)
    requires p.core.state.DataReady? && Lookup(config, p.core.id).Some? && p.open && p.queue == []
    ensures Take(config, p, TsTimeout(now), now)
            == p.(core := p.core.(state := State.DataReady(p.core.state.tr, now + Lookup(config, p.core.id).value.ts)),
                  queue := [Stamped(HEARTBEAT_PACKET, now)])
  {
    var o := Next(config, p.core, TsTimeout(now));
    assert Stamp(o.sent, now) == [Stamped(HEARTBEAT_PACKET, now)];
  }

  lemma HearingABeatIs(config: Config, p: Peer, now: nat, order: seq<string>)
    requires p.core.state.DataReady? && Lookup(config, p.core.id).Some? && p.open
    ensures Read(config, p, HEARTBEAT_PACKET, now, order)
            == p.(core := p.core.(state := State.DataReady(now + Lookup(config, p.core.id).value.tr, p.core.state.ts)))
  {
    var o := Next(config, p.core, RHeartbeat(now));
    assert Stamp(o.sent, now) == [];
  }

  lemma CalleeBeats(setting: Setting, env: Env, w: World) returns (acts: seq<Action>)
    requires setting.Punctual? && Waiting(env, w) && w.b.core.state.ts <= w.now
    requires setting.biased ==> Blocks(w.a.core, w.now)
    ensures Play(setting, env, w, acts)
            == WithA(WithB(w, w.b.core.state.tr, w.now + ConfB(env).ts), w.now + ConfA(env).tr, w.a.core.state.ts)
  {
    hide Next, Take, Read, IsLocal;
    TimersAreLocal(w.now);
    var order := SomeOrder(env.a.connections);
    var beat := Local(Callee, TsTimeout(w.now));
    PlaySnoc(setting, env, w, [], beat);
    BeatIs(env.b, w.b, w.now);
    acts := [] + [beat];
    var w1 := Play(setting, env, w, acts);
    PlaySnoc(setting, env, w, acts, Flush(Callee));
    acts := acts + [Flush(Callee)];
    var w2 := Play(setting, env, w, acts);
    PlaySnoc(setting, env, w, acts, Deliver(Caller, order));
    HearingABeatIs(env.a, w2.a, w2.now, order);
    acts := acts + [Deliver(Caller, order)];
  }

  lemma CallerBeats(setting: Setting, env: Env, w: World) returns (acts: seq<Action>)
    requires setting.Punctual? && Waiting(env, w) && w.a.core.state.ts <= w.now
    ensures Play(setting, env, w, acts)
            == WithA(w, w.a.core.state.tr, w.now + ConfA(env).ts).(ab := w.ab + [Stamped(HEARTBEAT_PACKET, w.now)])
  {
    hide Next, Take, IsLocal;
    TimersAreLocal(w.now);
    var beat := Local(Caller, TsTimeout(w.now));
    PlaySnoc(setting, env, w, [], beat);
    BeatIs(env.a, w.a, w.now);
    acts := [] + [beat];
    PlaySnoc(setting, env, w, acts, Flush(Caller));
    acts := acts + [Flush(Caller)];
  }

  lemma Tick(setting: Setting, env: Env, w: World)
    requires setting.Punctual? && Waiting(env, w) && InTime(w.ab, w.now + 1, setting.latency)
    requires w.now < w.a.core.state.ts + setting.late && w.now < w.b.core.state.ts + setting.late
    ensures Play(setting, env, w, [Advance(w.now + 1)]) == w.(now := w.now + 1)
  {
    PlaySnoc(setting, env, w, [], Advance(w.now + 1));
    assert [] + [Advance(w.now + 1)] == [Advance(w.now + 1)];
  }

  /** The caller's heartbeats are held back, and its first goes out as late as it may, at `first`. While that
      one is overdue a biased caller reads nothing, and the callee's next heartbeat is not due any earlier. */
  ghost predicate HeldBack(setting: Setting, env: Env, w: World, first: nat)
    requires setting.Punctual?
  {
    && Waiting(env, w)
    && w.now <= w.a.core.state.ts + setting.late && w.now <= w.b.core.state.ts + setting.late
    && (w.ab == [] ==> w.a.core.state.ts + setting.late == first)
    && (w.ab == [] && setting.biased ==> w.now < w.a.core.state.ts || w.a.core.state.ts <= w.b.core.state.ts)
    && (w.ab != [] ==> first <= w.now)
    && forall i :: 0 <= i < |w.ab| ==> first <= w.ab[i].at
  }

  /** The caller sends what it must. */
  lemma CallerTurn(setting: Setting, env: Env, w: World, first: nat) returns (acts: seq<Action>)
    requires setting.Punctual? && HeldBack(setting, env, w, first) && TimeCanPass(setting, env)
    ensures var v := Play(setting, env, w, acts);
            && HeldBack(setting, env, v, first) && v.now == w.now && v.b == w.b
            && v.a.core.state.tr == w.a.core.state.tr && v.now < v.a.core.state.ts + setting.late
            && (setting.biased && v.ab != [] ==> v.now < v.a.core.state.ts)
  {
    hide Play;
    if (w.ab != [] && w.a.core.state.ts <= w.now) || w.a.core.state.ts + setting.late == w.now {
      acts := CallerBeats(setting, env, w);
    } else {
      PlayNothing(setting, env, w);
      acts := [];
    }
  }

  /** The callee sends what the caller can read at once, and the instant is over. */
  lemma CalleeTurn(setting: Setting, env: Env, w: World, first: nat) returns (acts: seq<Action>)
    requires setting.Punctual? && HeldBack(setting, env, w, first) && TimeCanPass(setting, env)
    requires w.now < first + setting.latency && w.now < w.a.core.state.tr && w.now < w.a.core.state.ts + setting.late
    requires setting.biased && w.ab != [] ==> w.now < w.a.core.state.ts
    ensures var v := Play(setting, env, w, acts);
            HeldBack(setting, env, v, first) && v.now == w.now + 1 && v.b.core.state.tr == w.b.core.state.tr
  {
    hide Play;
    var s1: seq<Action> := [];
    if w.b.core.state.ts <= w.now && (w.now < w.a.core.state.ts || !setting.biased) {
      s1 := CalleeBeats(setting, env, w);
    } else {
      PlayNothing(setting, env, w);
    }
    var w1 := Play(setting, env, w, s1);
    Tick(setting, env, w1);
    PlayAppend(setting, env, w, s1, [Advance(w1.now + 1)]);
    acts := s1 + [Advance(w1.now + 1)];
  }

  /** One instant. */
  lemma HoldBack(setting: Setting, env: Env, w: World, first: nat) returns (acts: seq<Action>)
    requires setting.Punctual? && HeldBack(setting, env, w, first) && TimeCanPass(setting, env)
    requires w.now < first + setting.latency && w.now < w.a.core.state.tr
    ensures var v := Play(setting, env, w, acts);
            HeldBack(setting, env, v, first) && v.now == w.now + 1 && v.b.core.state.tr == w.b.core.state.tr
  {
    hide Play;
    var s1 := CallerTurn(setting, env, w, first);
    var w1 := Play(setting, env, w, s1);
    var s2 := CalleeTurn(setting, env, w1, first);
    PlayAppend(setting, env, w, s1, s2);
    acts := s1 + s2;
  }

  lemma TimesOut(setting: Setting, env: Env, w: World)
    requires setting.Punctual? && Waiting(env, w) && w.b.core.state.tr <= w.now
    ensures !Healthy(Play(setting, env, w, [Local(Callee, TrTimeout(w.now))]))
  {
    TimersAreLocal(w.now);
    OneStep(setting, env, w, Local(Callee, TrTimeout(w.now)));
  }

  lemma CallerTimesOut(setting: Setting, env: Env, w: World)
    requires setting.Punctual? && Waiting(env, w) && w.a.core.state.tr <= w.now
    ensures !Healthy(Play(setting, env, w, [Local(Caller, TrTimeout(w.now))]))
  {
    TimersAreLocal(w.now);
    OneStep(setting, env, w, Local(Caller, TrTimeout(w.now)));
  }

  /** Held back until `until`, when the callee's response timer falls due, if the caller's does not before. */
  lemma {:induction false} SilenceFails(setting: Setting, env: Env, w: World, first: nat, until: nat)
    returns (acts: seq<Action>)
    requires setting.Punctual? && HeldBack(setting, env, w, first)
    requires w.now <= until <= first + setting.latency && w.b.core.state.tr == until
    requires TimeCanPass(setting, env)
    ensures !Healthy(Play(setting, env, w, acts))
    decreases until - w.now
  {
    hide Play, Healthy;
    if w.now == until {
      TimesOut(setting, env, w);
      acts := [Local(Callee, TrTimeout(w.now))];
    } else if w.a.core.state.tr <= w.now {
      CallerTimesOut(setting, env, w);
      acts := [Local(Caller, TrTimeout(w.now))];
    } else {
      var s1 := HoldBack(setting, env, w, first);
      var s2 := SilenceFails(setting, env, Play(setting, env, w, s1), first, until);
      PlayAppend(setting, env, w, s1, s2);
      acts := s1 + s2;
    }
  }

  /** From an established pair with fresh deadlines a peer can time out, unless the callee's response timer
      exceeds the caller's heartbeat interval with both delays. */
  lemma CalleeCanTimeOut(setting: Setting, env: Env, w: World) returns (acts: seq<Action>)
    requires setting.Punctual? && Waiting(env, w) && BothFresh(env, w) && w.ab == []
    requires TimeCanPass(setting, env)
    requires ConfB(env).tr <= ConfA(env).ts + setting.late + setting.latency
    ensures !Healthy(Play(setting, env, w, acts))
  {
    acts := SilenceFails(setting, env, w, w.now + ConfA(env).ts + setting.late, w.now + ConfB(env).tr);
  }

  lemma DoneIsWaiting(env: Env, w: World)
    requires WellMatched(env) && Safe(env, w) && Done(w)
    ensures Waiting(env, w) && Waiting(MirrorEnv(env), Mirror(w)) && w.ab == [] && w.ba == []
  {
    assert Up(env, View(w));
  }

  /** Each side's response timer exceeds the other side's heartbeat interval with both delays. */
  predicate HeartbeatsCovered(env: Env, late: nat, latency: nat)
    requires env.ka in env.a.connections && env.kb in env.b.connections
  {
    && ConfA(env).ts + late + latency < ConfB(env).tr
    && ConfB(env).ts + late + latency < ConfA(env).tr
  }

  lemma UncoveredHeartbeatsFail(setting: Setting, env: Env, t: Tempo) returns (acts: seq<Action>)
    requires WellMatched(env) && BothWantData(env) && Follows(setting, t)
    requires TimeCanPass(setting, env) && (setting.biased ==> HasTime(env, t.ta, t.tb))
    requires !HeartbeatsCovered(env, t.late, t.latency)
    ensures !Healthy(Play(setting, env, Start(env, t.ta, t.tb), acts))
  {
    hide Permitted, Effect, Shape, Step, Healthy;
    var w := Start(env, t.ta, t.tb);
    StartIsSafe(env, t.ta, t.tb);
    StartIs(env, t.ta, t.tb);
    var s1 := BringUp(setting, env, w);
    var v := Play(setting, env, w, s1);
    DoneIsWaiting(env, v);
    if ConfB(env).tr <= ConfA(env).ts + t.late + t.latency {
      var s2 := CalleeCanTimeOut(setting, env, v);
      PlayAppend(setting, env, w, s1, s2);
      acts := s1 + s2;
    } else {
      var s2 := CalleeCanTimeOut(setting, MirrorEnv(env), Mirror(v));
      PlayMirrors(setting, MirrorEnv(env), Mirror(v), s2);
      MirrorIsAsHealthy(Play(setting, MirrorEnv(env), Mirror(v), s2));
      PlayAppend(setting, env, w, s1, FlipAll(s2));
      acts := s1 + FlipAll(s2);
    }
  }

  lemma MirrorIsAsHealthy(w: World)
    ensures Healthy(Mirror(w)) <==> Healthy(w)
  {
  }
}
