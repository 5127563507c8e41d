/** Stopping an association and starting it again: exactly when both peers live on. */
module Restart {
  import opened Prelude
  import opened Configuration
  import opened Packets
  import opened Events
  import opened Machine
  import opened Network
  import opened Sessions
  import opened Safety
  import opened Progress
  import opened Timing
  import opened Service
  import opened Tightness
  import opened Shutdown

  /** The world after the user of `side` has asked to start. */
  function AskToStart(env: Env, w: World, side: Side): World
    requires w.a.open && w.b.open
  {
    Effect(env, w, Local(side, LStartup(w.now)))
  }

  predicate OnlyStartups(pipe: seq<Stamped>) {
    forall i :: 0 <= i < |pipe| ==> IsStartup(pipe[i].packet)
  }

  /** Every run, with data of the users or without, leaves both peers alive. */
  ghost predicate KeptAlways(setting: Setting, env: Env, w: World) {
    forall acts :: Healthy(Play(setting, env, w, acts))
  }

  lemma StartIsAsked(config: Config, p: Peer, now: nat)
    requires p.core.state.Ready? && Lookup(config, p.core.id).Some?
    ensures var cc := Lookup(config, p.core.id).value;
            Take(config, p, LStartup(now), now)
            == p.(core := Core(AssociationPending(now + cc.tr), p.core.server, Target.DataReady, p.core.id),
                  queue := p.queue + [Stamped(STARTUP_PACKET, now)])
  {
    var o := Next(config, p.core, LStartup(now));
    assert Stamp(o.sent, now) == [Stamped(STARTUP_PACKET, now)];
  }

  // ---------------------------------------------------------------- too early

  /** A machine that is associating dies of what a stopping peer still sends. */
  lemma HarmlessHitsAssociating(config: Config, p: Peer, packet: Packet, now: nat, order: seq<string>)
    requires p.core.state.AssociationPending? && Lookup(config, p.core.id).Some? && Harmless(packet)
    ensures Read(config, p, packet, now, order).core.state.Error?
  {
    var e := if IsShutdown(packet) then RShutdown(now) else RHeartbeat(now);
    assert PacketEvent(packet, now, config, p.core.id, order) == Ok(e);
  }

  /** The caller is associating again, with time left. */
  ghost predicate Again(env: Env, p: Peer, now: nat) {
    && env.ka in env.a.connections && p.open && p.core.id == Some(env.ka)
    && p.core.state.AssociationPending? && now < p.core.state.tr
  }

  lemma LateSignLoses(setting: Setting, env: Env, w: World) returns (acts: seq<Action>)
    requires setting.Punctual? && Again(env, w.a, w.now)
    requires w.ba + w.b.queue != [] && Harmless((w.ba + w.b.queue)[0].packet)
    ensures DriversOnly(acts) && !Healthy(Play(setting, env, w, acts))
  {
    hide Play, Read, Harmless;
    var order := SomeOrder(env.a.connections);
    var s1 := FlushAll(setting, env, w);
    var w1 := Flushed(w);
    var act := Deliver(Caller, order);
    OneStep(setting, env, w1, act);
    HarmlessHitsAssociating(env.a, w1.a, w1.ba[0].packet, w1.now, order);
    PlayAppend(setting, env, w, s1, [act]);
    acts := s1 + [act];
  }

  /** The peer has not read the request yet: it answers the request, and the answer comes at the wrong time. */
  lemma AnswerComesLate(setting: Setting, env: Env, w: World, n: nat) returns (acts: seq<Action>)
    requires setting.Punctual? && Again(env, w.a, w.now) && w.ba + w.b.queue == []
    requires Asked(env, Flushed(w), n) && (setting.biased ==> 0 < ConfB(env).ts)
    ensures DriversOnly(acts) && !Healthy(Play(setting, env, w, acts))
  {
    hide Play, Harmless, Traffic, IsShutdown, Healthy;
    var s1 := FlushAll(setting, env, w);
    var w1 := Flushed(w);
    var s2 := PeerAnswers(setting, env, w1, n);
    var w2 := Play(setting, env, w1, s2);
    SignsAreHarmless();
    assert (w2.ba + w2.b.queue)[|w2.ba|] == Stamped(SHUTDOWN_PACKET, w.now);
    var s3 := LateSignLoses(setting, env, w2);
    PlayAppend(setting, env, w, s1, s2);
    PlayAppend(setting, env, w, s1 + s2, s3);
    acts := s1 + s2 + s3;
  }

  // ---------------------------------------------------------------- younger packets change nothing

  predicate YoungerPipe(s: seq<Stamped>, s': seq<Stamped>) {
    |s| == |s'| && forall i :: 0 <= i < |s| ==> s[i].packet == s'[i].packet && s[i].at <= s'[i].at
  }

  predicate YoungerPeer(p: Peer, p': Peer) {
    p == p'.(queue := p.queue) && YoungerPipe(p.queue, p'.queue)
  }

  /** `x` is `w` with packets that were queued later. */
  predicate Younger(w: World, x: World) {
    && w.now == x.now && YoungerPeer(w.a, x.a) && YoungerPeer(w.b, x.b)
    && YoungerPipe(w.ab, x.ab) && YoungerPipe(w.ba, x.ba)
  }

  lemma YoungerTakes(config: Config, p: Peer, p': Peer, e: Event, now: nat)
    requires YoungerPeer(p, p')
    ensures YoungerPeer(Take(config, p, e, now), Take(config, p', e, now))
  {
    hide Next;
  }

  lemma YoungerReads(config: Config, p: Peer, p': Peer, packet: Packet, now: nat, order: seq<string>)
    requires YoungerPeer(p, p')
    ensures YoungerPeer(Read(config, p, packet, now, order), Read(config, p', packet, now, order))
  {
    hide Take, PacketEvent;
    var r := PacketEvent(packet, now, config, p.core.id, order);
    if r.Ok? {
      YoungerTakes(config, p, p', r.value, now);
    }
  }

  lemma CallerStepsYounger(env: Env, w: World, x: World, act: Action)
    requires Younger(w, x) && Possible(w, act) && !act.Advance? && act.side.Caller?
    ensures Possible(x, act) && Younger(Effect(env, w, act), Effect(env, x, act))
  {
    hide Take, Read;
    match act
    case Flush(_) =>
    case Deliver(_, order) => YoungerReads(env.a, w.a, x.a, w.ba[0].packet, w.now, order);
    case Local(_, e) => YoungerTakes(env.a, w.a, x.a, e, w.now);
  }

  lemma StepsYounger(setting: Setting, env: Env, w: World, x: World, act: Action)
    requires Younger(w, x) && Permitted(setting, env, w, act)
    ensures Permitted(setting, env, x, act) && Younger(Effect(env, w, act), Effect(env, x, act))
  {
    hide Take, Read, Next;
    if !act.Advance? {
      if act.side.Caller? {
        CallerStepsYounger(env, w, x, act);
      } else {
        EffectMirrors(env, w, act);
        CallerStepsYounger(MirrorEnv(env), Mirror(w), Mirror(x), Flip(act));
        EffectMirrors(MirrorEnv(env), Mirror(x), Flip(act));
      }
    }
  }

  /** Whatever run `w` has, `x` has one like it. */
  lemma {:induction false} RunsYounger(setting: Setting, env: Env, w: World, x: World, acts: seq<Action>)
    returns (more: seq<Action>)
    requires Younger(w, x)
    ensures Younger(Play(setting, env, w, acts), Play(setting, env, x, more))
  {
    hide Permitted, Effect, Younger;
    if acts == [] {
      more := [];
    } else {
      var n := |acts| - 1;
      more := RunsYounger(setting, env, w, x, acts[..n]);
      var before := Play(setting, env, w, acts[..n]);
      if Permitted(setting, env, before, acts[n]) {
        StepsYounger(setting, env, before, Play(setting, env, x, more), acts[n]);
        PlaySnoc(setting, env, x, more, acts[n]);
        more := more + [acts[n]];
      }
    }
  }

  lemma YoungerIsKept(setting: Setting, env: Env, w: World, x: World)
    requires Younger(w, x) && KeptAlways(setting, env, x)
    ensures KeptAlways(setting, env, w)
  {
    hide Play;
    forall acts
      ensures Healthy(Play(setting, env, w, acts))
    {
      var more := RunsYounger(setting, env, w, x, acts);
      assert Healthy(Play(setting, env, x, more));
    }
  }

  // ---------------------------------------------------------------- associating again

  /** Both are associating or associated, by `bound` at the latest. This looks the same from both ends. */
  ghost predicate Rejoined(env: Env, w: World, bound: nat, t: Tempo) {
    && env.ka in env.a.connections && env.kb in env.b.connections && w.a.open && w.b.open
    && Up(env, View(w)) && UpClock(env, View(w), bound, bound, t) && SessionPrompt(env, View(w), t)
  }

  /** Both wait for an association, the caller's startups are under way, and the callee has sent none. */
  ghost predicate Rejoining(env: Env, s: Session, bound: nat, t: Tempo) {
    && Named(s.a, env.a, env.ka) && Named(s.b, env.b, env.kb)
    && s.a.state.AssociationPending? && s.b.state.AssociationPending?
    && s.a.target.DataReady? && s.b.target.DataReady?
    && s.ba == [] && s.ab != [] && OnlyStartups(s.ab)
    && AllPast(s.ab, s.now) && InTime(s.ab, s.now, t.latency) && s.ab[0].at <= bound
  }

  ghost predicate CallerRejoins(env: Env, w: World, bound: nat, t: Tempo) {
    w.a.open && w.b.open && Rejoining(env, View(w), bound, t)
  }

  /** The callee hears the first startup and answers. */
  lemma StartupIsHeard(env: Env, s: Session, bound: nat, t: Tempo, order: seq<string>)
    requires Rejoining(env, s, bound, t)
    ensures var r := CallerEvent(env.b, Turn(s), order);
            r.Ok? &&
            var u := Turn(CallerTakes(env.b, Turn(s).(ba := s.ab[1..]), r.value));
            Up(env, u) && UpClock(env, u, bound + t.latency, bound + t.latency, t) && SessionPrompt(env, u, t)
  {
    TrafficNext(env.b, s.b, s.ab[0].packet, s.now, order);
    hide Next, PacketEvent;
    var r := CallerEvent(env.b, Turn(s), order);
    var u := Turn(CallerTakes(env.b, Turn(s).(ba := s.ab[1..]), r.value));
    assert u.ba == [Stamped(STARTUP_PACKET, s.now)];
    assert u.a == s.a && u.ab == s.ab[1..];
  }

  /** The callee retries by itself before it has heard of the caller. */
  lemma CalleeRetriesToo(env: Env, s: Session, bound: nat, t: Tempo)
    requires Rejoining(env, s, bound, t)
    ensures var u := Turn(CallerTakes(env.b, Turn(s), TrTimeout(s.now)));
            Up(env, u) && UpClock(env, u, bound + t.latency, bound + t.latency, t) && SessionPrompt(env, u, t)
  {
    RetryKeepsFlow(env.b, s.b, s.now);
    hide Next;
    var u := Turn(CallerTakes(env.b, Turn(s), TrTimeout(s.now)));
    assert u.ba == [Stamped(STARTUP_PACKET, s.now)];
    assert u.a == s.a && u.ab == s.ab;
  }

  lemma CallerRetries(env: Env, s: Session, bound: nat, t: Tempo)
    requires Rejoining(env, s, bound, t)
    ensures Rejoining(env, CallerTakes(env.a, s, TrTimeout(s.now)), bound, t)
  {
    RetryKeepsFlow(env.a, s.a, s.now);
    hide Next;
    var u := CallerTakes(env.a, s, TrTimeout(s.now));
    assert u.ab == s.ab + [Stamped(STARTUP_PACKET, s.now)];
  }

  lemma RejoiningStates(env: Env, s: Session, bound: nat, t: Tempo)
    requires Rejoining(env, s, bound, t)
    ensures s.a.state.AssociationPending? && s.b.state.AssociationPending? && s.ba == []
  {
  }

  lemma RejoiningWaits(env: Env, s: Session, bound: nat, t: Tempo, to: nat)
    requires Rejoining(env, s, bound, t) && s.now <= to && InTime(s.ab, to, t.latency)
    ensures Rejoining(env, s.(now := to), bound, t)
  {
  }

  lemma UpStates(env: Env, s: Session)
    requires Up(env, s)
    ensures UpState(s.a.state) && UpState(s.b.state)
  {
  }

  lemma StepRejoins(setting: Setting, env: Env, w: World, act: Action, bound: nat, t: Tempo)
    requires Follows(setting, t) && CallerRejoins(env, w, bound, t) && Permitted(setting, env, w, act)
    ensures var v := Effect(env, w, act);
            CallerRejoins(env, v, bound, t) || Rejoined(env, v, bound + t.latency, t)
  {
    var m := MirrorEnv(env);
    assert env.ka in env.a.connections && env.kb in env.b.connections;
    hide Next, PacketEvent, Rejoining, Take, Read, Up, UpClock, SessionPrompt;
    RejoiningStates(env, View(w), bound, t);
    ViewTurns(w);
    match act
    case Advance(to) =>
      InTimeAppends(w.ab, w.a.queue, to, t.latency);
      RejoiningWaits(env, View(w), bound, t, to);
    case Flush(side) =>
      assert View(w).ba == w.ba + w.b.queue == [];
      assert side.Caller?;
      FlushIsInvisible(w);
    case Deliver(side, order) =>
      assert side.Callee?;
      StartupIsHeard(env, View(w), bound, t, order);
      ViewOfDeliver(m, Mirror(w), order);
      var v := CallerDeliver(m, Mirror(w), order);
      ViewTurns(v);
      UpStates(env, View(Mirror(v)));
      ReadingStaysOpen(m, Mirror(w), order);
    case Local(side, e) =>
      assert e == TrTimeout(w.now);
      if side.Caller? {
        CallerRetries(env, View(w), bound, t);
        ViewOfLocal(env, w, e);
        RejoiningStates(env, View(CallerLocal(env, w, e)), bound, t);
        TakingStaysOpen(env.a, w.a, e, w.now);
      } else {
        CalleeRetriesToo(env, View(w), bound, t);
        ViewOfLocal(m, Mirror(w), e);
        var v := CallerLocal(m, Mirror(w), e);
        ViewTurns(v);
        UpStates(env, View(Mirror(v)));
        TakingStaysOpen(env.b, w.b, e, w.now);
      }
  }

  /** Started at `bound` the two are on the clock. */
  function Resumed(bound: nat, t: Tempo): Tempo {
    Tempo(bound, bound + t.latency + 1, t.late, t.latency)
  }

  lemma RejoinedIsOnClock(env: Env, w: World, bound: nat, t: Tempo)
    requires WellMatched(env) && Rejoined(env, w, bound, t)
    ensures OnClock(env, w, Resumed(bound, t))
  {
    PhasesAreDisjoint(env, View(w));
    hide SessionPrompt, Up;
    assert SessionPrompt(env, View(w), Resumed(bound, t)) by { PromptIgnoresStart(env, View(w), t, Resumed(bound, t)); }
  }

  lemma PromptIgnoresStart(env: Env, s: Session, t: Tempo, t': Tempo)
    requires SessionPrompt(env, s, t) && t.late == t'.late && t.latency == t'.latency
    ensures SessionPrompt(env, s, t')
  {
  }

  lemma RejoinedTurns(env: Env, w: World, bound: nat, t: Tempo)
    requires Rejoined(env, w, bound, t)
    ensures Rejoined(MirrorEnv(env), Mirror(w), bound, t)
  {
    hide Up, UpClock, SessionPrompt;
    ViewTurns(w);
    UpTurns(env, View(w));
    UpClockTurns(env, View(w), bound, bound, t);
    SessionPromptTurns(env, View(w), t);
  }

  // ---------------------------------------------------------------- every run from there

  /** The start goes on as seen from the caller, or from the callee, or has led to an association. */
  ghost predicate Resuming(env: Env, w: World, bound: nat, t: Tempo)
    requires WellMatched(env)
  {
    || CallerRejoins(env, w, bound, t)
    || CallerRejoins(MirrorEnv(env), Mirror(w), bound, t)
    || OnClock(env, w, Resumed(bound + t.latency, t))
  }

  lemma CallerResumes(setting: Setting, env: Env, w: World, act: Action, bound: nat, t: Tempo)
    requires WellMatched(env) && Follows(setting, t)
    requires CallerRejoins(env, w, bound, t) && Permitted(setting, env, w, act)
    ensures var v := Effect(env, w, act);
            CallerRejoins(env, v, bound, t) || OnClock(env, v, Resumed(bound + t.latency, t))
  {
    PermittedMirrors(setting, env, w, act);
    hide Effect, Permitted, CallerRejoins, Rejoined, OnClock;
    StepRejoins(setting, env, w, act, bound, t);
    var v := Effect(env, w, act);
    if Rejoined(env, v, bound + t.latency, t) {
      RejoinedIsOnClock(env, v, bound + t.latency, t);
    }
  }

  lemma CalleeResumes(setting: Setting, env: Env, w: World, act: Action, bound: nat, t: Tempo)
    requires WellMatched(env) && Follows(setting, t)
    requires CallerRejoins(MirrorEnv(env), Mirror(w), bound, t) && Permitted(setting, env, w, act)
    ensures var v := Effect(env, w, act);
            || CallerRejoins(MirrorEnv(env), Mirror(v), bound, t)
            || OnClock(env, v, Resumed(bound + t.latency, t))
  {
    hide Effect, Permitted, CallerRejoins, Rejoined, OnClock;
    PermittedMirrors(setting, env, w, act);
    EffectMirrors(env, w, act);
    StepRejoins(setting, MirrorEnv(env), Mirror(w), Flip(act), bound, t);
    var v := Effect(env, w, act);
    if Rejoined(MirrorEnv(env), Mirror(v), bound + t.latency, t) {
      RejoinedTurns(MirrorEnv(env), Mirror(v), bound + t.latency, t);
      RejoinedIsOnClock(env, v, bound + t.latency, t);
    }
  }

  lemma RoomyAgain(env: Env, bound: nat, t: Tempo)
    requires WellMatched(env) && BothWantData(env) && Roomy(env, t)
    ensures Compatible(env) && Roomy(env, Resumed(bound, t))
  {
  }

  lemma StepResumes(setting: Setting, env: Env, w: World, act: Action, bound: nat, t: Tempo)
    requires WellMatched(env) && BothWantData(env) && Roomy(env, t) && Follows(setting, t)
    requires Resuming(env, w, bound, t) && Permitted(setting, env, w, act)
    ensures Possible(w, act) && Resuming(env, Effect(env, w, act), bound, t)
  {
    PermittedMirrors(setting, env, w, act);
    hide Effect, Permitted, CallerRejoins, OnClock, Roomy, WellMatched, BothWantData, Compatible;
    if CallerRejoins(env, w, bound, t) {
      CallerResumes(setting, env, w, act, bound, t);
    } else if CallerRejoins(MirrorEnv(env), Mirror(w), bound, t) {
      CalleeResumes(setting, env, w, act, bound, t);
    } else {
      RoomyAgain(env, bound + t.latency, t);
      PunctualStepKeepsClock(setting, env, w, act, Resumed(bound + t.latency, t));
    }
  }

  lemma {:induction false} PlayResumes(setting: Setting, env: Env, w: World, acts: seq<Action>, bound: nat, t: Tempo)
    requires WellMatched(env) && BothWantData(env) && Roomy(env, t) && Follows(setting, t)
    requires Resuming(env, w, bound, t)
    ensures Resuming(env, Play(setting, env, w, acts), bound, t)
  {
    hide Permitted, Effect, Resuming, Roomy;
    if acts == [] {
    } else {
      var n := |acts| - 1;
      PlayResumes(setting, env, w, acts[..n], bound, t);
      var before := Play(setting, env, w, acts[..n]);
      if Permitted(setting, env, before, acts[n]) {
        StepResumes(setting, env, before, acts[n], bound, t);
      }
    }
  }

  lemma ResumingIsHealthy(env: Env, w: World, bound: nat, t: Tempo)
    requires WellMatched(env) && Resuming(env, w, bound, t)
    ensures Healthy(w)
  {
    hide Shape, Clock;
    if OnClock(env, w, Resumed(bound + t.latency, t)) {
      SafeIsHealthy(env, w);
    }
  }

  lemma ResumingIsKept(setting: Setting, env: Env, w: World, bound: nat, t: Tempo)
    requires WellMatched(env) && BothWantData(env) && Roomy(env, t) && Follows(setting, t)
    requires Resuming(env, w, bound, t)
    ensures KeptAlways(setting, env, w)
  {
    hide Play, Resuming, Healthy, Roomy;
    forall acts
      ensures Healthy(Play(setting, env, w, acts))
    {
      PlayResumes(setting, env, w, acts, bound, t);
      ResumingIsHealthy(env, Play(setting, env, w, acts), bound, t);
    }
  }

  // ---------------------------------------------------------------- exactly when

  function Restamped(pipe: seq<Stamped>, at: nat): (r: seq<Stamped>)
    ensures |r| == |pipe|
    ensures forall i :: 0 <= i < |pipe| ==> r[i] == Stamped(pipe[i].packet, at)
  {
    seq(|pipe|, i requires 0 <= i < |pipe| => Stamped(pipe[i].packet, at))
  }

  /** `w` as if all that is on its way to the caller had only now been queued. */
  function Refreshed(w: World): World {
    w.(ba := Restamped(w.ba, w.now), b := w.b.(queue := Restamped(w.b.queue, w.now)))
  }

  lemma RefreshedIsYounger(w: World)
    requires AllPast(w.ba + w.b.queue, w.now)
    ensures Younger(w, Refreshed(w))
  {
    forall i | 0 <= i < |w.ba| ensures w.ba[i].at <= w.now { assert (w.ba + w.b.queue)[i] == w.ba[i]; }
    forall i | 0 <= i < |w.b.queue| ensures w.b.queue[i].at <= w.now {
      assert (w.ba + w.b.queue)[|w.ba| + i] == w.b.queue[i];
    }
  }

  /** A caller that starts again when the peer has answered and has nothing but startups coming. */
  ghost predicate MayStart(env: Env, w: World) {
    && env.ka in env.a.connections && env.kb in env.b.connections
    && w.a.open && w.b.open
    && w.a.core.state.Ready? && w.a.core.id == Some(env.ka)
    && w.b.core.state.AssociationPending? && w.b.core.id == Some(env.kb) && w.b.core.target.DataReady?
    && View(w).ab == [] && OnlyStartups(View(w).ba) && AllPast(View(w).ba, w.now)
  }

  /** Nothing is coming: the caller's startup comes first. */
  lemma StartIntoSilence(env: Env, w: World, t: Tempo)
    requires MayStart(env, w) && View(w).ba == []
    requires ConfA(env).initialTarget.DataReady? && ConfB(env).initialTarget.DataReady?
    ensures CallerRejoins(env, CallerLocal(env, w, LStartup(w.now)), w.now, t)
  {
    StartIsAsked(env.a, w.a, w.now);
    hide Take;
    var v := CallerLocal(env, w, LStartup(w.now));
    assert View(v).ab == View(w).ab + [Stamped(STARTUP_PACKET, w.now)];
    SignsAreHarmless();
  }

  /** The peer's startups are there already, new or old. */
  lemma StartIntoRetries(env: Env, w: World, t: Tempo)
    requires MayStart(env, w) && View(w).ba != []
    requires ConfA(env).initialTarget.DataReady? && ConfB(env).initialTarget.DataReady?
    ensures Rejoined(env, Refreshed(CallerLocal(env, w, LStartup(w.now))), w.now, t)
  {
    StartIsAsked(env.a, w.a, w.now);
    hide Take;
    var v := Refreshed(CallerLocal(env, w, LStartup(w.now)));
    assert View(v).ab == View(w).ab + [Stamped(STARTUP_PACKET, w.now)];
    assert View(v).ba == Restamped(View(w).ba, w.now);
    SignsAreHarmless();
    hide IsStartup, Restamped;
  }

  lemma CallerMayStart(env: Env, w: World, at: nat, t: Tempo)
    requires Parted(env, w, at, t) && w.b.core.state.AssociationPending? && OnlyStartups(Towards(w, Caller))
    ensures MayStart(env, w)
  {
  }

  /** The failing half: the peer has not answered yet, or something else than startups is still coming. */
  lemma StartTooEarly(setting: Setting, env: Env, w: World, at: nat, t: Tempo) returns (acts: seq<Action>)
    requires Follows(setting, t) && Parted(env, w, at, t) && Silence(ConfB(env), t) < ConfA(env).tr
    requires setting.biased ==> 0 < ConfB(env).ts
    requires !(w.b.core.state.AssociationPending? && OnlyStartups(Towards(w, Caller)))
    ensures DriversOnly(acts) && !Healthy(Play(setting, env, CallerLocal(env, w, LStartup(w.now)), acts))
  {
    StartIsAsked(env.a, w.a, w.now);
    hide Play, Take, Healthy, Harmless, IsStartup, Traffic, IsShutdown;
    var v := CallerLocal(env, w, LStartup(w.now));
    var pipe := w.ba + w.b.queue;
    assert v.ba + v.b.queue == pipe;
    if pipe != [] {
      assert Harmless(pipe[0].packet);
      acts := LateSignLoses(setting, env, v);
    } else {
      var n := |View(w).ab| - 1;
      assert v.ab + v.a.queue == View(w).ab + [Stamped(STARTUP_PACKET, w.now)];
      assert w.now <= View(w).ab[0].at + t.latency;
      acts := AnswerComesLate(setting, env, v, n);
    }
  }

  lemma OnClockIsKept(setting: Setting, env: Env, w: World, t: Tempo)
    requires WellMatched(env) && Compatible(env) && Roomy(env, t) && Follows(setting, t) && OnClock(env, w, t)
    ensures KeptAlways(setting, env, w)
  {
    hide Play, OnClock, Healthy, Roomy, Compatible, WellMatched;
    forall acts
      ensures Healthy(Play(setting, env, w, acts))
    {
      PunctualPlayKeepsClock(setting, env, w, t, acts);
      OnClockIsHealthy(env, Play(setting, env, w, acts), t);
    }
  }

  lemma OnClockIsHealthy(env: Env, w: World, t: Tempo)
    requires WellMatched(env) && OnClock(env, w, t)
    ensures Healthy(w)
  {
    SafeIsHealthy(env, w);
  }

  lemma RejoinedIsKept(setting: Setting, env: Env, w: World, x: World, bound: nat, t: Tempo)
    requires WellMatched(env) && BothWantData(env) && Roomy(env, t) && Follows(setting, t)
    requires Rejoined(env, x, bound, t) && Younger(w, x)
    ensures KeptAlways(setting, env, w)
  {
    hide Rejoined, Younger, Roomy, BothWantData, KeptAlways;
    RejoinedIsOnClock(env, x, bound, t);
    RoomyAgain(env, bound, t);
    OnClockIsKept(setting, env, x, Resumed(bound, t));
    YoungerIsKept(setting, env, w, x);
  }

  lemma StartIsKept(setting: Setting, env: Env, w: World, t: Tempo)
    requires WellMatched(env) && BothWantData(env) && Roomy(env, t) && Follows(setting, t) && MayStart(env, w)
    ensures KeptAlways(setting, env, AskToStart(env, w, Caller))
  {
    var v := CallerLocal(env, w, LStartup(w.now));
    if View(w).ba == [] {
      StartIntoSilence(env, w, t);
      ResumingIsKept(setting, env, v, w.now, t);
    } else {
      StartIntoRetries(env, w, t);
      RefreshedIsYounger(v);
      RejoinedIsKept(setting, env, v, Refreshed(v), w.now, t);
    }
  }

  lemma CalleeStartIsKept(setting: Setting, env: Env, w: World, t: Tempo)
    requires WellMatched(env) && BothWantData(env) && Roomy(env, t) && Follows(setting, t)
    requires MayStart(MirrorEnv(env), Mirror(w))
    ensures KeptAlways(setting, env, AskToStart(env, w, Callee))
  {
    var m, x := MirrorEnv(env), Mirror(w);
    var v := CallerLocal(m, x, LStartup(w.now));
    if View(x).ba == [] {
      StartIntoSilence(m, x, t);
      ResumingIsKept(setting, env, Mirror(v), w.now, t);
    } else {
      StartIntoRetries(m, x, t);
      RefreshedIsYounger(v);
      RejoinedTurns(m, Refreshed(v), w.now, t);
      RejoinedIsKept(setting, env, Mirror(v), Mirror(Refreshed(v)), w.now, t);
    }
  }

  /** Up to where the request is kept, the invariant of `Shutdown` holds. */
  lemma RequestHasParted(setting: Setting, env: Env, w: World, t: Tempo, acts: seq<Action>)
    requires Follows(setting, t) && Established(env, w, t) && AllHarmless(Towards(w, Caller)) && DriversOnly(acts)
    requires Undisturbed(env, Caller, w.now, Play(setting, env, AskToStop(env, w, Caller), acts).now)
    ensures Parted(env, Play(setting, env, AskToStop(env, w, Caller), acts), w.now, t)
  {
    hide Parting, UpClock, SessionPrompt, Up, Take;
    RequestParts(env, w, t);
    PlayParts(setting, env, AskToStop(env, w, Caller), acts, w.now, t);
  }

  predicate PeerIsThrough(w: World, side: Side) {
    PeerAt(w, Other(side)).core.state.AssociationPending? && OnlyStartups(Towards(w, side))
  }

  lemma CallerRestarts(setting: Setting, env: Env, w: World, at: nat, t: Tempo)
    requires WellMatched(env) && BothWantData(env) && Roomy(env, t) && Follows(setting, t)
    requires Parted(env, w, at, t) && (setting.biased ==> TimeCanPass(setting, env))
    ensures PeerIsThrough(w, Caller) ==> KeptAlways(setting, env, AskToStart(env, w, Caller))
    ensures KeptForever(setting, env, AskToStart(env, w, Caller)) ==> PeerIsThrough(w, Caller)
  {
    hide Play, Parting, Healthy, OnlyStartups, Take, DriversOnly;
    if PeerIsThrough(w, Caller) {
      CallerMayStart(env, w, at, t);
      StartIsKept(setting, env, w, t);
    } else {
      var acts := StartTooEarly(setting, env, w, at, t);
    }
  }

  lemma CalleeRestarts(setting: Setting, env: Env, w: World, at: nat, t: Tempo)
    requires WellMatched(env) && BothWantData(env) && Roomy(env, t) && Follows(setting, t)
    requires w.a.open && w.b.open && Parted(MirrorEnv(env), Mirror(w), at, t)
    requires setting.biased ==> TimeCanPass(setting, env)
    ensures PeerIsThrough(w, Callee) ==> KeptAlways(setting, env, AskToStart(env, w, Callee))
    ensures KeptForever(setting, env, AskToStart(env, w, Callee)) ==> PeerIsThrough(w, Callee)
  {
    hide Play, Parting, Healthy, OnlyStartups, Take, DriversOnly;
    var m, x := MirrorEnv(env), Mirror(w);
    if PeerIsThrough(w, Callee) {
      CallerMayStart(m, x, at, t);
      CalleeStartIsKept(setting, env, w, t);
    } else {
      var acts := StartTooEarly(setting, m, x, at, t);
      var v := CallerLocal(m, x, LStartup(w.now));
      DriversOnlyFlips(acts);
      PlayMirrors(setting, m, v, acts);
      MirrorIsAsHealthy(Play(setting, m, v, acts));
      assert AskToStart(env, w, Callee) == Mirror(v);
    }
  }

  lemma EstablishedWantsData(env: Env, w: World, t: Tempo)
    requires WellMatched(env) && Established(env, w, t)
    ensures BothWantData(env)
  {
  }

  /** From every established pair and for either side: after a request to stop, and as long as that is kept, the
      requester may start again, and then both live on whatever data is sent, if and only if the peer has
      answered and nothing but startups of the peer, if those, is on its way to the requester. */
  lemma RestartKeepsExactly(setting: Setting, env: Env, w: World, t: Tempo, side: Side, acts: seq<Action>)
    requires WellMatched(env) && Roomy(env, t) && OnClock(env, w, t) && Follows(setting, t)
    requires w.a.core.state.DataReady? && w.b.core.state.DataReady?
    requires setting.biased ==> TimeCanPass(setting, env)
    requires AllHarmless(Towards(w, side)) && DriversOnly(acts)
    requires Undisturbed(env, side, w.now, Play(setting, env, AskToStop(env, w, side), acts).now)
    ensures var v := Play(setting, env, AskToStop(env, w, side), acts);
            && v.a.open && v.b.open
            && (KeptForever(setting, env, AskToStart(env, v, side)) <==> PeerIsThrough(v, side))
            && (KeptForever(setting, env, AskToStart(env, v, side)) <==>
                KeptAlways(setting, env, AskToStart(env, v, side)))
  {
    OnClockIsEstablished(env, w, t);
    EstablishedWantsData(env, w, t);
    hide Play, OnClock, Established, AskToStop, AskToStart, Roomy, DriversOnly, Healthy, PeerIsThrough, Parting;
    var v := Play(setting, env, AskToStop(env, w, side), acts);
    if side.Caller? {
      RequestHasParted(setting, env, w, t, acts);
      CallerRestarts(setting, env, v, w.now, t);
    } else {
      var m, x := MirrorEnv(env), Mirror(w);
      EstablishedMirrors(env, w, t);
      AskingMirrors(env, w);
      PlayMirrors(setting, env, AskToStop(env, w, side), acts);
      DriversOnlyFlips(acts);
      RequestHasParted(setting, m, x, t, FlipAll(acts));
      CalleeRestarts(setting, env, v, w.now, t);
    }
  }

  /** In particular it always is too early to start again at once. */
  lemma StopAndStartAtOnceLoses(setting: Setting, env: Env, w: World, t: Tempo, side: Side)
    requires WellMatched(env) && Roomy(env, t) && OnClock(env, w, t) && Follows(setting, t)
    requires w.a.core.state.DataReady? && w.b.core.state.DataReady? && AllHarmless(Towards(w, side))
    requires setting.biased ==> TimeCanPass(setting, env)
    ensures !KeptForever(setting, env, AskToStart(env, AskToStop(env, w, side), side))
  {
    OnClockIsEstablished(env, w, t);
    var v := AskToStop(env, w, side);
    assert PeerAt(v, Other(side)) == PeerAt(w, Other(side));
    PlayNothing(setting, env, v);
    RestartKeepsExactly(setting, env, w, t, side, []);
  }
}
