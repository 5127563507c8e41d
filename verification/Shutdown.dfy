/** The request to stop an association. It is documented to keep the connection; this is exactly how long
    it does, from every established pair, while the drivers do what they do by themselves. A READY machine
    dies of what the peer's retry brings, and its driver reads up to its deadline only. */
module Shutdown {
  import opened Prelude
  import opened Configuration
  import opened Packets
  import opened Events
  import opened Machine
  import opened Drivers
  import opened Network
  import opened Sessions
  import opened Safety
  import opened Timing
  import opened Service
  import opened Limits
  import opened Tightness
  import opened Exactness

  // ---------------------------------------------------------------- what a READY machine survives

  predicate Harmless(p: Packet) { IsShutdown(p) || IsHeartbeat(p) }

  predicate AllHarmless(pipe: seq<Stamped>) {
    forall i :: 0 <= i < |pipe| ==> Harmless(pipe[i].packet)
  }

  /** Of everything a peer can send, a READY machine survives SHUTDOWN and HEARTBEAT, which leave it as it
      is, and nothing else: not data, and not a STARTUP either. */
  lemma ReadySurvives(config: Config, p: Peer, packet: Packet, now: nat, order: seq<string>)
    requires p.open && p.core.state.Ready? && Lookup(config, p.core.id).Some?
    ensures Read(config, p, packet, now, order).open <==> Harmless(packet)
    ensures Harmless(packet) ==> Read(config, p, packet, now, order) == p
  {
    if Harmless(packet) {
      var e := if IsShutdown(packet) then RShutdown(now) else RHeartbeat(now);
      assert PacketEvent(packet, now, config, p.core.id, order) == Ok(e);
      assert Stamp(Next(config, p.core, e).sent, now) == [];
    }
  }

  // ---------------------------------------------------------------- deafness

  /** What is on the wire to `side`. */
  function Incoming(w: World, side: Side): seq<Stamped> { if side.Caller? then w.ba else w.ab }

  lemma CallerStaysDeaf(setting: Setting, env: Env, w: World, act: Action)
    requires !setting.Unrestricted? && Deaf(w.a.core, w.now) && Permitted(setting, env, w, act)
    ensures var v := Effect(env, w, act);
            && Deaf(v.a.core, v.now) && v.a.core == w.a.core && v.a.received == w.a.received
            && w.ba <= v.ba && v.a.open == w.a.open
  {
    hide Next, Take, Read;
  }

  lemma StepStaysDeaf(setting: Setting, env: Env, w: World, side: Side, act: Action)
    requires !setting.Unrestricted? && Deaf(PeerAt(w, side).core, w.now) && Permitted(setting, env, w, act)
    ensures var v := Effect(env, w, act);
            && Deaf(PeerAt(v, side).core, v.now) && PeerAt(v, side).core == PeerAt(w, side).core
            && PeerAt(v, side).received == PeerAt(w, side).received && PeerAt(v, side).open == PeerAt(w, side).open
            && Incoming(w, side) <= Incoming(v, side)
  {
    hide Permitted, Effect;
    if side.Caller? {
      CallerStaysDeaf(setting, env, w, act);
    } else {
      PermittedMirrors(setting, env, w, act);
      EffectMirrors(env, w, act);
      CallerStaysDeaf(setting, MirrorEnv(env), Mirror(w), Flip(act));
    }
  }

  /** READY, without the wish to associate, and past its deadline: whatever the peer sends and whatever both
      drivers do, nothing is read any more; the machine stays as it is, and what comes in piles up. Only its
      own user can end this. */
  lemma {:induction false} DeafForever(setting: Setting, env: Env, w: World, side: Side, acts: seq<Action>)
    requires !setting.Unrestricted? && Deaf(PeerAt(w, side).core, w.now)
    ensures var v := Play(setting, env, w, acts);
            && Deaf(PeerAt(v, side).core, v.now) && PeerAt(v, side).core == PeerAt(w, side).core
            && PeerAt(v, side).received == PeerAt(w, side).received && PeerAt(v, side).open == PeerAt(w, side).open
            && Incoming(w, side) <= Incoming(v, side)
  {
    hide Permitted, Effect, Deaf;
    if acts == [] {
    } else {
      var n := |acts| - 1;
      DeafForever(setting, env, w, side, acts[..n]);
      var before := Play(setting, env, w, acts[..n]);
      if Permitted(setting, env, before, acts[n]) {
        StepStaysDeaf(setting, env, before, side, acts[n]);
      }
    }
  }

  // ---------------------------------------------------------------- what the drivers do by themselves

  /** Every run of the drivers alone that is over by `h` leaves both peers alive. */
  ghost predicate KeptUntil(setting: Setting, env: Env, w: World, h: nat) {
    forall acts :: DriversOnly(acts) && Play(setting, env, w, acts).now <= h ==> Healthy(Play(setting, env, w, acts))
  }

  ghost predicate KeptForever(setting: Setting, env: Env, w: World) {
    forall acts :: DriversOnly(acts) ==> Healthy(Play(setting, env, w, acts))
  }

  // ---------------------------------------------------------------- established pairs

  /** Both in DATA_READY with live deadlines. This looks the same from both ends. */
  ghost predicate Established(env: Env, w: World, t: Tempo) {
    && env.ka in env.a.connections && env.kb in env.b.connections
    && w.a.open && w.b.open && w.a.core.state.DataReady? && w.b.core.state.DataReady?
    && Up(env, View(w)) && UpClock(env, View(w), 0, 0, t) && SessionPrompt(env, View(w), t)
    && Silence(ConfA(env), t) < ConfB(env).tr
    && Silence(ConfB(env), t) < ConfA(env).tr
  }

  lemma EstablishedMirrors(env: Env, w: World, t: Tempo)
    requires Established(env, w, t)
    ensures Established(MirrorEnv(env), Mirror(w), t)
  {
    hide Up, UpClock, SessionPrompt;
    ViewTurns(w);
    UpTurns(env, View(w));
    UpClockTurns(env, View(w), 0, 0, t);
    SessionPromptTurns(env, View(w), t);
  }

  lemma OnClockIsEstablished(env: Env, w: World, t: Tempo)
    requires WellMatched(env) && Roomy(env, t) && OnClock(env, w, t)
    requires w.a.core.state.DataReady? && w.b.core.state.DataReady?
    ensures Established(env, w, t)
  {
    hide SessionPrompt;
    assert Up(env, View(w));
    assert Named(w.a.core, env.a, env.ka) && Named(w.b.core, env.b, env.kb);
  }

  // ---------------------------------------------------------------- the invariant after the request

  /** Traffic, and the SHUTDOWN behind it. */
  predicate EndsInShutdown(pipe: seq<Stamped>) {
    && pipe != [] && IsShutdown(pipe[|pipe| - 1].packet)
    && forall i :: 0 <= i < |pipe| - 1 ==> Traffic(pipe[i].packet)
  }

  /** Heartbeats and SHUTDOWNs, and only STARTUPs behind them. */
  predicate InTurn(pipe: seq<Stamped>) {
    && (forall i :: 0 <= i < |pipe| ==> Harmless(pipe[i].packet) || IsStartup(pipe[i].packet))
    && (forall i, j :: 0 <= i < j < |pipe| && IsStartup(pipe[i].packet) ==> IsStartup(pipe[j].packet))
  }

  /** The callee has the request still to come, and its response deadline is safe until it does. */
  ghost predicate StillAsking(env: Env, s: Session, t: Tempo)
    requires env.ka in env.a.connections && env.kb in env.b.connections
  {
    && s.b.state.DataReady? && EndsInShutdown(s.ab) && AllHarmless(s.ba)
    && s.ab[0].at + ConfB(env).tr <= s.b.state.tr + Max(ConfA(env).ts + t.late, t.latency)
  }

  /** The callee has answered, and is to retry not before one `tr` after the request at `at`. */
  ghost predicate HasAnswered(env: Env, s: Session, at: nat)
    requires env.kb in env.b.connections
  {
    s.b.state.AssociationPending? && s.ab == [] && at + ConfB(env).tr <= s.b.state.tr && AllHarmless(s.ba)
  }

  /** The callee has answered, and its retries are not heard any more. */
  ghost predicate Unheard(s: Session) {
    s.b.state.AssociationPending? && s.ab == [] && Deaf(s.a, s.now)
  }

  /** The caller, which asked at `at`, is READY for good. */
  ghost predicate Parting(env: Env, s: Session, at: nat, t: Tempo) {
    && env.ka in env.a.connections && env.kb in env.b.connections
    && s.a.state.Ready? && !s.a.target.DataReady? && s.a.id == Some(env.ka) && s.b.id == Some(env.kb)
    && s.a.state.tr == at + ConfA(env).tr && s.b.target.DataReady?
    && at <= s.now && AllPast(s.ab, s.now) && InTime(s.ab, s.now, t.latency)
    && InTurn(s.ba) && AllPast(s.ba, s.now)
    && Silence(ConfA(env), t) < ConfB(env).tr
    && (StillAsking(env, s, t) || HasAnswered(env, s, at) || Unheard(s))
  }

  function Other(side: Side): Side { if side.Caller? then Callee else Caller }

  function TrOf(env: Env, side: Side): nat
    requires env.ka in env.a.connections && env.kb in env.b.connections
  {
    if side.Caller? then ConfA(env).tr else ConfB(env).tr
  }

  /** At `now` the retry of the peer of `side`, which asked at `at`, is yet to come, or `side` does not hear it. */
  predicate Undisturbed(env: Env, side: Side, at: nat, now: nat)
    requires env.ka in env.a.connections && env.kb in env.b.connections
  {
    now < at + TrOf(env, Other(side)) || TrOf(env, side) <= TrOf(env, Other(side))
  }

  ghost predicate Parted(env: Env, w: World, at: nat, t: Tempo) {
    w.a.open && w.b.open && Parting(env, View(w), at, t)
  }

  lemma ShutdownIs(config: Config, p: Peer, now: nat)
    requires (p.core.state.DataReady? || p.core.state.AssociationPending?) && Lookup(config, p.core.id).Some?
    ensures var cc := Lookup(config, p.core.id).value;
            Take(config, p, LShutdown(now), now)
            == p.(core := Core(State.Ready(now + cc.tr), p.core.server, Target.Ready, p.core.id),
                  queue := p.queue + [Stamped(SHUTDOWN_PACKET, now)])
  {
    var o := Next(config, p.core, LShutdown(now));
    assert Stamp(o.sent, now) == [Stamped(SHUTDOWN_PACKET, now)];
  }

  lemma RequestGoesBehindTraffic(env: Env, s: Session, t: Tempo)
    requires Up(env, s) && UpClock(env, s, 0, 0, t) && SessionPrompt(env, s, t)
    requires s.a.state.DataReady? && s.b.state.DataReady?
    ensures var pipe := s.ab + [Stamped(SHUTDOWN_PACKET, s.now)];
            && EndsInShutdown(pipe) && AllPast(pipe, s.now) && InTime(pipe, s.now, t.latency)
            && pipe[0].at + ConfB(env).tr <= s.b.state.tr + Max(ConfA(env).ts + t.late, t.latency)
  {
    hide Traffic;
    var pipe := s.ab + [Stamped(SHUTDOWN_PACKET, s.now)];
    assert forall i :: 0 <= i < |s.ab| ==> pipe[i] == s.ab[i];
    if s.ab == [] {
      assert s.now <= s.a.state.ts + t.late;
    }
  }

  lemma HarmlessIsInTurn(pipe: seq<Stamped>)
    requires AllHarmless(pipe)
    ensures InTurn(pipe)
  {
    assert forall i :: 0 <= i < |pipe| ==> Harmless(pipe[i].packet);
  }

  lemma RequestParts(env: Env, w: World, t: Tempo)
    requires Established(env, w, t) && AllHarmless(w.ba + w.b.queue)
    ensures Parted(env, CallerLocal(env, w, LShutdown(w.now)), w.now, t)
  {
    var s := View(w);
    assert s.a.id == Some(env.ka) && s.b.id == Some(env.kb) && s.b.target.DataReady? && AllPast(s.ba, s.now);
    HarmlessIsInTurn(s.ba);
    hide Take, Up, UpClock, SessionPrompt, EndsInShutdown, InTime, AllPast, AllHarmless, InTurn;
    ShutdownIs(env.a, w.a, w.now);
    RequestGoesBehindTraffic(env, s, t);
    var v := CallerLocal(env, w, LShutdown(w.now));
    assert View(v).ab == s.ab + [Stamped(SHUTDOWN_PACKET, w.now)];
    assert View(v).ba == s.ba;
  }

  lemma RequesterReads(env: Env, s: Session, at: nat, t: Tempo, order: seq<string>)
    requires Parting(env, s, at, t) && s.ba != [] && Listens(s.a, s.now)
    ensures var r := CallerEvent(env.a, s, order);
            r.Ok? && Parting(env, CallerTakes(env.a, s.(ba := s.ba[1..]), r.value), at, t)
  {
    var p := s.ba[0].packet;
    assert Harmless(p);
    var e := if IsShutdown(p) then RShutdown(s.now) else RHeartbeat(s.now);
    assert CallerEvent(env.a, s, order) == Ok(e);
    var u := CallerTakes(env.a, s.(ba := s.ba[1..]), e);
    assert u.ab == s.ab;
    assert u == s.(ba := s.ba[1..]);
  }

  lemma ShutdownEvent(config: Config, c: Core, p: Packet, now: nat, order: seq<string>)
    requires IsShutdown(p)
    ensures PacketEvent(p, now, config, c.id, order) == Ok(RShutdown(now))
  {
  }

  lemma ShutdownHeard(config: Config, c: Core, now: nat)
    requires c.state.DataReady? && Lookup(config, c.id).Some?
    ensures var o := Next(config, c, RShutdown(now));
            && o.core == c.(state := AssociationPending(now + Lookup(config, c.id).value.tr))
            && o.sent == [SHUTDOWN_PACKET] && o.delivered == []
  {
  }

  lemma PeerReadsRequest(env: Env, s: Session, at: nat, t: Tempo, order: seq<string>)
    requires Parting(env, s, at, t) && |s.ab| == 1
    ensures var r := CallerEvent(env.b, Turn(s), order);
            r.Ok? && Parting(env, Turn(CallerTakes(env.b, Turn(s).(ba := s.ab[1..]), r.value)), at, t)
  {
    ShutdownEvent(env.b, s.b, s.ab[0].packet, s.now, order);
    ShutdownHeard(env.b, s.b, s.now);
    SignsAreHarmless();
    hide Next, PacketEvent, Harmless;
    var r := CallerEvent(env.b, Turn(s), order);
    var u := Turn(CallerTakes(env.b, Turn(s).(ba := s.ab[1..]), r.value));
    assert u.ba == s.ba + [Stamped(SHUTDOWN_PACKET, s.now)];
    HarmlessIsInTurn(u.ba);
    assert u.a == s.a && u.ab == [] && u.now == s.now;
  }

  lemma PeerReadsTraffic(env: Env, s: Session, at: nat, t: Tempo, order: seq<string>)
    requires Parting(env, s, at, t) && |s.ab| > 1
    ensures var r := CallerEvent(env.b, Turn(s), order);
            r.Ok? && Parting(env, Turn(CallerTakes(env.b, Turn(s).(ba := s.ab[1..]), r.value)), at, t)
  {
    TrafficNext(env.b, s.b, s.ab[0].packet, s.now, order);
    hide Next, PacketEvent, Traffic, IsShutdown, AllHarmless;
    var r := CallerEvent(env.b, Turn(s), order);
    var u := Turn(CallerTakes(env.b, Turn(s).(ba := s.ab[1..]), r.value));
    assert u.ba == s.ba;
    assert u == s.(b := s.b.(state := State.DataReady(s.now + ConfB(env).tr, s.b.state.ts)), ab := s.ab[1..]);
    assert u.ab[|u.ab| - 1] == s.ab[|s.ab| - 1];
  }

  lemma PeerReads(env: Env, s: Session, at: nat, t: Tempo, order: seq<string>)
    requires Parting(env, s, at, t) && s.ab != []
    ensures var r := CallerEvent(env.b, Turn(s), order);
            r.Ok? && Parting(env, Turn(CallerTakes(env.b, Turn(s).(ba := s.ab[1..]), r.value)), at, t)
  {
    hide *;
    if |s.ab| == 1 {
      PeerReadsRequest(env, s, at, t, order);
    } else {
      PeerReadsTraffic(env, s, at, t, order);
    }
  }

  lemma SignsAreHarmless()
    ensures Harmless(SHUTDOWN_PACKET) && Harmless(HEARTBEAT_PACKET)
    ensures IsShutdown(SHUTDOWN_PACKET) && IsStartup(STARTUP_PACKET) && !Harmless(STARTUP_PACKET)
  {
  }

  /** The callee's heartbeats do no harm, no other timer of it is due before `at + tr`, and its retries
      find the caller deaf. */
  lemma PeerRaises(env: Env, s: Session, at: nat, t: Tempo, e: Event)
    requires Parting(env, s, at, t) && Raises(s.b, s.now, e) && Undisturbed(env, Caller, at, s.now)
    ensures Parting(env, Turn(CallerTakes(env.b, Turn(s), e)), at, t)
  {
    var u := Turn(CallerTakes(env.b, Turn(s), e));
    SignsAreHarmless();
    if s.b.state.DataReady? {
      assert s.now <= s.ab[0].at + t.latency;
      assert e == TsTimeout(s.now);
      BeatKeepsFlow(env.b, s.b, s.now);
      hide Next, Harmless, IsStartup;
      assert u.ba == s.ba + [Stamped(HEARTBEAT_PACKET, s.now)];
      HarmlessIsInTurn(u.ba);
    } else {
      assert e == TrTimeout(s.now);
      RetryKeepsFlow(env.b, s.b, s.now);
      hide Next, Harmless, IsStartup;
      assert u.ba == s.ba + [Stamped(STARTUP_PACKET, s.now)];
    }
  }

  lemma BeatKeepsFlow(config: Config, c: Core, now: nat)
    requires c.state.DataReady? && Lookup(config, c.id).Some?
    ensures var o := Next(config, c, TsTimeout(now));
            && o.core == c.(state := State.DataReady(c.state.tr, now + Lookup(config, c.id).value.ts))
            && o.sent == [HEARTBEAT_PACKET]
  {
  }

  lemma RetryKeepsFlow(config: Config, c: Core, now: nat)
    requires c.state.AssociationPending? && Lookup(config, c.id).Some?
    ensures var o := Next(config, c, TrTimeout(now));
            && o.core == c.(state := AssociationPending(now + Lookup(config, c.id).value.tr))
            && o.sent == [STARTUP_PACKET]
  {
  }

  lemma PartingStates(env: Env, s: Session, at: nat, t: Tempo)
    requires Parting(env, s, at, t)
    ensures s.a.state.Ready? && (s.b.state.DataReady? || s.b.state.AssociationPending?)
    ensures forall e :: !Raises(s.a, s.now, e)
  {
  }

  lemma PartingWaits(env: Env, s: Session, at: nat, t: Tempo, to: nat)
    requires Parting(env, s, at, t) && s.now <= to && InTime(s.ab, to, t.latency)
    ensures Parting(env, s.(now := to), at, t)
  {
  }

  lemma StepParts(setting: Setting, env: Env, w: World, act: Action, at: nat, t: Tempo)
    requires Follows(setting, t) && Parted(env, w, at, t) && Permitted(setting, env, w, act)
    requires !(act.Local? && act.e.LData?)
    requires Undisturbed(env, Caller, at, Effect(env, w, act).now)
    ensures Parted(env, Effect(env, w, act), at, t)
  {
    hide Next, PacketEvent, Parting, Take, Read, Raises;
    var m := MirrorEnv(env);
    PartingStates(env, View(w), at, t);
    ViewTurns(w);
    match act
    case Advance(to) =>
      InTimeAppends(w.ab, w.a.queue, to, t.latency);
      PartingWaits(env, View(w), at, t, to);
    case Flush(side) =>
      if side.Caller? {
        FlushIsInvisible(w);
      } else {
        FlushIsInvisible(Mirror(w));
        ViewTurns(CallerFlush(Mirror(w)));
      }
    case Deliver(side, order) =>
      if side.Caller? {
        RequesterReads(env, View(w), at, t, order);
        ViewOfDeliver(env, w, order);
        PartingStates(env, View(CallerDeliver(env, w, order)), at, t);
        ReadingStaysOpen(env, w, order);
      } else {
        PeerReads(env, View(w), at, t, order);
        ViewOfDeliver(m, Mirror(w), order);
        var v := CallerDeliver(m, Mirror(w), order);
        ViewTurns(v);
        PartingStates(env, View(Mirror(v)), at, t);
        ReadingStaysOpen(m, Mirror(w), order);
      }
    case Local(side, e) =>
      assert side.Callee?;
      PeerRaises(env, View(w), at, t, e);
      ViewOfLocal(m, Mirror(w), e);
      var v := CallerLocal(m, Mirror(w), e);
      ViewTurns(v);
      PartingStates(env, View(Mirror(v)), at, t);
      TakingStaysOpen(m.a, w.b, e, w.now);
  }

  lemma ReadingStaysOpen(env: Env, w: World, order: seq<string>)
    requires w.a.open && w.ba != [] && CallerEvent(env.a, View(w), order).Ok?
    ensures var p := CallerDeliver(env, w, order).a;
            !p.core.state.Idle? && !p.core.state.Error? ==> p.open
  {
    hide Next, PacketEvent;
    assert View(w).ba[0] == w.ba[0];
  }

  lemma TakingStaysOpen(config: Config, p: Peer, e: Event, now: nat)
    requires p.open
    ensures var q := Take(config, p, e, now);
            !q.core.state.Idle? && !q.core.state.Error? ==> q.open
  {
  }

  lemma TimeDoesNotTurn(setting: Setting, env: Env, w: World, act: Action)
    ensures w.now <= Step(setting, env, w, act).now
  {
    hide Next, Take, Read;
  }

  lemma {:induction false} PlayParts(setting: Setting, env: Env, w: World, acts: seq<Action>, at: nat, t: Tempo)
    requires Follows(setting, t) && Parted(env, w, at, t) && DriversOnly(acts)
    ensures var v := Play(setting, env, w, acts);
            Undisturbed(env, Caller, at, v.now) ==> Parted(env, v, at, t)
  {
    var quiet := Undisturbed(env, Caller, at, Play(setting, env, w, acts).now);
    hide Permitted, Effect, Parting;
    if acts == [] {
    } else {
      var n := |acts| - 1;
      PlayParts(setting, env, w, acts[..n], at, t);
      var before := Play(setting, env, w, acts[..n]);
      TimeDoesNotTurn(setting, env, before, acts[n]);
      if Permitted(setting, env, before, acts[n]) && quiet {
        StepParts(setting, env, before, acts[n], at, t);
      }
    }
  }

  // ---------------------------------------------------------------- what ends it

  /** READY for good, under the configured id `k`. */
  predicate Stopped(config: Config, p: Peer, k: string) {
    p.open && p.core.state.Ready? && !p.core.target.DataReady? && p.core.id == Some(k) && k in config.connections
  }

  /** Whatever else is on its way to a READY machine that listens ends the connection when it is read. */
  lemma {:induction false} FatalIsRead(setting: Setting, env: Env, w: World, order: seq<string>)
    returns (acts: seq<Action>)
    requires setting.Punctual? && Stopped(env.a, w.a, env.ka) && w.a.queue == [] && w.now < w.a.core.state.tr
    requires Enumerates(order, env.a.connections) && !AllHarmless(w.ba)
    ensures DriversOnly(acts)
    ensures var v := Play(setting, env, w, acts); v.now == w.now && !Healthy(v)
    decreases |w.ba|
  {
    hide Play, Read, Harmless;
    var act := Deliver(Caller, order);
    OneStep(setting, env, w, act);
    ReadySurvives(env.a, w.a, w.ba[0].packet, w.now, order);
    if Harmless(w.ba[0].packet) {
      var rest := FatalIsRead(setting, env, Effect(env, w, act), order);
      PlayAppend(setting, env, w, [act], rest);
      acts := [act] + rest;
    } else {
      acts := [act];
    }
  }

  lemma {:induction false} HarmlessIsRead(setting: Setting, env: Env, w: World, order: seq<string>)
    returns (acts: seq<Action>)
    requires setting.Punctual? && Stopped(env.a, w.a, env.ka) && w.a.queue == [] && w.now < w.a.core.state.tr
    requires Enumerates(order, env.a.connections) && AllHarmless(w.ba)
    ensures DriversOnly(acts) && Play(setting, env, w, acts) == w.(ba := [])
    decreases |w.ba|
  {
    hide Play, Read, Harmless;
    if w.ba == [] {
      acts := [];
      PlayNothing(setting, env, w);
    } else {
      var act := Deliver(Caller, order);
      OneStep(setting, env, w, act);
      ReadySurvives(env.a, w.a, w.ba[0].packet, w.now, order);
      var rest := HarmlessIsRead(setting, env, Effect(env, w, act), order);
      PlayAppend(setting, env, w, [act], rest);
      acts := [act] + rest;
    }
  }

  /** The peer, still in DATA_READY and with time, with traffic and then the request at `n` on the wire. */
  ghost predicate Asked(env: Env, w: World, n: nat) {
    && env.kb in env.b.connections && w.b.open && w.b.core.state.DataReady? && w.b.core.id == Some(env.kb)
    && w.now < w.b.core.state.tr && 0 < ConfB(env).tr
    && w.b.queue == [] && n < |w.ab| && IsShutdown(w.ab[n].packet)
    && forall i :: 0 <= i < n ==> Traffic(w.ab[i].packet)
  }

  /** The peer with the request at `n` answered. */
  ghost predicate Answered(env: Env, w: World, n: nat, v: World) {
    && env.kb in env.b.connections && v.b.open && v.b.core.id == Some(env.kb)
    && v.b.core.state == AssociationPending(w.now + ConfB(env).tr)
    && v.b.queue == [Stamped(SHUTDOWN_PACKET, w.now)]
    && v.now == w.now && v.a == w.a && v.ba == w.ba && n < |w.ab| && v.ab == w.ab[n + 1..]
  }

  lemma RequestIsAnswered(env: Env, w: World, order: seq<string>)
    requires Asked(env, w, 0)
    ensures Answered(env, w, 0, Mirror(CallerDeliver(MirrorEnv(env), Mirror(w), order)))
  {
    ShutdownEvent(env.b, w.b.core, w.ab[0].packet, w.now, order);
    ShutdownHeard(env.b, w.b.core, w.now);
    hide Next, PacketEvent;
    assert Stamp([SHUTDOWN_PACKET], w.now) == [Stamped(SHUTDOWN_PACKET, w.now)];
  }

  lemma TrafficIsRead(env: Env, w: World, n: nat, order: seq<string>)
    requires Asked(env, w, n) && n > 0
    ensures var v := Mirror(CallerDeliver(MirrorEnv(env), Mirror(w), order));
            && Asked(env, v, n - 1) && v.now == w.now && v.a == w.a && v.ab == w.ab[1..] && v.ba == w.ba
            && v.b.core.state.ts == w.b.core.state.ts
  {
    TrafficNext(env.b, w.b.core, w.ab[0].packet, w.now, order);
    hide Next, PacketEvent;
    assert Stamp([], w.now) == [];
  }

  lemma {:induction false} PeerReadsOn(setting: Setting, env: Env, w: World, n: nat, order: seq<string>)
    returns (acts: seq<Action>)
    requires setting.Punctual? && Asked(env, w, n) && Enumerates(order, env.b.connections)
    requires setting.biased ==> w.now < w.b.core.state.ts
    ensures DriversOnly(acts) && Answered(env, w, n, Play(setting, env, w, acts))
    decreases n
  {
    hide Play, Next, Take, Read;
    var act := Deliver(Callee, order);
    OneStep(setting, env, w, act);
    var v := Effect(env, w, act);
    assert v == Mirror(CallerDeliver(MirrorEnv(env), Mirror(w), order));
    if n == 0 {
      RequestIsAnswered(env, w, order);
      acts := [act];
    } else {
      TrafficIsRead(env, w, n, order);
      var rest := PeerReadsOn(setting, env, v, n - 1, order);
      PlayAppend(setting, env, w, [act], rest);
      acts := [act] + rest;
    }
  }

  /** A heartbeat of the peer that is due goes out. */
  lemma PeerBeats(setting: Setting, env: Env, w: World) returns (acts: seq<Action>)
    requires setting.Punctual? && env.kb in env.b.connections && 0 < ConfB(env).ts
    requires w.b.open && w.b.core.state.DataReady? && w.b.core.id == Some(env.kb) && w.b.queue == []
    ensures DriversOnly(acts)
    ensures var v := Play(setting, env, w, acts);
            && v == w.(b := w.b.(core := v.b.core), ba := v.ba)
            && v.b.core.state.DataReady?
            && v.b.core == w.b.core.(state := State.DataReady(w.b.core.state.tr, v.b.core.state.ts))
            && v.now < v.b.core.state.ts
            && v.ba == w.ba + if w.b.core.state.ts <= w.now then [Stamped(HEARTBEAT_PACKET, w.now)] else []
  {
    hide Play, Next, Take, IsLocal;
    if w.b.core.state.ts <= w.now {
      TimersAreLocal(w.now);
      var beat := Local(Callee, TsTimeout(w.now));
      OneStep(setting, env, w, beat);
      BeatIs(env.b, w.b, w.now);
      var w1 := Effect(env, w, beat);
      OneStep(setting, env, w1, Flush(Callee));
      PlayAppend(setting, env, w, [beat], [Flush(Callee)]);
      acts := [beat] + [Flush(Callee)];
    } else {
      PlayNothing(setting, env, w);
      acts := [];
      assert w.ba + [] == w.ba;
    }
  }

  /** Nothing is under way, and the peer, which has answered, waits for its deadline. */
  ghost predicate Awaiting(env: Env, w: World) {
    && Stopped(env.a, w.a, env.ka)
    && env.kb in env.b.connections && w.b.core.id == Some(env.kb)
    && w.b.open && w.b.core.state.AssociationPending?
    && w.a.queue == w.b.queue == w.ab == w.ba == [] && w.now <= w.b.core.state.tr
  }

  /** The peer's retry is the next thing to happen. */
  lemma RetryGoesOut(setting: Setting, env: Env, w: World) returns (acts: seq<Action>)
    requires setting.Punctual? && Awaiting(env, w)
    ensures DriversOnly(acts)
    ensures var due := w.b.core.state.tr;
            var v := Play(setting, env, w, acts);
            && v.now == due && v.a == w.a && v.ab == []
            && v.b == w.b.(core := w.b.core.(state := AssociationPending(due + ConfB(env).tr)))
            && v.ba == [Stamped(STARTUP_PACKET, due)]
  {
    hide Play, Next, Take, IsLocal;
    var due := w.b.core.state.tr;
    Wait(setting, env, w, due);
    var w1 := w.(now := due);
    var retry := Local(Callee, TrTimeout(due));
    TimersAreLocal(due);
    OneStep(setting, env, w1, retry);
    RetryIs(env.b, w.b, due);
    var w2 := Effect(env, w1, retry);
    OneStep(setting, env, w2, Flush(Callee));
    PlayAppend(setting, env, w, [Advance(due)], [retry]);
    PlayAppend(setting, env, w, [Advance(due)] + [retry], [Flush(Callee)]);
    acts := [Advance(due)] + [retry] + [Flush(Callee)];
  }

  lemma RetryIsFatal(setting: Setting, env: Env, w: World) returns (acts: seq<Action>)
    requires setting.Punctual? && Awaiting(env, w) && w.b.core.state.tr < w.a.core.state.tr
    ensures DriversOnly(acts)
    ensures var v := Play(setting, env, w, acts); v.now == w.b.core.state.tr && !Healthy(v)
  {
    hide Play, Harmless, Healthy;
    SignsAreHarmless();
    var order := SomeOrder(env.a.connections);
    var s1 := RetryGoesOut(setting, env, w);
    var v := Play(setting, env, w, s1);
    assert !Harmless(v.ba[0].packet);
    var s2 := FatalIsRead(setting, env, v, order);
    PlayAppend(setting, env, w, s1, s2);
    acts := s1 + s2;
  }

  /** The peer has the request on its wire, and time to read up to it. */
  lemma PeerAnswers(setting: Setting, env: Env, w: World, n: nat) returns (acts: seq<Action>)
    requires setting.Punctual? && Asked(env, w, n) && (setting.biased ==> 0 < ConfB(env).ts)
    requires AllHarmless(w.ba)
    ensures DriversOnly(acts)
    ensures var v := Play(setting, env, w, acts);
            Answered(env, w.(ba := v.ba), n, v) && AllHarmless(v.ba)
  {
    hide Play, Harmless, Traffic, IsShutdown;
    var order := SomeOrder(env.b.connections);
    SignsAreHarmless();
    var s1: seq<Action> := [];
    if setting.biased {
      s1 := PeerBeats(setting, env, w);
    } else {
      PlayNothing(setting, env, w);
    }
    var w1 := Play(setting, env, w, s1);
    var s2 := PeerReadsOn(setting, env, w1, n, order);
    PlayAppend(setting, env, w, s1, s2);
    acts := s1 + s2;
  }

  /** The caller has stopped, the request is under way, and what comes back does no harm: at once the callee
      answers, and the caller reads all there is. */
  lemma RequestGoesThrough(setting: Setting, env: Env, w: World, n: nat) returns (acts: seq<Action>)
    requires setting.Punctual? && Stopped(env.a, w.a, env.ka) && w.now < w.a.core.state.tr
    requires Asked(env, Flushed(w), n) && n == |w.ab + w.a.queue| - 1 && (setting.biased ==> 0 < ConfB(env).ts)
    requires AllHarmless(w.ba + w.b.queue)
    ensures DriversOnly(acts)
    ensures var v := Play(setting, env, w, acts);
            && v.now == w.now && Stopped(env.a, v.a, env.ka) && v.a.core == w.a.core
            && env.kb in env.b.connections && v.b.open && v.b.core.id == Some(env.kb)
            && v.b.core.state == AssociationPending(w.now + ConfB(env).tr)
            && v.a.queue == v.b.queue == v.ab == v.ba == []
  {
    hide Play, Harmless, Traffic, IsShutdown;
    var order := SomeOrder(env.a.connections);
    var s1 := FlushAll(setting, env, w);
    var w1 := Flushed(w);
    var s2 := PeerAnswers(setting, env, w1, n);
    var w2 := Play(setting, env, w1, s2);
    var s3 := FlushAll(setting, env, w2);
    var w3 := Flushed(w2);
    SignsAreHarmless();
    assert w3.ba == w2.ba + [Stamped(SHUTDOWN_PACKET, w.now)];
    var s4 := HarmlessIsRead(setting, env, w3, order);
    PlayAppend(setting, env, w, s1, s2);
    PlayAppend(setting, env, w, s1 + s2, s3);
    PlayAppend(setting, env, w, s1 + s2 + s3, s4);
    acts := s1 + s2 + s3 + s4;
  }

  /** Then the callee waits, and retries into the caller's READY, if that is still listening. */
  lemma RetryLoses(setting: Setting, env: Env, w: World, n: nat) returns (acts: seq<Action>)
    requires setting.Punctual? && Stopped(env.a, w.a, env.ka)
    requires Asked(env, Flushed(w), n) && n == |w.ab + w.a.queue| - 1 && (setting.biased ==> 0 < ConfB(env).ts)
    requires AllHarmless(w.ba + w.b.queue) && w.now + ConfB(env).tr < w.a.core.state.tr
    ensures DriversOnly(acts)
    ensures var v := Play(setting, env, w, acts); v.now == w.now + ConfB(env).tr && !Healthy(v)
  {
    hide Play, Asked, AllHarmless, Healthy;
    var s1 := RequestGoesThrough(setting, env, w, n);
    var s2 := RetryIsFatal(setting, env, Play(setting, env, w, s1));
    PlayAppend(setting, env, w, s1, s2);
    acts := s1 + s2;
  }

  lemma FatalLoses(setting: Setting, env: Env, w: World) returns (acts: seq<Action>)
    requires setting.Punctual? && Stopped(env.a, w.a, env.ka) && w.now < w.a.core.state.tr
    requires !AllHarmless(w.ba + w.b.queue)
    ensures DriversOnly(acts)
    ensures var v := Play(setting, env, w, acts); v.now == w.now && !Healthy(v)
  {
    hide Play, Harmless, Healthy;
    var order := SomeOrder(env.a.connections);
    var s1 := FlushAll(setting, env, w);
    var s2 := FatalIsRead(setting, env, Flushed(w), order);
    PlayAppend(setting, env, w, s1, s2);
    acts := s1 + s2;
  }

  // ---------------------------------------------------------------- exactly how long

  lemma RequestIsAsked(env: Env, w: World, t: Tempo)
    requires Established(env, w, t)
    ensures var v := CallerLocal(env, w, LShutdown(w.now));
            && v.now == w.now && v.ba + v.b.queue == w.ba + w.b.queue
            && Stopped(env.a, v.a, env.ka) && v.a.core.state.tr == w.now + ConfA(env).tr
            && v.now < v.a.core.state.tr
            && v.ab + v.a.queue != [] && Asked(env, Flushed(v), |v.ab + v.a.queue| - 1)
  {
    ResponseMargin(env, View(w), 0, 0, t);
    hide UpClock, SessionPrompt, Take;
    ShutdownIs(env.a, w.a, w.now);
    var v := CallerLocal(env, w, LShutdown(w.now));
    SignsAreHarmless();
    assert v.ab + v.a.queue == View(w).ab + [Stamped(SHUTDOWN_PACKET, w.now)];
  }

  lemma CallerKeepsExactly(setting: Setting, env: Env, w: World, t: Tempo, h: nat)
    requires Follows(setting, t) && Established(env, w, t) && w.now <= h
    requires setting.biased ==> 0 < ConfB(env).ts
    ensures KeptUntil(setting, env, CallerLocal(env, w, LShutdown(w.now)), h)
            <==> AllHarmless(w.ba + w.b.queue) && Undisturbed(env, Caller, w.now, h)
  {
    assert env.ka in env.a.connections && env.kb in env.b.connections;
    hide Play, Next, Take, Established, Parting, Asked, AllHarmless, Healthy, Stopped;
    var v := CallerLocal(env, w, LShutdown(w.now));
    RequestIsAsked(env, w, t);
    if !AllHarmless(w.ba + w.b.queue) {
      var acts := FatalLoses(setting, env, v);
    } else if !Undisturbed(env, Caller, w.now, h) {
      var acts := RetryLoses(setting, env, v, |v.ab + v.a.queue| - 1);
    } else {
      RequestParts(env, w, t);
      forall acts | DriversOnly(acts) && Play(setting, env, v, acts).now <= h
        ensures Healthy(Play(setting, env, v, acts))
      {
        PlayParts(setting, env, v, acts, w.now, t);
        PartedIsHealthy(env, Play(setting, env, v, acts), w.now, t);
      }
    }
  }

  /** Nor does the request stop the clock: any later time is reached. */
  lemma CallerReaches(setting: Setting, env: Env, w: World, t: Tempo, h: nat) returns (acts: seq<Action>)
    requires Follows(setting, t) && Established(env, w, t) && w.now <= h
    requires AllHarmless(w.ba + w.b.queue) && (setting.biased ==> 0 < ConfB(env).ts)
    ensures DriversOnly(acts) && Play(setting, env, CallerLocal(env, w, LShutdown(w.now)), acts).now == h
  {
    hide Play, Take, Established, Asked, AllHarmless;
    var v := CallerLocal(env, w, LShutdown(w.now));
    RequestIsAsked(env, w, t);
    var s1 := RequestGoesThrough(setting, env, v, |v.ab + v.a.queue| - 1);
    Wait(setting, env, Play(setting, env, v, s1), h);
    PlayAppend(setting, env, v, s1, [Advance(h)]);
    acts := s1 + [Advance(h)];
  }

  /** The peer's retry goes out, is not heard, and time goes on with it on the wire. */
  lemma RetryGoesUnheard(setting: Setting, env: Env, w: World, h: nat) returns (acts: seq<Action>)
    requires setting.Punctual? && Awaiting(env, w) && w.a.core.state.tr <= w.b.core.state.tr <= h
    ensures DriversOnly(acts)
    ensures var v := Play(setting, env, w, acts);
            v.now == h && Healthy(v) && v.ba == [Stamped(STARTUP_PACKET, w.b.core.state.tr)]
  {
    hide Play;
    var s1 := RetryGoesOut(setting, env, w);
    var v := Play(setting, env, w, s1);
    Wait(setting, env, v, h);
    PlayAppend(setting, env, w, s1, [Advance(h)]);
    acts := s1 + [Advance(h)];
  }

  lemma CallerHearsNoRetry(setting: Setting, env: Env, w: World, t: Tempo, h: nat) returns (acts: seq<Action>)
    requires Follows(setting, t) && Established(env, w, t)
    requires ConfA(env).tr <= ConfB(env).tr && w.now + ConfB(env).tr <= h
    requires AllHarmless(w.ba + w.b.queue) && (setting.biased ==> 0 < ConfB(env).ts)
    ensures DriversOnly(acts)
    ensures var v := Play(setting, env, CallerLocal(env, w, LShutdown(w.now)), acts);
            v.now == h && Healthy(v) && v.ba == [Stamped(STARTUP_PACKET, w.now + ConfB(env).tr)]
  {
    hide Play, Take, Established, Asked, AllHarmless, Healthy;
    var v := CallerLocal(env, w, LShutdown(w.now));
    RequestIsAsked(env, w, t);
    var s1 := RequestGoesThrough(setting, env, v, |v.ab + v.a.queue| - 1);
    var s2 := RetryGoesUnheard(setting, env, Play(setting, env, v, s1), h);
    PlayAppend(setting, env, v, s1, s2);
    acts := s1 + s2;
  }

  lemma PartedIsHealthy(env: Env, w: World, at: nat, t: Tempo)
    requires Parted(env, w, at, t)
    ensures Healthy(w)
  {
  }

  // ---------------------------------------------------------------- for either side

  /** The world after the user of `side` has asked to stop. */
  function AskToStop(env: Env, w: World, side: Side): World
    requires w.a.open && w.b.open
  {
    Effect(env, w, Local(side, LShutdown(w.now)))
  }

  /** What is under way towards `side`, on the wire and in the other side's queue. */
  function Towards(w: World, side: Side): seq<Stamped> {
    if side.Caller? then w.ba + w.b.queue else w.ab + w.a.queue
  }

  lemma AskingIs(env: Env, w: World)
    requires w.a.open && w.b.open
    ensures AskToStop(env, w, Caller) == CallerLocal(env, w, LShutdown(w.now))
    ensures AskToStop(env, w, Callee) == Mirror(CallerLocal(MirrorEnv(env), Mirror(w), LShutdown(w.now)))
  {
    hide Take;
  }

  lemma DriversOnlyFlips(acts: seq<Action>)
    requires DriversOnly(acts)
    ensures DriversOnly(FlipAll(acts))
  {
  }

  lemma KeptUntilMirrors(setting: Setting, env: Env, w: World, h: nat)
    requires KeptUntil(setting, MirrorEnv(env), Mirror(w), h)
    ensures KeptUntil(setting, env, w, h)
  {
    hide Play, DriversOnly, Healthy;
    forall acts | DriversOnly(acts) && Play(setting, env, w, acts).now <= h
      ensures Healthy(Play(setting, env, w, acts))
    {
      DriversOnlyFlips(acts);
      PlayMirrors(setting, env, w, acts);
      MirrorIsAsHealthy(Play(setting, env, w, acts));
    }
  }

  lemma CalleeKeepsExactly(setting: Setting, env: Env, w: World, t: Tempo, h: nat)
    requires Follows(setting, t) && Established(env, w, t) && w.now <= h
    requires setting.biased ==> 0 < ConfA(env).ts
    ensures KeptUntil(setting, env, Mirror(CallerLocal(MirrorEnv(env), Mirror(w), LShutdown(w.now))), h)
            <==> AllHarmless(w.ab + w.a.queue) && Undisturbed(env, Callee, w.now, h)
  {
    var m := MirrorEnv(env);
    EstablishedMirrors(env, w, t);
    hide Established, KeptUntil, CallerLocal, AllHarmless;
    CallerKeepsExactly(setting, m, Mirror(w), t, h);
    var v := CallerLocal(m, Mirror(w), LShutdown(w.now));
    assert Mirror(Mirror(v)) == v && MirrorEnv(m) == env;
    if KeptUntil(setting, m, v, h) {
      KeptUntilMirrors(setting, env, Mirror(v), h);
    }
    if KeptUntil(setting, env, Mirror(v), h) {
      KeptUntilMirrors(setting, m, v, h);
    }
  }

  /** From every established pair and for either side: after the request to stop, the drivers keep both peers
      alive in every run that ends by `h` if and only if nothing but heartbeats is on its way to the
      requester, and `h` is before the peer's retry, one peer `tr` after the request, or the requester's own
      `tr` is no longer than that, so that it is deaf by then. */
  lemma KeptExactlyUntilRetry(setting: Setting, env: Env, w: World, t: Tempo, side: Side, h: nat)
    requires WellMatched(env) && Roomy(env, t) && OnClock(env, w, t) && Follows(setting, t)
    requires w.a.core.state.DataReady? && w.b.core.state.DataReady? && w.now <= h
    requires setting.biased ==> TimeCanPass(setting, env)
    ensures KeptUntil(setting, env, AskToStop(env, w, side), h)
            <==> AllHarmless(Towards(w, side)) && Undisturbed(env, side, w.now, h)
  {
    OnClockIsEstablished(env, w, t);
    hide OnClock, Established, KeptUntil, CallerLocal, Roomy, AllHarmless;
    if side.Caller? {
      CallerKeepsExactly(setting, env, w, t, h);
    } else {
      CalleeKeepsExactly(setting, env, w, t, h);
    }
  }

  /** The runs of which this speaks go on for as long as one likes. */
  lemma TimePassesAfterRequest(setting: Setting, env: Env, w: World, t: Tempo, side: Side, h: nat)
    returns (acts: seq<Action>)
    requires WellMatched(env) && Roomy(env, t) && OnClock(env, w, t) && Follows(setting, t)
    requires w.a.core.state.DataReady? && w.b.core.state.DataReady? && w.now <= h
    requires AllHarmless(Towards(w, side)) && (setting.biased ==> TimeCanPass(setting, env))
    ensures DriversOnly(acts) && Play(setting, env, AskToStop(env, w, side), acts).now == h
  {
    OnClockIsEstablished(env, w, t);
    hide OnClock, Established, Play, CallerLocal, Roomy, AllHarmless;
    if side.Caller? {
      acts := CallerReaches(setting, env, w, t, h);
    } else {
      var m := MirrorEnv(env);
      EstablishedMirrors(env, w, t);
      var flipped := CallerReaches(setting, m, Mirror(w), t, h);
      PlayMirrors(setting, m, CallerLocal(m, Mirror(w), LShutdown(w.now)), flipped);
      DriversOnlyFlips(flipped);
      acts := FlipAll(flipped);
    }
  }

  /** A requester that is deaf in time lives on with the peer's retry unread. */
  ghost predicate LivesOnUnheard(env: Env, v: World, side: Side, at: nat, h: nat)
    requires env.ka in env.a.connections && env.kb in env.b.connections
  {
    && v.now == h && Healthy(v)
    && Incoming(v, side) == [Stamped(STARTUP_PACKET, at + TrOf(env, Other(side)))]
  }

  lemma CallerLivesOn(setting: Setting, env: Env, w: World, t: Tempo, h: nat) returns (acts: seq<Action>)
    requires Follows(setting, t) && Established(env, w, t) && (setting.biased ==> TimeCanPass(setting, env))
    requires TrOf(env, Caller) <= TrOf(env, Callee) && w.now + TrOf(env, Callee) <= h
    requires AllHarmless(Towards(w, Caller))
    ensures DriversOnly(acts)
    ensures LivesOnUnheard(env, Play(setting, env, AskToStop(env, w, Caller), acts), Caller, w.now, h)
  {
    AskingIs(env, w);
    hide Established, Play, CallerLocal, AllHarmless, Healthy, AskToStop, DriversOnly;
    acts := CallerHearsNoRetry(setting, env, w, t, h);
  }

  lemma LivingOnMirrors(env: Env, v: World, at: nat, h: nat)
    requires env.ka in env.a.connections && env.kb in env.b.connections
    requires LivesOnUnheard(MirrorEnv(env), v, Caller, at, h)
    ensures LivesOnUnheard(env, Mirror(v), Callee, at, h)
  {
  }

  lemma CalleeLivesOn(setting: Setting, env: Env, w: World, t: Tempo, h: nat) returns (acts: seq<Action>)
    requires Follows(setting, t) && Established(env, w, t) && (setting.biased ==> TimeCanPass(setting, env))
    requires TrOf(env, Callee) <= TrOf(env, Caller) && w.now + TrOf(env, Caller) <= h
    requires AllHarmless(Towards(w, Callee))
    ensures DriversOnly(acts)
    ensures LivesOnUnheard(env, Play(setting, env, AskToStop(env, w, Callee), acts), Callee, w.now, h)
  {
    var m, x := MirrorEnv(env), Mirror(w);
    EstablishedMirrors(env, w, t);
    AskingMirrors(env, w);
    hide Established, Play, AllHarmless, AskToStop, DriversOnly, LivesOnUnheard;
    var flipped := CallerLivesOn(setting, m, x, t, h);
    var u := AskToStop(m, x, Caller);
    PlayMirrors(setting, m, u, flipped);
    DriversOnlyFlips(flipped);
    LivingOnMirrors(env, Play(setting, m, u, flipped), w.now, h);
    acts := FlipAll(flipped);
  }

  /** In particular, with a requester that is deaf in time, on from the peer's retry, which stays unread. */
  lemma LifeGoesOnUnheard(setting: Setting, env: Env, w: World, t: Tempo, side: Side, h: nat)
    returns (acts: seq<Action>)
    requires WellMatched(env) && Roomy(env, t) && OnClock(env, w, t) && Follows(setting, t)
    requires w.a.core.state.DataReady? && w.b.core.state.DataReady?
    requires TrOf(env, side) <= TrOf(env, Other(side)) && w.now + TrOf(env, Other(side)) <= h
    requires AllHarmless(Towards(w, side)) && (setting.biased ==> TimeCanPass(setting, env))
    ensures DriversOnly(acts)
    ensures LivesOnUnheard(env, Play(setting, env, AskToStop(env, w, side), acts), side, w.now, h)
  {
    OnClockIsEstablished(env, w, t);
    assert Other(Caller) == Callee && Other(Callee) == Caller;
    hide *;
    if side == Caller {
      acts := CallerLivesOn(setting, env, w, t, h);
    } else {
      acts := CalleeLivesOn(setting, env, w, t, h);
    }
  }

  /** So the drivers keep the connection for good if and only if nothing but heartbeats is on its way to the
      requester, and its `tr` is at most the peer's: the connection survives because nobody listens any more. */
  lemma KeptForeverExactlyWhenDeafInTime(setting: Setting, env: Env, w: World, t: Tempo, side: Side)
    requires WellMatched(env) && Roomy(env, t) && OnClock(env, w, t) && Follows(setting, t)
    requires w.a.core.state.DataReady? && w.b.core.state.DataReady?
    requires setting.biased ==> TimeCanPass(setting, env)
    ensures KeptForever(setting, env, AskToStop(env, w, side))
            <==> AllHarmless(Towards(w, side)) && TrOf(env, side) <= TrOf(env, Other(side))
  {
    hide Play, Healthy, Roomy, AskToStop, DriversOnly;
    var u := AskToStop(env, w, side);
    KeptExactlyUntilRetry(setting, env, w, t, side, w.now + TrOf(env, Other(side)));
    if AllHarmless(Towards(w, side)) && TrOf(env, side) <= TrOf(env, Other(side)) {
      forall acts | DriversOnly(acts)
        ensures Healthy(Play(setting, env, u, acts))
      {
        KeptExactlyUntilRetry(setting, env, w, t, side, Max(w.now, Play(setting, env, u, acts).now));
      }
    }
  }

  // ---------------------------------------------------------------- data of the peer's user

  lemma DataIs(config: Config, p: Peer, msg: Message, now: nat)
    requires p.core.state.DataReady? && Lookup(config, p.core.id).Some? && p.open
    ensures Take(config, p, LData(now, msg), now).queue == p.queue + [Stamped(PacketOf(msg), now)]
    ensures !Harmless(PacketOf(msg))
  {
    var o := Next(config, p.core, LData(now, msg));
    assert Stamp(o.sent, now) == [Stamped(PacketOf(msg), now)];
  }

  /** While the request is under way the peer's user, who cannot know of it, may send data; any message sent
      then ends the connection when it is read, which it can be as long as the requester listens. */
  lemma DataBeforeTheRequestLoses(setting: Setting, env: Env, w: World, msg: Message) returns (acts: seq<Action>)
    requires setting.Punctual? && Stopped(env.a, w.a, env.ka) && w.now < w.a.core.state.tr
    requires |msg.data| <= MAX_DELIVERABLE
    requires w.b.open && w.b.core.state.DataReady? && Lookup(env.b, w.b.core.id).Some? && w.b.queue == []
    ensures Permitted(setting, env, w, Local(Callee, LData(w.now, msg))) && DriversOnly(acts)
    ensures !Healthy(Play(setting, env, w, [Local(Callee, LData(w.now, msg))] + acts))
  {
    hide Play, Next, Take, Read, Harmless, Healthy;
    var send := Local(Callee, LData(w.now, msg));
    OneStep(setting, env, w, send);
    DataIs(env.b, w.b, msg, w.now);
    var v := Effect(env, w, send);
    assert (v.ba + v.b.queue)[|v.ba|].packet == PacketOf(msg);
    acts := FatalLoses(setting, env, v);
    PlayAppend(setting, env, w, [send], acts);
  }

  // ---------------------------------------------------------------- when both users stop

  /** What is on its way to `side` does it no harm, or is not heard. */
  predicate Spared(w: World, side: Side) {
    AllHarmless(Towards(w, side)) || Deaf(PeerAt(w, side).core, w.now)
  }

  /** Both READY for good, and each can take what is on its way to it, or does not hear it. */
  ghost predicate AtRest(env: Env, w: World) {
    && Stopped(env.a, w.a, env.ka) && Stopped(env.b, w.b, env.kb)
    && Spared(w, Caller) && Spared(w, Callee)
  }

  lemma RestTurns(env: Env, w: World)
    requires AtRest(env, w)
    ensures AtRest(MirrorEnv(env), Mirror(w))
  {
  }

  lemma CallerRests(env: Env, w: World, act: Action)
    requires AtRest(env, w) && Possible(w, act) && !act.Advance? && act.side.Caller? && !act.Local?
    requires act.Deliver? ==> Listens(w.a.core, w.now)
    ensures AtRest(env, Effect(env, w, act))
  {
    hide Read, Harmless;
    match act
    case Flush(_) =>
      FlushIsInvisible(w);
      assert View(w).ab == View(CallerFlush(w)).ab;
    case Deliver(_, order) =>
      assert w.ba[0] == Towards(w, Caller)[0];
      ReadySurvives(env.a, w.a, w.ba[0].packet, w.now, order);
      assert w.ba[1..] + w.b.queue == Towards(w, Caller)[1..];
  }

  lemma StepRests(setting: Setting, env: Env, w: World, act: Action)
    requires setting.Punctual? && AtRest(env, w) && Permitted(setting, env, w, act)
    ensures AtRest(env, Effect(env, w, act))
  {
    hide AtRest, Read, Next, Take, PacketEvent;
    RestersRaiseNothing(env, w);
    match act
    case Advance(to) =>
      RestWaits(env, w, to);
    case Local(_, _) =>
      assert false;
    case _ =>
      if act.side.Caller? {
        CallerRests(env, w, act);
      } else {
        RestTurns(env, w);
        EffectMirrors(env, w, act);
        CallerRests(MirrorEnv(env), Mirror(w), Flip(act));
        RestTurns(MirrorEnv(env), Effect(MirrorEnv(env), Mirror(w), Flip(act)));
      }
  }

  lemma RestersRaiseNothing(env: Env, w: World)
    requires AtRest(env, w)
    ensures forall e :: !Raises(w.a.core, w.now, e) && !Raises(w.b.core, w.now, e)
    ensures !w.a.core.state.DataReady? && !w.b.core.state.DataReady?
  {
  }

  lemma RestWaits(env: Env, w: World, to: nat)
    requires AtRest(env, w) && w.now <= to
    ensures AtRest(env, w.(now := to))
  {
  }

  lemma {:induction false} PlayRests(setting: Setting, env: Env, w: World, acts: seq<Action>)
    requires setting.Punctual? && AtRest(env, w)
    ensures AtRest(env, Play(setting, env, w, acts))
  {
    hide Permitted, Effect, AtRest;
    if acts == [] {
    } else {
      var n := |acts| - 1;
      PlayRests(setting, env, w, acts[..n]);
      var before := Play(setting, env, w, acts[..n]);
      if Permitted(setting, env, before, acts[n]) {
        StepRests(setting, env, before, acts[n]);
      }
    }
  }

  /** Two peers that both have stopped keep their connection for good if and only if, for each of them, nothing
      but heartbeats and SHUTDOWNs is under way to it, or it is deaf already. */
  lemma BothStoppedKeepExactly(setting: Setting, env: Env, w: World)
    requires setting.Punctual? && Stopped(env.a, w.a, env.ka) && Stopped(env.b, w.b, env.kb)
    ensures KeptForever(setting, env, w) <==> Spared(w, Caller) && Spared(w, Callee)
  {
    hide Play, Healthy, AllHarmless;
    if !Spared(w, Caller) {
      var acts := FatalLoses(setting, env, w);
    } else if !Spared(w, Callee) {
      var acts := FatalLoses(setting, MirrorEnv(env), Mirror(w));
      DriversOnlyFlips(acts);
      PlayMirrors(setting, MirrorEnv(env), Mirror(w), acts);
      MirrorIsAsHealthy(Play(setting, MirrorEnv(env), Mirror(w), acts));
    } else {
      forall acts | DriversOnly(acts)
        ensures Healthy(Play(setting, env, w, acts))
      {
        PlayRests(setting, env, w, acts);
        RestIsHealthy(env, Play(setting, env, w, acts));
      }
    }
  }

  lemma RestIsHealthy(env: Env, w: World)
    requires AtRest(env, w)
    ensures Healthy(w)
  {
  }

  lemma BothHaveStopped(env: Env, w: World, at: nat, t: Tempo)
    requires Parted(env, w, at, t)
    ensures var v := AskToStop(env, w, Callee);
            && Stopped(env.a, v.a, env.ka) && Stopped(env.b, v.b, env.kb)
            && Spared(v, Caller) && (Spared(v, Callee) <==> AllHarmless(Towards(w, Callee)))
  {
    ShutdownIs(env.b, w.b, w.now);
    SignsAreHarmless();
    hide Take, Harmless;
    var v := AskToStop(env, w, Callee);
    assert Towards(v, Caller) == Towards(w, Caller) + [Stamped(SHUTDOWN_PACKET, w.now)];
  }

  lemma CallerKeptIfPeerStopsToo(setting: Setting, env: Env, w: World, t: Tempo, acts: seq<Action>)
    requires Follows(setting, t) && Established(env, w, t) && AllHarmless(Towards(w, Caller)) && DriversOnly(acts)
    requires Undisturbed(env, Caller, w.now, Play(setting, env, AskToStop(env, w, Caller), acts).now)
    ensures var v := Play(setting, env, AskToStop(env, w, Caller), acts);
            && v.a.open && v.b.open
            && (KeptForever(setting, env, AskToStop(env, v, Callee)) <==> AllHarmless(Towards(v, Callee)))
  {
    RequestParts(env, w, t);
    PlayParts(setting, env, AskToStop(env, w, Caller), acts, w.now, t);
    var v := Play(setting, env, AskToStop(env, w, Caller), acts);
    BothHaveStopped(env, v, w.now, t);
    BothStoppedKeepExactly(setting, env, AskToStop(env, v, Callee));
  }

  lemma KeptForeverMirrors(setting: Setting, env: Env, w: World)
    requires KeptForever(setting, MirrorEnv(env), Mirror(w))
    ensures KeptForever(setting, env, w)
  {
    hide Play, DriversOnly, Healthy;
    forall acts | DriversOnly(acts)
      ensures Healthy(Play(setting, env, w, acts))
    {
      DriversOnlyFlips(acts);
      PlayMirrors(setting, env, w, acts);
      MirrorIsAsHealthy(Play(setting, env, w, acts));
    }
  }

  lemma AskingMirrors(env: Env, w: World)
    requires w.a.open && w.b.open
    ensures AskToStop(env, w, Callee) == Mirror(AskToStop(MirrorEnv(env), Mirror(w), Caller))
    ensures AskToStop(env, w, Caller) == Mirror(AskToStop(MirrorEnv(env), Mirror(w), Callee))
    ensures Towards(w, Caller) == Towards(Mirror(w), Callee) && Towards(w, Callee) == Towards(Mirror(w), Caller)
  {
    hide Take;
  }

  /** The request keeps the connection for good, whatever the two `tr`, if the peer's user stops too as long as
      it is kept: exactly if by then nothing but heartbeats is in front of the request on its way to the peer. */
  lemma KeptIfPeerStopsToo(setting: Setting, env: Env, w: World, t: Tempo, side: Side, acts: seq<Action>)
    requires WellMatched(env) && Roomy(env, t) && OnClock(env, w, t) && Follows(setting, t)
    requires w.a.core.state.DataReady? && w.b.core.state.DataReady?
    requires AllHarmless(Towards(w, side)) && DriversOnly(acts)
    requires Undisturbed(env, side, w.now, Play(setting, env, AskToStop(env, w, side), acts).now)
    ensures var v := Play(setting, env, AskToStop(env, w, side), acts);
            && v.a.open && v.b.open
            && (KeptForever(setting, env, AskToStop(env, v, Other(side))) <==> AllHarmless(Towards(v, Other(side))))
  {
    OnClockIsEstablished(env, w, t);
    hide Play, OnClock, Established, KeptForever, AskToStop, Roomy, DriversOnly, Towards;
    if side.Caller? {
      CallerKeptIfPeerStopsToo(setting, env, w, t, acts);
    } else {
      var m, x := MirrorEnv(env), Mirror(w);
      EstablishedMirrors(env, w, t);
      AskingMirrors(env, w);
      var u := AskToStop(m, x, Caller);
      PlayMirrors(setting, env, Mirror(u), acts);
      DriversOnlyFlips(acts);
      CallerKeptIfPeerStopsToo(setting, m, x, t, FlipAll(acts));
      var v := Play(setting, env, Mirror(u), acts);
      AskingMirrors(env, v);
      var z := AskToStop(m, Mirror(v), Callee);
      assert AskToStop(env, v, Caller) == Mirror(z);
      if KeptForever(setting, m, z) {
        KeptForeverMirrors(setting, env, Mirror(z));
      }
      if KeptForever(setting, env, Mirror(z)) {
        KeptForeverMirrors(setting, m, z);
      }
    }
  }
}
