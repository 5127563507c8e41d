/** Two-peer timing. With drivers late by at most `late` and packets read within `latency` of being queued,
    and timers with room for that, no timeout that ends a connection ever falls due; so two peers that both
    want an association get it, in bounded time, and keep it. */
module Timing {
  import opened Prelude
  import opened Configuration
  import opened Packets
  import opened Events
  import opened Machine
  import opened Drivers
  import opened Network
  import opened Sessions
  import opened Progress

  function Max(x: nat, y: nat): nat { if x < y then y else x }

  /** When the transport connection came up at the two ends, and the two delays. */
  datatype Tempo = Tempo(ta: nat, tb: nat, late: nat, latency: nat)

  /** The longest silence a reader can see from a live peer. */
  function Silence(sender: ConnectionConfig, t: Tempo): nat {
    Max(sender.ts + t.late + t.latency, 2 * t.latency)
  }

  /** The timers leave room for the delays: those of identification always, and the response timers where an
      association is wanted. */
  predicate Roomy(env: Env, t: Tempo)
    requires env.ka in env.a.connections && env.kb in env.b.connections && env.b.serverTi.Some?
  {
    && 2 * t.latency < ConfA(env).ti
    && 2 * t.latency < ConfB(env).ti
    && t.ta + t.latency < t.tb + env.b.serverTi.value
    && (BothWantData(env) ==>
          && Silence(ConfA(env), t) < ConfB(env).tr
          && Silence(ConfB(env), t) < ConfA(env).tr)
  }

  /** No timer of zero stops the clock: a heartbeat interval of zero and a driver that is never late would leave
      no instant without a heartbeat overdue; and a biased driver with a timer of zero would raise it again
      and again, and never read. */
  predicate TimeCanPass(setting: Setting, env: Env)
    requires setting.Punctual? && env.ka in env.a.connections && env.kb in env.b.connections
  {
    if setting.biased then
      0 < ConfA(env).ts && 0 < ConfB(env).ts && 0 < ConfA(env).tr && 0 < ConfB(env).tr
    else
      0 < ConfA(env).ts + setting.late && 0 < ConfB(env).ts + setting.late
  }

  /** A punctual discipline with these delays, biased or not. */
  predicate Follows(setting: Setting, t: Tempo) {
    setting.Punctual? && setting.late == t.late && setting.latency == t.latency
  }

  // ---------------------------------------------------------------- promptness

  predicate SessionPrompt(env: Env, s: Session, t: Tempo) {
    && InTime(s.ab, ListenedUntil(s.b, s.now), t.latency)
    && InTime(s.ba, ListenedUntil(s.a, s.now), t.latency)
    && Diligent(s.a, env.a, s.now, t.late)
    && Diligent(s.b, env.b, s.now, t.late)
  }

  /** What a peer that is not deaf has coming is no older than the latency. */
  lemma HeadIsPrompt(env: Env, s: Session, t: Tempo)
    requires SessionPrompt(env, s, t)
    ensures s.ba != [] && !Deaf(s.a, s.now) ==> s.now <= s.ba[0].at + t.latency
    ensures s.ab != [] && !Deaf(s.b, s.now) ==> s.now <= s.ab[0].at + t.latency
  {
  }

  lemma ViewIsPrompt(env: Env, w: World, t: Tempo)
    ensures Prompt(env, w, t.late, t.latency) <==> SessionPrompt(env, View(w), t)
  {
    InTimeAppends(w.ab, w.a.queue, ListenedUntil(w.b.core, w.now), t.latency);
    InTimeAppends(w.ba, w.b.queue, ListenedUntil(w.a.core, w.now), t.latency);
  }

  lemma InTimeAppends(x: seq<Stamped>, y: seq<Stamped>, now: nat, latency: nat)
    ensures InTime(x + y, now, latency) <==> InTime(x, now, latency) && InTime(y, now, latency)
  {
    if InTime(x + y, now, latency) {
      forall i | 0 <= i < |x| ensures now <= x[i].at + latency { assert (x + y)[i] == x[i]; }
      forall i | 0 <= i < |y| ensures now <= y[i].at + latency { assert (x + y)[|x| + i] == y[i]; }
    }
  }

  // ---------------------------------------------------------------- clocks of the associated phase

  predicate AllPast(pipe: seq<Stamped>, now: nat) {
    forall i :: 0 <= i < |pipe| ==> pipe[i].at <= now
  }

  /** The reader's response deadline against what the writer has sent and will send. */
  ghost predicate ResponseClock(from: State, to: State, pipe: seq<Stamped>, back: seq<Stamped>,
                                cf: ConnectionConfig, ct: ConnectionConfig, t: Tempo) {
    to.DataReady? ==>
      && (from.AssociationPending? ==> back != [] && back[0].at + ct.tr <= to.tr)
      && (from.DataReady? && pipe == [] ==> from.ts + ct.tr <= to.tr + cf.ts)
      && (pipe != [] ==> pipe[0].at + ct.tr <= to.tr + Max(cf.ts + t.late, t.latency))
  }

  /** A machine is READY by `bound`, and its first startup is out `late` after that. */
  ghost predicate LaunchClock(from: State, to: State, pipe: seq<Stamped>, cf: ConnectionConfig, bound: nat, t: Tempo) {
    && (from.Ready? ==> from.tr <= bound + cf.tr)
    && (!from.Ready? && !to.DataReady? ==> pipe != [] && pipe[0].at <= bound + t.late)
  }

  ghost predicate UpClock(env: Env, s: Session, boundA: nat, boundB: nat, t: Tempo)
    requires env.ka in env.a.connections && env.kb in env.b.connections
  {
    var ca, cb := ConfA(env), ConfB(env);
    && AllPast(s.ab, s.now) && AllPast(s.ba, s.now)
    && (s.a.state.DataReady? ==> s.a.state.ts <= s.now + ca.ts)
    && (s.b.state.DataReady? ==> s.b.state.ts <= s.now + cb.ts)
    && ResponseClock(s.a.state, s.b.state, s.ab, s.ba, ca, cb, t)
    && ResponseClock(s.b.state, s.a.state, s.ba, s.ab, cb, ca, t)
    && LaunchClock(s.a.state, s.b.state, s.ab, ca, boundA, t)
    && LaunchClock(s.b.state, s.a.state, s.ba, cb, boundB, t)
  }

  lemma UpClockTurns(env: Env, s: Session, boundA: nat, boundB: nat, t: Tempo)
    requires env.ka in env.a.connections && env.kb in env.b.connections
    ensures UpClock(env, s, boundA, boundB, t) <==> UpClock(MirrorEnv(env), Turn(s), boundB, boundA, t)
  {
  }

  lemma UpClockCooperates(env: Env, s: Session, e: Event, boundA: nat, boundB: nat, t: Tempo)
    requires Up(env, s) && UpClock(env, s, boundA, boundB, t) && SessionPrompt(env, s, t)
    requires Cooperates(s.a, e) && EventTime(e) == Some(s.now)
    ensures UpClock(env, CallerTakes(env.a, s, e), boundA, boundB, t)
  {
    CooperativeNext(env.a, s.a, e, s.now);
    hide Next, Cooperates;
    var u := CallerTakes(env.a, s, e);
    assert |u.ab| == |s.ab| + 1 && u.ab[|s.ab|].at == s.now;
    assert s.ab != [] ==> u.ab[0] == s.ab[0] && (!Deaf(s.b, s.now) ==> s.now <= s.ab[0].at + t.latency);
    assert s.ba != [] && !Deaf(s.a, s.now) ==> s.now <= s.ba[0].at + t.latency;
  }

  lemma UpClockReads(env: Env, s: Session, order: seq<string>, boundA: nat, boundB: nat, t: Tempo)
    requires Up(env, s) && UpClock(env, s, boundA, boundB, t) && SessionPrompt(env, s, t)
    requires s.ba != [] && !s.a.state.Ready?
    ensures var r := CallerEvent(env.a, s, order);
            r.Ok? && UpClock(env, CallerTakes(env.a, s.(ba := s.ba[1..]), r.value), boundA, boundB, t)
  {
    TrafficNext(env.a, s.a, s.ba[0].packet, s.now, order);
    hide Next, PacketEvent;
    var r := CallerEvent(env.a, s, order);
    var u := CallerTakes(env.a, s.(ba := s.ba[1..]), r.value);
    if s.a.state.AssociationPending? {
      assert u.ab == s.ab + [Stamped(STARTUP_PACKET, s.now)];
    } else {
      assert u.ab == s.ab;
    }
    assert s.ab != [] && !Deaf(s.b, s.now) ==> s.now <= s.ab[0].at + t.latency;
    assert s.now <= s.ba[0].at + t.latency;
  }

  /** The response deadline is never less than its margin away. */
  lemma ResponseMargin(env: Env, s: Session, boundA: nat, boundB: nat, t: Tempo)
    requires Up(env, s) && UpClock(env, s, boundA, boundB, t) && SessionPrompt(env, s, t)
    ensures s.b.state.DataReady? ==> s.now + ConfB(env).tr <= s.b.state.tr + Silence(ConfA(env), t)
    ensures s.a.state.DataReady? ==> s.now + ConfA(env).tr <= s.a.state.tr + Silence(ConfB(env), t)
  {
    HeadIsPrompt(env, s, t);
  }

  // ---------------------------------------------------------------- clocks of the whole session

  /** Deadlines and send times of every phase, measured from `ta`. */
  ghost predicate Clock(env: Env, s: Session, t: Tempo)
    requires WellMatched(env)
  {
    && SessionPrompt(env, s, t)
    && (Greeting(env, s) ==>
          && s.ab[0].at == t.ta
          && s.a.state.ti == t.ta + ConfA(env).ti
          && s.b.state.ti == t.tb + env.b.serverTi.value)
    && (Answering(env, s) ==>
          && s.ba[0].at <= t.ta + t.latency
          && s.a.state.ti == t.ta + ConfA(env).ti
          && s.b.state.ti == s.ba[0].at + ConfB(env).ti)
    && (Accepting(env, s) ==>
          && AllPast(s.ab, s.now)
          && s.ab[0].at <= t.ta + 2 * t.latency
          && s.ab[0].at + ConfB(env).ti <= s.b.state.ti + t.latency
          && LaunchClock(s.a.state, s.b.state, s.ab[1..], ConfA(env), t.ta + 2 * t.latency, t))
    && (Up(env, s) ==> UpClock(env, s, t.ta + 2 * t.latency, t.ta + 3 * t.latency, t))
  }

  /** While both are identified, in a state that associates only if both want it. */
  lemma DueUpEventsCooperate(env: Env, s: Session, boundA: nat, boundB: nat, t: Tempo, e: Event)
    requires WellMatched(env) && Compatible(env) && Roomy(env, t)
    requires Up(env, s) && UpClock(env, s, boundA, boundB, t) && SessionPrompt(env, s, t)
    ensures Raises(s.a, s.now, e) ==> Cooperates(s.a, e)
    ensures Raises(s.b, s.now, e) ==> Cooperates(s.b, e)
  {
    ResponseMargin(env, s, boundA, boundB, t);
    assert s.a.state.DataReady? || s.b.state.DataReady? ==> BothWantData(env);
    hide UpClock, SessionPrompt, Flow;
  }

  /** Nothing the driver is due to raise ends the connection: it all is cooperative. */
  lemma DueEventsCooperate(env: Env, s: Session, t: Tempo, e: Event)
    requires WellMatched(env) && Compatible(env) && Roomy(env, t) && Shape(env, s) && Clock(env, s, t)
    ensures Raises(s.a, s.now, e) ==> Cooperates(s.a, e)
    ensures Raises(s.b, s.now, e) ==> Cooperates(s.b, e)
  {
    HeadIsPrompt(env, s, t);
    hide Up, UpClock, SessionPrompt, Flow, LaunchClock, AllPast;
    if Up(env, s) {
      DueUpEventsCooperate(env, s, t.ta + 2 * t.latency, t.ta + 3 * t.latency, t, e);
    }
  }

  /** Not yet in DATA_READY on both sides: it is still early. */
  lemma StillEarly(env: Env, s: Session, t: Tempo)
    requires WellMatched(env) && BothWantData(env) && Shape(env, s) && Clock(env, s, t)
    requires !(s.a.state.DataReady? && s.b.state.DataReady?)
    ensures s.now <= t.ta + 4 * t.latency + t.late
  {
    HeadIsPrompt(env, s, t);
  }

  lemma PhasesAreDisjoint(env: Env, s: Session)
    ensures Greeting(env, s) ==> !Answering(env, s) && !Accepting(env, s) && !Up(env, s)
    ensures Answering(env, s) ==> !Greeting(env, s) && !Accepting(env, s) && !Up(env, s)
    ensures Accepting(env, s) ==> !Greeting(env, s) && !Answering(env, s) && !Up(env, s)
  {
  }

  lemma TakesStaysPrompt(env: Env, s: Session, e: Event, t: Tempo)
    requires SessionPrompt(env, s, t) && !Deaf(s.a, s.now)
    requires Diligent(Next(env.a, s.a, e).core, env.a, s.now, t.late)
    ensures SessionPrompt(env, CallerTakes(env.a, s, e), t)
  {
    hide Next, Diligent;
    var u := CallerTakes(env.a, s, e);
    forall i | 0 <= i < |u.ab|
      ensures ListenedUntil(s.b, s.now) <= u.ab[i].at + t.latency
    {
      assert i < |s.ab| ==> u.ab[i] == s.ab[i];
    }
  }

  lemma DiligentNext(config: Config, c: Core, e: Event, now: nat, late: nat)
    requires Diligent(c, config, now, late) && EventTime(e) == Some(now)
    requires !e.LShutdown?
    ensures Diligent(Next(config, c, e).core, config, now, late)
  {
  }

  lemma SessionPromptTurns(env: Env, s: Session, t: Tempo)
    ensures SessionPrompt(env, s, t) <==> SessionPrompt(MirrorEnv(env), Turn(s), t)
  {
  }

  /** What a cooperating event keeps while both are identified. */
  lemma UpEventKeepsClock(env: Env, s: Session, e: Event, boundA: nat, boundB: nat, t: Tempo)
    requires Up(env, s) && UpClock(env, s, boundA, boundB, t) && SessionPrompt(env, s, t)
    requires Cooperates(s.a, e) && EventTime(e) == Some(s.now)
    ensures var u := CallerTakes(env.a, s, e);
            Up(env, u) && UpClock(env, u, boundA, boundB, t) && SessionPrompt(env, u, t)
  {
    DiligentNext(env.a, s.a, e, s.now, t.late);
    CooperatingIsNotDeaf(s.a, e, s.now);
    hide Next, UpClock, Up, Cooperates, Deaf;
    TakesStaysPrompt(env, s, e, t);
    UpCooperates(env, s, e);
    UpClockCooperates(env, s, e, boundA, boundB, t);
  }

  lemma CooperatingIsNotDeaf(c: Core, e: Event, now: nat)
    requires Cooperates(c, e)
    ensures !Deaf(c, now)
  {
  }

  lemma CallerKeepsClock(env: Env, s: Session, e: Event, t: Tempo)
    requires WellMatched(env) && Shape(env, s) && Clock(env, s, t)
    requires Cooperates(s.a, e) && EventTime(e) == Some(s.now)
    ensures Clock(env, CallerTakes(env.a, s, e), t)
  {
    hide Next, SessionPrompt;
    if Up(env, s) {
      UpEventKeepsClock(env, s, e, t.ta + 2 * t.latency, t.ta + 3 * t.latency, t);
      PhasesAreDisjoint(env, CallerTakes(env.a, s, e));
    } else {
      AcceptingKeepsClock(env, s, e, t);
    }
  }

  lemma AcceptingKeepsClock(env: Env, s: Session, e: Event, t: Tempo)
    requires WellMatched(env) && Accepting(env, s) && Clock(env, s, t)
    requires Cooperates(s.a, e) && EventTime(e) == Some(s.now)
    ensures Clock(env, CallerTakes(env.a, s, e), t)
  {
    DiligentNext(env.a, s.a, e, s.now, t.late);
    TakesStaysPrompt(env, s, e, t);
    CooperativeNext(env.a, s.a, e, s.now);
    AcceptingCooperates(env, s, e);
    hide Next;
    var u := CallerTakes(env.a, s, e);
    PhasesAreDisjoint(env, u);
    assert |u.ab| == |s.ab| + 1 && u.ab[|s.ab|].at == s.now && u.ab[0] == s.ab[0];
    assert |s.ab| > 1 ==> u.ab[1..][0] == s.ab[1..][0];
  }

  lemma CooperatingCalleeIsUp(env: Env, s: Session, e: Event)
    requires Shape(env, s) && Cooperates(s.b, e)
    ensures Up(env, s)
  {
  }

  lemma CalleeKeepsClock(env: Env, s: Session, e: Event, t: Tempo)
    requires WellMatched(env) && Shape(env, s) && Clock(env, s, t)
    requires Cooperates(s.b, e) && EventTime(e) == Some(s.now)
    ensures Clock(env, Turn(CallerTakes(env.b, Turn(s), e)), t)
  {
    var m := MirrorEnv(env);
    hide Next, SessionPrompt, UpClock, Up, Cooperates, Greeting, Answering, Accepting;
    CooperatingCalleeIsUp(env, s, e);
    UpTurns(env, s);
    SessionPromptTurns(env, s, t);
    UpClockTurns(env, s, t.ta + 2 * t.latency, t.ta + 3 * t.latency, t);
    UpEventKeepsClock(m, Turn(s), e, t.ta + 3 * t.latency, t.ta + 2 * t.latency, t);
    var u := CallerTakes(env.b, Turn(s), e);
    UpTurns(m, u);
    SessionPromptTurns(m, u, t);
    UpClockTurns(m, u, t.ta + 3 * t.latency, t.ta + 2 * t.latency, t);
    PhasesAreDisjoint(env, Turn(u));
  }

  // ---------------------------------------------------------------- reading keeps the clocks

  lemma PopStaysPrompt(env: Env, s: Session, t: Tempo)
    requires SessionPrompt(env, s, t) && s.ba != []
    ensures SessionPrompt(env, s.(ba := s.ba[1..]), t)
  {
  }

  lemma ReadStaysPrompt(env: Env, s: Session, order: seq<string>, t: Tempo)
    requires SessionPrompt(env, s, t) && s.ba != [] && !Deaf(s.a, s.now)
    requires CallerEvent(env.a, s, order).Ok?
    requires EventTime(CallerEvent(env.a, s, order).value) == Some(s.now)
    ensures SessionPrompt(env, CallerTakes(env.a, s.(ba := s.ba[1..]), CallerEvent(env.a, s, order).value), t)
  {
    var e := CallerEvent(env.a, s, order).value;
    PopStaysPrompt(env, s, t);
    DiligentNext(env.a, s.a, e, s.now, t.late);
    TakesStaysPrompt(env, s.(ba := s.ba[1..]), e, t);
  }

  lemma UpReadKeepsClock(env: Env, s: Session, order: seq<string>, boundA: nat, boundB: nat, t: Tempo)
    requires Up(env, s) && UpClock(env, s, boundA, boundB, t) && SessionPrompt(env, s, t)
    requires s.ba != [] && !s.a.state.Ready?
    ensures var r := CallerEvent(env.a, s, order);
            r.Ok? &&
            var u := CallerTakes(env.a, s.(ba := s.ba[1..]), r.value);
            Up(env, u) && UpClock(env, u, boundA, boundB, t) && SessionPrompt(env, u, t)
  {
    UpReads(env, s, order);
    UpClockReads(env, s, order, boundA, boundB, t);
    assert EventTime(CallerEvent(env.a, s, order).value) == Some(s.now) by {
      TrafficEventIsNow(env.a, s.a, s.ba[0].packet, s.now, order);
    }
    ReadStaysPrompt(env, s, order, t);
  }

  lemma TrafficEventIsNow(config: Config, c: Core, p: Packet, now: nat, order: seq<string>)
    requires Traffic(p)
    ensures var r := PacketEvent(p, now, config, c.id, order);
            r.Ok? && EventTime(r.value) == Some(now)
  {
  }

  lemma CallerReadKeepsClock(env: Env, s: Session, order: seq<string>, t: Tempo)
    requires WellMatched(env) && Compatible(env) && Shape(env, s) && Clock(env, s, t)
    requires s.ba != [] && Listens(s.a, s.now)
    ensures var r := CallerEvent(env.a, s, order);
            r.Ok? && Clock(env, CallerTakes(env.a, s.(ba := s.ba[1..]), r.value), t)
  {
    if Answering(env, s) {
      CallerHearsHello(env, s, order);
      ReadStaysPrompt(env, s, order, t);
      hide Next, PacketEvent, SessionPrompt;
      assert s.ba[1..] == [];
      var u := CallerTakes(env.a, s.(ba := []), RIdValid(s.now, env.ka));
      PhasesAreDisjoint(env, u);
      assert s.now <= s.ba[0].at + t.latency by { HeadIsPrompt(env, s, t); }
    } else {
      hide Next, PacketEvent, SessionPrompt, UpClock;
      if s.a.state.Ready? {
        ReadyHearsNothing(env, s);
      }
      UpReadKeepsClock(env, s, order, t.ta + 2 * t.latency, t.ta + 3 * t.latency, t);
      PhasesAreDisjoint(env, CallerTakes(env.a, s.(ba := s.ba[1..]), CallerEvent(env.a, s, order).value));
    }
  }

  lemma GreetingReadKeepsClock(env: Env, s: Session, order: seq<string>, t: Tempo)
    requires WellMatched(env) && Greeting(env, s) && Clock(env, s, t) && Enumerates(order, env.b.connections)
    ensures var r := CallerEvent(env.b, Turn(s), order);
            r.Ok? && Clock(env, Turn(CallerTakes(env.b, Turn(s).(ba := s.ab[1..]), r.value)), t)
  {
    var m := MirrorEnv(env);
    assert s.ab[1..] == [];
    SessionPromptTurns(env, s, t);
    HeadIsPrompt(env, s, t);
    CalleeHearsHello(env, s, order);
    ReadStaysPrompt(m, Turn(s), order, t);
    hide Next, PacketEvent, SessionPrompt;
    var u := CallerTakes(env.b, Turn(s).(ba := []), RIdValid(s.now, env.kb));
    SessionPromptTurns(m, u, t);
    PhasesAreDisjoint(env, Turn(u));
  }

  lemma AcceptReadKeepsClock(env: Env, s: Session, order: seq<string>, t: Tempo)
    requires WellMatched(env) && Accepting(env, s) && Clock(env, s, t)
    ensures var r := CallerEvent(env.b, Turn(s), order);
            r.Ok? && Clock(env, Turn(CallerTakes(env.b, Turn(s).(ba := s.ab[1..]), r.value)), t)
  {
    var m := MirrorEnv(env);
    SessionPromptTurns(env, s, t);
    HeadIsPrompt(env, s, t);
    CalleeHearsAccept(env, s, order);
    ReadStaysPrompt(m, Turn(s), order, t);
    hide Next, PacketEvent, SessionPrompt;
    var u := CallerTakes(env.b, Turn(s).(ba := s.ab[1..]), RAccept(s.now));
    SessionPromptTurns(m, u, t);
    PhasesAreDisjoint(env, Turn(u));
  }

  lemma CalleeReadKeepsClock(env: Env, s: Session, order: seq<string>, t: Tempo)
    requires WellMatched(env) && Compatible(env) && Shape(env, s) && Clock(env, s, t)
    requires s.ab != [] && Listens(s.b, s.now) && Enumerates(order, env.b.connections)
    ensures var r := CallerEvent(env.b, Turn(s), order);
            r.Ok? && Clock(env, Turn(CallerTakes(env.b, Turn(s).(ba := s.ab[1..]), r.value)), t)
  {
    hide Next, PacketEvent, SessionPrompt, UpClock;
    if Greeting(env, s) {
      GreetingReadKeepsClock(env, s, order, t);
    } else if Accepting(env, s) {
      AcceptReadKeepsClock(env, s, order, t);
    } else {
      var m := MirrorEnv(env);
      SessionPromptTurns(env, s, t);
      UpTurns(env, s);
      UpClockTurns(env, s, t.ta + 2 * t.latency, t.ta + 3 * t.latency, t);
      if s.b.state.Ready? {
        ReadyHearsNothing(m, Turn(s));
      }
      UpReadKeepsClock(m, Turn(s), order, t.ta + 3 * t.latency, t.ta + 2 * t.latency, t);
      var u := CallerTakes(env.b, Turn(s).(ba := s.ab[1..]), CallerEvent(env.b, Turn(s), order).value);
      UpTurns(m, u);
      UpClockTurns(m, u, t.ta + 3 * t.latency, t.ta + 2 * t.latency, t);
      SessionPromptTurns(m, u, t);
      PhasesAreDisjoint(env, Turn(u));
    }
  }
}
