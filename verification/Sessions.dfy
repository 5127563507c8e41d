/** Two-peer safety: with cooperating users, from the transport connection on, neither machine ever falls
    to IDLE or ERROR. The argument is about the pipes, wire and queue together, so that flushing is no step. */
module Sessions {
  import opened Prelude
  import opened Configuration
  import opened Packets
  import opened Codec
  import opened Events
  import opened Machine
  import opened Network

  /** A world without the logs, and with each queue taken as the end of its wire. */
  datatype Session = Session(now: nat, a: Core, b: Core, ab: seq<Stamped>, ba: seq<Stamped>)

  function View(w: World): Session {
    Session(w.now, w.a.core, w.b.core, w.ab + w.a.queue, w.ba + w.b.queue)
  }

  function Turn(s: Session): Session { Session(s.now, s.b, s.a, s.ba, s.ab) }

  /** The caller's machine takes an event. */
  function CallerTakes(config: Config, s: Session, e: Event): Session {
    var o := Next(config, s.a, e);
    s.(a := o.core, ab := s.ab + Stamp(o.sent, s.now))
  }

  function CallerEvent(config: Config, s: Session, order: seq<string>): Result<Event, Fault>
    requires s.ba != []
  {
    PacketEvent(s.ba[0].packet, s.now, config, s.a.id, order)
  }

  // ---------------------------------------------------------------- the invariant

  predicate Named(c: Core, config: Config, k: string) {
    k in config.connections && c.id == Some(k) && c.target == config.connections[k].initialTarget
  }

  /** Both users want an association, or neither does. */
  predicate TargetsAgree(env: Env)
    requires env.ka in env.a.connections && env.kb in env.b.connections
  {
    ConfA(env).initialTarget.DataReady? <==> ConfB(env).initialTarget.DataReady?
  }

  /** The users agree, or the one who wants no association has a `tr` of zero, so that its driver is deaf to
      the other's as soon as it is READY. */
  predicate Compatible(env: Env)
    requires env.ka in env.a.connections && env.kb in env.b.connections
  {
    || TargetsAgree(env)
    || (if ConfA(env).initialTarget.DataReady? then ConfB(env) else ConfA(env)).tr == 0
  }

  /** A READY machine became so some time ago. */
  predicate ReadySince(c: Core, cc: ConnectionConfig, now: nat) {
    c.state.Ready? ==> c.state.tr <= now + cc.tr
  }

  predicate Traffic(p: Packet) {
    IsStartup(p) || IsHeartbeat(p) || (IsData(p) && |p.data| <= MAX_DELIVERABLE)
  }

  predicate UpState(s: State) { s.Ready? || s.AssociationPending? || s.DataReady? }

  /** What can be under way from `from` to `to`, by the states at the two ends. */
  ghost predicate Flow(from: State, to: State, pipe: seq<Stamped>) {
    && (from.Ready? ==> pipe == [])
    && (from.AssociationPending? ==> forall i :: 0 <= i < |pipe| ==> IsStartup(pipe[i].packet))
    && (from.DataReady? ==> !to.Ready? && forall i :: 0 <= i < |pipe| ==> Traffic(pipe[i].packet))
    && (!from.Ready? && !to.DataReady? ==> pipe != [] && IsStartup(pipe[0].packet))
    && (to.DataReady? ==> !from.Ready?)
  }

  /** The caller's handshake is under way. */
  ghost predicate Greeting(env: Env, s: Session) {
    && s.a.state.IdPending? && !s.a.server && Named(s.a, env.a, env.ka)
    && s.b.state.IdPending? && s.b.server && s.b.id.None?
    && |s.ab| == 1 && s.ab[0].packet == HelloA(env) && s.ba == []
  }

  /** The callee's handshake is under way. */
  ghost predicate Answering(env: Env, s: Session) {
    && s.a.state.IdPending? && !s.a.server && Named(s.a, env.a, env.ka)
    && s.b.state.AcceptPending? && Named(s.b, env.b, env.kb)
    && s.ab == [] && |s.ba| == 1 && s.ba[0].packet == HelloB(env)
  }

  /** The caller's ACCEPT is under way, and its startups behind it. */
  ghost predicate Accepting(env: Env, s: Session) {
    && (s.a.state.Ready? || s.a.state.AssociationPending?) && Named(s.a, env.a, env.ka)
    && s.b.state.AcceptPending? && Named(s.b, env.b, env.kb)
    && s.ba == [] && s.ab != [] && IsAccept(s.ab[0].packet)
    && Flow(s.a.state, s.b.state, s.ab[1..])
    && (s.a.state.AssociationPending? ==> s.a.target.DataReady?)
    && ReadySince(s.a, ConfA(env), s.now)
  }

  /** Both are identified. This phase looks the same from both ends. */
  ghost predicate Up(env: Env, s: Session) {
    && UpState(s.a.state) && Named(s.a, env.a, env.ka)
    && UpState(s.b.state) && Named(s.b, env.b, env.kb)
    && Flow(s.a.state, s.b.state, s.ab) && Flow(s.b.state, s.a.state, s.ba)
    && (!s.a.state.Ready? ==> s.a.target.DataReady?)
    && (!s.b.state.Ready? ==> s.b.target.DataReady?)
    && ReadySince(s.a, ConfA(env), s.now) && ReadySince(s.b, ConfB(env), s.now)
  }

  ghost predicate Shape(env: Env, s: Session) {
    || Greeting(env, s)
    || Answering(env, s)
    || Accepting(env, s)
    || Up(env, s)
  }

  lemma UpTurns(env: Env, s: Session)
    requires Up(env, s)
    ensures Up(MirrorEnv(env), Turn(s))
  {
  }

  // ---------------------------------------------------------------- identification

  lemma CalleeHearsHello(env: Env, s: Session, order: seq<string>)
    requires WellMatched(env) && Greeting(env, s) && Enumerates(order, env.b.connections)
    ensures var r := CallerEvent(env.b, Turn(s), order);
            && r == Ok(RIdValid(s.now, env.kb))
            && Answering(env, Turn(CallerTakes(env.b, Turn(s).(ba := []), r.value)))
            && Turn(CallerTakes(env.b, Turn(s).(ba := []), r.value))
               == Session(s.now, s.a,
                          Core(AcceptPending(s.now + ConfB(env).ti), true, ConfB(env).initialTarget, Some(env.kb)),
                          [], [Stamped(HelloB(env), s.now)])
  {
    var c, d := ConfA(env), ConfB(env);
    HandshakeIsNoVerdict(c.localId, c.remoteId);
    SoleAnswerIsFound(HelloA(env), env.b, env.kb, order);
    var r := CallerEvent(env.b, Turn(s), order);
    assert r == Ok(RIdValid(s.now, env.kb));
    var t := CallerTakes(env.b, Turn(s).(ba := []), r.value);
    assert t.ab == [Stamped(HelloB(env), s.now)];
  }

  lemma CallerHearsHello(env: Env, s: Session, order: seq<string>)
    requires WellMatched(env) && Answering(env, s)
    ensures var r := CallerEvent(env.a, s, order);
            && r == Ok(RIdValid(s.now, env.ka))
            && Accepting(env, CallerTakes(env.a, s.(ba := []), r.value))
            && CallerTakes(env.a, s.(ba := []), r.value)
               == Session(s.now, s.a.(state := State.Ready(s.now + ConfA(env).tr)), s.b,
                          [Stamped(ACCEPT_PACKET, s.now)], [])
  {
    var c, d := ConfA(env), ConfB(env);
    HandshakeIsNoVerdict(d.localId, d.remoteId);
    var r := CallerEvent(env.a, s, order);
    assert r == Ok(RIdValid(s.now, env.ka));
    var t := CallerTakes(env.a, s.(ba := []), r.value);
    assert t.ab == [Stamped(ACCEPT_PACKET, s.now)];
  }

  lemma CalleeHearsAccept(env: Env, s: Session, order: seq<string>)
    requires WellMatched(env) && Accepting(env, s)
    ensures var r := CallerEvent(env.b, Turn(s), order);
            && r == Ok(RAccept(s.now))
            && Up(env, Turn(CallerTakes(env.b, Turn(s).(ba := s.ab[1..]), r.value)))
            && Turn(CallerTakes(env.b, Turn(s).(ba := s.ab[1..]), r.value))
               == s.(b := s.b.(state := State.Ready(s.now + ConfB(env).tr)), ab := s.ab[1..])
  {
    var r := CallerEvent(env.b, Turn(s), order);
    assert r == Ok(RAccept(s.now));
    var t := CallerTakes(env.b, Turn(s).(ba := s.ab[1..]), r.value);
    assert t.ab == [];
  }

  // ---------------------------------------------------------------- association and data

  /** What a cooperating event does to a machine that is up. */
  lemma CooperativeNext(config: Config, c: Core, e: Event, now: nat)
    requires Cooperates(c, e) && Lookup(config, c.id).Some? && EventTime(e) == Some(now)
    ensures var o := Next(config, c, e);
            var cc := Lookup(config, c.id).value;
            && |o.sent| == 1 && o.delivered == []
            && o.core == c.(state := o.core.state)
            && (c.state.Ready? ==> o.core.state == AssociationPending(now + cc.tr) && IsStartup(o.sent[0]))
            && (c.state.AssociationPending? ==> o.core.state == AssociationPending(now + cc.tr) && IsStartup(o.sent[0]))
            && (c.state.DataReady? ==>
                  && o.core.state == State.DataReady(c.state.tr, now + cc.ts)
                  && Traffic(o.sent[0]) && !IsStartup(o.sent[0]))
            && (c.state.Ready? ==> c.target.DataReady?)
            && UpState(c.state)
  {
  }

  /** What traffic does to a machine that is associating. */
  lemma TrafficNext(config: Config, c: Core, p: Packet, now: nat, order: seq<string>)
    requires Lookup(config, c.id).Some?
    requires (c.state.AssociationPending? && IsStartup(p)) || (c.state.DataReady? && Traffic(p))
    ensures var r := PacketEvent(p, now, config, c.id, order);
            var cc := Lookup(config, c.id).value;
            && r.Ok?
            && var o := Next(config, c, r.value);
               && o.core == c.(state := o.core.state)
               && (c.state.AssociationPending? ==>
                     && o.core.state == State.DataReady(now + cc.tr, now + cc.ts)
                     && o.sent == [STARTUP_PACKET])
               && (c.state.DataReady? ==> o.core.state == State.DataReady(now + cc.tr, c.state.ts) && o.sent == [])
  {
  }

  lemma FlowGrows(from: State, after: State, to: State, pipe: seq<Stamped>, x: Stamped)
    requires Flow(from, to, pipe)
    requires || ((from.Ready? || from.AssociationPending?) && after.AssociationPending? && IsStartup(x.packet))
             || (from.DataReady? && after.DataReady? && Traffic(x.packet))
    ensures Flow(after, to, pipe + [x])
  {
    hide IsStartup;
    assert pipe != [] ==> (pipe + [x])[0] == pipe[0];
  }

  lemma UpCooperates(env: Env, s: Session, e: Event)
    requires Up(env, s) && Cooperates(s.a, e) && EventTime(e) == Some(s.now)
    ensures Up(env, CallerTakes(env.a, s, e))
  {
    CooperativeNext(env.a, s.a, e, s.now);
    hide Next;
    var t := CallerTakes(env.a, s, e);
    assert |t.ab| == |s.ab| + 1 && t.ab[|s.ab|].packet == Next(env.a, s.a, e).sent[0];
  }

  lemma UpReads(env: Env, s: Session, order: seq<string>)
    requires Up(env, s) && s.ba != [] && !s.a.state.Ready?
    ensures var r := CallerEvent(env.a, s, order);
            r.Ok? && Up(env, CallerTakes(env.a, s.(ba := s.ba[1..]), r.value))
  {
    TrafficNext(env.a, s.a, s.ba[0].packet, s.now, order);
    hide Next, PacketEvent;
    var r := CallerEvent(env.a, s, order);
    var t := CallerTakes(env.a, s.(ba := s.ba[1..]), r.value);
    if s.a.state.AssociationPending? {
      assert t.ab == s.ab + [Stamped(STARTUP_PACKET, s.now)];
    } else {
      assert t.ab == s.ab;
    }
  }

  /** A READY machine that does not associate by itself hears nothing, if the two are compatible. */
  lemma ReadyHearsNothing(env: Env, s: Session)
    requires Up(env, s) && s.a.state.Ready? && Compatible(env) && Listens(s.a, s.now)
    ensures s.ba == []
  {
  }

  lemma AcceptingCooperates(env: Env, s: Session, e: Event)
    requires Accepting(env, s) && Cooperates(s.a, e) && EventTime(e) == Some(s.now)
    ensures Accepting(env, CallerTakes(env.a, s, e))
  {
    CooperativeNext(env.a, s.a, e, s.now);
    hide Next, Flow, Cooperates, IsStartup, IsAccept;
    var o := Next(env.a, s.a, e);
    var t := CallerTakes(env.a, s, e);
    var x := Stamped(o.sent[0], s.now);
    assert Stamp(o.sent, s.now) == [x];
    assert t.ab[1..] == s.ab[1..] + [x];
    FlowGrows(s.a.state, o.core.state, s.b.state, s.ab[1..], x);
  }

  // ---------------------------------------------------------------- every step keeps the invariant

  lemma CallerCooperates(env: Env, s: Session, e: Event)
    requires Shape(env, s) && Cooperates(s.a, e) && EventTime(e) == Some(s.now)
    ensures Shape(env, CallerTakes(env.a, s, e))
  {
    hide Next;
    if Accepting(env, s) {
      AcceptingCooperates(env, s, e);
    } else {
      UpCooperates(env, s, e);
    }
  }

  lemma CalleeCooperates(env: Env, s: Session, e: Event)
    requires Shape(env, s) && Cooperates(s.b, e) && EventTime(e) == Some(s.now)
    ensures Shape(env, Turn(CallerTakes(env.b, Turn(s), e)))
  {
    hide Next;
    assert Up(env, s);
    UpTurns(env, s);
    UpCooperates(MirrorEnv(env), Turn(s), e);
    UpTurns(MirrorEnv(env), CallerTakes(env.b, Turn(s), e));
  }

  lemma CallerReads(env: Env, s: Session, order: seq<string>)
    requires WellMatched(env) && Compatible(env) && Shape(env, s) && s.ba != [] && Listens(s.a, s.now)
    ensures var r := CallerEvent(env.a, s, order);
            r.Ok? && Shape(env, CallerTakes(env.a, s.(ba := s.ba[1..]), r.value))
  {
    hide Next, PacketEvent;
    if Answering(env, s) {
      assert s.ba[1..] == [];
      CallerHearsHello(env, s, order);
    } else {
      if s.a.state.Ready? {
        ReadyHearsNothing(env, s);
      }
      UpReads(env, s, order);
    }
  }

  lemma CalleeReads(env: Env, s: Session, order: seq<string>)
    requires WellMatched(env) && Compatible(env) && Shape(env, s) && s.ab != [] && Listens(s.b, s.now)
    requires Enumerates(order, env.b.connections)
    ensures var r := CallerEvent(env.b, Turn(s), order);
            r.Ok? && Shape(env, Turn(CallerTakes(env.b, Turn(s).(ba := s.ab[1..]), r.value)))
  {
    hide Next, PacketEvent;
    if Greeting(env, s) {
      assert s.ab[1..] == [];
      CalleeHearsHello(env, s, order);
    } else if Accepting(env, s) {
      CalleeHearsAccept(env, s, order);
    } else {
      UpTurns(env, s);
      if s.b.state.Ready? {
        ReadyHearsNothing(MirrorEnv(env), Turn(s));
      }
      UpReads(MirrorEnv(env), Turn(s), order);
      var r := CallerEvent(env.b, Turn(s), order);
      UpTurns(MirrorEnv(env), CallerTakes(env.b, Turn(s).(ba := s.ab[1..]), r.value));
    }
  }
}
