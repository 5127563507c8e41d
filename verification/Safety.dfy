/** Two-peer safety over all interleavings, and exactly when it holds. */
module Safety {
  import opened Prelude
  import opened Packets
  import opened Events
  import opened Machine
  import opened Drivers
  import opened Network
  import opened Sessions

  // ---------------------------------------------------------------- worlds and their sessions

  lemma ViewTurns(w: World)
    ensures View(Mirror(w)) == Turn(View(w))
  {
  }

  lemma FlushIsInvisible(w: World)
    requires w.a.queue != []
    ensures View(CallerFlush(w)) == View(w)
  {
    assert w.a.queue == [w.a.queue[0]] + w.a.queue[1..];
    assert (w.ab + [w.a.queue[0]]) + w.a.queue[1..] == w.ab + w.a.queue;
  }

  lemma ViewOfLocal(env: Env, w: World, e: Event)
    ensures View(CallerLocal(env, w, e)) == CallerTakes(env.a, View(w), e)
  {
    hide Next;
    var added := Stamp(Next(env.a, w.a.core, e).sent, w.now);
    assert w.ab + (w.a.queue + added) == (w.ab + w.a.queue) + added;
  }

  lemma ViewOfDeliver(env: Env, w: World, order: seq<string>)
    requires w.ba != []
    requires CallerEvent(env.a, View(w), order).Ok?
    ensures var e := CallerEvent(env.a, View(w), order).value;
            View(CallerDeliver(env, w, order)) == CallerTakes(env.a, View(w).(ba := View(w).ba[1..]), e)
  {
    hide Next, PacketEvent;
    var e := CallerEvent(env.a, View(w), order).value;
    assert View(w).ba[0] == w.ba[0];
    var added := Stamp(Next(env.a, w.a.core, e).sent, w.now);
    assert w.ab + (w.a.queue + added) == (w.ab + w.a.queue) + added;
    assert (w.ba + w.b.queue)[1..] == w.ba[1..] + w.b.queue;
  }

  // ---------------------------------------------------------------- safety

  predicate Alive(p: Peer) {
    p.open && !p.core.state.Idle? && !p.core.state.Error?
  }

  predicate Healthy(w: World) {
    Alive(w.a) && Alive(w.b)
  }

  ghost predicate Safe(env: Env, w: World) {
    w.a.open && w.b.open && Shape(env, View(w))
  }

  lemma SafeIsHealthy(env: Env, w: World)
    requires Safe(env, w)
    ensures Healthy(w)
  {
  }

  lemma StartIsSafe(env: Env, ta: nat, tb: nat)
    requires WellMatched(env)
    ensures Safe(env, Start(env, ta, tb)) && Greeting(env, View(Start(env, ta, tb)))
  {
    StartIs(env, ta, tb);
    var w := Start(env, ta, tb);
    assert View(w).ab == w.a.queue && View(w).ba == [];
  }

  lemma LocalIsSafe(env: Env, w: World, side: Side, e: Event)
    requires Safe(env, w)
    requires Possible(w, Local(side, e))
    requires Cooperates((if side.Caller? then w.a else w.b).core, e)
    ensures Safe(env, Effect(env, w, Local(side, e)))
  {
    hide Next, Shape;
    if side.Caller? {
      CallerCooperates(env, View(w), e);
      ViewOfLocal(env, w, e);
      var v := CallerLocal(env, w, e);
      ShapeStates(env, View(v));
    } else {
      CalleeCooperates(env, View(w), e);
      ViewTurns(w);
      ViewOfLocal(MirrorEnv(env), Mirror(w), e);
      var v := CallerLocal(MirrorEnv(env), Mirror(w), e);
      ViewTurns(v);
      ShapeStates(env, View(Mirror(v)));
    }
  }

  lemma ShapeStates(env: Env, s: Session)
    requires Shape(env, s)
    ensures !s.a.state.Idle? && !s.a.state.Error? && !s.b.state.Idle? && !s.b.state.Error?
  {
  }

  lemma DeliverIsSafe(env: Env, w: World, side: Side, order: seq<string>)
    requires WellMatched(env) && Compatible(env) && Safe(env, w)
    requires Possible(w, Deliver(side, order))
    requires Reads(if side.Caller? then env.a else env.b, PeerAt(w, side).core, w.now, order)
    ensures Safe(env, Effect(env, w, Deliver(side, order)))
  {
    hide Next, Shape, PacketEvent;
    if side.Caller? {
      CallerReads(env, View(w), order);
      ViewOfDeliver(env, w, order);
      assert View(w).ba[0] == w.ba[0];
      ShapeStates(env, View(CallerDeliver(env, w, order)));
    } else {
      CalleeReads(env, View(w), order);
      ViewTurns(w);
      ViewOfDeliver(MirrorEnv(env), Mirror(w), order);
      assert View(w).ab[0] == w.ab[0];
      var v := CallerDeliver(MirrorEnv(env), Mirror(w), order);
      ViewTurns(v);
      ShapeStates(env, View(Mirror(v)));
    }
  }

  lemma AdvanceIsSafe(env: Env, w: World, to: nat)
    requires Safe(env, w) && w.now <= to
    ensures Safe(env, w.(now := to))
  {
  }

  lemma FlushIsSafe(env: Env, w: World, side: Side)
    requires Safe(env, w) && Possible(w, Flush(side))
    ensures Safe(env, Effect(env, w, Flush(side)))
  {
    hide Shape;
    if side.Caller? {
      FlushIsInvisible(w);
    } else {
      FlushIsInvisible(Mirror(w));
      ViewTurns(w);
      ViewTurns(CallerFlush(Mirror(w)));
    }
  }

  lemma CooperativeStepIsSafe(env: Env, w: World, act: Action)
    requires WellMatched(env) && Compatible(env) && Safe(env, w)
    requires Permitted(Cooperative, env, w, act)
    ensures Safe(env, Effect(env, w, act))
  {
    hide Next, Shape, PacketEvent, Take, Read;
    match act
    case Advance(to) => AdvanceIsSafe(env, w, to);
    case Flush(side) => FlushIsSafe(env, w, side);
    case Deliver(side, order) => DeliverIsSafe(env, w, side, order);
    case Local(side, e) => LocalIsSafe(env, w, side, e);
  }

  lemma {:induction false} CooperativePlayIsSafe(env: Env, w: World, acts: seq<Action>)
    requires WellMatched(env) && Compatible(env) && Safe(env, w)
    ensures Safe(env, Play(Cooperative, env, w, acts))
  {
    hide Permitted, Effect, Safe;
    if acts == [] {
    } else {
      var n := |acts| - 1;
      CooperativePlayIsSafe(env, w, acts[..n]);
      var before := Play(Cooperative, env, w, acts[..n]);
      if Permitted(Cooperative, env, before, acts[n]) {
        CooperativeStepIsSafe(env, before, acts[n]);
      }
    }
  }

  /** For every interleaving, with any number of heartbeats, messages and association retries, neither
      peer ever reaches ERROR or falls back to IDLE. */
  lemma NeitherPeerFails(env: Env, ta: nat, tb: nat, acts: seq<Action>)
    requires WellMatched(env) && Compatible(env)
    ensures Healthy(Play(Cooperative, env, Start(env, ta, tb), acts))
  {
    StartIsSafe(env, ta, tb);
    CooperativePlayIsSafe(env, Start(env, ta, tb), acts);
    SafeIsHealthy(env, Play(Cooperative, env, Start(env, ta, tb), acts));
  }

  // ---------------------------------------------------------------- when the users disagree

  lemma PlaySnoc(setting: Setting, env: Env, w: World, acts: seq<Action>, act: Action)
    ensures Play(setting, env, w, acts + [act]) == Step(setting, env, Play(setting, env, w, acts), act)
  {
    hide Step;
    assert (acts + [act])[..|acts + [act]| - 1] == acts;
  }

  lemma OneStep(setting: Setting, env: Env, w: World, act: Action)
    requires Permitted(setting, env, w, act)
    ensures Play(setting, env, w, [act]) == Effect(env, w, act)
  {
    hide Permitted, Effect;
    PlaySnoc(setting, env, w, [], act);
    assert [] + [act] == [act];
  }

  /** No data from the users. What remains in a punctual run is flushing, reading, due timers and time. */
  predicate DriversOnly(acts: seq<Action>) {
    forall i :: 0 <= i < |acts| ==> !(acts[i].Local? && acts[i].e.LData?)
  }

  /** Everything queued is put on the wires. */
  function Flushed(w: World): World {
    World(w.now, w.a.(queue := []), w.b.(queue := []), w.ab + w.a.queue, w.ba + w.b.queue)
  }

  lemma {:induction false} FlushAll(setting: Setting, env: Env, w: World) returns (acts: seq<Action>)
    ensures DriversOnly(acts) && Play(setting, env, w, acts) == Flushed(w)
    decreases |w.a.queue| + |w.b.queue|
  {
    hide Play;
    if w.a.queue == [] && w.b.queue == [] {
      acts := [];
      PlayNothing(setting, env, w);
      assert w.ab + [] == w.ab && w.ba + [] == w.ba;
    } else {
      var act := Flush(if w.a.queue != [] then Caller else Callee);
      OneStep(setting, env, w, act);
      var rest := FlushAll(setting, env, Effect(env, w, act));
      PlayAppend(setting, env, w, [act], rest);
      acts := [act] + rest;
      if w.a.queue != [] {
        FlushIsInvisible(w);
      } else {
        FlushIsInvisible(Mirror(w));
      }
    }
  }

  lemma FlushedIsInvisible(w: World)
    ensures View(Flushed(w)) == View(w)
  {
    assert (w.ab + w.a.queue) + [] == w.ab + w.a.queue;
    assert (w.ba + w.b.queue) + [] == w.ba + w.b.queue;
  }

  /** The identification timers are not due if everything happens as soon as both ends are connected. */
  predicate HasTime(env: Env, ta: nat, tb: nat)
    requires env.ka in env.a.connections && env.kb in env.b.connections && env.b.serverTi.Some?
  {
    && 0 < ConfA(env).ti && tb < ta + ConfA(env).ti
    && 0 < env.b.serverTi.value && ta < tb + env.b.serverTi.value
    && 0 < ConfB(env).ti
  }

  predicate Biased(setting: Setting) { setting.Punctual? && setting.biased }

  /** The caller's handshake, flushed and read. */
  lemma HelloIsHeard(setting: Setting, env: Env, ta: nat, tb: nat, orderB: seq<string>) returns (acts: seq<Action>)
    requires WellMatched(env) && Enumerates(orderB, env.b.connections)
    requires Biased(setting) ==> HasTime(env, ta, tb)
    ensures var w := Start(env, ta, tb);
            Play(setting, env, w, acts)
            == w.(a := w.a.(queue := []),
                  b := Peer(Core(AcceptPending(w.now + ConfB(env).ti), true, ConfB(env).initialTarget, Some(env.kb)),
                            [Stamped(HelloB(env), w.now)], [], [], true))
  {
    hide Next, PacketEvent, Take, Read, Play;
    var w := Start(env, ta, tb);
    StartIsSafe(env, ta, tb);
    StartIs(env, ta, tb);
    OneStep(setting, env, w, Flush(Caller));
    var w1 := Effect(env, w, Flush(Caller));
    FlushIsInvisible(w);
    assert w1.ab == [w.a.queue[0]] && w1.a.queue == [];
    OneStep(setting, env, w1, Deliver(Callee, orderB));
    ReadHelloB(env, w1, orderB);
    PlayAppend(setting, env, w, [Flush(Caller)], [Deliver(Callee, orderB)]);
    acts := [Flush(Caller)] + [Deliver(Callee, orderB)];
  }

  /** Both handshakes, flushed and read. */
  lemma HellosAreExchanged(
    setting: Setting, env: Env, ta: nat, tb: nat, orderA: seq<string>, orderB: seq<string>)
    returns (acts: seq<Action>)
    requires WellMatched(env) && (Biased(setting) ==> HasTime(env, ta, tb))
    requires Enumerates(orderA, env.a.connections) && Enumerates(orderB, env.b.connections)
    ensures var w := Start(env, ta, tb);
            Play(setting, env, w, acts)
            == World(w.now,
                     Peer(Core(State.Ready(w.now + ConfA(env).tr), false, ConfA(env).initialTarget, Some(env.ka)),
                          [Stamped(ACCEPT_PACKET, w.now)], [], [], true),
                     Peer(Core(AcceptPending(w.now + ConfB(env).ti), true, ConfB(env).initialTarget, Some(env.kb)),
                          [], [], [], true),
                     [], [])
  {
    hide Next, PacketEvent, Take, Read, Play, Start;
    var w := Start(env, ta, tb);
    StartIs(env, ta, tb);
    acts := HelloIsHeard(setting, env, ta, tb, orderB);
    var w2 := Play(setting, env, w, acts);
    OneStep(setting, env, w2, Flush(Callee));
    var w3 := Effect(env, w2, Flush(Callee));
    PlayAppend(setting, env, w, acts, [Flush(Callee)]);
    assert w3.ba == [Stamped(HelloB(env), w.now)] && w3.b.queue == [];
    assert View(w3).ba == w3.ba && View(w3).ab == [];
    OneStep(setting, env, w3, Deliver(Caller, orderA));
    PlayAppend(setting, env, w, acts + [Flush(Callee)], [Deliver(Caller, orderA)]);
    ReadHelloA(env, w3, orderA);
    acts := acts + [Flush(Callee)] + [Deliver(Caller, orderA)];
  }

  /** Three packets bring both machines to READY. */
  lemma BothGetReady(
    setting: Setting, env: Env, ta: nat, tb: nat, orderA: seq<string>, orderB: seq<string>)
    returns (acts: seq<Action>)
    requires WellMatched(env) && (Biased(setting) ==> HasTime(env, ta, tb))
    requires Enumerates(orderA, env.a.connections) && Enumerates(orderB, env.b.connections)
    ensures var w := Start(env, ta, tb);
            Play(setting, env, w, acts)
            == World(w.now,
                     Peer(Core(State.Ready(w.now + ConfA(env).tr), false, ConfA(env).initialTarget, Some(env.ka)),
                          [], [], [], true),
                     Peer(Core(State.Ready(w.now + ConfB(env).tr), true, ConfB(env).initialTarget, Some(env.kb)),
                          [], [], [], true),
                     [], [])
  {
    hide Play, Start;
    acts := HellosAreExchanged(setting, env, ta, tb, orderA, orderB);
    var w := Start(env, ta, tb);
    var rest := AcceptArrives(setting, env, Play(setting, env, w, acts), orderB);
    PlayAppend(setting, env, w, acts, rest);
    acts := acts + rest;
  }

  /** The ACCEPT, flushed and read. */
  lemma AcceptArrives(setting: Setting, env: Env, w: World, order: seq<string>) returns (acts: seq<Action>)
    requires WellMatched(env) && Enumerates(order, env.b.connections)
    requires w.a.queue == [Stamped(ACCEPT_PACKET, w.now)] && w.ab == []
    requires w.b.open && w.b.queue == [] && w.b.accepted == w.b.received == []
    requires w.b.core.state.AcceptPending? && Named(w.b.core, env.b, env.kb)
    requires Biased(setting) ==> w.now < w.b.core.state.ti
    ensures Play(setting, env, w, acts)
            == w.(a := w.a.(queue := []),
                  b := w.b.(core := w.b.core.(state := State.Ready(w.now + ConfB(env).tr))))
  {
    hide Next, PacketEvent, Take, Read, Play;
    OneStep(setting, env, w, Flush(Caller));
    var w1 := Effect(env, w, Flush(Caller));
    assert w1.ab == [Stamped(ACCEPT_PACKET, w.now)] && w1.a.queue == [];
    OneStep(setting, env, w1, Deliver(Callee, order));
    ReadAccept(env, w1, order);
    PlayAppend(setting, env, w, [Flush(Caller)], [Deliver(Callee, order)]);
    acts := [Flush(Caller)] + [Deliver(Callee, order)];
  }

  lemma ReadHelloB(env: Env, w: World, order: seq<string>)
    requires WellMatched(env) && Greeting(env, View(w)) && Enumerates(order, env.b.connections)
    requires |w.ab| == 1 && w.b.queue == [] && w.b.accepted == w.b.received == [] && w.b.open
    ensures Read(env.b, w.b, w.ab[0].packet, w.now, order)
            == Peer(Core(AcceptPending(w.now + ConfB(env).ti), true, ConfB(env).initialTarget, Some(env.kb)),
                    [Stamped(HelloB(env), w.now)], [], [], true)
  {
    assert View(w).ab[0] == w.ab[0];
    CalleeHearsHello(env, View(w), order);
    var o := Next(env.b, w.b.core, RIdValid(w.now, env.kb));
    assert Stamp(o.sent, w.now) == [Stamped(HelloB(env), w.now)];
  }

  lemma ReadHelloA(env: Env, w: World, order: seq<string>)
    requires WellMatched(env) && Answering(env, View(w))
    requires |w.ba| == 1 && w.a.queue == [] && w.a.accepted == w.a.received == [] && w.a.open
    ensures Read(env.a, w.a, w.ba[0].packet, w.now, order)
            == Peer(w.a.core.(state := State.Ready(w.now + ConfA(env).tr)),
                    [Stamped(ACCEPT_PACKET, w.now)], [], [], true)
  {
    assert View(w).ba[0] == w.ba[0];
    CallerHearsHello(env, View(w), order);
    var o := Next(env.a, w.a.core, RIdValid(w.now, env.ka));
    assert Stamp(o.sent, w.now) == [Stamped(ACCEPT_PACKET, w.now)];
  }

  lemma ReadAccept(env: Env, w: World, order: seq<string>)
    requires WellMatched(env) && w.b.core.state.AcceptPending? && Named(w.b.core, env.b, env.kb)
    requires |w.ab| == 1 && IsAccept(w.ab[0].packet)
    requires w.b.queue == [] && w.b.accepted == w.b.received == [] && w.b.open
    ensures Read(env.b, w.b, w.ab[0].packet, w.now, order)
            == Peer(w.b.core.(state := State.Ready(w.now + ConfB(env).tr)), [], [], [], true)
  {
  }

  /** A STARTUP that reaches a READY machine puts it into ERROR. */
  lemma StartupHitsReady(env: Env, w: World, order: seq<string>)
    requires env.ka in env.a.connections && w.a.open && w.a.core.state.Ready? && w.a.core.id == Some(env.ka)
    requires w.ba != [] && IsStartup(w.ba[0].packet)
    ensures CallerDeliver(env, w, order).a.core.state.Error?
  {
  }

  lemma EagerPeer(env: Env, w: World)
    requires w.a.open && AutoStarts(w.a.core) && Lookup(env.a, w.a.core.id).Some? && w.a.queue == [] && w.ab == []
    ensures var v := CallerLocal(env, w, LStartup(w.now));
            && v.a.queue == [Stamped(STARTUP_PACKET, w.now)]
            && v.b == w.b && v.ab == [] && v.ba == w.ba && v.now == w.now
  {
    var o := Next(env.a, w.a.core, LStartup(w.now));
    assert o.sent == [STARTUP_PACKET];
    assert Stamp(o.sent, w.now) == [Stamped(STARTUP_PACKET, w.now)];
  }

  /** The caller starts up, and the callee, READY and without a wish of its own, reads it. */
  lemma EagerCallerFails(setting: Setting, env: Env, w: World, order: seq<string>) returns (acts: seq<Action>)
    requires WellMatched(env) && Enumerates(order, env.b.connections)
    requires w.a.open && AutoStarts(w.a.core) && w.a.core.id == Some(env.ka) && w.a.queue == [] && w.ab == []
    requires w.b.open && w.b.core.state.Ready? && !AutoStarts(w.b.core) && w.b.core.id == Some(env.kb)
    requires w.b.queue == [] && w.now < w.b.core.state.tr
    ensures !Healthy(Play(setting, env, w, acts))
  {
    hide Next, PacketEvent, Read, Take, Play;
    var start := Local(Caller, LStartup(w.now));
    OneStep(setting, env, w, start);
    EagerPeer(env, w);
    var w1 := Effect(env, w, start);
    OneStep(setting, env, w1, Flush(Caller));
    var w2 := Effect(env, w1, Flush(Caller));
    OneStep(setting, env, w2, Deliver(Callee, order));
    StartupHitsReady(MirrorEnv(env), Mirror(w2), order);
    acts := [start] + [Flush(Caller)] + [Deliver(Callee, order)];
    PlayAppend(setting, env, w, [start], [Flush(Caller)]);
    PlayAppend(setting, env, w, [start] + [Flush(Caller)], [Deliver(Callee, order)]);
  }

  lemma EagerCalleeFails(setting: Setting, env: Env, w: World, order: seq<string>) returns (acts: seq<Action>)
    requires WellMatched(env) && Enumerates(order, env.a.connections)
    requires w.b.open && AutoStarts(w.b.core) && w.b.core.id == Some(env.kb) && w.b.queue == [] && w.ba == []
    requires w.a.open && w.a.core.state.Ready? && !AutoStarts(w.a.core) && w.a.core.id == Some(env.ka)
    requires w.a.queue == [] && w.now < w.a.core.state.tr
    ensures !Healthy(Play(setting, env, w, acts))
  {
    hide Next, PacketEvent, Read, Take, Play;
    var start := Local(Callee, LStartup(w.now));
    OneStep(setting, env, w, start);
    EagerPeer(MirrorEnv(env), Mirror(w));
    var w1 := Effect(env, w, start);
    OneStep(setting, env, w1, Flush(Callee));
    var w2 := Effect(env, w1, Flush(Callee));
    OneStep(setting, env, w2, Deliver(Caller, order));
    StartupHitsReady(env, w2, order);
    acts := [start] + [Flush(Callee)] + [Deliver(Caller, order)];
    PlayAppend(setting, env, w, [start], [Flush(Callee)]);
    PlayAppend(setting, env, w, [start] + [Flush(Callee)], [Deliver(Caller, order)]);
  }

  /** If one user wants an association and the other does not and is listening, a run ends in ERROR, under
      every discipline. */
  lemma DisagreementFails(setting: Setting, env: Env, ta: nat, tb: nat) returns (acts: seq<Action>)
    requires WellMatched(env) && !Compatible(env) && (Biased(setting) ==> HasTime(env, ta, tb))
    ensures !Healthy(Play(setting, env, Start(env, ta, tb), acts))
  {
    hide Play, Healthy, Start;
    var w := Start(env, ta, tb);
    var orderA := SomeOrder(env.a.connections);
    var orderB := SomeOrder(env.b.connections);
    var opening := BothGetReady(setting, env, ta, tb, orderA, orderB);
    var v := Play(setting, env, w, opening);
    var rest: seq<Action>;
    if ConfA(env).initialTarget.DataReady? {
      rest := EagerCallerFails(setting, env, v, orderB);
    } else {
      rest := EagerCalleeFails(setting, env, v, orderA);
    }
    acts := opening + rest;
    PlayAppend(setting, env, w, opening, rest);
  }

  /** Safety of cooperative runs holds exactly when the two configured targets agree on DATA_READY, or the
      side that does not want it cannot hear the other. */
  lemma SafeExactlyWhenCompatible(env: Env, ta: nat, tb: nat)
    requires WellMatched(env)
    ensures (forall acts :: Healthy(Play(Cooperative, env, Start(env, ta, tb), acts))) <==> Compatible(env)
  {
    if Compatible(env) {
      forall acts
        ensures Healthy(Play(Cooperative, env, Start(env, ta, tb), acts))
      {
        NeitherPeerFails(env, ta, tb, acts);
      }
    } else {
      var acts := DisagreementFails(Cooperative, env, ta, tb);
    }
  }
}
