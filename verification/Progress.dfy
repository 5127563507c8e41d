/** Two-peer progress: left to flush, read and start up, two peers that both want an association reach
    DATA_READY with nothing under way, after exactly sixteen steps in every interleaving. */
module Progress {
  import opened Prelude
  import opened Configuration
  import opened Events
  import opened Machine
  import opened Drivers
  import opened Network
  import opened Sessions
  import opened Safety

  /** The steps of a driver with no user data and no timeouts. */
  predicate Quiet(act: Action) {
    act.Flush? || act.Deliver? || (act.Local? && act.e.LStartup?)
  }

  predicate BothWantData(env: Env)
    requires env.ka in env.a.connections && env.kb in env.b.connections
  {
    ConfA(env).initialTarget.DataReady? && ConfB(env).initialTarget.DataReady?
  }

  predicate Done(w: World) {
    && w.a.core.state.DataReady? && w.b.core.state.DataReady?
    && w.a.queue == w.b.queue == w.ab == w.ba == []
  }

  /** Nothing under way and nothing to do: both associated, or both READY and not to associate. */
  predicate Quiescent(w: World) {
    && w.a.queue == w.b.queue == w.ab == w.ba == []
    && (|| (w.a.core.state.DataReady? && w.b.core.state.DataReady?)
        || (w.a.core.state.Ready? && w.b.core.state.Ready? && !AutoStarts(w.a.core) && !AutoStarts(w.b.core)))
  }

  lemma DoneIsQuiescent(env: Env, w: World)
    requires WellMatched(env) && BothWantData(env) && Safe(env, w)
    ensures Done(w) <==> Quiescent(w)
  {
    if Quiescent(w) {
      assert Up(env, View(w));
    }
  }

  function Rank(s: State): nat {
    match s
    case IdPending(_) => 7
    case AcceptPending(_) => 5
    case Ready(_) => 5
    case AssociationPending(_) => 2
    case _ => 0
  }

  /** The number of quiet steps still to come. */
  function StepsLeft(w: World): nat {
    Rank(w.a.core.state) + Rank(w.b.core.state) + 2 * |w.a.queue| + 2 * |w.b.queue| + |w.ab| + |w.ba|
  }

  /** The packets sent on reading one pay for the step in rank. */
  predicate Exact(config: Config, c: Core, e: Event) {
    var o := Next(config, c, e);
    Rank(o.core.state) + 2 * |o.sent| == Rank(c.state)
  }

  lemma UpReadIsExact(env: Env, s: Session, order: seq<string>)
    requires Up(env, s) && s.ba != [] && !s.a.state.Ready?
    ensures var r := CallerEvent(env.a, s, order);
            r.Ok? && Exact(env.a, s.a, r.value)
  {
    TrafficNext(env.a, s.a, s.ba[0].packet, s.now, order);
  }

  lemma CallerReadIsExact(env: Env, s: Session, order: seq<string>)
    requires WellMatched(env) && Compatible(env) && Shape(env, s) && s.ba != [] && Listens(s.a, s.now)
    ensures var r := CallerEvent(env.a, s, order);
            r.Ok? && Exact(env.a, s.a, r.value)
  {
    hide PacketEvent;
    if Answering(env, s) {
      CallerHearsHello(env, s, order);
    } else {
      if s.a.state.Ready? {
        ReadyHearsNothing(env, s);
      }
      UpReadIsExact(env, s, order);
    }
  }

  lemma CalleeReadIsExact(env: Env, s: Session, order: seq<string>)
    requires WellMatched(env) && Compatible(env) && Shape(env, s) && s.ab != [] && Listens(s.b, s.now)
    requires Enumerates(order, env.b.connections)
    ensures var r := CallerEvent(env.b, Turn(s), order);
            r.Ok? && Exact(env.b, s.b, r.value)
  {
    hide PacketEvent;
    if Greeting(env, s) {
      CalleeHearsHello(env, s, order);
    } else if Accepting(env, s) {
      CalleeHearsAccept(env, s, order);
    } else {
      UpTurns(env, s);
      if s.b.state.Ready? {
        ReadyHearsNothing(MirrorEnv(env), Turn(s));
      }
      UpReadIsExact(MirrorEnv(env), Turn(s), order);
    }
  }

  /** Every quiet step is exactly one step nearer. */
  lemma QuietStepCounts(env: Env, w: World, act: Action)
    requires WellMatched(env) && Compatible(env) && Safe(env, w)
    requires Permitted(Cooperative, env, w, act) && Quiet(act)
    ensures StepsLeft(Effect(env, w, act)) == StepsLeft(w) - 1
  {
    hide Next, Shape, PacketEvent;
    match act
    case Flush(_) =>
    case Deliver(side, order) =>
      if side.Caller? {
        CallerReadIsExact(env, View(w), order);
        assert View(w).ba[0] == w.ba[0];
      } else {
        CalleeReadIsExact(env, View(w), order);
        assert View(w).ab[0] == w.ab[0];
      }
    case Local(side, e) =>
      ShapeFindsConfiguration(env, View(w));
      if side.Caller? {
        CooperativeNext(env.a, w.a.core, e, w.now);
      } else {
        CooperativeNext(env.b, w.b.core, e, w.now);
      }
  }

  lemma ShapeFindsConfiguration(env: Env, s: Session)
    requires Shape(env, s)
    ensures !s.a.state.IdPending? ==> Lookup(env.a, s.a.id).Some?
    ensures !s.b.state.IdPending? ==> Lookup(env.b, s.b.id).Some?
  {
  }

  // ---------------------------------------------------------------- there is always a next step

  lemma WireMoves(env: Env, w: World, side: Side) returns (act: Action)
    requires w.a.open && w.b.open && w.a.queue == w.b.queue == [] && !PeerAt(w, side).core.state.Ready?
    requires if side.Caller? then w.ba != [] else w.ab != []
    ensures Permitted(Cooperative, env, w, act) && Quiet(act) && FlushedFirst(w, act)
    ensures act.Deliver? && !PeerAt(w, act.side).core.state.Ready?
  {
    var order := SomeOrder(if side.Caller? then env.a.connections else env.b.connections);
    act := Deliver(side, order);
  }

  /** With users that agree, a READY machine either associates by itself or has nothing coming. */
  lemma ReadersAreNotReady(env: Env, s: Session)
    requires WellMatched(env) && Shape(env, s) && TargetsAgree(env)
    ensures s.a.state.Ready? && !AutoStarts(s.a) ==> s.ba == []
    ensures s.b.state.Ready? && !AutoStarts(s.b) ==> s.ab == []
  {
  }

  /** The queues first, as the drivers do. */
  lemma UnfinishedMoves(env: Env, w: World) returns (act: Action)
    requires WellMatched(env) && TargetsAgree(env) && Safe(env, w) && !Quiescent(w)
    ensures Permitted(Cooperative, env, w, act) && Quiet(act) && FlushedFirst(w, act)
    ensures act.Deliver? ==> !PeerAt(w, act.side).core.state.Ready?
  {
    var s := View(w);
    ReadersAreNotReady(env, s);
    if w.a.queue != [] {
      act := Flush(Caller);
    } else if w.b.queue != [] {
      act := Flush(Callee);
    } else if AutoStarts(s.a) {
      act := Local(Caller, LStartup(w.now));
    } else if AutoStarts(s.b) {
      act := Local(Callee, LStartup(w.now));
    } else if s.ab != [] {
      act := WireMoves(env, w, Callee);
    } else {
      assert s.ba != [];
      act := WireMoves(env, w, Caller);
    }
  }

  lemma DoneRests(env: Env, w: World, act: Action)
    requires Done(w) && Quiet(act)
    ensures !Permitted(Cooperative, env, w, act)
  {
  }

  // ---------------------------------------------------------------- whole runs

  /** Every step of the sequence is a quiet one that is really taken. */
  ghost predicate QuietRun(env: Env, w: World, acts: seq<Action>) {
    forall i :: 0 <= i < |acts| ==>
                  Quiet(acts[i]) && Permitted(Cooperative, env, Play(Cooperative, env, w, acts[..i]), acts[i])
  }

  lemma {:induction false} QuietRunCounts(env: Env, w: World, acts: seq<Action>)
    requires WellMatched(env) && Compatible(env) && Safe(env, w) && QuietRun(env, w, acts)
    ensures Safe(env, Play(Cooperative, env, w, acts))
    ensures StepsLeft(Play(Cooperative, env, w, acts)) + |acts| == StepsLeft(w)
  {
    hide Permitted, Effect, Safe, StepsLeft;
    CooperativePlayIsSafe(env, w, acts);
    if acts == [] {
    } else {
      var n := |acts| - 1;
      forall i | 0 <= i < n
        ensures Quiet(acts[..n][i])
        ensures Permitted(Cooperative, env, Play(Cooperative, env, w, acts[..n][..i]), acts[..n][i])
      {
        assert acts[..n][..i] == acts[..i];
      }
      QuietRunCounts(env, w, acts[..n]);
      QuietStepCounts(env, Play(Cooperative, env, w, acts[..n]), acts[n]);
    }
  }

  lemma SixteenStepsFromStart(env: Env, ta: nat, tb: nat)
    requires WellMatched(env)
    ensures StepsLeft(Start(env, ta, tb)) == 16
  {
    StartIs(env, ta, tb);
  }

  /** The only safe worlds without a next quiet step are the finished ones. */
  lemma StuckExactlyWhenDone(env: Env, w: World)
    requires WellMatched(env) && BothWantData(env) && Safe(env, w)
    ensures Done(w) <==> !exists act :: Quiet(act) && Permitted(Cooperative, env, w, act)
    ensures Done(w) <==> StepsLeft(w) == 0
  {
    hide Next, Safe, Effect, Permitted;
    if Done(w) {
      forall act | Quiet(act)
        ensures !Permitted(Cooperative, env, w, act)
      {
        DoneRests(env, w, act);
      }
    } else {
      WantingAgrees(env);
      DoneIsQuiescent(env, w);
      var act := UnfinishedMoves(env, w);
      QuietStepCounts(env, w, act);
      assert Quiet(act) && Permitted(Cooperative, env, w, act);
    }
  }

  /** Every quiet run from the start takes at most sixteen steps; it has both peers in DATA_READY with
      nothing under way exactly when it has taken all sixteen, and before that it can always go on. */
  lemma AssociationTakesSixteenSteps(env: Env, ta: nat, tb: nat, acts: seq<Action>)
    requires WellMatched(env) && BothWantData(env) && QuietRun(env, Start(env, ta, tb), acts)
    ensures var w := Play(Cooperative, env, Start(env, ta, tb), acts);
            && |acts| <= 16
            && (Done(w) <==> |acts| == 16)
            && (Done(w) <==> !exists act :: Quiet(act) && Permitted(Cooperative, env, w, act))
  {
    hide *;
    StartIsSafe(env, ta, tb);
    SixteenStepsFromStart(env, ta, tb);
    WantingAgrees(env);
    QuietRunCounts(env, Start(env, ta, tb), acts);
    StuckExactlyWhenDone(env, Play(Cooperative, env, Start(env, ta, tb), acts));
  }

  lemma WantingAgrees(env: Env)
    requires WellMatched(env) && BothWantData(env)
    ensures TargetsAgree(env) && Compatible(env)
  {
  }
}
