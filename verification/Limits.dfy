/** Two bounds of the service: how long a message can be, and that the timing assumptions never stop time. */
module Limits {
  import opened Prelude
  import opened Configuration
  import opened Packets
  import opened Events
  import opened Machine
  import opened Drivers
  import opened Network
  import opened Sessions
  import opened Safety
  import opened Progress
  import opened Timing
  import opened Service

  // ---------------------------------------------------------------- long messages

  /** A message that the sender's machine accepts and packs, read in DATA_READY: the reader stays connected
      and delivers it exactly up to 10235 payload bytes. Up to 10240 are accepted from the user. */
  lemma LongMessagesCloseTheReader(config: Config, p: Peer, msg: Message, now: nat, order: seq<string>)
    requires p.open && p.core.state.DataReady? && Lookup(config, p.core.id).Some?
    requires |msg.data| <= MAX_PAYLOAD
    ensures var q := Read(config, p, FromMsg(msg), now, order);
            && (q.open <==> |msg.data| <= MAX_DELIVERABLE)
            && q.received == if q.open then p.received + [msg] else p.received
  {
  }

  // ---------------------------------------------------------------- time passes

  lemma TimersAreLocal(now: nat)
    ensures IsLocal(LShutdown(now)) && IsLocal(TrTimeout(now)) && IsLocal(TsTimeout(now))
  {
  }

  lemma QuietIsPunctual(setting: Setting, env: Env, w: World, act: Action)
    requires Permitted(Cooperative, env, w, act) && Quiet(act) && FlushedFirst(w, act) && setting.Punctual?
    requires setting.biased && act.Deliver? ==> Blocks(PeerAt(w, act.side).core, w.now)
    ensures Permitted(setting, env, w, act)
    ensures Effect(env, w, act).now == w.now
  {
    hide Next, Read, Take;
  }

  /** How far behind a driver can be with its heartbeats and still be reading. */
  function Slack(setting: Setting): nat
    requires setting.Punctual?
  {
    if setting.biased then 0 else setting.late
  }

  /** No timer is due but, perhaps, a heartbeat within the slack. */
  predicate Ahead(c: Core, now: nat, slack: nat) {
    match c.state
    case IdPending(ti) => now < ti
    case AcceptPending(ti) => now < ti
    case AssociationPending(tr) => now < tr
    case DataReady(tr, ts) => now < tr && now < ts + slack
    case _ => true
  }

  predicate BothAhead(w: World, slack: nat) {
    Ahead(w.a.core, w.now, slack) && Ahead(w.b.core, w.now, slack)
  }

  lemma AheadBlocks(env: Env, w: World, side: Side)
    requires Safe(env, w) && BothAhead(w, 0) && !PeerAt(w, side).core.state.Ready?
    ensures Blocks(PeerAt(w, side).core, w.now)
  {
  }

  /** What is renewed in an instant is renewed to a later one. */
  predicate Renews(env: Env, slack: nat)
    requires env.ka in env.a.connections && env.kb in env.b.connections
  {
    && 0 < ConfB(env).ti
    && (BothWantData(env) ==>
          && 0 < ConfA(env).tr && 0 < ConfB(env).tr
          && 0 < ConfA(env).ts + slack && 0 < ConfB(env).ts + slack)
  }

  lemma CallerReadsAhead(env: Env, s: Session, order: seq<string>, slack: nat)
    requires WellMatched(env) && TargetsAgree(env) && Shape(env, s) && s.ba != [] && Listens(s.a, s.now)
    requires Renews(env, slack) && Ahead(s.a, s.now, slack)
    ensures var r := CallerEvent(env.a, s, order);
            r.Ok? && Ahead(Next(env.a, s.a, r.value).core, s.now, slack)
  {
    hide PacketEvent;
    if Answering(env, s) {
      CallerHearsHello(env, s, order);
    } else {
      if s.a.state.Ready? {
        ReadyHearsNothing(env, s);
      }
      TrafficNext(env.a, s.a, s.ba[0].packet, s.now, order);
    }
  }

  lemma CalleeReadsAhead(env: Env, s: Session, order: seq<string>, slack: nat)
    requires WellMatched(env) && TargetsAgree(env) && Shape(env, s) && s.ab != [] && Listens(s.b, s.now)
    requires Enumerates(order, env.b.connections) && Renews(env, slack) && Ahead(s.b, s.now, slack)
    ensures var r := CallerEvent(env.b, Turn(s), order);
            r.Ok? && Ahead(Next(env.b, s.b, r.value).core, s.now, slack)
  {
    hide PacketEvent;
    if Greeting(env, s) {
      CalleeHearsHello(env, s, order);
    } else if Accepting(env, s) {
      CalleeHearsAccept(env, s, order);
    } else {
      UpTurns(env, s);
      if s.b.state.Ready? {
        ReadyHearsNothing(MirrorEnv(env), Turn(s));
      }
      TrafficNext(env.b, s.b, s.ab[0].packet, s.now, order);
    }
  }

  predicate Associates(c: Core) {
    AutoStarts(c) || c.state.AssociationPending? || c.state.DataReady?
  }

  lemma AssociatingIsWanted(env: Env, s: Session)
    requires WellMatched(env) && TargetsAgree(env) && Shape(env, s)
    ensures Associates(s.a) ==> BothWantData(env) && Lookup(env.a, s.a.id) == Some(ConfA(env))
    ensures Associates(s.b) ==> BothWantData(env) && Lookup(env.b, s.b.id) == Some(ConfB(env))
  {
  }

  lemma QuietStaysAhead(env: Env, w: World, act: Action, slack: nat)
    requires WellMatched(env) && TargetsAgree(env) && Safe(env, w) && BothAhead(w, slack) && Renews(env, slack)
    requires Permitted(Cooperative, env, w, act) && Quiet(act)
    ensures BothAhead(Effect(env, w, act), slack)
  {
    hide Next, Shape, PacketEvent;
    match act
    case Flush(_) =>
    case Deliver(side, order) =>
      if side.Caller? {
        CallerReadsAhead(env, View(w), order, slack);
        assert View(w).ba[0] == w.ba[0];
      } else {
        CalleeReadsAhead(env, View(w), order, slack);
        assert View(w).ab[0] == w.ab[0];
      }
    case Local(side, e) =>
      AssociatingIsWanted(env, View(w));
      if side.Caller? {
        CooperativeNext(env.a, w.a.core, e, w.now);
      } else {
        CooperativeNext(env.b, w.b.core, e, w.now);
      }
  }

  /** With no timer in the way, all that is under way is flushed and read at once. */
  lemma {:induction false} SettleAhead(setting: Setting, env: Env, w: World, t: Tempo) returns (acts: seq<Action>)
    requires WellMatched(env) && TargetsAgree(env) && Roomy(env, t) && OnClock(env, w, t) && Follows(setting, t)
    requires setting.biased ==> Renews(env, 0)
    requires Renews(env, Slack(setting)) ==> BothAhead(w, Slack(setting))
    ensures var v := Play(setting, env, w, acts);
            && OnClock(env, v, t) && Quiescent(v) && v.now == w.now
            && (Renews(env, Slack(setting)) ==> BothAhead(v, Slack(setting)))
    decreases StepsLeft(w)
  {
    hide Permitted, Effect, Clock, Shape, Roomy, Ahead, Renews, Play;
    if Quiescent(w) {
      acts := [];
      PlayNothing(setting, env, w);
    } else {
      var act := UnfinishedMoves(env, w);
      if setting.biased && act.Deliver? {
        AheadBlocks(env, w, act.side);
      }
      QuietIsPunctual(setting, env, w, act);
      QuietStepCounts(env, w, act);
      PunctualStepKeepsClock(setting, env, w, act, t);
      if Renews(env, Slack(setting)) {
        QuietStaysAhead(env, w, act, Slack(setting));
      }
      var rest := SettleAhead(setting, env, Effect(env, w, act), t);
      OneStep(setting, env, w, act);
      PlayAppend(setting, env, w, [act], rest);
      acts := [act] + rest;
    }
  }

  /** The retry or heartbeat that is due. */
  function DueSign(c: Core, now: nat): Option<Event> {
    match c.state
    case AssociationPending(tr) => if tr <= now then Some(TrTimeout(now)) else None
    case DataReady(_, ts) => if ts <= now then Some(TsTimeout(now)) else None
    case _ => None
  }

  /** Nothing but retries and heartbeats ever falls due on the clock. */
  lemma OnlySignsAreDue(env: Env, s: Session, t: Tempo)
    requires WellMatched(env) && Compatible(env) && Roomy(env, t) && Shape(env, s) && Clock(env, s, t)
    ensures s.a.state.IdPending? || s.a.state.AcceptPending? ==> s.now < s.a.state.ti
    ensures s.b.state.IdPending? || s.b.state.AcceptPending? ==> s.now < s.b.state.ti
    ensures s.a.state.DataReady? ==> s.now < s.a.state.tr
    ensures s.b.state.DataReady? ==> s.now < s.b.state.tr
  {
    DueEventsCooperate(env, s, t, TiTimeout);
    DueEventsCooperate(env, s, t, TrTimeout(s.now));
  }

  lemma DueSignLeavesAhead(config: Config, c: Core, now: nat, slack: nat)
    requires c.state.IdPending? || c.state.AcceptPending? ==> now < c.state.ti
    requires c.state.DataReady? ==> now < c.state.tr
    requires c.state.AssociationPending? || c.state.DataReady? ==>
               var found := Lookup(config, c.id); found.Some? && 0 < found.value.tr && 0 < found.value.ts + slack
    ensures DueSign(c, now).Some? ==>
              && Raises(c, now, DueSign(c, now).value) && IsLocal(DueSign(c, now).value)
              && EventTime(DueSign(c, now).value) == Some(now)
              && Ahead(Next(config, c, DueSign(c, now).value).core, now, slack)
    ensures DueSign(c, now).None? ==> Ahead(c, now, slack)
  {
  }

  /** A side that has something due raises it. */
  lemma CatchUp(setting: Setting, env: Env, w: World, t: Tempo, side: Side) returns (acts: seq<Action>)
    requires WellMatched(env) && TargetsAgree(env) && Roomy(env, t) && OnClock(env, w, t) && Follows(setting, t)
    requires Renews(env, Slack(setting)) && PeerAt(w, side).queue == []
    ensures var v := Play(setting, env, w, acts);
            && OnClock(env, v, t) && v.now == w.now
            && Ahead(PeerAt(v, side).core, v.now, Slack(setting))
            && (side.Caller? ==> v.b == w.b)
            && (side.Callee? ==> v.a == w.a)
  {
    OnlySignsAreDue(env, View(w), t);
    AssociatingIsWanted(env, View(w));
    var c := PeerAt(w, side).core;
    var due := DueSign(c, w.now);
    DueSignLeavesAhead(if side.Caller? then env.a else env.b, c, w.now, Slack(setting));
    hide OnClock, Roomy, Play, Next, IsLocal, Ahead, DueSign, TargetsAgree;
    if due.Some? {
      var act := Local(side, due.value);
      PunctualStepKeepsClock(setting, env, w, act, t);
      OneStep(setting, env, w, act);
      acts := [act];
    } else {
      PlayNothing(setting, env, w);
      acts := [];
    }
  }

  lemma FlushedOnClock(env: Env, w: World, t: Tempo)
    requires WellMatched(env) && OnClock(env, w, t)
    ensures OnClock(env, Flushed(w), t)
  {
    hide Shape, Clock;
    FlushedIsInvisible(w);
  }

  /** From anywhere on a punctual run the peers can finish what is under way without time passing, and raise
      what is due, unless a timer of zero keeps a biased driver from reading. */
  lemma Settle(setting: Setting, env: Env, w: World, t: Tempo) returns (acts: seq<Action>)
    requires WellMatched(env) && TargetsAgree(env) && Roomy(env, t) && OnClock(env, w, t) && Follows(setting, t)
    requires setting.biased && BothWantData(env) ==> TimeCanPass(setting, env)
    ensures var v := Play(setting, env, w, acts);
            && OnClock(env, v, t) && Quiescent(v) && v.now == w.now
            && (BothWantData(env) && TimeCanPass(setting, env) ==> BothAhead(v, Slack(setting)))
  {
    assert BothWantData(env) && TimeCanPass(setting, env) ==> Renews(env, Slack(setting));
    assert setting.biased ==> Renews(env, 0);
    hide OnClock, Roomy, Play, Ahead, Renews;
    if Renews(env, Slack(setting)) {
      var s1 := FlushAll(setting, env, w);
      FlushedOnClock(env, w, t);
      var w1 := Flushed(w);
      var s2 := CatchUp(setting, env, w1, t, Caller);
      var w2 := Play(setting, env, w1, s2);
      var s3 := CatchUp(setting, env, w2, t, Callee);
      var w3 := Play(setting, env, w2, s3);
      var s4 := SettleAhead(setting, env, w3, t);
      PlayAppend(setting, env, w, s1, s2);
      PlayAppend(setting, env, w, s1 + s2, s3);
      PlayAppend(setting, env, w, s1 + s2 + s3, s4);
      acts := s1 + s2 + s3 + s4;
    } else {
      acts := SettleAhead(setting, env, w, t);
    }
  }

  lemma NextInstantIsPrompt(setting: Setting, env: Env, w: World, t: Tempo)
    requires Quiescent(w) && Follows(setting, t)
    requires w.a.core.state.DataReady? ==> BothAhead(w, Slack(setting))
    ensures Permitted(setting, env, w, Advance(w.now + 1))
    ensures Effect(env, w, Advance(w.now + 1)).now == w.now + 1
  {
  }

  /** The next instant can be reached from everywhere on a punctual run, unless an association is wanted with a
      timer of zero. */
  lemma TimePasses(setting: Setting, env: Env, w: World, t: Tempo) returns (acts: seq<Action>)
    requires WellMatched(env) && TargetsAgree(env) && Roomy(env, t) && OnClock(env, w, t) && Follows(setting, t)
    requires BothWantData(env) ==> TimeCanPass(setting, env)
    ensures var v := Play(setting, env, w, acts);
            OnClock(env, v, t) && v.now == w.now + 1
  {
    var s1 := Settle(setting, env, w, t);
    var w1 := Play(setting, env, w, s1);
    AssociatingIsWanted(env, View(w1));
    hide OnClock, Permitted, Effect, Roomy, Play, Ahead;
    NextInstantIsPrompt(setting, env, w1, t);
    PunctualStepKeepsClock(setting, env, w1, Advance(w1.now + 1), t);
    OneStep(setting, env, w1, Advance(w1.now + 1));
    PlayAppend(setting, env, w, s1, [Advance(w1.now + 1)]);
    acts := s1 + [Advance(w1.now + 1)];
  }
}
