/** The service the two peers give together, over every punctual run: safety, bounded bring-up, live
    deadlines and timely delivery. */
module Service {
  import opened Configuration
  import opened Events
  import opened Machine
  import opened Drivers
  import opened Network
  import opened Conservation
  import opened Sessions
  import opened Safety
  import opened Progress
  import opened Timing

  ghost predicate OnClock(env: Env, w: World, t: Tempo)
    requires WellMatched(env)
  {
    Safe(env, w) && Clock(env, View(w), t)
  }

  lemma PunctualIsCooperative(setting: Setting, env: Env, w: World, act: Action, t: Tempo)
    requires WellMatched(env) && Compatible(env) && Roomy(env, t) && OnClock(env, w, t)
    requires Follows(setting, t) && Permitted(setting, env, w, act)
    ensures Permitted(Cooperative, env, w, act)
  {
    hide Shape, Clock, Raises, Cooperates;
    if act.Local? {
      DueEventsCooperate(env, View(w), t, act.e);
      assert SendsData(if act.side.Caller? then w.a.core else w.b.core, act.e) ==>
          Cooperates(if act.side.Caller? then w.a.core else w.b.core, act.e) by {
        DataCooperates(if act.side.Caller? then w.a.core else w.b.core, act.e);
      }
    }
  }

  lemma DataCooperates(c: Core, e: Event)
    ensures SendsData(c, e) ==> Cooperates(c, e)
  {
  }

  lemma CooperatingHasTime(c: Core, e: Event)
    requires Cooperates(c, e)
    ensures EventTime(e).Some?
  {
  }

  lemma AdvanceKeepsClock(env: Env, s: Session, to: nat, t: Tempo)
    requires WellMatched(env) && Shape(env, s) && Clock(env, s, t)
    requires s.now <= to && SessionPrompt(env, s.(now := to), t)
    ensures Clock(env, s.(now := to), t)
  {
    PhasesAreDisjoint(env, s.(now := to));
  }

  lemma PunctualStepKeepsClock(setting: Setting, env: Env, w: World, act: Action, t: Tempo)
    requires WellMatched(env) && Compatible(env) && Roomy(env, t) && OnClock(env, w, t)
    requires Follows(setting, t) && Permitted(setting, env, w, act)
    ensures OnClock(env, Effect(env, w, act), t)
  {
    hide Next, Shape, Clock, PacketEvent, Take, Read, Cooperates, Raises, Prompt;
    PunctualIsCooperative(setting, env, w, act, t);
    CooperativeStepIsSafe(env, w, act);
    ViewTurns(w);
    match act
    case Advance(to) =>
      ViewIsPrompt(env, w.(now := to), t);
      assert View(w.(now := to)) == View(w).(now := to);
      AdvanceKeepsClock(env, View(w), to, t);
    case Flush(side) =>
      if side.Caller? {
        FlushIsInvisible(w);
      } else {
        FlushIsInvisible(Mirror(w));
        ViewTurns(CallerFlush(Mirror(w)));
      }
    case Deliver(side, order) =>
      if side.Caller? {
        CallerReadKeepsClock(env, View(w), order, t);
        ViewOfDeliver(env, w, order);
      } else {
        CalleeReadKeepsClock(env, View(w), order, t);
        ViewOfDeliver(MirrorEnv(env), Mirror(w), order);
        ViewTurns(CallerDeliver(MirrorEnv(env), Mirror(w), order));
      }
    case Local(side, e) =>
      if side.Caller? {
        CooperatingHasTime(w.a.core, e);
        CallerKeepsClock(env, View(w), e, t);
        ViewOfLocal(env, w, e);
      } else {
        CooperatingHasTime(w.b.core, e);
        CalleeKeepsClock(env, View(w), e, t);
        ViewOfLocal(MirrorEnv(env), Mirror(w), e);
        ViewTurns(CallerLocal(MirrorEnv(env), Mirror(w), e));
      }
  }

  lemma StartIsOnClock(env: Env, t: Tempo)
    requires WellMatched(env) && Prompt(env, Start(env, t.ta, t.tb), t.late, t.latency)
    ensures OnClock(env, Start(env, t.ta, t.tb), t)
  {
    var w := Start(env, t.ta, t.tb);
    StartIsSafe(env, t.ta, t.tb);
    StartIs(env, t.ta, t.tb);
    ViewIsPrompt(env, w, t);
    PhasesAreDisjoint(env, View(w));
    assert View(w).ab == w.a.queue;
  }

  lemma {:induction false} PunctualPlayKeepsClock(setting: Setting, env: Env, w: World, t: Tempo, acts: seq<Action>)
    requires WellMatched(env) && Compatible(env) && Roomy(env, t) && OnClock(env, w, t)
    requires Follows(setting, t)
    ensures OnClock(env, Play(setting, env, w, acts), t)
  {
    hide Permitted, Effect, OnClock, Roomy, Compatible;
    if acts == [] {
    } else {
      var n := |acts| - 1;
      PunctualPlayKeepsClock(setting, env, w, t, acts[..n]);
      var before := Play(setting, env, w, acts[..n]);
      if Permitted(setting, env, before, acts[n]) {
        PunctualStepKeepsClock(setting, env, before, acts[n], t);
      }
    }
  }

  /** The response deadline of a machine in DATA_READY is at least its whole margin away. */
  predicate KeepsMargin(c: Core, own: ConnectionConfig, peer: ConnectionConfig, now: nat, t: Tempo) {
    c.state.DataReady? ==> now + own.tr <= c.state.tr + Silence(peer, t)
  }

  /** With every driver timer armed and raised when due, over all punctual interleavings: no peer falls to
      IDLE or ERROR, and neither response deadline ever comes nearer than its margin, whatever data and
      heartbeats are exchanged; and if both want an association, both are in DATA_READY from
      `ta + 4 latency + late` on. */
  lemma PunctualPeersStayConnected(setting: Setting, env: Env, t: Tempo, acts: seq<Action>)
    requires WellMatched(env) && Compatible(env) && Roomy(env, t) && Follows(setting, t)
    requires Prompt(env, Start(env, t.ta, t.tb), t.late, t.latency)
    ensures var w := Play(setting, env, Start(env, t.ta, t.tb), acts);
            && Healthy(w)
            && (BothWantData(env) && w.now > t.ta + 4 * t.latency + t.late ==>
                  w.a.core.state.DataReady? && w.b.core.state.DataReady?)
            && KeepsMargin(w.a.core, ConfA(env), ConfB(env), w.now, t)
            && KeepsMargin(w.b.core, ConfB(env), ConfA(env), w.now, t)
  {
    hide Next, Permitted, Effect, Start, Roomy;
    StartIsOnClock(env, t);
    PunctualPlayKeepsClock(setting, env, Start(env, t.ta, t.tb), t, acts);
    var w := Play(setting, env, Start(env, t.ta, t.tb), acts);
    SafeIsHealthy(env, w);
    ClockPromises(env, View(w), t);
  }

  lemma ClockPromises(env: Env, s: Session, t: Tempo)
    requires WellMatched(env) && Shape(env, s) && Clock(env, s, t)
    ensures BothWantData(env) && s.now > t.ta + 4 * t.latency + t.late ==> s.a.state.DataReady? && s.b.state.DataReady?
    ensures KeepsMargin(s.a, ConfA(env), ConfB(env), s.now, t)
    ensures KeepsMargin(s.b, ConfB(env), ConfA(env), s.now, t)
  {
    if BothWantData(env) && !(s.a.state.DataReady? && s.b.state.DataReady?) {
      StillEarly(env, s, t);
    }
    if Up(env, s) {
      ResponseMargin(env, s, t.ta + 2 * t.latency, t.ta + 3 * t.latency, t);
    }
  }

  /** And the users get their messages: both ways, in order, none lost, none made up; what is not there
      yet was accepted no longer than `latency` ago. */
  lemma MessagesArriveInTime(setting: Setting, env: Env, t: Tempo, acts: seq<Action>)
    requires WellMatched(env) && TargetsAgree(env) && Roomy(env, t) && Follows(setting, t)
    requires Prompt(env, Start(env, t.ta, t.tb), t.late, t.latency)
    ensures var w := Play(setting, env, Start(env, t.ta, t.tb), acts);
            && w.a.accepted == w.b.received + Carried(w.ab + w.a.queue)
            && w.b.accepted == w.a.received + Carried(w.ba + w.b.queue)
            && InTime(w.ab + w.a.queue, w.now, t.latency)
            && InTime(w.ba + w.b.queue, w.now, t.latency)
  {
    hide *;
    AgreeingAreCompatible(env);
    var start := Start(env, t.ta, t.tb);
    StartIsOnClock(env, t);
    PunctualPlayKeepsClock(setting, env, start, t, acts);
    var w := Play(setting, env, start, acts);
    StartIsUnused(env, t.ta, t.tb);
    MessagesAreConserved(setting, env, start, acts);
    ClockIsInTime(env, w, t);
    CarriedAppend(w.ab, w.a.queue);
    CarriedAppend(w.ba, w.b.queue);
    assert w.b.received + Carried(w.ab) + Carried(w.a.queue) == w.b.received + (Carried(w.ab) + Carried(w.a.queue));
    assert w.a.received + Carried(w.ba) + Carried(w.b.queue) == w.a.received + (Carried(w.ba) + Carried(w.b.queue));
  }

  lemma AgreeingAreCompatible(env: Env)
    requires WellMatched(env) && TargetsAgree(env)
    ensures Compatible(env)
  {
  }

  lemma ClockIsInTime(env: Env, w: World, t: Tempo)
    requires WellMatched(env) && TargetsAgree(env) && OnClock(env, w, t)
    ensures w.a.open && w.b.open
    ensures InTime(w.ab + w.a.queue, w.now, t.latency) && InTime(w.ba + w.b.queue, w.now, t.latency)
  {
    ReadersAreNotReady(env, View(w));
    hide Shape;
  }

  lemma StartIsUnused(env: Env, ta: nat, tb: nat)
    requires WellMatched(env)
    ensures Unused(Start(env, ta, tb))
  {
    StartIs(env, ta, tb);
    var w := Start(env, ta, tb);
    CarriedOne(w.a.queue[0]);
    assert w.a.queue == [w.a.queue[0]];
    assert Unstamped([]) == [];
  }
}
