/** Two connections joined by one transport connection: a FIFO wire each way, the send queues in front of
    the wires, and a global clock. The steps are those of the driver loop of
    crates/fmtp-tokio/src/connection.rs, interleaved without restriction. */
module Network {
  import opened Prelude
  import opened Configuration
  import opened Packets
  import opened Codec
  import opened Events
  import opened Machine
  import opened Drivers

  /** A packet and the time it was queued. */
  datatype Stamped = Stamped(packet: Packet, at: nat)

  /** `accepted` and `received` log the messages taken from and put up for the local user. A peer is `open`
      until its machine falls to IDLE or ERROR, or its driver stops on a packet it cannot read: the driver
      reads nothing more from this transport connection then. */
  datatype Peer = Peer(core: Core, queue: seq<Stamped>, accepted: seq<Message>, received: seq<Message>, open: bool)

  /** `a` is the peer that called, `b` the one that was called; `ab` and `ba` are the wires. */
  datatype World = World(now: nat, a: Peer, b: Peer, ab: seq<Stamped>, ba: seq<Stamped>)

  /** Both configurations, and under which key each has the other. */
  datatype Env = Env(a: Config, b: Config, ka: string, kb: string)

  datatype Side = Caller | Callee

  datatype Action =
    | Advance(to: nat)
    | Flush(side: Side)
    | Deliver(side: Side, order: seq<string>)
    | Local(side: Side, e: Event)

  function Mirror(w: World): World { World(w.now, w.b, w.a, w.ba, w.ab) }
  function MirrorEnv(env: Env): Env { Env(env.b, env.a, env.kb, env.ka) }

  function Stamp(packets: seq<Packet>, at: nat): (r: seq<Stamped>)
    ensures |r| == |packets|
  {
    seq(|packets|, i requires 0 <= i < |packets| => Stamped(packets[i], at))
  }

  /** One event dispatched at a peer. */
  function Take(config: Config, p: Peer, e: Event, now: nat): Peer {
    var o := Next(config, p.core, e);
    Peer(o.core,
         p.queue + Stamp(o.sent, now),
         p.accepted + (if e.LData? && o.core.state.DataReady? then [e.msg] else []),
         p.received + o.delivered,
         p.open && !o.core.state.Idle? && !o.core.state.Error?)
  }

  /** One packet read at a peer; by `PacketEventIsWireEvent` this is what the bytes would do. */
  function Read(config: Config, p: Peer, packet: Packet, now: nat, order: seq<string>): Peer {
    match PacketEvent(packet, now, config, p.core.id, order)
    case Ok(e) => Take(config, p, e, now)
    case Err(_) => p.(open := false)
  }

  /** The events that do not come out of a packet: user commands, timers, and the end of the transport. */
  predicate IsLocal(e: Event) { !FromPeer(e) && !e.RSetup? }

  function PeerAt(w: World, side: Side): Peer { if side.Caller? then w.a else w.b }

  predicate Possible(w: World, act: Action) {
    match act
    case Advance(to) => w.now <= to
    case Flush(side) => PeerAt(w, side).queue != []
    case Deliver(side, _) => if side.Caller? then w.a.open && w.ba != [] else w.b.open && w.ab != []
    case Local(side, e) =>
      && PeerAt(w, side).open
      && IsLocal(e)
      && (EventTime(e).Some? ==> EventTime(e).value == w.now)
  }

  function CallerFlush(w: World): World
    requires w.a.queue != []
  {
    w.(a := w.a.(queue := w.a.queue[1..]), ab := w.ab + [w.a.queue[0]])
  }

  function CallerDeliver(env: Env, w: World, order: seq<string>): World
    requires w.ba != []
  {
    w.(a := Read(env.a, w.a, w.ba[0].packet, w.now, order), ba := w.ba[1..])
  }

  function CallerLocal(env: Env, w: World, e: Event): World {
    w.(a := Take(env.a, w.a, e, w.now))
  }

  function Effect(env: Env, w: World, act: Action): World
    requires Possible(w, act)
  {
    match act
    case Advance(to) => w.(now := to)
    case Flush(side) => if side.Caller? then CallerFlush(w) else Mirror(CallerFlush(Mirror(w)))
    case Deliver(side, order) =>
      if side.Caller? then CallerDeliver(env, w, order)
      else Mirror(CallerDeliver(MirrorEnv(env), Mirror(w), order))
    case Local(side, e) =>
      if side.Caller? then CallerLocal(env, w, e) else Mirror(CallerLocal(MirrorEnv(env), Mirror(w), e))
  }

  /** Unrestricted: any local event at any time. Cooperative: the driver's reading discipline, data in
      DATA_READY only, and of the timers only those that keep a connection. Punctual: the driver's
      discipline with every timer it has, each raised only when due, and with bounds on how late the
      driver (`late`) and the network with the reader (`latency`) can be. With `biased` a peer takes what it
      can do in the order of the driver's biased select: it flushes before anything else, and reads only when
      no timer of its own is due; without it there are more runs. */
  datatype Setting = Unrestricted | Cooperative | Punctual(late: nat, latency: nat, biased: bool)

  predicate SendsData(c: Core, e: Event) {
    e.LData? && c.state.DataReady? && |e.msg.data| <= MAX_DELIVERABLE
  }

  predicate Cooperates(c: Core, e: Event) {
    || SendsData(c, e)
    || (e.LStartup? && AutoStarts(c))
    || (e.TsTimeout? && c.state.DataReady?)
    || (e.TrTimeout? && c.state.AssociationPending?)
  }

  predicate InTime(s: seq<Stamped>, now: nat, latency: nat) {
    forall i :: 0 <= i < |s| ==> now <= s[i].at + latency
  }

  /** Heartbeats and automatic startups are at most `late` overdue. */
  predicate Diligent(c: Core, config: Config, now: nat, late: nat) {
    && (c.state.DataReady? ==> now <= c.state.ts + late)
    && (AutoStarts(c) && Lookup(config, c.id).Some? ==> now + Lookup(config, c.id).value.tr <= c.state.tr + late)
  }

  /** Until when a peer has been reading: a deaf one stopped at its deadline. */
  function ListenedUntil(c: Core, now: nat): nat {
    if Deaf(c, now) then c.state.tr else now
  }

  predicate Prompt(env: Env, w: World, late: nat, latency: nat) {
    && InTime(w.ab, ListenedUntil(w.b.core, w.now), latency)
    && InTime(w.a.queue, ListenedUntil(w.b.core, w.now), latency)
    && InTime(w.ba, ListenedUntil(w.a.core, w.now), latency)
    && InTime(w.b.queue, ListenedUntil(w.a.core, w.now), latency)
    && Diligent(w.a.core, env.a, w.now, late)
    && Diligent(w.b.core, env.b, w.now, late)
  }

  /** READY peers that will associate do so before they read, and the others read up to their deadline. */
  predicate Listens(c: Core, now: nat) {
    !AutoStarts(c) && !Deaf(c, now)
  }

  ghost predicate Reads(config: Config, c: Core, now: nat, order: seq<string>) {
    Listens(c, now) && Enumerates(order, config.connections)
  }

  predicate FlushedFirst(w: World, act: Action) {
    match act
    case Advance(_) => w.a.queue == w.b.queue == []
    case Flush(_) => true
    case Deliver(side, _) => PeerAt(w, side).queue == []
    case Local(side, _) => PeerAt(w, side).queue == []
  }

  /** The order of the select: sending, user commands, the state branch, reading. */
  predicate InOrder(w: World, act: Action) {
    FlushedFirst(w, act) && (act.Deliver? ==> Blocks(PeerAt(w, act.side).core, w.now))
  }

  ghost predicate Permitted(setting: Setting, env: Env, w: World, act: Action) {
    && Possible(w, act)
    && (setting.Punctual? && setting.biased ==> InOrder(w, act))
    && (!setting.Unrestricted? ==>
          match act
          case Advance(to) => setting.Punctual? ==> Prompt(env, w.(now := to), setting.late, setting.latency)
          case Flush(_) => true
          case Deliver(side, order) =>
            Reads(if side.Caller? then env.a else env.b, PeerAt(w, side).core, w.now, order)
          case Local(side, e) =>
            var c := PeerAt(w, side).core;
            if setting.Cooperative? then Cooperates(c, e) else SendsData(c, e) || Raises(c, w.now, e))
  }

  /** Steps that are not permitted are skipped, so `Play` over all action sequences covers every
      interleaving of permitted steps. */
  ghost function Step(setting: Setting, env: Env, w: World, act: Action): World {
    if Permitted(setting, env, w, act) then Effect(env, w, act) else w
  }

  ghost function Play(setting: Setting, env: Env, w: World, acts: seq<Action>): World {
    if acts == [] then w
    else Step(setting, env, Play(setting, env, w, acts[..|acts| - 1]), acts[|acts| - 1])
  }

  lemma PlayNothing(setting: Setting, env: Env, w: World)
    ensures Play(setting, env, w, []) == w
  {
  }

  lemma {:induction false} PlayAppend(setting: Setting, env: Env, w: World, acts: seq<Action>, more: seq<Action>)
    ensures Play(setting, env, w, acts + more) == Play(setting, env, Play(setting, env, w, acts), more)
  {
    hide Step;
    if more == [] {
      assert acts + more == acts;
    } else {
      var n := |more| - 1;
      PlayAppend(setting, env, w, acts, more[..n]);
      assert (acts + more)[..|acts + more| - 1] == acts + more[..n];
    }
  }

  // ---------------------------------------------------------------- the sides are interchangeable

  function Flip(act: Action): Action {
    match act
    case Advance(_) => act
    case Flush(side) => Flush(if side.Caller? then Callee else Caller)
    case Deliver(side, order) => Deliver(if side.Caller? then Callee else Caller, order)
    case Local(side, e) => Local(if side.Caller? then Callee else Caller, e)
  }

  lemma EffectMirrors(env: Env, w: World, act: Action)
    requires Possible(w, act)
    ensures Possible(Mirror(w), Flip(act))
    ensures Effect(env, w, act) == Mirror(Effect(MirrorEnv(env), Mirror(w), Flip(act)))
  {
    hide Next, Take, Read;
  }

  // ---------------------------------------------------------------- the start

  /** The caller has been set up for `ka` and its transport connection came up at `ta`; the callee took the
      transport connection at `tb` and knows no id yet. */
  function Start(env: Env, ta: nat, tb: nat): World {
    var a := Run(env.a, Initial(Some(env.ka)), [LSetup(env.ka), RSetup(ta)]);
    var b := Run(env.b, Initial(None), [RSetup(tb)]);
    World(if ta < tb then tb else ta,
          Peer(a.core, Stamp(a.sent, ta), [], a.delivered, true),
          Peer(b.core, Stamp(b.sent, tb), [], b.delivered, true), [], [])
  }

  function ConfA(env: Env): ConnectionConfig
    requires env.ka in env.a.connections
  {
    env.a.connections[env.ka]
  }

  function ConfB(env: Env): ConnectionConfig
    requires env.kb in env.b.connections
  {
    env.b.connections[env.kb]
  }

  function HelloA(env: Env): Packet
    requires env.ka in env.a.connections
  {
    HandshakePacket(ConfA(env).localId, ConfA(env).remoteId)
  }

  function HelloB(env: Env): Packet
    requires env.kb in env.b.connections
  {
    HandshakePacket(ConfB(env).localId, ConfB(env).remoteId)
  }

  /** The callee takes calls, the caller's handshake is that of its entry `kb` and of no other, and the
      callee's handshake is the one that the caller expects. */
  ghost predicate WellMatched(env: Env) {
    && env.ka in env.a.connections && env.kb in env.b.connections
    && env.b.serverTi.Some?
    && Answers(HelloB(env), ConfA(env))
    && forall k :: k in env.b.connections ==> (Answers(HelloA(env), env.b.connections[k]) <==> k == env.kb)
  }

  /** Mirror images are well matched exactly if no other entry of the callee expects the same handshake. */
  lemma MirrorsAreWellMatched(env: Env)
    requires env.ka in env.a.connections && env.kb in env.b.connections && env.b.serverTi.Some?
    requires Mirrored(ConfA(env), ConfB(env))
    ensures WellMatched(env) <==>
            forall k :: k in env.b.connections && k != env.kb ==> Expected(env.b.connections[k]) != Expected(ConfB(env))
    ensures AllPlain(env.b) && DistinctPairs(env.b) ==> WellMatched(env)
  {
    assert HelloA(env).data == Expected(ConfB(env)) && HelloB(env).data == Expected(ConfA(env));
    if AllPlain(env.b) && DistinctPairs(env.b) {
      MirrorIsSole(ConfA(env), env.b, env.kb);
    }
  }

  lemma StartIs(env: Env, ta: nat, tb: nat)
    requires WellMatched(env)
    ensures var w := Start(env, ta, tb);
            && w.now >= ta && w.now >= tb && (w.now == ta || w.now == tb)
            && w.a == Peer(Core(IdPending(ta + ConfA(env).ti), false, ConfA(env).initialTarget, Some(env.ka)),
                           [Stamped(HandshakePacket(ConfA(env).localId, ConfA(env).remoteId), ta)], [], [], true)
            && w.b == Peer(Core(IdPending(tb + env.b.serverTi.value), true, Target.Idle, None), [], [], [], true)
            && w.ab == [] && w.ba == []
  {
    RunTwo(env.a, Initial(Some(env.ka)), LSetup(env.ka), RSetup(ta));
    RunOne(env.b, Initial(None), RSetup(tb));
  }
}
