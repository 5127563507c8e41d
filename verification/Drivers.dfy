/** The parts of the driver loop of crates/fmtp-tokio/src/connection.rs that steer the machine: the address
    loop, the user commands, and the state events. Sockets and sleeping are oracles. */
module Drivers {
  import opened Prelude
  import opened Configuration
  import opened Packets
  import opened Events
  import opened Machine
  import opened History
  import opened Laws
  import opened Connections

  // ---------------------------------------------------------------- the address loop

  /** The events of `connect`: a setup per address tried, taken back unless the address was reachable. */
  function AttemptEvents(connection: string, reachable: seq<bool>, now: nat): seq<Event> {
    if reachable == [] then []
    else if reachable[0] then [LSetup(connection), RSetup(now)]
    else [LSetup(connection), RDisconnect] + AttemptEvents(connection, reachable[1..], now)
  }

  lemma RunTwo(config: Config, c: Core, e: Event, f: Event)
    ensures var first := Next(config, c, e);
            var second := Next(config, first.core, f);
            Run(config, c, [e, f])
            == Reaction(second.core, first.sent + second.sent, first.delivered + second.delivered)
  {
    hide Next;
    RunOne(config, c, e);
    RunOne(config, Next(config, c, e).core, f);
    RunAppend(config, c, [e], [f]);
    assert [e] + [f] == [e, f];
  }

  /** Started in IDLE with a configured id, the loop never reaches ERROR: it ends in ID_PENDING with exactly
      one handshake queued if any address was reachable, else in IDLE with nothing queued. */
  lemma {:induction false} AttemptFromIdle(config: Config, c: Core, connection: string, reachable: seq<bool>, now: nat)
    requires c.state.Idle? && connection in config.connections
    ensures var r := Run(config, c, AttemptEvents(connection, reachable, now));
            var cc := config.connections[connection];
            && r.delivered == []
            && (true in reachable ==>
                  && r.core == Core(IdPending(now + cc.ti), false, cc.initialTarget, Some(connection))
                  && r.sent == [HandshakePacket(cc.localId, cc.remoteId)])
            && (true !in reachable ==>
                  && r.core == (if reachable == [] then c
                                else Core(State.Idle, false, cc.initialTarget, Some(connection)))
                  && r.sent == [])
    decreases |reachable|
  {
    if reachable == [] {
    } else {
      if reachable[0] {
        RunTwo(config, c, LSetup(connection), RSetup(now));
      } else {
        var opening := [LSetup(connection), RDisconnect];
        RunTwo(config, c, LSetup(connection), RDisconnect);
        RunAppend(config, c, opening, AttemptEvents(connection, reachable[1..], now));
        AttemptFromIdle(config, Run(config, c, opening).core, connection, reachable[1..], now);
      }
    }
  }

  /** The same for a machine with a past, as the logs of its context show it. */
  lemma AttemptFromIdleLater(
    config: Config, start: Core, past: seq<Event>, connection: string, reachable: seq<bool>, now: nat,
    polled: seq<Packet>, queue: seq<Packet>, queue': seq<Packet>)
    requires Run(config, start, past).core.state.Idle? && connection in config.connections
    requires Run(config, start, past).sent == polled + queue
    requires Run(config, start, past + AttemptEvents(connection, reachable, now)).sent == polled + queue'
    ensures var c := Run(config, start, past + AttemptEvents(connection, reachable, now)).core;
            var cc := config.connections[connection];
            && (true in reachable ==>
                  && c == Core(IdPending(now + cc.ti), false, cc.initialTarget, Some(connection))
                  && queue' == queue + [HandshakePacket(cc.localId, cc.remoteId)])
            && (true !in reachable ==>
                  && c == (if reachable == [] then Run(config, start, past).core
                           else Core(State.Idle, false, cc.initialTarget, Some(connection)))
                  && queue' == queue)
  {
    hide Next;
    var events := AttemptEvents(connection, reachable, now);
    var before := Run(config, start, past);
    RunAppend(config, start, past, events);
    AttemptFromIdle(config, before.core, connection, reachable, now);
    var added := Run(config, before.core, events).sent;
    assert polled + queue' == (polled + queue) + added;
    assert queue' == (polled + queue')[|polled|..];
    assert queue + added == ((polled + queue) + added)[|polled|..];
  }

  // ---------------------------------------------------------------- commands and state events

  function CommandEvent(command: UserCommand, now: nat): Event {
    match command
    case Data(msg) => LData(now, msg)
    case Shutdown => LShutdown(now)
    case Startup => LStartup(now)
    case Setup(id) => LSetup(id)
    case Disconnect => LDisconnect
  }

  /** What becomes of a connection by a command of its user: the new machine and what is queued for the peer. A
      command that does not fit the state is the end of the connection, but for a disconnect. */
  predicate Obeys(config: Config, before: Core, command: UserCommand, now: nat, after: Core, queued: seq<Packet>) {
    var s := before.state;
    match command
    case Setup(k) =>
      && queued == []
      && (if s.Idle? && k in config.connections then
            after == Core(State.ConnectionPending, false, config.connections[k].initialTarget, Some(k))
          else after == before.(state := State.Error))
    case Disconnect =>
      && queued == (if s.AssociationPending? || s.DataReady? then [Packet(System, [48, 48])] else [])
      && after == before.(state := if s.Error? then State.Error else State.Idle, target := Target.Idle)
    case Shutdown =>
      if s.AssociationPending? || s.DataReady? then
        var found := Lookup(config, before.id);
        && found.Some? && queued == [Packet(System, [48, 48])]
        && after == before.(state := State.Ready(now + found.value.tr), target := Target.Ready)
      else queued == [] && after == before.(state := State.Error, target := Target.Ready)
    case Startup =>
      if s.Ready? then
        var found := Lookup(config, before.id);
        && found.Some? && queued == [Packet(System, [48, 49])]
        && after == before.(state := State.AssociationPending(now + found.value.tr), target := Target.DataReady)
      else queued == [] && after == before.(state := State.Error, target := Target.DataReady)
    case Data(msg) =>
      if s.DataReady? then
        var found := Lookup(config, before.id);
        && found.Some? && |queued| == 1 && TryToMsg(queued[0]) == Ok(msg)
        && after == before.(state := State.DataReady(s.tr, now + found.value.ts))
      else queued == [] && after == before.(state := State.Error)
  }

  lemma CommandIsObeyed(config: Config, c: Core, command: UserCommand, now: nat)
    requires Sound(config, c)
    ensures var o := Next(config, c, CommandEvent(command, now));
            Obeys(config, c, command, now, o.core, o.sent) && o.delivered == []
  {
  }

  /** READY with target DATA_READY: the driver associates before it reads anything. */
  predicate AutoStarts(c: Core) {
    c.state.Ready? && c.target.DataReady?
  }

  /** The events the driver raises on its own account in a state, once their deadline has come. */
  predicate Raises(c: Core, now: nat, e: Event) {
    match e
    case TiTimeout => (c.state.IdPending? || c.state.AcceptPending?) && c.state.ti <= now
    case LStartup(at) => AutoStarts(c) && at == now
    case TrTimeout(at) => (c.state.AssociationPending? || c.state.DataReady?) && c.state.tr <= now && at == now
    case TsTimeout(at) => c.state.DataReady? && c.state.ts <= now && at == now
    case _ => false
  }

  /** READY without the wish to associate, and past its deadline. Nothing renews that deadline, and in the loop
      the branch that waits for it comes before the one that reads. */
  predicate Deaf(c: Core, now: nat) {
    c.state.Ready? && !c.target.DataReady? && c.state.tr <= now
  }

  /** The state branch has to wait, so that the loop gets to reading. */
  predicate Blocks(c: Core, now: nat) {
    match c.state
    case IdPending(ti) => now < ti
    case AcceptPending(ti) => now < ti
    case Ready(tr) => !c.target.DataReady? && now < tr
    case AssociationPending(tr) => now < tr
    case DataReady(tr, ts) => now < tr && now < ts
    case _ => false
  }

  /** In the states in which a driver keeps its connection, the branch blocks unless it has something to raise
      or the machine is deaf. */
  lemma BlocksUnlessDueOrDeaf(c: Core, now: nat)
    requires !c.state.Idle? && !c.state.ConnectionPending? && !c.state.Error?
    ensures Blocks(c, now) <==> !Deaf(c, now) && forall e :: !Raises(c, now, e)
  {
    match c.state
    case IdPending(ti) => assert ti <= now ==> Raises(c, now, TiTimeout);
    case AcceptPending(ti) => assert ti <= now ==> Raises(c, now, TiTimeout);
    case Ready(_) => assert c.target.DataReady? ==> Raises(c, now, LStartup(now));
    case AssociationPending(tr) => assert tr <= now ==> Raises(c, now, TrTimeout(now));
    case DataReady(tr, ts) =>
      assert tr <= now ==> Raises(c, now, TrTimeout(now));
      assert ts <= now ==> Raises(c, now, TsTimeout(now));
  }

  /** Nothing that the driver raises by itself leads to ERROR. */
  lemma DueEventsNeverFail(config: Config, c: Core, now: nat, e: Event)
    requires Sound(config, c) && Raises(c, now, e)
    ensures !Next(config, c, e).core.state.Error?
  {
  }

  /** What becomes of a connection when the state branch completes: an identification that takes too long is
      given up, a wanted association is asked for, and asked for again, and in DATA_READY a silent peer is
      taken leave of, or else a heartbeat is sent. */
  predicate Serves(config: Config, before: Core, now: nat, trFirst: bool, after: Core, queued: seq<Packet>) {
    match before.state
    case IdPending(_) => after == before.(state := State.Idle) && queued == []
    case AcceptPending(_) => after == before.(state := State.Idle) && queued == []
    case Ready(_) =>
      if before.target.DataReady? then
        var found := Lookup(config, before.id);
        && found.Some? && queued == [Packet(System, [48, 49])]
        && after == before.(state := State.AssociationPending(now + found.value.tr))
      else after == before && queued == []
    case AssociationPending(_) =>
      var found := Lookup(config, before.id);
      && found.Some? && queued == [Packet(System, [48, 49])]
      && after == before.(state := State.AssociationPending(now + found.value.tr))
    case DataReady(tr, ts) =>
      if tr <= now && (trFirst || now < ts) then
        after == before.(state := State.Idle) && queued == [Packet(System, [48, 48])]
      else
        var found := Lookup(config, before.id);
        && found.Some? && queued == [Packet(System, [48, 51])]
        && after == before.(state := State.DataReady(tr, now + found.value.ts))
    case _ => false
  }

  lemma DueEventServes(config: Config, c: Core, now: nat, trFirst: bool, e: Event)
    requires Sound(config, c) && Raises(c, now, e)
    requires c.state.DataReady? ==> (e.TrTimeout? <==> c.state.tr <= now && (trFirst || now < c.state.ts))
    ensures var o := Next(config, c, e);
            Serves(config, c, now, trFirst, o.core, o.sent) && o.delivered == []
  {
  }

  /** How the state branch ends: it makes the loop reconnect or stop, or it completes so that the loop starts
      over, or it blocks so that the loop goes on to its last branch and reads. */
  datatype Outcome = Reconnect | Terminate | Continue | Blocked

  class Driver {
    const inner: Connection
    const ctx: ConnectionContext

    constructor (config: Config, connectionId: Option<string>)
      ensures fresh(inner) && fresh(ctx) && inner.Valid(ctx)
      ensures inner.config == config && inner.View() == Core(State.Idle, false, Target.Idle, connectionId)
      ensures inner.history == []
    {
      var c := new ConnectionContext();
      ctx := c;
      inner := new Connection(config, c, connectionId);
    }

    /** Tries the configured addresses in order; `reachable` tells which would accept. Returns the first
        that does. */
    method Connect(connection: string, reachable: seq<bool>, now: nat) returns (address: Option<string>)
      requires inner.Valid(ctx)
      requires connection in inner.config.connections ==>
                 |reachable| == |inner.config.connections[connection].remoteAddresses|
      modifies inner, ctx`sendQueue, ctx`recvQueue
      ensures inner.Valid(ctx)
      ensures connection !in inner.config.connections ==>
                address.None? && unchanged(inner) && unchanged(ctx)
      ensures connection in inner.config.connections ==>
                && inner.history == old(inner.history) + AttemptEvents(connection, reachable, now)
                && (address.Some? <==> true in reachable)
                && (address.Some? ==>
                      exists i :: 0 <= i < |reachable| && reachable[i] && (forall j :: 0 <= j < i ==> !reachable[j])
                                  && address.value == inner.config.connections[connection].remoteAddresses[i])
      ensures connection in inner.config.connections && old(inner.state).Idle? ==>
                var cc := inner.config.connections[connection];
                && (address.Some? ==>
                      && inner.View() == Core(IdPending(now + cc.ti), false, cc.initialTarget, Some(connection))
                      && ctx.sendQueue == old(ctx.sendQueue) + [HandshakePacket(cc.localId, cc.remoteId)])
                && (address.None? ==>
                      && inner.View() == (if reachable == [] then old(inner.View())
                                          else Core(State.Idle, false, cc.initialTarget, Some(connection)))
                      && ctx.sendQueue == old(ctx.sendQueue))
    {
      hide Next;
      if connection !in inner.config.connections {
        return None;
      }
      address := TryAddresses(connection, reachable, now);
      if old(inner.state).Idle? {
        AttemptFromIdleLater(inner.config, Initial(inner.initialId), old(inner.history), connection, reachable, now,
                             ctx.transmitted, old(ctx.sendQueue), ctx.sendQueue);
      }
    }

    /** The loop over the addresses. */
    method TryAddresses(connection: string, reachable: seq<bool>, now: nat) returns (address: Option<string>)
      requires inner.Valid(ctx)
      requires connection in inner.config.connections
      requires |reachable| == |inner.config.connections[connection].remoteAddresses|
      modifies inner, ctx`sendQueue, ctx`recvQueue
      ensures inner.Valid(ctx)
      ensures inner.history == old(inner.history) + AttemptEvents(connection, reachable, now)
      ensures address.Some? <==> true in reachable
      ensures address.Some? ==>
                exists i :: 0 <= i < |reachable| && reachable[i] && (forall j :: 0 <= j < i ==> !reachable[j])
                            && address.value == inner.config.connections[connection].remoteAddresses[i]
    {
      hide Next, Run, Lawful;
      var addresses := inner.config.connections[connection].remoteAddresses;
      ghost var all := old(inner.history) + AttemptEvents(connection, reachable, now);
      for i := 0 to |addresses|
        invariant inner.Valid(ctx)
        invariant forall j :: 0 <= j < i ==> !reachable[j]
        invariant all == inner.history + AttemptEvents(connection, reachable[i..], now)
      {
        assert reachable[i..][1..] == reachable[i + 1..];
        ghost var h := inner.history;
        inner.Handle(LSetup(connection), ctx);
        if reachable[i] {
          inner.Handle(RSetup(now), ctx);
          assert inner.history == h + [LSetup(connection), RSetup(now)];
          return Some(addresses[i]);
        }
        inner.Handle(RDisconnect, ctx);
        assert inner.history == h + [LSetup(connection), RDisconnect];
      }
      return None;
    }

    /** `command_received`: true when the command channel is closed and the loop has to end. */
    method CommandReceived(command: Option<UserCommand>, now: nat) returns (closed: bool)
      requires inner.Valid(ctx)
      requires inner.state.DataReady? && command.Some? && command.value.Data? ==> |command.value.msg.data| <= MAX_PAYLOAD
      modifies inner, ctx`sendQueue, ctx`recvQueue
      ensures inner.Valid(ctx)
      ensures closed <==> command.None?
      ensures closed ==> unchanged(inner) && unchanged(ctx)
      ensures !closed ==> inner.history == old(inner.history) + [CommandEvent(command.value, now)]
      ensures !closed ==>
                && old(ctx.sendQueue) <= ctx.sendQueue && ctx.recvQueue == old(ctx.recvQueue)
                && Obeys(inner.config, old(inner.View()), command.value, now,
                         inner.View(), ctx.sendQueue[|old(ctx.sendQueue)|..])
    {
      if command.None? {
        return true;
      }
      inner.KeepsPromises(ctx);
      CommandIsObeyed(inner.config, inner.View(), command.value, now);
      hide Next, Obeys;
      inner.Handle(CommandEvent(command.value, now), ctx);
      return false;
    }

    /** Dispatches a due event; of two, `trFirst` settles which. */
    method Raise(e: Event, now: nat, trFirst: bool)
      requires inner.Valid(ctx) && Raises(inner.View(), now, e)
      requires inner.state.DataReady? ==>
                 (e.TrTimeout? <==> inner.state.tr <= now && (trFirst || now < inner.state.ts))
      modifies inner, ctx`sendQueue, ctx`recvQueue
      ensures inner.Valid(ctx)
      ensures inner.history == old(inner.history) + [e]
      ensures old(ctx.sendQueue) <= ctx.sendQueue && ctx.recvQueue == old(ctx.recvQueue)
      ensures Serves(inner.config, old(inner.View()), now, trFirst,
                     inner.View(), ctx.sendQueue[|old(ctx.sendQueue)|..])
    {
      hide Next, Run, Lawful, Sound, Serves;
      inner.KeepsPromises(ctx);
      DueEventServes(inner.config, inner.View(), now, trFirst, e);
      inner.Handle(e, ctx);
    }

    /** The state branch of the loop, resolved at time `now`; `trFirst` settles which of two elapsed timers
        wins. Whatever it raises is one of the driver's own events, and it is due. */
    method StateBranch(now: nat, trFirst: bool) returns (outcome: Outcome)
      requires inner.Valid(ctx)
      modifies inner, ctx`sendQueue, ctx`recvQueue
      ensures inner.Valid(ctx)
      ensures outcome.Reconnect? <==> old(inner.state).Idle?
      ensures outcome.Terminate? <==> old(inner.state).ConnectionPending? || old(inner.state).Error?
      ensures outcome.Blocked? <==> Blocks(old(inner.View()), now)
      ensures !outcome.Continue? ==> unchanged(inner) && unchanged(ctx)
      ensures || inner.history == old(inner.history)
              || (exists e :: Raises(old(inner.View()), now, e) && inner.history == old(inner.history) + [e])
      ensures inner.history == old(inner.history) ==>
                unchanged(inner) && unchanged(ctx) && forall e :: !Raises(old(inner.View()), now, e)
      ensures outcome.Continue? && inner.history == old(inner.history) <==> Deaf(old(inner.View()), now)
      ensures outcome.Continue? ==>
                && old(ctx.sendQueue) <= ctx.sendQueue && ctx.recvQueue == old(ctx.recvQueue)
                && Serves(inner.config, old(inner.View()), now, trFirst,
                          inner.View(), ctx.sendQueue[|old(ctx.sendQueue)|..])
    {
      hide Next, Run, Lawful, Sound;
      var due: Option<Event> := None;
      match inner.state {
        case Idle =>
          return Reconnect;
        case ConnectionPending =>
          return Terminate;
        case Error =>
          return Terminate;
        case IdPending(ti) =>
          due := if ti <= now then Some(TiTimeout) else None;
        case AcceptPending(ti) =>
          due := if ti <= now then Some(TiTimeout) else None;
        case Ready(tr) =>
          if !inner.target.DataReady? {
            return if tr <= now then Continue else Blocked;
          }
          due := Some(LStartup(now));
        case AssociationPending(tr) =>
          due := if tr <= now then Some(TrTimeout(now)) else None;
        case DataReady(tr, ts) =>
          if tr <= now && (trFirst || now < ts) {
            due := Some(TrTimeout(now));
          } else if ts <= now {
            due := Some(TsTimeout(now));
          }
      }
      if due.None? {
        return Blocked;
      }
      Raise(due.value, now, trFirst);
      return Continue;
    }
  }

  // ---------------------------------------------------------------- no iteration starts in CONNECTION_PENDING

  /** What one iteration of the loop can feed the machine: one event, or an attempt to connect. */
  datatype Iteration = One(e: Event) | Attempt(connection: string, reachable: seq<bool>, now: nat)

  function IterationEvents(config: Config, it: Iteration): seq<Event> {
    match it
    case One(e) => [e]
    case Attempt(connection, reachable, now) =>
      if connection in config.connections then AttemptEvents(connection, reachable, now) else []
  }

  function AfterIterations(config: Config, c: Core, its: seq<Iteration>): Core {
    if its == [] then c
    else Run(config, AfterIterations(config, c, its[..|its| - 1]), IterationEvents(config, its[|its| - 1])).core
  }

  /** The user issues no setup command, and the driver connects only from IDLE. */
  ghost predicate LoopDiscipline(config: Config, c: Core, its: seq<Iteration>) {
    forall i :: 0 <= i < |its| ==>
                  && (its[i].One? ==> !its[i].e.LSetup?)
                  && (its[i].Attempt? ==> AfterIterations(config, c, its[..i]).state.Idle?)
  }

  lemma OnlySetupLeadsToPending(config: Config, c: Core, e: Event)
    requires !c.state.ConnectionPending? && !e.LSetup?
    ensures !Next(config, c, e).core.state.ConnectionPending?
  {
  }

  lemma {:induction false} NoIterationStartsPending(config: Config, c: Core, its: seq<Iteration>)
    requires !c.state.ConnectionPending? && LoopDiscipline(config, c, its)
    ensures !AfterIterations(config, c, its).state.ConnectionPending?
  {
    hide Next;
    if its == [] {
    } else {
      var n := |its| - 1;
      forall i | 0 <= i < n
        ensures its[..n][..i] == its[..i]
      {
      }
      NoIterationStartsPending(config, c, its[..n]);
      var before := AfterIterations(config, c, its[..n]);
      match its[n]
      case One(e) =>
        OnlySetupLeadsToPending(config, before, e);
        RunOne(config, before, e);
      case Attempt(connection, reachable, now) =>
        if connection in config.connections {
          AttemptFromIdle(config, before, connection, reachable, now);
        }
    }
  }
}
