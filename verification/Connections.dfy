/** The connection object and its queues, in the form of crates/fmtp-core/src/connection.rs: handlers that
    assign the fields and push on the queues, dispatched by `Handle`. */
module Connections {
  import opened Prelude
  import opened Configuration
  import opened Packets
  import opened Events
  import opened Machine
  import opened History
  import opened Laws

  /** What a state handler answers. */
  datatype Response = Handled | Transition(next: State)

  /** The two queues. `transmitted` and `taken` record what was polled off them. */
  class ConnectionContext {
    var sendQueue: seq<Packet>
    var recvQueue: seq<Message>
    ghost var transmitted: seq<Packet>
    ghost var taken: seq<Message>

    constructor ()
      ensures sendQueue == [] && recvQueue == []
      ensures transmitted == [] && taken == []
    {
      sendQueue, recvQueue := [], [];
      transmitted, taken := [], [];
    }

    /** Everything ever queued for the peer, and for the user. */
    ghost function EverQueued(): seq<Packet>
      reads this
    {
      transmitted + sendQueue
    }

    ghost function EverDelivered(): seq<Message>
      reads this
    {
      taken + recvQueue
    }

    method PollTransmit() returns (p: Option<Packet>)
      modifies this`sendQueue, this`transmitted
      ensures EverQueued() == old(EverQueued())
      ensures old(sendQueue) == [] <==> p.None?
      ensures p.None? ==> unchanged(this)
      ensures p.Some? ==> old(sendQueue) == [p.value] + sendQueue && transmitted == old(transmitted) + [p.value]
    {
      if sendQueue == [] {
        return None;
      }
      p := Some(sendQueue[0]);
      transmitted := transmitted + [sendQueue[0]];
      sendQueue := sendQueue[1..];
    }

    method PollReceive() returns (m: Option<Message>)
      modifies this`recvQueue, this`taken
      ensures EverDelivered() == old(EverDelivered())
      ensures old(recvQueue) == [] <==> m.None?
      ensures m.None? ==> unchanged(this)
      ensures m.Some? ==> old(recvQueue) == [m.value] + recvQueue && taken == old(taken) + [m.value]
    {
      if recvQueue == [] {
        return None;
      }
      m := Some(recvQueue[0]);
      taken := taken + [recvQueue[0]];
      recvQueue := recvQueue[1..];
    }
  }

  class Connection {
    const config: Config
    var state: State
    var server: bool
    var target: Target
    var id: Option<string>
    ghost const initialId: Option<string>
    ghost var history: seq<Event>

    function View(): Core
      reads this
    {
      Core(state, server, target, id)
    }

    /** The object is where the transition function takes its event history, and its context has seen
        exactly the packets and messages of that history. So what is proved of `Run` over all event
        sequences holds of every object at all times. */
    ghost predicate Valid(ctx: ConnectionContext)
      reads this, ctx
    {
      Run(config, Initial(initialId), history) == Reaction(View(), ctx.EverQueued(), ctx.EverDelivered())
    }

    constructor (config: Config, ctx: ConnectionContext, id: Option<string>)
      requires ctx.EverQueued() == [] && ctx.EverDelivered() == []
      ensures Valid(ctx)
      ensures this.config == config && initialId == id && history == []
      ensures View() == Core(State.Idle, false, Target.Idle, id)
    {
      this.config := config;
      state := State.Idle;
      server := false;
      target := Target.Idle;
      this.id := id;
      initialId := id;
      history := [];
    }

    /** What reached the user after the first `i` events of the history is a prefix of what the peer sent
        since, and all of it as long as the transport connection is there. */
    ghost predicate DeliversSince(ctx: ConnectionContext, i: nat)
      requires i <= |history|
      reads this, ctx
    {
      var before := Run(config, Initial(initialId), history[..i]).delivered;
      && before <= ctx.EverDelivered()
      && var since := ctx.EverDelivered()[|before|..];
         since <= Heard(history[i..]) && (since == Heard(history[i..]) || Unconnected(View()))
    }

    /** The run theorems, read off an object: its id is configured wherever it is looked up, user data is
        never silently dropped, and within the current transport connection, from any point on that no
        `RSetup` follows, the user gets what the peer sent without a gap. */
    lemma KeepsPromises(ctx: ConnectionContext)
      requires Valid(ctx)
      ensures Sound(config, View())
      ensures state.Error? || MessagesIn(ctx.EverQueued()) == Submitted(history)
      ensures forall i :: 0 <= i <= |history| && NoSetup(history[i..]) ==> DeliversSince(ctx, i)
    {
      hide Next;
      RunKeepsSound(config, initialId, history);
      NoSilentLoss(config, initialId, history);
      forall i | 0 <= i <= |history| && NoSetup(history[i..])
        ensures DeliversSince(ctx, i)
      {
        var before := Run(config, Initial(initialId), history[..i]);
        assert history == history[..i] + history[i..];
        RunAppend(config, Initial(initialId), history[..i], history[i..]);
        NoGap(config, before.core, history[i..]);
        assert ctx.EverDelivered()[|before.delivered|..] == Run(config, before.core, history[i..]).delivered;
      }
    }

    function After(r: Response): Core
      reads this
    {
      if r.Handled? then View() else View().(state := r.next)
    }

    method BeforeDispatch(e: Event)
      modifies this`target
      ensures target == Aim(old(target), e)
    {
      match e
      case LShutdown(_) => target := Target.Ready;
      case LStartup(_) => target := Target.DataReady;
      case LDisconnect => target := Target.Idle;
      case _ =>
    }

    method OnIdle(e: Event) returns (r: Response)
      requires state.Idle?
      modifies this`server, this`target, this`id
      ensures Reaction(After(r), [], []) == FromIdle(config, old(View()), e)
    {
      match e
      case RSetup(now) =>
        if config.serverTi.None? {
          return Transition(Error);
        }
        server := true;
        return Transition(IdPending(now + config.serverTi.value));
      case RDisconnect =>
        return Handled;
      case LDisconnect =>
        return Handled;
      case LSetup(k) =>
        if k !in config.connections {
          return Transition(Error);
        }
        id := Some(k);
        server := false;
        target := config.connections[k].initialTarget;
        return Transition(ConnectionPending);
      case _ =>
        return Transition(Error);
    }

    method OnConnectionPending(e: Event, ctx: ConnectionContext) returns (r: Response)
      requires state.ConnectionPending?
      modifies this`target, ctx`sendQueue
      ensures After(r) == FromConnectionPending(config, old(View()), e).core
      ensures ctx.sendQueue == old(ctx.sendQueue) + FromConnectionPending(config, old(View()), e).sent
      ensures FromConnectionPending(config, old(View()), e).delivered == []
    {
      var found := Lookup(config, id);
      if found.None? {
        return Transition(State.Idle);
      }
      match e
      case RSetup(now) =>
        var handshake := Handshake(found.value.localId, found.value.remoteId);
        ctx.sendQueue := ctx.sendQueue + [handshake];
        target := found.value.initialTarget;
        return Transition(IdPending(now + found.value.ti));
      case RDisconnect =>
        return Transition(State.Idle);
      case LDisconnect =>
        return Transition(State.Idle);
      case _ =>
        return Transition(Error);
    }

    method OnIdPending(e: Event, ctx: ConnectionContext) returns (r: Response)
      requires state.IdPending?
      modifies this`target, this`id, ctx`sendQueue
      ensures After(r) == FromIdPending(config, old(View()), e).core
      ensures ctx.sendQueue == old(ctx.sendQueue) + FromIdPending(config, old(View()), e).sent
      ensures FromIdPending(config, old(View()), e).delivered == []
    {
      match e
      case RIdValid(now, k) =>
        if server {
          id := Some(k);
        }
        var found := Lookup(config, id);
        if found.None? {
          return Transition(State.Idle);
        }
        if server {
          target := found.value.initialTarget;
          var handshake := Handshake(found.value.localId, found.value.remoteId);
          ctx.sendQueue := ctx.sendQueue + [handshake];
          return Transition(AcceptPending(now + found.value.ti));
        }
        ctx.sendQueue := ctx.sendQueue + [ACCEPT_PACKET];
        return Transition(State.Ready(now + found.value.tr));
      case RIdInvalid =>
        ctx.sendQueue := ctx.sendQueue + [REJECT_PACKET];
        return Transition(State.Idle);
      case _ =>
        if e.RSetup? || e.TrTimeout? || e.TsTimeout? || e.LSetup? || e.LShutdown? || e.LStartup? || e.LData? {
          return Transition(Error);
        }
        return Transition(State.Idle);
    }

    method OnAcceptPending(e: Event) returns (r: Response)
      requires state.AcceptPending?
      ensures Reaction(After(r), [], []) == FromAcceptPending(config, View(), e)
    {
      var found := Lookup(config, id);
      if found.None? {
        return Transition(State.Idle);
      }
      match e
      case RAccept(now) =>
        return Transition(State.Ready(now + found.value.tr));
      case _ =>
        if e.RSetup? || e.TrTimeout? || e.TsTimeout? || e.LSetup? || e.LShutdown? || e.LStartup? || e.LData? {
          return Transition(Error);
        }
        return Transition(State.Idle);
    }

    method OnReady(e: Event, ctx: ConnectionContext) returns (r: Response)
      requires state.Ready?
      modifies ctx`sendQueue
      ensures After(r) == FromReady(config, View(), e).core
      ensures ctx.sendQueue == old(ctx.sendQueue) + FromReady(config, View(), e).sent
      ensures FromReady(config, View(), e).delivered == []
    {
      var found := Lookup(config, id);
      if found.None? {
        return Transition(State.Idle);
      }
      match e
      case LStartup(now) =>
        ctx.sendQueue := ctx.sendQueue + [STARTUP_PACKET];
        return Transition(AssociationPending(now + found.value.tr));
      case RDisconnect =>
        return Transition(State.Idle);
      case LDisconnect =>
        return Transition(State.Idle);
      case RShutdown(_) =>
        return Handled;
      case RHeartbeat(_) =>
        return Handled;
      case _ =>
        return Transition(Error);
    }

    method OnAssociationPending(e: Event, ctx: ConnectionContext) returns (r: Response)
      requires state.AssociationPending?
      modifies ctx`sendQueue
      ensures After(r) == FromAssociationPending(config, View(), e).core
      ensures ctx.sendQueue == old(ctx.sendQueue) + FromAssociationPending(config, View(), e).sent
      ensures FromAssociationPending(config, View(), e).delivered == []
    {
      var found := Lookup(config, id);
      if found.None? {
        return Transition(State.Idle);
      }
      match e
      case RStartup(now) =>
        ctx.sendQueue := ctx.sendQueue + [STARTUP_PACKET];
        return Transition(State.DataReady(now + found.value.tr, now + found.value.ts));
      case TrTimeout(now) =>
        ctx.sendQueue := ctx.sendQueue + [STARTUP_PACKET];
        return Transition(AssociationPending(now + found.value.tr));
      case RDisconnect =>
        return Transition(State.Idle);
      case LDisconnect =>
        ctx.sendQueue := ctx.sendQueue + [SHUTDOWN_PACKET];
        return Transition(State.Idle);
      case LShutdown(now) =>
        ctx.sendQueue := ctx.sendQueue + [SHUTDOWN_PACKET];
        return Transition(State.Ready(now + found.value.tr));
      case _ =>
        return Transition(Error);
    }

    method OnDataReady(e: Event, ctx: ConnectionContext) returns (r: Response)
      requires state.DataReady?
      requires e.LData? ==> |e.msg.data| <= MAX_PAYLOAD
      modifies ctx`sendQueue, ctx`recvQueue
      ensures After(r) == FromDataReady(config, View(), e).core
      ensures ctx.sendQueue == old(ctx.sendQueue) + FromDataReady(config, View(), e).sent
      ensures ctx.recvQueue == old(ctx.recvQueue) + FromDataReady(config, View(), e).delivered
    {
      var found := Lookup(config, id);
      if found.None? {
        return Transition(State.Idle);
      }
      var c := found.value;
      match e
      case TsTimeout(now) =>
        ctx.sendQueue := ctx.sendQueue + [HEARTBEAT_PACKET];
        return Transition(State.DataReady(state.tr, now + c.ts));
      case TrTimeout(_) =>
        ctx.sendQueue := ctx.sendQueue + [SHUTDOWN_PACKET];
        return Transition(State.Idle);
      case RDisconnect =>
        ctx.sendQueue := ctx.sendQueue + [SHUTDOWN_PACKET];
        return Transition(State.Idle);
      case LDisconnect =>
        ctx.sendQueue := ctx.sendQueue + [SHUTDOWN_PACKET];
        return Transition(State.Idle);
      case RData(now, msg) =>
        ctx.recvQueue := ctx.recvQueue + [msg];
        return Transition(State.DataReady(now + c.tr, state.ts));
      case RHeartbeat(now) =>
        return Transition(State.DataReady(now + c.tr, state.ts));
      case RStartup(now) =>
        return Transition(State.DataReady(now + c.tr, state.ts));
      case RShutdown(now) =>
        ctx.sendQueue := ctx.sendQueue + [SHUTDOWN_PACKET];
        return Transition(AssociationPending(now + c.tr));
      case LData(now, msg) =>
        var packet := FromMsg(msg);
        ctx.sendQueue := ctx.sendQueue + [packet];
        return Transition(State.DataReady(state.tr, now + c.ts));
      case LShutdown(now) =>
        ctx.sendQueue := ctx.sendQueue + [SHUTDOWN_PACKET];
        return Transition(State.Ready(now + c.tr));
      case _ =>
        return Transition(Error);
    }

    /** Calls the handler of the current state. */
    method Dispatch(e: Event, ctx: ConnectionContext) returns (r: Response)
      requires state.DataReady? && e.LData? ==> |e.msg.data| <= MAX_PAYLOAD
      modifies this`server, this`target, this`id, ctx`sendQueue, ctx`recvQueue
      ensures After(r) == Next(config, old(View()), e).core
      ensures ctx.sendQueue == old(ctx.sendQueue) + Next(config, old(View()), e).sent
      ensures ctx.recvQueue == old(ctx.recvQueue) + Next(config, old(View()), e).delivered
    {
      BeforeDispatch(e);
      match state
      case Idle => r := OnIdle(e);
      case ConnectionPending => r := OnConnectionPending(e, ctx);
      case IdPending(_) => r := OnIdPending(e, ctx);
      case AcceptPending(_) => r := OnAcceptPending(e);
      case Ready(_) => r := OnReady(e, ctx);
      case AssociationPending(_) => r := OnAssociationPending(e, ctx);
      case DataReady(_, _) => r := OnDataReady(e, ctx);
      case Error => r := Handled;
    }

    /** `handle_with_context`. The one demand on the caller is `from_msg`'s: no over-long message
        where it would be turned into a packet. */
    method Handle(e: Event, ctx: ConnectionContext)
      requires Valid(ctx)
      requires state.DataReady? && e.LData? ==> |e.msg.data| <= MAX_PAYLOAD
      modifies this, ctx`sendQueue, ctx`recvQueue
      ensures Valid(ctx)
      ensures history == old(history) + [e]
      ensures View() == Next(config, old(View()), e).core
      ensures ctx.sendQueue == old(ctx.sendQueue) + Next(config, old(View()), e).sent
      ensures ctx.recvQueue == old(ctx.recvQueue) + Next(config, old(View()), e).delivered
      ensures Lawful(config, old(View()), e,
                     Reaction(View(), ctx.sendQueue[|old(ctx.sendQueue)|..], ctx.recvQueue[|old(ctx.recvQueue)|..]))
    {
      hide Next, Run, Sound, Lawful;
      ghost var o := Next(config, View(), e);
      RunKeepsSound(config, initialId, history);
      NextIsLawful(config, View(), e);
      var r := Dispatch(e, ctx);
      assert ctx.sendQueue[|old(ctx.sendQueue)|..] == o.sent;
      assert ctx.recvQueue[|old(ctx.recvQueue)|..] == o.delivered;
      if r.Transition? {
        state := r.next;
      }
      RunSnoc(config, Initial(initialId), history, e);
      history := history + [e];
    }

    /** Parses, classifies and dispatches one packet; a refused one changes nothing. `from_bytes` panics on
        lengths it cannot slice, so such buffers are the caller's to avoid. */
    method HandleRemotePacket(bytes: seq<byte>, received: nat, now: nat, order: seq<string>, ctx: ConnectionContext)
      returns (r: Result<Event, Fault>)
      requires Valid(ctx)
      requires Enumerates(order, config.connections)
      requires !FromBytes(bytes).Panics?
      modifies this, ctx`sendQueue, ctx`recvQueue
      ensures Valid(ctx)
      ensures r == WireEvent(bytes, received, now, config, old(id), order)
      ensures r.Err? ==> unchanged(this) && unchanged(ctx)
      ensures r.Ok? ==>
                && !r.value.LData?
                && history == old(history) + [r.value]
                && View() == Next(config, old(View()), r.value).core
                && ctx.sendQueue == old(ctx.sendQueue) + Next(config, old(View()), r.value).sent
                && ctx.recvQueue == old(ctx.recvQueue) + Next(config, old(View()), r.value).delivered
    {
      hide Next;
      r := WireEvent(bytes, received, now, config, id, order);
      if r.Ok? {
        Handle(r.value, ctx);
      }
    }
  }
}
