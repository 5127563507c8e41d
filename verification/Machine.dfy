/** The transition function of crates/fmtp-core/src/connection.rs, as a value: what each event does to
    the state, the flags, and the two queues. The class `Connection` is proved against it. */
module Machine {
  import opened Prelude
  import opened Configuration
  import opened Packets
  import opened Events

  datatype State =
    | Idle
    | ConnectionPending
    | IdPending(ti: nat)
    | AcceptPending(ti: nat)
    | Ready(tr: nat)
    | AssociationPending(tr: nat)
    | DataReady(tr: nat, ts: nat)
    | Error

  datatype Core = Core(state: State, server: bool, target: Target, id: Option<string>)

  /** The new machine value, the packets pushed on the send queue, the messages pushed on the receive queue. */
  datatype Reaction = Reaction(core: Core, sent: seq<Packet>, delivered: seq<Message>)

  function Initial(id: Option<string>): Core {
    Core(State.Idle, false, Target.Idle, id)
  }

  function Lookup(config: Config, id: Option<string>): (r: Option<ConnectionConfig>)
    ensures r.Some? <==> id.Some? && id.value in config.connections
    ensures r.Some? ==> r.value == config.connections[id.value]
  {
    if id.Some? && id.value in config.connections then Some(config.connections[id.value]) else None
  }

  /** `before_dispatch`: the local requests move the target first. */
  function Aim(target: Target, e: Event): Target {
    match e
    case LShutdown(_) => Target.Ready
    case LStartup(_) => Target.DataReady
    case LDisconnect => Target.Idle
    case _ => target
  }

  function Stay(c: Core): Reaction { Reaction(c, [], []) }
  function Go(c: Core, s: State): Reaction { Reaction(c.(state := s), [], []) }
  function GoSending(c: Core, s: State, p: Packet): Reaction { Reaction(c.(state := s), [p], []) }

  function FromIdle(config: Config, c: Core, e: Event): Reaction {
    match e
    case RSetup(now) =>
      if config.serverTi.None? then Go(c, Error)
      else Go(c.(server := true), IdPending(now + config.serverTi.value))
    case RDisconnect => Stay(c)
    case LDisconnect => Stay(c)
    case LSetup(id) =>
      if id !in config.connections then Go(c, Error)
      else Go(c.(id := Some(id), server := false, target := config.connections[id].initialTarget), ConnectionPending)
    case _ => Go(c, Error)
  }

  function FromConnectionPending(config: Config, c: Core, e: Event): Reaction {
    var found := Lookup(config, c.id);
    if found.None? then Go(c, State.Idle)
    else match e
      case RSetup(now) =>
        GoSending(c.(target := found.value.initialTarget), IdPending(now + found.value.ti),
                  HandshakePacket(found.value.localId, found.value.remoteId))
      case RDisconnect => Go(c, State.Idle)
      case LDisconnect => Go(c, State.Idle)
      case _ => Go(c, Error)
  }

  function FromIdPending(config: Config, c: Core, e: Event): Reaction {
    match e
    case RIdValid(now, id) =>
      if c.server then
        var named := c.(id := Some(id));
        var found := Lookup(config, named.id);
        if found.None? then Go(named, State.Idle)
        else GoSending(named.(target := found.value.initialTarget), AcceptPending(now + found.value.ti),
                       HandshakePacket(found.value.localId, found.value.remoteId))
      else
        var found := Lookup(config, c.id);
        if found.None? then Go(c, State.Idle)
        else GoSending(c, State.Ready(now + found.value.tr), ACCEPT_PACKET)
    case RIdInvalid => GoSending(c, State.Idle, REJECT_PACKET)
    case RSetup(_) => Go(c, Error)
    case TrTimeout(_) => Go(c, Error)
    case TsTimeout(_) => Go(c, Error)
    case LSetup(_) => Go(c, Error)
    case LShutdown(_) => Go(c, Error)
    case LStartup(_) => Go(c, Error)
    case LData(_, _) => Go(c, Error)
    case _ => Go(c, State.Idle)
  }

  function FromAcceptPending(config: Config, c: Core, e: Event): Reaction {
    var found := Lookup(config, c.id);
    if found.None? then Go(c, State.Idle)
    else match e
      case RAccept(now) => Go(c, State.Ready(now + found.value.tr))
      case RSetup(_) => Go(c, Error)
      case TrTimeout(_) => Go(c, Error)
      case TsTimeout(_) => Go(c, Error)
      case LSetup(_) => Go(c, Error)
      case LShutdown(_) => Go(c, Error)
      case LStartup(_) => Go(c, Error)
      case LData(_, _) => Go(c, Error)
      case _ => Go(c, State.Idle)
  }

  function FromReady(config: Config, c: Core, e: Event): Reaction {
    var found := Lookup(config, c.id);
    if found.None? then Go(c, State.Idle)
    else match e
      case LStartup(now) => GoSending(c, AssociationPending(now + found.value.tr), STARTUP_PACKET)
      case RDisconnect => Go(c, State.Idle)
      case LDisconnect => Go(c, State.Idle)
      case RShutdown(_) => Stay(c)
      case RHeartbeat(_) => Stay(c)
      case _ => Go(c, Error)
  }

  function FromAssociationPending(config: Config, c: Core, e: Event): Reaction {
    var found := Lookup(config, c.id);
    if found.None? then Go(c, State.Idle)
    else match e
      case RStartup(now) =>
        GoSending(c, State.DataReady(now + found.value.tr, now + found.value.ts), STARTUP_PACKET)
      case TrTimeout(now) => GoSending(c, AssociationPending(now + found.value.tr), STARTUP_PACKET)
      case RDisconnect => Go(c, State.Idle)
      case LDisconnect => GoSending(c, State.Idle, SHUTDOWN_PACKET)
      case LShutdown(now) => GoSending(c, State.Ready(now + found.value.tr), SHUTDOWN_PACKET)
      case _ => Go(c, Error)
  }

  function FromDataReady(config: Config, c: Core, e: Event): Reaction
    requires c.state.DataReady?
  {
    var found := Lookup(config, c.id);
    if found.None? then Go(c, State.Idle)
    else match e
      case TsTimeout(now) => GoSending(c, c.state.(ts := now + found.value.ts), HEARTBEAT_PACKET)
      case TrTimeout(_) => GoSending(c, State.Idle, SHUTDOWN_PACKET)
      case RDisconnect => GoSending(c, State.Idle, SHUTDOWN_PACKET)
      case LDisconnect => GoSending(c, State.Idle, SHUTDOWN_PACKET)
      case RData(now, msg) => Reaction(c.(state := c.state.(tr := now + found.value.tr)), [], [msg])
      case RHeartbeat(now) => Go(c, c.state.(tr := now + found.value.tr))
      case RStartup(now) => Go(c, c.state.(tr := now + found.value.tr))
      case RShutdown(now) => GoSending(c, AssociationPending(now + found.value.tr), SHUTDOWN_PACKET)
      case LData(now, msg) => GoSending(c, c.state.(ts := now + found.value.ts), PacketOf(msg))
      case LShutdown(now) => GoSending(c, State.Ready(now + found.value.tr), SHUTDOWN_PACKET)
      case _ => Go(c, Error)
  }

  /** One dispatched event. Total: an over-long `LData` message, on which `from_msg` panics, is queued here
      unchecked, so what is proved over all runs covers more runs than the original has. */
  function Next(config: Config, before: Core, e: Event): Reaction {
    var c := before.(target := Aim(before.target, e));
    match c.state
    case Idle => FromIdle(config, c, e)
    case ConnectionPending => FromConnectionPending(config, c, e)
    case IdPending(_) => FromIdPending(config, c, e)
    case AcceptPending(_) => FromAcceptPending(config, c, e)
    case Ready(_) => FromReady(config, c, e)
    case AssociationPending(_) => FromAssociationPending(config, c, e)
    case DataReady(_, _) => FromDataReady(config, c, e)
    case Error => Stay(c)
  }

  /** The machine after a whole event sequence, with everything it ever queued. */
  function Run(config: Config, start: Core, events: seq<Event>): Reaction {
    if events == [] then Stay(start)
    else
      var n := |events| - 1;
      var before := Run(config, start, events[..n]);
      var last := Next(config, before.core, events[n]);
      Reaction(last.core, before.sent + last.sent, before.delivered + last.delivered)
  }

  function Prefix(events: seq<Event>): seq<Event>
    requires events != []
  {
    events[..|events| - 1]
  }

  function Last(events: seq<Event>): Event
    requires events != []
  {
    events[|events| - 1]
  }

  lemma RunOne(config: Config, start: Core, e: Event)
    ensures Run(config, start, [e]) == Next(config, start, e)
  {
    hide Next;
    assert Prefix([e]) == [];
    var o := Next(config, start, e);
    assert [] + o.sent == o.sent && [] + o.delivered == o.delivered;
  }

  lemma RunSnoc(config: Config, start: Core, events: seq<Event>, e: Event)
    ensures var before := Run(config, start, events);
            var o := Next(config, before.core, e);
            Run(config, start, events + [e]) == Reaction(o.core, before.sent + o.sent, before.delivered + o.delivered)
  {
    hide Next;
    assert Prefix(events + [e]) == events;
  }

  lemma {:induction false} RunAppend(config: Config, start: Core, events: seq<Event>, more: seq<Event>)
    ensures var first := Run(config, start, events);
            var second := Run(config, first.core, more);
            Run(config, start, events + more)
            == Reaction(second.core, first.sent + second.sent, first.delivered + second.delivered)
  {
    hide Next;
    if more == [] {
      assert events + more == events;
    } else {
      RunAppend(config, start, events, Prefix(more));
      assert Prefix(events + more) == events + Prefix(more);
    }
  }
}
