/** What every event means, told by effect and not by state: when the connection fails and when it is closed,
    when each state is reached and until when it may last, what is queued and what is delivered, and what
    becomes of the id, the role and the target. Together the laws leave one reaction to each event, and it is
    the one of the transition function. */
module Laws {
  import opened Prelude
  import opened Configuration
  import opened Packets
  import opened Events
  import opened Machine
  import opened History

  predicate Identifying(s: State) { s.IdPending? || s.AcceptPending? }

  predicate Disconnects(e: Event) { e.RDisconnect? || e.LDisconnect? }

  // ---------------------------------------------------------------- failing

  /** Where an event is in place. An event from the peer in the middle of an identification is, if only to
      end it; a disconnect is everywhere. */
  predicate InPlace(config: Config, c: Core, e: Event) {
    var s := c.state;
    match e
    case RSetup(_) => (s.Idle? && config.serverTi.Some?) || s.ConnectionPending?
    case LSetup(id) => s.Idle? && id in config.connections
    case RDisconnect => true
    case LDisconnect => true
    case RAccept(_) => Identifying(s)
    case RReject => Identifying(s)
    case RIdValid(_, _) => Identifying(s)
    case RIdInvalid => Identifying(s)
    case TiTimeout => Identifying(s)
    case RData(_, _) => Identifying(s) || s.DataReady?
    case RHeartbeat(_) => Identifying(s) || s.Ready? || s.DataReady?
    case RShutdown(_) => Identifying(s) || s.Ready? || s.DataReady?
    case RStartup(_) => Identifying(s) || s.AssociationPending? || s.DataReady?
    case TrTimeout(_) => s.AssociationPending? || s.DataReady?
    case TsTimeout(_) => s.DataReady?
    case LStartup(_) => s.Ready?
    case LShutdown(_) => s.AssociationPending? || s.DataReady?
    case LData(_, _) => s.DataReady?
  }

  /** ERROR is for events out of place, and for ever. */
  predicate FailsRightly(config: Config, c: Core, e: Event, o: Reaction) {
    o.core.state.Error? <==> c.state.Error? || !InPlace(config, c, e)
  }

  // ---------------------------------------------------------------- closing

  /** The one answer that carries an identification on. */
  predicate Awaited(config: Config, c: Core, e: Event) {
    || (c.state.IdPending? && e.RIdValid? && (c.server ==> e.id in config.connections))
    || (c.state.AcceptPending? && e.RAccept?)
  }

  /** IDLE is reached by a disconnect from either side, by anything but the awaited answer during
      identification, and by silence of the peer in DATA_READY. */
  predicate ClosesRightly(config: Config, c: Core, e: Event, o: Reaction) {
    o.core.state.Idle? <==>
      && !c.state.Error?
      && (|| Disconnects(e)
          || (Identifying(c.state) && InPlace(config, c, e) && !Awaited(config, c, e))
          || (c.state.DataReady? && e.TrTimeout?))
  }

  // ---------------------------------------------------------------- moving on

  /** When each of the other states is the next one. */
  predicate MovesRightly(config: Config, c: Core, e: Event, o: Reaction) {
    var s, s' := c.state, o.core.state;
    && (s'.ConnectionPending? <==> e.LSetup? && InPlace(config, c, e))
    && (s'.IdPending? <==> e.RSetup? && InPlace(config, c, e))
    && (s'.AcceptPending? <==> s.IdPending? && c.server && Awaited(config, c, e))
    && (s'.Ready? <==>
        || (Awaited(config, c, e) && !(s.IdPending? && c.server))
        || (e.LShutdown? && (s.AssociationPending? || s.DataReady?))
        || (s.Ready? && (e.RShutdown? || e.RHeartbeat?)))
    && (s'.AssociationPending? <==>
        || (s.Ready? && e.LStartup?)
        || (s.AssociationPending? && e.TrTimeout?)
        || (s.DataReady? && e.RShutdown?))
    && (s'.DataReady? <==>
        || (s.AssociationPending? && e.RStartup?)
        || (s.DataReady? && (IsSignOfLife(e) || e.TsTimeout? || e.LData?)))
  }

  /** What shows in DATA_READY that the peer is there. */
  predicate IsSignOfLife(e: Event) { e.RData? || e.RHeartbeat? || e.RStartup? }

  /** Deadlines run from the event that sets them, by the timers of the connection that the machine then works
      for; only the first one of a server is the configuration's. The send deadline is renewed by sending, the
      response deadline by a sign of life. */
  predicate TimesRightly(config: Config, c: Core, e: Event, o: Reaction) {
    var s, s' := c.state, o.core.state;
    && (s'.IdPending? && s.Idle? ==>
          e.RSetup? && config.serverTi.Some? && s'.ti == e.now + config.serverTi.value)
    && ((s'.IdPending? && !s.Idle?) || s'.AcceptPending? || s'.Ready? || s'.AssociationPending? || s'.DataReady? ==>
          var now := EventTime(e);
          var found := Lookup(config, o.core.id);
          && found.Some?
          && (s'.Ready? && s.Ready? ==> s' == s)
          && (!(s'.Ready? && s.Ready?) ==>
                && now.Some?
                && (s'.IdPending? ==> s'.ti == now.value + found.value.ti)
                && (s'.AcceptPending? ==> s'.ti == now.value + found.value.ti)
                && (s'.Ready? ==> s'.tr == now.value + found.value.tr)
                && (s'.AssociationPending? ==> s'.tr == now.value + found.value.tr)
                && (s'.DataReady? ==>
                      && s'.tr == (if s.DataReady? && !IsSignOfLife(e) then s.tr else now.value + found.value.tr)
                      && s'.ts == (if s.DataReady? && IsSignOfLife(e) then s.ts else now.value + found.value.ts))))
  }

  // ---------------------------------------------------------------- queueing and delivering

  /** SHUTDOWN goes out when an association, wanted or established, is given up other than by failing. */
  predicate SaysShutdown(c: Core, e: Event) {
    || (c.state.AssociationPending? && (e.LShutdown? || e.LDisconnect?))
    || (c.state.DataReady? && (e.LShutdown? || e.LDisconnect? || e.RDisconnect? || e.RShutdown? || e.TrTimeout?))
  }

  /** STARTUP goes out to ask for an association, to ask again, and to grant one. */
  predicate SaysStartup(c: Core, e: Event) {
    || (c.state.Ready? && e.LStartup?)
    || (c.state.AssociationPending? && (e.TrTimeout? || e.RStartup?))
  }

  /** A client introduces itself when it is connected, a server when it knows its peer. */
  predicate SaysHello(config: Config, c: Core, e: Event) {
    || (c.state.ConnectionPending? && e.RSetup?)
    || (c.state.IdPending? && c.server && Awaited(config, c, e))
  }

  /** At most one packet per event, given here by its type and payload. */
  predicate QueuesRightly(config: Config, c: Core, e: Event, o: Reaction) {
    if SaysHello(config, c, e) then
      var found := Lookup(config, o.core.id);
      found.Some? && o.sent == [Packet(Identification, found.value.localId + [45] + found.value.remoteId)]
    else if c.state.IdPending? && Awaited(config, c, e) then
      o.sent == [Packet(Identification, [65, 67, 67, 69, 80, 84])]
    else if c.state.IdPending? && e.RIdInvalid? then
      o.sent == [Packet(Identification, [82, 69, 74, 69, 67, 84])]
    else if SaysStartup(c, e) then
      o.sent == [Packet(System, [48, 49])]
    else if SaysShutdown(c, e) then
      o.sent == [Packet(System, [48, 48])]
    else if c.state.DataReady? && e.TsTimeout? then
      o.sent == [Packet(System, [48, 51])]
    else if c.state.DataReady? && e.LData? then
      o.sent == [Packet(if e.msg.OperationalMsg? then Operational else Operator, e.msg.data)]
    else
      o.sent == []
  }

  predicate DeliversRightly(c: Core, e: Event, o: Reaction) {
    o.delivered == if c.state.DataReady? && e.RData? then [e.msg] else []
  }

  // ---------------------------------------------------------------- id, role, target

  /** A client takes its id from its user, a server from what its peer introduced itself as; nothing else
      changes the id, and nothing but the two ways to begin changes the role. */
  predicate NamesRightly(config: Config, c: Core, e: Event, o: Reaction) {
    && o.core.id == (if c.state.Idle? && e.LSetup? && InPlace(config, c, e) then Some(e.id)
                     else if c.state.IdPending? && c.server && e.RIdValid? then Some(e.id)
                     else c.id)
    && o.core.server == (if c.state.Idle? && (e.LSetup? || e.RSetup?) && InPlace(config, c, e) then e.RSetup?
                         else c.server)
  }

  /** The target is what the user last asked for, or what the configuration has for a new connection. */
  predicate AimsRightly(config: Config, c: Core, e: Event, o: Reaction) {
    if e.LDisconnect? then o.core.target == Target.Idle
    else if e.LShutdown? then o.core.target == Target.Ready
    else if e.LStartup? then o.core.target == Target.DataReady
    else if (c.state.Idle? && e.LSetup? && InPlace(config, c, e)) || SaysHello(config, c, e) then
      var found := Lookup(config, o.core.id);
      found.Some? && o.core.target == found.value.initialTarget
    else o.core.target == c.target
  }

  // ---------------------------------------------------------------- the laws are complete

  /** The laws about which state is next. */
  predicate Proceeds(config: Config, c: Core, e: Event, o: Reaction) {
    && FailsRightly(config, c, e, o)
    && ClosesRightly(config, c, e, o)
    && MovesRightly(config, c, e, o)
  }

  /** The laws about everything but the state. */
  predicate Responds(config: Config, c: Core, e: Event, o: Reaction) {
    && QueuesRightly(config, c, e, o)
    && DeliversRightly(c, e, o)
    && NamesRightly(config, c, e, o)
    && AimsRightly(config, c, e, o)
  }

  predicate Lawful(config: Config, c: Core, e: Event, o: Reaction) {
    Proceeds(config, c, e, o) && TimesRightly(config, c, e, o) && Responds(config, c, e, o)
  }

  lemma IdleIsLawful(config: Config, c: Core, e: Event)
    requires Sound(config, c) && c.state.Idle?
    ensures Lawful(config, c, e, Next(config, c, e))
  {
    hide FromConnectionPending, FromIdPending, FromAcceptPending, FromReady, FromAssociationPending, FromDataReady;
  }

  lemma ConnectionPendingIsLawful(config: Config, c: Core, e: Event)
    requires Sound(config, c) && c.state.ConnectionPending?
    ensures Lawful(config, c, e, Next(config, c, e))
  {
    hide FromIdle, FromIdPending, FromAcceptPending, FromReady, FromAssociationPending, FromDataReady;
  }

  lemma IdPendingProceeds(config: Config, c: Core, e: Event)
    requires Sound(config, c) && c.state.IdPending?
    ensures Proceeds(config, c, e, Next(config, c, e))
  {
    hide FromIdle, FromConnectionPending, FromAcceptPending, FromReady, FromAssociationPending, FromDataReady;
  }

  lemma IdPendingTimes(config: Config, c: Core, e: Event)
    requires Sound(config, c) && c.state.IdPending?
    ensures TimesRightly(config, c, e, Next(config, c, e))
  {
    hide FromIdle, FromConnectionPending, FromAcceptPending, FromReady, FromAssociationPending, FromDataReady;
  }

  lemma IdPendingResponds(config: Config, c: Core, e: Event)
    requires Sound(config, c) && c.state.IdPending?
    ensures Responds(config, c, e, Next(config, c, e))
  {
    hide FromIdle, FromConnectionPending, FromAcceptPending, FromReady, FromAssociationPending, FromDataReady;
  }

  lemma AcceptPendingIsLawful(config: Config, c: Core, e: Event)
    requires Sound(config, c) && c.state.AcceptPending?
    ensures Lawful(config, c, e, Next(config, c, e))
  {
    hide FromIdle, FromConnectionPending, FromIdPending, FromReady, FromAssociationPending, FromDataReady;
  }

  lemma ReadyProceeds(config: Config, c: Core, e: Event)
    requires Sound(config, c) && c.state.Ready?
    ensures Proceeds(config, c, e, Next(config, c, e))
  {
    hide FromIdle, FromConnectionPending, FromIdPending, FromAcceptPending, FromAssociationPending, FromDataReady;
  }

  lemma ReadyTimes(config: Config, c: Core, e: Event)
    requires Sound(config, c) && c.state.Ready?
    ensures TimesRightly(config, c, e, Next(config, c, e))
  {
    hide FromIdle, FromConnectionPending, FromIdPending, FromAcceptPending, FromAssociationPending, FromDataReady;
  }

  lemma ReadyResponds(config: Config, c: Core, e: Event)
    requires Sound(config, c) && c.state.Ready?
    ensures Responds(config, c, e, Next(config, c, e))
  {
    hide FromIdle, FromConnectionPending, FromIdPending, FromAcceptPending, FromAssociationPending, FromDataReady;
  }

  lemma AssociationPendingProceeds(config: Config, c: Core, e: Event)
    requires Sound(config, c) && c.state.AssociationPending?
    ensures Proceeds(config, c, e, Next(config, c, e))
  {
    hide FromIdle, FromConnectionPending, FromIdPending, FromAcceptPending, FromReady, FromDataReady;
  }

  lemma AssociationPendingTimes(config: Config, c: Core, e: Event)
    requires Sound(config, c) && c.state.AssociationPending?
    ensures TimesRightly(config, c, e, Next(config, c, e))
  {
    hide FromIdle, FromConnectionPending, FromIdPending, FromAcceptPending, FromReady, FromDataReady;
  }

  lemma AssociationPendingResponds(config: Config, c: Core, e: Event)
    requires Sound(config, c) && c.state.AssociationPending?
    ensures Responds(config, c, e, Next(config, c, e))
  {
    hide FromIdle, FromConnectionPending, FromIdPending, FromAcceptPending, FromReady, FromDataReady;
  }

  lemma DataReadyProceeds(config: Config, c: Core, e: Event)
    requires Sound(config, c) && c.state.DataReady?
    ensures Proceeds(config, c, e, Next(config, c, e))
  {
    hide FromIdle, FromConnectionPending, FromIdPending, FromAcceptPending, FromReady, FromAssociationPending;
  }

  lemma DataReadyTimes(config: Config, c: Core, e: Event)
    requires Sound(config, c) && c.state.DataReady?
    ensures TimesRightly(config, c, e, Next(config, c, e))
  {
    hide FromIdle, FromConnectionPending, FromIdPending, FromAcceptPending, FromReady, FromAssociationPending;
  }

  lemma DataReadyResponds(config: Config, c: Core, e: Event)
    requires Sound(config, c) && c.state.DataReady?
    ensures Responds(config, c, e, Next(config, c, e))
  {
    hide FromIdle, FromConnectionPending, FromIdPending, FromAcceptPending, FromReady, FromAssociationPending;
  }

  lemma ErrorIsLawful(config: Config, c: Core, e: Event)
    requires Sound(config, c) && c.state.Error?
    ensures Lawful(config, c, e, Next(config, c, e))
  {
    hide FromIdle, FromConnectionPending, FromIdPending, FromAcceptPending, FromReady,
         FromAssociationPending, FromDataReady;
  }

  lemma NextIsLawful(config: Config, c: Core, e: Event)
    requires Sound(config, c)
    ensures Lawful(config, c, e, Next(config, c, e))
  {
    hide Next, Sound, Proceeds, TimesRightly, Responds;
    match c.state
    case Idle => IdleIsLawful(config, c, e);
    case ConnectionPending => ConnectionPendingIsLawful(config, c, e);
    case IdPending(_) =>
      IdPendingProceeds(config, c, e);
      IdPendingTimes(config, c, e);
      IdPendingResponds(config, c, e);
    case AcceptPending(_) => AcceptPendingIsLawful(config, c, e);
    case Ready(_) =>
      ReadyProceeds(config, c, e);
      ReadyTimes(config, c, e);
      ReadyResponds(config, c, e);
    case AssociationPending(_) =>
      AssociationPendingProceeds(config, c, e);
      AssociationPendingTimes(config, c, e);
      AssociationPendingResponds(config, c, e);
    case DataReady(_, _) =>
      DataReadyProceeds(config, c, e);
      DataReadyTimes(config, c, e);
      DataReadyResponds(config, c, e);
    case Error => ErrorIsLawful(config, c, e);
  }

  /** Whatever is lawful agrees with whatever else is. */
  lemma LawfulIsUnique(config: Config, c: Core, e: Event, o: Reaction, o': Reaction)
    requires Sound(config, c) && Lawful(config, c, e, o) && Lawful(config, c, e, o')
    ensures o == o'
  {
    assert o.core.id == o'.core.id && o.core.server == o'.core.server;
    assert o.core.target == o'.core.target;
    assert o.sent == o'.sent && o.delivered == o'.delivered;
    assert o.core.state == o'.core.state;
  }

  /** From every sound machine the laws allow exactly the reaction of the transition function. */
  lemma LawsAreComplete(config: Config, c: Core, e: Event, o: Reaction)
    requires Sound(config, c)
    ensures Lawful(config, c, e, o) <==> o == Next(config, c, e)
  {
    NextIsLawful(config, c, e);
    hide Next, FailsRightly, ClosesRightly, MovesRightly, TimesRightly, QueuesRightly, DeliversRightly,
         NamesRightly, AimsRightly;
    if Lawful(config, c, e, o) {
      LawfulIsUnique(config, c, e, o, Next(config, c, e));
    }
  }

  // ---------------------------------------------------------------- over runs

  /** Every step of every history is lawful. */
  lemma EveryStepIsLawful(config: Config, id: Option<string>, events: seq<Event>, e: Event)
    ensures var before := Run(config, Initial(id), events);
            var after := Run(config, Initial(id), events + [e]);
            && before.sent <= after.sent && before.delivered <= after.delivered
            && Lawful(config, before.core, e,
                      Reaction(after.core, after.sent[|before.sent|..], after.delivered[|before.delivered|..]))
  {
    hide Next, Lawful, Sound;
    var before := Run(config, Initial(id), events);
    RunKeepsSound(config, id, events);
    RunSnoc(config, Initial(id), events, e);
    NextIsLawful(config, before.core, e);
    var o := Next(config, before.core, e);
    assert (before.sent + o.sent)[|before.sent|..] == o.sent;
    assert (before.delivered + o.delivered)[|before.delivered|..] == o.delivered;
  }

  /** After any history that ends in a disconnect of the user or of the peer, the machine is in IDLE, or it was
      in ERROR already; the user's also takes the target back. A SHUTDOWN is queued exactly where there was an
      association, or the user's own request for one. */
  lemma DisconnectEndsInIdle(config: Config, id: Option<string>, events: seq<Event>, e: Event)
    requires Disconnects(e)
    ensures var before := Run(config, Initial(id), events);
            var after := Run(config, Initial(id), events + [e]);
            var s := before.core.state;
            && (s.Error? ==> after.core.state.Error?)
            && (!s.Error? ==> after.core.state.Idle?)
            && after.core.target == (if e.LDisconnect? then Target.Idle else before.core.target)
            && after.sent == before.sent + (if s.DataReady? || (s.AssociationPending? && e.LDisconnect?)
                                            then [Packet(System, [48, 48])] else [])
  {
    hide Next, MovesRightly, TimesRightly, NamesRightly;
    EveryStepIsLawful(config, id, events, e);
    var before := Run(config, Initial(id), events);
    var after := Run(config, Initial(id), events + [e]);
    assert after.sent == before.sent + after.sent[|before.sent|..];
  }

  // ---------------------------------------------------------------- from the wire

  /** A server that has introduced itself gets READY by reading a buffer if and only if that holds an ACCEPT. */
  lemma OnlyAcceptMakesReady(
    config: Config, c: Core, bytes: seq<byte>, received: nat, now: nat, order: seq<string>, e: Event)
    requires Sound(config, c) && c.state.AcceptPending?
    requires WireEvent(bytes, received, now, config, c.id, order) == Ok(e)
    ensures Next(config, c, e).core.state.Ready? <==>
            received > 0 && [2, 0, 0, 11, 3, 65, 67, 67, 69, 80, 84] <= bytes
    ensures !Next(config, c, e).core.state.Ready? ==> Next(config, c, e).core.state.Idle?
  {
    VerdictsOnTheWire(bytes, received, now, config, c.id, order);
    WireEventsComeFromPeer(bytes, received, now, config, c.id, order);
    hide WireEvent;
    NextIsLawful(config, c, e);
    hide Next, QueuesRightly, NamesRightly, TimesRightly, AimsRightly;
  }
}
