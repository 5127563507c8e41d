/** What holds of one connection over every event sequence: configured ids, no silent loss, no gaps,
    identification before association, and an id that peers cannot change. */
module History {
  import opened Prelude
  import opened Configuration
  import opened Packets
  import opened Events
  import opened Machine

  // ---------------------------------------------------------------- reachable states

  /** The states whose handlers look the configuration up. */
  predicate Identified(c: Core) {
    !c.state.Idle? && !c.state.Error? && !(c.state.IdPending? && c.server)
  }

  predicate Associating(c: Core) {
    c.state.AssociationPending? || c.state.DataReady?
  }

  predicate Sound(config: Config, c: Core) {
    && (Identified(c) ==> Lookup(config, c.id).Some?)
    && (c.state.ConnectionPending? ==> !c.server)
    && (c.state.AcceptPending? ==> c.server)
    && (Associating(c) ==> c.target.DataReady?)
  }

  lemma OpeningKeepsSound(config: Config, c: Core, e: Event)
    requires Sound(config, c)
    requires c.state.Idle? || c.state.ConnectionPending? || c.state.IdPending? || c.state.AcceptPending?
    ensures Sound(config, Next(config, c, e).core)
  {
  }

  lemma UpKeepsSound(config: Config, c: Core, e: Event)
    requires Sound(config, c)
    requires c.state.Ready? || c.state.AssociationPending? || c.state.DataReady? || c.state.Error?
    ensures Sound(config, Next(config, c, e).core)
  {
  }

  lemma NextKeepsSound(config: Config, c: Core, e: Event)
    requires Sound(config, c)
    ensures Sound(config, Next(config, c, e).core)
  {
    hide Next, Sound;
    if c.state.Idle? || c.state.ConnectionPending? || c.state.IdPending? || c.state.AcceptPending? {
      OpeningKeepsSound(config, c, e);
    } else {
      UpKeepsSound(config, c, e);
    }
  }

  lemma {:induction false} RunKeepsSound(config: Config, id: Option<string>, events: seq<Event>)
    ensures Sound(config, Run(config, Initial(id), events).core)
  {
    if events == [] {
    } else {
      hide Next;
      RunKeepsSound(config, id, Prefix(events));
      NextKeepsSound(config, Run(config, Initial(id), Prefix(events)).core, Last(events));
    }
  }

  /** The handler is about to find no configuration and fall back to IDLE. */
  predicate FallsBack(config: Config, c: Core, e: Event) {
    match c.state
    case Idle => false
    case Error => false
    case IdPending(_) => e.RIdValid? && Lookup(config, if c.server then Some(e.id) else c.id).None?
    case _ => Lookup(config, c.id).None?
  }

  /** Where it does, it closes the connection without a word. */
  lemma FallbackCloses(config: Config, c: Core, e: Event)
    requires FallsBack(config, c, e)
    ensures var o := Next(config, c, e);
            o.core.state.Idle? && o.sent == [] && o.delivered == []
  {
  }

  /** The fallback branches are dead when identification comes from `handle_remote_packet`. */
  lemma ConfigurationIsAlwaysFound(
    config: Config, id: Option<string>, events: seq<Event>, e: Event,
    bytes: seq<byte>, received: nat, now: nat, order: seq<string>)
    requires e.RIdValid? ==>
               WireEvent(bytes, received, now, config, Run(config, Initial(id), events).core.id, order) == Ok(e)
    ensures !FallsBack(config, Run(config, Initial(id), events).core, e)
  {
    RunKeepsSound(config, id, events);
    RemoteIdIsConfigured(bytes, received, now, config, Run(config, Initial(id), events).core.id, order);
  }

  // ---------------------------------------------------------------- ERROR is final

  lemma {:induction false} ErrorIsFinal(config: Config, c: Core, events: seq<Event>)
    requires c.state.Error?
    ensures var r := Run(config, c, events);
            r.core.state.Error? && r.sent == [] && r.delivered == []
  {
    if events == [] {
    } else {
      ErrorIsFinal(config, c, Prefix(events));
    }
  }

  // ---------------------------------------------------------------- no silent loss of user data

  /** The messages the local user handed over, in order. */
  function Submitted(events: seq<Event>): seq<Message> {
    if events == [] then []
    else Submitted(Prefix(events)) + if Last(events).LData? then [Last(events).msg] else []
  }

  /** The messages a packet sequence carries, in order. */
  function MessagesIn(packets: seq<Packet>): seq<Message> {
    if packets == [] then []
    else
      var p := packets[|packets| - 1];
      MessagesIn(packets[..|packets| - 1]) + if IsData(p) then [TryToMsg(p).value] else []
  }

  lemma {:induction false} MessagesInAppend(packets: seq<Packet>, more: seq<Packet>)
    ensures MessagesIn(packets + more) == MessagesIn(packets) + MessagesIn(more)
  {
    if more == [] {
      assert packets + more == packets;
    } else {
      var n := |more| - 1;
      MessagesInAppend(packets, more[..n]);
      assert (packets + more)[..|packets + more| - 1] == packets + more[..n];
    }
  }

  lemma NextQueuesAtMostTheSubmission(config: Config, c: Core, e: Event)
    requires Sound(config, c)
    ensures var o := Next(config, c, e);
            || o.core.state.Error?
            || (e.LData? && o.sent == [PacketOf(e.msg)])
            || (!e.LData? && (o.sent == [] || (|o.sent| == 1 && !IsData(o.sent[0]))))
  {
  }

  lemma MessagesInOne(p: Packet)
    ensures MessagesIn([p]) == if IsData(p) then [TryToMsg(p).value] else []
  {
    assert [p][..|[p]| - 1] == [];
    assert MessagesIn([]) == [];
  }

  lemma NextQueuesSubmission(config: Config, c: Core, e: Event)
    requires Sound(config, c)
    ensures var o := Next(config, c, e);
            o.core.state.Error? || MessagesIn(o.sent) == if e.LData? then [e.msg] else []
  {
    hide Next, Sound;
    var o := Next(config, c, e);
    NextQueuesAtMostTheSubmission(config, c, e);
    if |o.sent| == 1 {
      assert o.sent == [o.sent[0]];
      MessagesInOne(o.sent[0]);
    }
  }

  /** Either the queued packets carry exactly the submitted messages, or the connection is in ERROR. */
  lemma {:induction false} NoSilentLoss(config: Config, id: Option<string>, events: seq<Event>)
    ensures var r := Run(config, Initial(id), events);
            r.core.state.Error? || MessagesIn(r.sent) == Submitted(events)
  {
    hide Next;
    if events == [] {
    } else {
      var before := Run(config, Initial(id), Prefix(events));
      var o := Next(config, before.core, Last(events));
      NoSilentLoss(config, id, Prefix(events));
      RunKeepsSound(config, id, Prefix(events));
      NextQueuesSubmission(config, before.core, Last(events));
      MessagesInAppend(before.sent, o.sent);
      if before.core.state.Error? {
        assert o.core.state.Error? by { NextStaysInError(config, before.core, Last(events)); }
      }
    }
  }

  lemma NextStaysInError(config: Config, c: Core, e: Event)
    requires c.state.Error?
    ensures Next(config, c, e).core.state.Error? && Next(config, c, e).sent == []
  {
  }

  /** After the first loss nothing is queued any more, so a loss is never followed by further data. */
  lemma NothingIsQueuedAfterLoss(config: Config, id: Option<string>, events: seq<Event>, more: seq<Event>)
    requires MessagesIn(Run(config, Initial(id), events).sent) != Submitted(events)
    ensures var r := Run(config, Initial(id), events + more);
            r.core.state.Error? && r.sent == Run(config, Initial(id), events).sent
  {
    hide Next;
    NoSilentLoss(config, id, events);
    RunAppend(config, Initial(id), events, more);
    ErrorIsFinal(config, Run(config, Initial(id), events).core, more);
  }

  // ---------------------------------------------------------------- no gaps in delivery

  /** The messages the peer's data packets brought, in order. */
  function Heard(events: seq<Event>): seq<Message> {
    if events == [] then []
    else Heard(Prefix(events)) + if Last(events).RData? then [Last(events).msg] else []
  }

  /** No connection can deliver from here before the next `RSetup`. */
  predicate Unconnected(c: Core) {
    c.state.Idle? || c.state.ConnectionPending? || c.state.Error?
  }

  ghost predicate NoSetup(events: seq<Event>) {
    forall i :: 0 <= i < |events| ==> !events[i].RSetup?
  }

  lemma NextDelivers(config: Config, c: Core, e: Event)
    requires !e.RSetup?
    ensures var o := Next(config, c, e);
            && (o.delivered == (if e.RData? then [e.msg] else []) || (o.delivered == [] && Unconnected(o.core)))
            && (Unconnected(c) ==> Unconnected(o.core) && o.delivered == [])
  {
  }

  /** Within one transport connection, from any state, what reaches the user is a prefix of what the
      peer sent; and it is all of it unless the connection is gone until the next `RSetup`. */
  lemma {:induction false} NoGap(config: Config, c: Core, events: seq<Event>)
    requires NoSetup(events)
    ensures var r := Run(config, c, events);
            && r.delivered <= Heard(events)
            && (r.delivered == Heard(events) || Unconnected(r.core))
  {
    hide Next;
    if events == [] {
    } else {
      NoGap(config, c, Prefix(events));
      NextDelivers(config, Run(config, c, Prefix(events)).core, Last(events));
    }
  }

  // ---------------------------------------------------------------- identification comes first

  /** The events since the machine was last in IDLE. */
  function SinceIdle(config: Config, start: Core, events: seq<Event>): seq<Event> {
    if events == [] || Run(config, start, events).core.state.Idle? then []
    else SinceIdle(config, start, Prefix(events)) + [Last(events)]
  }

  predicate ClientOpening(h: seq<Event>, k: string) {
    |h| >= 3 && h[0] == LSetup(k) && h[1].RSetup? && h[2].RIdValid?
  }

  predicate ServerOpening(h: seq<Event>, k: string) {
    |h| >= 3 && h[0].RSetup? && h[1].RIdValid? && h[1].id == k && h[2].RAccept?
  }

  /** How the current connection came about, state by state. */
  predicate Opened(config: Config, c: Core, h: seq<Event>) {
    match c.state
    case Idle => h == []
    case Error => true
    case ConnectionPending => !c.server && c.id.Some? && c.id.value in config.connections && h == [LSetup(c.id.value)]
    case IdPending(_) =>
      if c.server then |h| == 1 && h[0].RSetup?
      else |h| == 2 && c.id.Some? && c.id.value in config.connections && h[0] == LSetup(c.id.value) && h[1].RSetup?
    case AcceptPending(_) =>
      c.server && |h| == 2 && c.id.Some? && c.id.value in config.connections
      && h[0].RSetup? && h[1].RIdValid? && h[1].id == c.id.value
    case _ =>
      c.id.Some? && c.id.value in config.connections
      && if c.server then ServerOpening(h, c.id.value) else ClientOpening(h, c.id.value)
  }

  lemma OpeningProceeds(config: Config, c: Core, h: seq<Event>, e: Event)
    requires Opened(config, c, h)
    requires c.state.Idle? || c.state.ConnectionPending? || c.state.IdPending? || c.state.AcceptPending?
    ensures var o := Next(config, c, e);
            Opened(config, o.core, if o.core.state.Idle? then [] else h + [e])
  {
  }

  lemma UpKeepsOpening(config: Config, c: Core, h: seq<Event>, e: Event)
    requires Opened(config, c, h)
    requires c.state.Ready? || c.state.AssociationPending? || c.state.DataReady? || c.state.Error?
    ensures var o := Next(config, c, e);
            Opened(config, o.core, if o.core.state.Idle? then [] else h + [e])
  {
    var o := Next(config, c, e);
    assert o.core.server == c.server && o.core.id == c.id;
  }

  lemma NextKeepsOpened(config: Config, c: Core, h: seq<Event>, e: Event)
    requires Opened(config, c, h)
    ensures var o := Next(config, c, e);
            Opened(config, o.core, if o.core.state.Idle? then [] else h + [e])
  {
    hide Next, Opened;
    if c.state.Idle? || c.state.ConnectionPending? || c.state.IdPending? || c.state.AcceptPending? {
      OpeningProceeds(config, c, h, e);
    } else {
      UpKeepsOpening(config, c, h, e);
    }
  }

  lemma {:induction false} RunKeepsOpened(config: Config, id: Option<string>, events: seq<Event>)
    ensures Opened(config, Run(config, Initial(id), events).core, SinceIdle(config, Initial(id), events))
  {
    hide Next;
    if events == [] {
    } else {
      var c := Run(config, Initial(id), Prefix(events)).core;
      RunKeepsOpened(config, id, Prefix(events));
      NextKeepsOpened(config, c, SinceIdle(config, Initial(id), Prefix(events)), Last(events));
    }
  }

  /** Whenever an association is possible or under way, this connection began with the full
      identification exchange for the very id the machine works under, and that id is configured. */
  lemma IdentificationPrecedesAssociation(config: Config, id: Option<string>, events: seq<Event>)
    ensures var c := Run(config, Initial(id), events).core;
            var h := SinceIdle(config, Initial(id), events);
            c.state.Ready? || Associating(c) ==>
              && c.id.Some? && c.id.value in config.connections
              && (c.server ==> ServerOpening(h, c.id.value))
              && (!c.server ==> ClientOpening(h, c.id.value))
  {
    hide Next;
    RunKeepsOpened(config, id, events);
  }

  // ---------------------------------------------------------------- association obeys the user

  /** The last association request of the local user is a startup. */
  predicate WantsData(h: seq<Event>) {
    h != [] && (Last(h).LStartup? || (!Last(h).LShutdown? && WantsData(Prefix(h))))
  }

  lemma NextKeepsWish(config: Config, c: Core, h: seq<Event>, e: Event)
    requires Associating(c) ==> WantsData(h)
    ensures Associating(Next(config, c, e).core) ==> WantsData(h + [e])
  {
    assert Prefix(h + [e]) == h;
  }

  /** An association is pending or up only with target DATA_READY, and only after an `LStartup` of the
      same connection that no `LShutdown` followed. */
  lemma {:induction false} AssociationObeysUser(config: Config, id: Option<string>, events: seq<Event>)
    ensures var c := Run(config, Initial(id), events).core;
            Associating(c) ==> c.target.DataReady? && WantsData(SinceIdle(config, Initial(id), events))
  {
    hide Next;
    RunKeepsSound(config, id, events);
    if events == [] {
    } else {
      var c := Run(config, Initial(id), Prefix(events)).core;
      AssociationObeysUser(config, id, Prefix(events));
      NextKeepsWish(config, c, SinceIdle(config, Initial(id), Prefix(events)), Last(events));
    }
  }

  // ---------------------------------------------------------------- peers cannot change the id

  /** A valid identification event of this sequence is one that `handle_remote_packet` could dispatch. */
  ghost predicate IdsComeFromTheWire(config: Config, c: Core, events: seq<Event>) {
    forall i :: 0 <= i < |events| && events[i].RIdValid? ==>
                  DispatchedFromWire(config, Run(config, c, events[..i]).core.id, events[i])
  }

  ghost predicate DispatchedFromWire(config: Config, id: Option<string>, e: Event) {
    exists bytes: seq<byte>, received: nat, now: nat, order: seq<string> ::
      WireEvent(bytes, received, now, config, id, order) == Ok(e)
  }

  ghost predicate NoLocalSetup(events: seq<Event>) {
    forall i :: 0 <= i < |events| ==> !events[i].LSetup?
  }

  lemma WireNamesOwnId(config: Config, id: Option<string>, e: Event)
    requires Lookup(config, id).Some? && e.RIdValid? && DispatchedFromWire(config, id, e)
    ensures e.id == id.value
  {
    var bytes, received, now, order :| WireEvent(bytes, received, now, config, id, order) == Ok(e);
    RemoteIdIsConfigured(bytes, received, now, config, id, order);
  }

  lemma NextKeepsId(config: Config, c: Core, e: Event)
    requires Lookup(config, c.id).Some? && !e.LSetup? && (e.RIdValid? ==> e.id == c.id.value)
    ensures Next(config, c, e).core.id == c.id
  {
  }

  /** Once the id is configured, nothing a peer sends over any run changes it; only `LSetup` can. */
  lemma {:induction false} PeersCannotChangeId(config: Config, c: Core, events: seq<Event>)
    requires Lookup(config, c.id).Some?
    requires NoLocalSetup(events) && IdsComeFromTheWire(config, c, events)
    ensures Run(config, c, events).core.id == c.id
  {
    hide Next;
    if events == [] {
    } else {
      var n := |events| - 1;
      forall i | 0 <= i < n
        ensures events[..n][..i] == events[..i]
      {
      }
      PeersCannotChangeId(config, c, Prefix(events));
      if Last(events).RIdValid? {
        WireNamesOwnId(config, c.id, events[n]);
      }
      NextKeepsId(config, Run(config, c, events[..n]).core, Last(events));
    }
  }
}
