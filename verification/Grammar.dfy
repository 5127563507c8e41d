/** The language of outgoing packets: every log that any event sequence can produce is accepted by a
    four-state automaton, and what acceptance means for single packets. */
module Grammar {
  import opened Prelude
  import opened Configuration
  import opened Packets
  import opened Codec
  import opened Events
  import opened Machine
  import opened History

  /** A packet as it entered the send queue: in which role, and at which time if the event had one. */
  datatype Entry = Entry(packet: Packet, server: bool, at: Option<nat>)

  function Tagged(o: Reaction, e: Event): seq<Entry> {
    seq(|o.sent|, i requires 0 <= i < |o.sent| => Entry(o.sent[i], o.core.server, EventTime(e)))
  }

  /** The log of everything queued since the start. */
  function Trail(config: Config, start: Core, events: seq<Event>): seq<Entry> {
    if events == [] then []
    else
      var c := Run(config, start, Prefix(events)).core;
      Trail(config, start, Prefix(events)) + Tagged(Next(config, c, Last(events)), Last(events))
  }

  lemma {:induction false} TrailIsSent(config: Config, start: Core, events: seq<Event>)
    ensures var t := Trail(config, start, events);
            var sent := Run(config, start, events).sent;
            |t| == |sent| && forall i :: 0 <= i < |t| ==> t[i].packet == sent[i]
  {
    hide Next;
    if events == [] {
    } else {
      TrailIsSent(config, start, Prefix(events));
    }
  }

  // ---------------------------------------------------------------- the automaton

  /** Closed: no identification under way. Offered: a client has sent its handshake. Named: the peer is
      identified from this side. Open: a STARTUP is out and no SHUTDOWN followed it. */
  datatype Phase = Closed | Offered | Named | Open

  predicate IsHandshake(p: Packet) { p.typ.Identification? && !IsAccept(p) && !IsReject(p) }

  /** The identification packet after which this side may associate: a server's handshake or an ACCEPT. */
  predicate Names(x: Entry) { IsAccept(x.packet) || (IsHandshake(x.packet) && x.server) }

  function Consume(phase: Phase, x: Entry): Option<Phase> {
    var p := x.packet;
    if IsAccept(p) then if phase.Offered? && !x.server then Some(Named) else None
    else if IsReject(p) then Some(Closed)
    else if p.typ.Identification? then Some(if x.server then Named else Offered)
    else if IsStartup(p) then if phase.Named? || phase.Open? then Some(Open) else None
    else if IsShutdown(p) then if phase.Named? || phase.Open? then Some(Named) else None
    else if IsHeartbeat(p) || IsData(p) then if phase.Open? then Some(Open) else None
    else None
  }

  function Accept(log: seq<Entry>): Option<Phase> {
    if log == [] then Some(Closed)
    else
      var before := Accept(log[..|log| - 1]);
      if before.None? then None else Consume(before.value, log[|log| - 1])
  }

  /** How far the automaton is in each state of the machine. */
  predicate Tracks(c: Core, phase: Phase) {
    match c.state
    case IdPending(_) => !c.server ==> phase.Offered?
    case AcceptPending(_) => phase.Named?
    case Ready(_) => phase.Named?
    case AssociationPending(_) => phase.Named? || phase.Open?
    case DataReady(_, _) => phase.Open?
    case _ => true
  }

  /** The automaton takes what `e` makes a machine queue, and stands right afterwards. */
  predicate StepsInGrammar(config: Config, c: Core, e: Event, phase: Phase) {
    var o := Next(config, c, e);
    && |o.sent| <= 1
    && (o.sent == [] ==> Tracks(o.core, phase))
    && (o.sent != [] ==>
          var after := Consume(phase, Entry(o.sent[0], o.core.server, EventTime(e)));
          after.Some? && Tracks(o.core, after.value))
  }

  /** What the handlers up to ACCEPT_PENDING queue, and where that leaves the machine. */
  lemma IdentifyingQueues(config: Config, c: Core, e: Event)
    requires Sound(config, c)
    requires c.state.Idle? || c.state.ConnectionPending? || c.state.IdPending? || c.state.AcceptPending? || c.state.Error?
    ensures var o := Next(config, c, e);
            var s := o.core.state;
            || (o.sent == [] && (s.Idle? || s.Error? || s.ConnectionPending?
                                 || (s.IdPending? && o.core.server) || (s.Ready? && c.state.AcceptPending?)))
            || (o.sent == [ACCEPT_PACKET] && c.state.IdPending? && !c.server && !o.core.server && s.Ready?)
            || (o.sent == [REJECT_PACKET] && s.Idle?)
            || (|o.sent| == 1 && IsHandshake(o.sent[0])
                && (if o.core.server then s.AcceptPending? else s.IdPending?))
  {
    var found := Lookup(config, if c.server && e.RIdValid? then Some(e.id) else c.id);
    if found.Some? {
      HandshakeIsNoVerdict(found.value.localId, found.value.remoteId);
    }
  }

  /** What the handlers from READY on queue, and where that leaves the machine. */
  lemma AssociatingQueues(config: Config, c: Core, e: Event)
    requires Sound(config, c)
    requires c.state.Ready? || c.state.AssociationPending? || c.state.DataReady?
    ensures var o := Next(config, c, e);
            var s := o.core.state;
            || (o.sent == [] && ((s.Idle? && !c.state.DataReady?) || s.Error? || (s.Ready? && c.state.Ready?)
                                 || (s.DataReady? && c.state.DataReady?)))
            || (o.sent == [STARTUP_PACKET] && !c.state.DataReady? && (s.AssociationPending? || s.DataReady?))
            || (o.sent == [SHUTDOWN_PACKET] && !c.state.Ready? && (s.Idle? || s.Ready? || s.AssociationPending?))
            || (|o.sent| == 1 && (IsHeartbeat(o.sent[0]) || IsData(o.sent[0])) && c.state.DataReady? && s.DataReady?)
  {
  }

  /** The transitions of the automaton that runs use. */
  lemma ConsumeTable(phase: Phase, x: Entry)
    ensures x.packet == ACCEPT_PACKET && phase.Offered? && !x.server ==> Consume(phase, x) == Some(Named)
    ensures x.packet == REJECT_PACKET ==> Consume(phase, x) == Some(Closed)
    ensures IsHandshake(x.packet) ==> Consume(phase, x) == Some(if x.server then Named else Offered)
    ensures x.packet == STARTUP_PACKET && (phase.Named? || phase.Open?) ==> Consume(phase, x) == Some(Open)
    ensures x.packet == SHUTDOWN_PACKET && (phase.Named? || phase.Open?) ==> Consume(phase, x) == Some(Named)
    ensures (IsHeartbeat(x.packet) || IsData(x.packet)) && phase.Open? ==> Consume(phase, x) == Some(Open)
  {
  }

  lemma NextStaysInGrammar(config: Config, c: Core, e: Event, phase: Phase)
    requires Sound(config, c) && Tracks(c, phase)
    ensures StepsInGrammar(config, c, e, phase)
  {
    hide Next, Sound, Consume, IsHandshake, IsHeartbeat, IsData;
    var o := Next(config, c, e);
    if c.state.Ready? || c.state.AssociationPending? || c.state.DataReady? {
      AssociatingQueues(config, c, e);
    } else {
      IdentifyingQueues(config, c, e);
    }
    if o.sent != [] {
      ConsumeTable(phase, Entry(o.sent[0], o.core.server, EventTime(e)));
    }
  }

  lemma AcceptSnoc(log: seq<Entry>, x: Entry)
    ensures Accept(log + [x]) == if Accept(log).None? then None else Consume(Accept(log).value, x)
  {
    hide Consume;
    assert (log + [x])[..|log + [x]| - 1] == log;
  }

  /** Every log of every run is accepted, and the automaton stands where the machine's state says. */
  lemma {:induction false} EveryTrailIsAccepted(config: Config, id: Option<string>, events: seq<Event>)
    ensures var phase := Accept(Trail(config, Initial(id), events));
            phase.Some? && Tracks(Run(config, Initial(id), events).core, phase.value)
  {
    if events == [] {
    } else {
      hide Next, Consume, Accept, Tracks;
      var c := Run(config, Initial(id), Prefix(events)).core;
      var t := Trail(config, Initial(id), Prefix(events));
      var o := Next(config, c, Last(events));
      EveryTrailIsAccepted(config, id, Prefix(events));
      RunKeepsSound(config, id, Prefix(events));
      NextStaysInGrammar(config, c, Last(events), Accept(t).value);
      var added := Tagged(o, Last(events));
      if added == [] {
        assert t + added == t;
      } else {
        assert added == [Entry(o.sent[0], o.core.server, EventTime(Last(events)))];
        AcceptSnoc(t, added[0]);
      }
    }
  }

  // ---------------------------------------------------------------- what acceptance means

  lemma {:induction false} PrefixIsAccepted(log: seq<Entry>, n: nat)
    requires n <= |log| && Accept(log).Some?
    ensures Accept(log[..n]).Some?
  {
    if n < |log| {
      PrefixIsAccepted(log[..|log| - 1], n);
      assert log[..|log| - 1][..n] == log[..n];
    } else {
      assert log[..n] == log;
    }
  }

  /** A STARTUP in `log` that no SHUTDOWN and no identification packet follows. */
  ghost predicate StartupStands(log: seq<Entry>) {
    exists j :: 0 <= j < |log| && IsStartup(log[j].packet)
                && forall m :: j < m < |log| ==> !IsShutdown(log[m].packet) && !log[m].packet.typ.Identification?
  }

  /** The last identification packet in `log` is a server's handshake or an ACCEPT. */
  ghost predicate NameStands(log: seq<Entry>) {
    exists j :: 0 <= j < |log| && Names(log[j])
                && forall m :: j < m < |log| ==> !log[m].packet.typ.Identification?
  }

  lemma StartupStandsLonger(log: seq<Entry>, x: Entry)
    requires StartupStands(log) && !IsShutdown(x.packet) && !x.packet.typ.Identification?
    ensures StartupStands(log + [x])
  {
    var j :| 0 <= j < |log| && IsStartup(log[j].packet)
             && forall m :: j < m < |log| ==> !IsShutdown(log[m].packet) && !log[m].packet.typ.Identification?;
    assert IsStartup((log + [x])[j].packet);
  }

  lemma NameStandsLonger(log: seq<Entry>, x: Entry)
    requires NameStands(log) && !x.packet.typ.Identification?
    ensures NameStands(log + [x])
  {
    var j :| 0 <= j < |log| && Names(log[j]) && forall m :: j < m < |log| ==> !log[m].packet.typ.Identification?;
    assert Names((log + [x])[j]);
  }

  lemma {:induction false} PhaseMeaning(log: seq<Entry>)
    requires Accept(log).Some?
    ensures Accept(log).value.Open? ==> StartupStands(log)
    ensures Accept(log).value.Open? || Accept(log).value.Named? ==> NameStands(log)
  {
    if log == [] {
    } else {
      var n := |log| - 1;
      var x := log[n];
      PhaseMeaning(log[..n]);
      assert log == log[..n] + [x];
      if Names(x) || IsStartup(x.packet) {
        assert Names(log[n]) || IsStartup(log[n].packet);
      }
      if StartupStands(log[..n]) && !IsShutdown(x.packet) && !x.packet.typ.Identification? {
        StartupStandsLonger(log[..n], x);
      }
      if NameStands(log[..n]) && !x.packet.typ.Identification? {
        NameStandsLonger(log[..n], x);
      }
    }
  }

  /** Over every run: data and heartbeats only after a STARTUP that still stands, STARTUPs only under an
      identification this side gave as a server's handshake or a client's ACCEPT, never after a REJECT. */
  lemma OutgoingGrammar(config: Config, id: Option<string>, events: seq<Event>, i: nat)
    requires i < |Trail(config, Initial(id), events)|
    ensures var log := Trail(config, Initial(id), events);
            var p := log[i].packet;
            && (IsData(p) || IsHeartbeat(p) ==> StartupStands(log[..i]))
            && (IsData(p) || IsHeartbeat(p) || IsStartup(p) || IsShutdown(p) ==> NameStands(log[..i]))
  {
    hide Next;
    var log := Trail(config, Initial(id), events);
    EveryTrailIsAccepted(config, id, events);
    PrefixIsAccepted(log, i + 1);
    assert log[..i + 1][..i] == log[..i];
    PhaseMeaning(log[..i]);
  }

  /** Leaving DATA_READY other than into ERROR queues exactly one SHUTDOWN, and nothing else does
      more than one packet. */
  lemma LeavingQueuesOneShutdown(config: Config, id: Option<string>, events: seq<Event>, e: Event)
    ensures var c := Run(config, Initial(id), events).core;
            var o := Next(config, c, e);
            && |o.sent| <= 1
            && (c.state.DataReady? && !o.core.state.DataReady? && !o.core.state.Error? ==> o.sent == [SHUTDOWN_PACKET])
            && (c.state.DataReady? && o.core.state.Error? ==> o.sent == [])
  {
    hide Next, Sound;
    var c := Run(config, Initial(id), events).core;
    RunKeepsSound(config, id, events);
    if c.state.Ready? || c.state.AssociationPending? || c.state.DataReady? {
      AssociatingQueues(config, c, e);
    } else {
      IdentifyingQueues(config, c, e);
    }
  }
}
