/** End-to-end conservation of user messages on one transport connection, whatever either side does. */
module Conservation {
  import opened Configuration
  import opened Packets
  import opened Events
  import opened Machine
  import opened History
  import opened Network

  function Unstamped(s: seq<Stamped>): (r: seq<Packet>)
    ensures |r| == |s|
  {
    seq(|s|, i requires 0 <= i < |s| => s[i].packet)
  }

  /** The messages on their way in `s`. */
  function Carried(s: seq<Stamped>): seq<Message> {
    MessagesIn(Unstamped(s))
  }

  lemma CarriedAppend(s: seq<Stamped>, t: seq<Stamped>)
    ensures Carried(s + t) == Carried(s) + Carried(t)
  {
    assert Unstamped(s + t) == Unstamped(s) + Unstamped(t);
    MessagesInAppend(Unstamped(s), Unstamped(t));
  }

  lemma CarriedOne(x: Stamped)
    ensures Carried([x]) == if IsData(x.packet) then [TryToMsg(x.packet).value] else []
  {
    assert Unstamped([x]) == [x.packet];
    MessagesInOne(x.packet);
  }

  /** What is accepted at one end is received at the other, is on the wire, or is in the queue; and once
      the receiving end is gone, what it had received still is the beginning of what was accepted. */
  predicate Conserved(from: Peer, to: Peer, wire: seq<Stamped>) {
    && to.received <= from.accepted
    && (to.open ==> from.accepted == to.received + Carried(wire) + Carried(from.queue))
  }

  lemma NextQueuesWhatItAccepts(config: Config, c: Core, e: Event)
    ensures var o := Next(config, c, e);
            && |o.sent| <= 1
            && (e.LData? && o.core.state.DataReady? ==> o.sent == [PacketOf(e.msg)])
            && (!(e.LData? && o.core.state.DataReady?) ==> |o.sent| == 1 ==> !IsData(o.sent[0]))
  {
  }

  /** Acceptance of a message and queueing of its packet are one step, and nothing else queues data. */
  lemma TakeQueuesWhatItAccepts(config: Config, p: Peer, e: Event, now: nat)
    ensures var q := Take(config, p, e, now);
            && p.accepted <= q.accepted
            && Carried(q.queue) == Carried(p.queue) + q.accepted[|p.accepted|..]
  {
    hide Next;
    NextQueuesWhatItAccepts(config, p.core, e);
    var o := Next(config, p.core, e);
    var added := Stamp(o.sent, now);
    CarriedAppend(p.queue, added);
    if |added| == 1 {
      CarriedOne(added[0]);
      assert added == [added[0]];
    } else {
      assert Unstamped(added) == [];
    }
  }

  /** A data packet that is not delivered closes the reading end. */
  lemma TakeDeliversOrCloses(config: Config, p: Peer, e: Event, now: nat)
    ensures var q := Take(config, p, e, now);
            && (q.open ==> p.open)
            && (q.received == p.received + (if e.RData? then [e.msg] else []) || (q.received == p.received && !q.open))
  {
  }

  lemma SenderActs(config: Config, from: Peer, to: Peer, wire: seq<Stamped>, e: Event, now: nat)
    requires Conserved(from, to, wire)
    ensures Conserved(Take(config, from, e, now), to, wire)
  {
    hide Next;
    TakeQueuesWhatItAccepts(config, from, e, now);
    var after := Take(config, from, e, now);
    var ms := after.accepted[|from.accepted|..];
    if to.open {
      assert to.received + Carried(wire) + (Carried(from.queue) + ms)
             == (to.received + Carried(wire) + Carried(from.queue)) + ms;
    }
  }

  lemma ReceiverActs(config: Config, from: Peer, to: Peer, wire: seq<Stamped>, e: Event, now: nat)
    requires Conserved(from, to, wire) && !e.RData?
    ensures Conserved(from, Take(config, to, e, now), wire)
  {
    TakeDeliversOrCloses(config, to, e, now);
  }

  /** One packet read: its message is put up for the user, or the reading end is closed. */
  lemma ReadDeliversOrCloses(config: Config, p: Peer, x: Stamped, now: nat, order: seq<string>)
    ensures var q := Read(config, p, x.packet, now, order);
            || q.received == p.received + Carried([x])
            || (q.received == p.received && !q.open)
  {
    hide Next, FromIncomingPacket, Take, Carried;
    CarriedOne(x);
    DataIsClassifiedAsItself(x.packet, now, config, p.core.id, order);
    var r := PacketEvent(x.packet, now, config, p.core.id, order);
    if r.Ok? {
      TakeDeliversOrCloses(config, p, r.value, now);
    }
  }

  lemma Reassociate<T>(a: seq<T>, b: seq<T>, c: seq<T>, d: seq<T>)
    ensures a + (b + c) + d == (a + b) + c + d
    ensures a + b <= a + (b + c) + d
  {
  }

  lemma ReceiverReads(config: Config, from: Peer, to: Peer, wire: seq<Stamped>, now: nat, order: seq<string>)
    requires Conserved(from, to, wire) && to.open && wire != []
    ensures Conserved(from, Read(config, to, wire[0].packet, now, order), wire[1..])
  {
    hide Read, Carried;
    assert wire == [wire[0]] + wire[1..];
    CarriedAppend([wire[0]], wire[1..]);
    ReadDeliversOrCloses(config, to, wire[0], now, order);
    Reassociate(to.received, Carried([wire[0]]), Carried(wire[1..]), Carried(from.queue));
  }

  lemma SenderReads(config: Config, from: Peer, to: Peer, wire: seq<Stamped>, p: Packet, now: nat, order: seq<string>)
    requires Conserved(from, to, wire)
    ensures Conserved(Read(config, from, p, now, order), to, wire)
  {
    hide Next, FromIncomingPacket;
    var r := PacketEvent(p, now, config, from.core.id, order);
    if r.Ok? {
      SenderActs(config, from, to, wire, r.value, now);
    }
  }

  lemma SenderFlushes(from: Peer, to: Peer, wire: seq<Stamped>)
    requires Conserved(from, to, wire) && from.queue != []
    ensures Conserved(from.(queue := from.queue[1..]), to, wire + [from.queue[0]])
  {
    var x := from.queue[0];
    assert from.queue == [x] + from.queue[1..];
    CarriedAppend([x], from.queue[1..]);
    CarriedAppend(wire, [x]);
    assert to.received + (Carried(wire) + Carried([x])) + Carried(from.queue[1..])
           == to.received + Carried(wire) + (Carried([x]) + Carried(from.queue[1..]));
  }

  predicate BothWays(w: World) {
    Conserved(w.a, w.b, w.ab) && Conserved(w.b, w.a, w.ba)
  }

  lemma CallerStepConserves(env: Env, w: World, act: Action)
    requires BothWays(w) && Possible(w, act) && !act.Advance? && act.side.Caller?
    ensures BothWays(Effect(env, w, act))
  {
    hide Next, FromIncomingPacket, Conserved, Take, Read;
    match act
    case Flush(_) =>
      SenderFlushes(w.a, w.b, w.ab);
      ReceiverFlushes(w.b, w.a, w.ba);
    case Deliver(_, order) =>
      SenderReads(env.a, w.a, w.b, w.ab, w.ba[0].packet, w.now, order);
      ReceiverReads(env.a, w.b, w.a, w.ba, w.now, order);
    case Local(_, e) =>
      SenderActs(env.a, w.a, w.b, w.ab, e, w.now);
      ReceiverActs(env.a, w.b, w.a, w.ba, e, w.now);
  }

  lemma ReceiverFlushes(from: Peer, to: Peer, wire: seq<Stamped>)
    requires Conserved(from, to, wire) && to.queue != []
    ensures Conserved(from, to.(queue := to.queue[1..]), wire)
  {
  }

  lemma AdvanceIs(env: Env, w: World, act: Action)
    requires Possible(w, act) && act.Advance?
    ensures Effect(env, w, act) == w.(now := act.to)
  {
  }

  lemma StepConserves(setting: Setting, env: Env, w: World, act: Action)
    requires BothWays(w)
    ensures BothWays(Step(setting, env, w, act))
  {
    hide Next, Take, Read, Effect, Conserved;
    if Permitted(setting, env, w, act) {
      if act.Advance? {
        assert Effect(env, w, act) == w.(now := act.to) by { AdvanceIs(env, w, act); }
      } else if act.side.Caller? {
        CallerStepConserves(env, w, act);
      } else {
        EffectMirrors(env, w, act);
        CallerStepConserves(MirrorEnv(env), Mirror(w), Flip(act));
      }
    }
  }

  /** No message accepted or received yet, none on its way. */
  predicate Unused(w: World) {
    && w.a.accepted == w.b.accepted == w.a.received == w.b.received == []
    && Carried(w.ab) == Carried(w.ba) == Carried(w.a.queue) == Carried(w.b.queue) == []
  }

  /** From any two machines in any states, under any commands, timers, shutdowns and disconnects, at all
      times and both ways: an open end has received exactly what the other accepted, less what is on the
      wire and in the queue, in order; a closed end has received a prefix. */
  lemma MessagesAreConserved(setting: Setting, env: Env, w: World, acts: seq<Action>)
    requires Unused(w)
    ensures var v := Play(setting, env, w, acts);
            && v.b.received <= v.a.accepted
            && v.a.received <= v.b.accepted
            && (v.b.open ==> v.a.accepted == v.b.received + Carried(v.ab) + Carried(v.a.queue))
            && (v.a.open ==> v.b.accepted == v.a.received + Carried(v.ba) + Carried(v.b.queue))
  {
    PlayConserves(setting, env, w, acts);
  }

  lemma {:induction false} PlayConserves(setting: Setting, env: Env, w: World, acts: seq<Action>)
    requires BothWays(w)
    ensures BothWays(Play(setting, env, w, acts))
  {
    hide Step;
    if acts == [] {
    } else {
      PlayConserves(setting, env, w, acts[..|acts| - 1]);
      StepConserves(setting, env, Play(setting, env, w, acts[..|acts| - 1]), acts[|acts| - 1]);
    }
  }
}
