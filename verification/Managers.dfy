/** `relayMgmt`: its variables as an object, proved against the state machine of ManagerStates. */
module Managers {
  import opened Wire
  import opened Messages
  import opened Sessions
  import opened Pipes
  import opened RelayStates
  import opened ManagerStates
  import opened ManagerProofs
  import opened Framing
  import opened Queues
  import opened Relays

  class RelayManager {
    const inboundData: MessageQueue  // from all its relays
    const wakeup: WakeupPair         // wakes this thread
    var relays: map<Port, Relay>
    var created: nat                 // relays asked for so far
    var sendq: Octets
    var recvq: Octets
    var writeEnabled: bool
    var mask: Mask                   // what the client's socket is registered for
    var closing: bool                // close_thread

    ghost var made: set<Relay>       // every relay it has started, with their queues and wake-up pairs
    ghost var outs: set<MessageQueue>
    ghost var bells: set<WakeupPair>
    ghost var received: Octets       // histories: read from the client,
    ghost var written: Octets        // written to it,
    ghost var frames: seq<Message>   // queued for it,
    ghost var handed: seq<Message>   // handed to ProcessMsg,
    ghost var forwarded: Trace       // taken off the inbound queue

    /** Each relay is filed under its own port and has an outbound queue to itself. */
    ghost predicate Valid()
      reads this`relays, this`made, this`outs, this`bells
    {
      && inboundData !in outs
      && (forall p | p in relays :: Known(p))
      && forall p, q | p in relays && q in relays && relays[p].outbound == relays[q].outbound :: p == q
    }

    ghost predicate Known(p: Port)
      reads this`relays, this`made, this`outs, this`bells
      requires p in relays
    {
      && relays[p].identifyingPort == p && relays[p].inbound == inboundData && relays[p].mgmtWakeup == wakeup
      && relays[p] in made && relays[p].outbound in outs && relays[p].ownWakeup in bells
    }

    function State(): ManagerState
      reads this`relays, this`created, this`sendq, this`recvq, this`writeEnabled, this`mask, this`closing
    {
      ManagerState(relays.Keys, created, sendq, recvq, writeEnabled, mask, closing)
    }

    /** What waits for each relay. */
    ghost function Queues(): map<Port, Trace>
      reads this`relays, set p | p in relays :: relays[p].outbound
    {
      map p | p in relays :: relays[p].outbound.items
    }

    constructor (capacity: nat)
      requires capacity > 0
      ensures Valid() && State() == Connected() && Queues() == map[] && inboundData.items == []
      ensures received == [] && written == [] && frames == [] && handed == [] && forwarded == []
    {
      inboundData := new MessageQueue();
      wakeup := new WakeupPair(capacity);
      relays, created, sendq, recvq, writeEnabled, mask, closing := map[], 0, [], [], false, ReadOnly, false;
      made, outs, bells := {}, {}, {};
      received, written, frames, handed, forwarded := [], [], [], [], [];
    }

    method AddToSendq(data: Octets)
      modifies this`sendq, this`writeEnabled, this`mask
      ensures State() == old(State()).AddToSendq(data)
      ensures Queues() == old(Queues())
    {
      sendq := sendq + data;
      if !writeEnabled && sendq != [] {
        writeEnabled := true;
        mask := ReadWrite;
      }
    }

    /** `handle_relay_client`. */
    method HandleRelayClient(write: bool, read: bool, sent: SendResult, got: RecvResult)
      requires sent.Sent? ==> sent.n <= |sendq|
      modifies this`sendq, this`recvq, this`writeEnabled, this`mask, this`closing, this`received, this`written
      ensures State() == old(State()).HandleClient(write, read, sent, got) && Queues() == old(Queues())
      ensures var data := if read && got.Received? then got.data else [];
              recvq == old(recvq) + data && received == old(received) + data
      ensures var n := if write && sent.Sent? then sent.n else 0;
              sendq == old(sendq)[n..] && written == old(written) + old(sendq)[..n]
      ensures closing <==> || old(closing) || (write && old(sendq) != [] && sent.SendBroken?)
                           || (read && (got.RecvBroken? || got == Received([])))
    {
      hide Queues;
      if write && sendq != [] {
        match sent {
          case Sent(n) => written, sendq := written + sendq[..n], sendq[n..];
          case SendBroken => closing := true;
          case SendWouldBlock =>
        }
        if sendq == [] {
          writeEnabled := false;
          mask := ReadOnly;
        }
      }
      if read {
        match got {
          case Received(data) =>
            if data == [] {
              closing := true;
            }
            recvq, received := recvq + data, received + data;
          case RecvBroken => closing := true;
          case RecvWouldBlock =>
        }
      }
    }

    /** A relay on the port the kernel has found for it, with its thread's queue and wake-up pair. */
    method NewRelay(p: Port) returns (relay: Relay)
      ensures fresh(relay) && fresh(relay.outbound) && fresh(relay.ownWakeup)
      ensures relay.identifyingPort == p && relay.inbound == inboundData && relay.mgmtWakeup == wakeup
      ensures relay.outbound.items == [] && !relay.atomicClose
    {
      var outbound := new MessageQueue();
      var bell := new WakeupPair(wakeup.capacity + 1);
      relay := new Relay(p, inboundData, outbound, wakeup, bell);
    }

    method FileRelay(relay: Relay)
      requires Valid() && relay.outbound != inboundData && relay.outbound.items == [] && relay.outbound !in outs
      requires relay.inbound == inboundData && relay.mgmtWakeup == wakeup
      modifies this`relays, this`made, this`outs, this`bells
      ensures Valid() && relays == old(relays)[relay.identifyingPort := relay]
      ensures Queues() == Route(old(Queues()), Start(relay.identifyingPort))
      ensures made == old(made) + {relay} && outs == old(outs) + {relay.outbound}
              && bells == old(bells) + {relay.ownWakeup}
    {
      hide Route, Known;
      RouteStart(Queues(), relay.identifyingPort);
      ghost var before := Queues();
      relays := relays[relay.identifyingPort := relay];
      assert Queues() == before[relay.identifyingPort := []];
      made, outs, bells := made + {relay}, outs + {relay.outbound}, bells + {relay.ownWakeup};
      StillKnown(relay);
    }

    twostate lemma StillKnown(relay: Relay)
      requires old(Valid()) && relay.outbound !in old(outs)
      requires relay.inbound == inboundData && relay.mgmtWakeup == wakeup && relay.outbound != inboundData
      requires relays == old(relays)[relay.identifyingPort := relay]
      requires made == old(made) + {relay} && outs == old(outs) + {relay.outbound}
               && bells == old(bells) + {relay.ownWakeup}
      ensures Valid()
    {
      forall j | j in relays
        ensures Known(j) && (j != relay.identifyingPort ==> relays[j].outbound != relay.outbound)
      {
        assert j != relay.identifyingPort ==> old(Known(j));
      }
    }

    method StartRelay(p: Port)
      requires Valid()
      modifies this`relays, this`made, this`outs, this`bells
      ensures Valid() && relays.Keys == old(relays.Keys) + {p} && Queues() == Route(old(Queues()), Start(p))
      ensures fresh(outs - old(outs)) && fresh(bells - old(bells)) && fresh(made - old(made))
    {
      hide Route, Queues;
      var relay := NewRelay(p);
      FileRelay(relay);
    }

    method StopRelay(p: Port)
      requires Valid() && p in relays
      modifies this`relays, made`atomicClose
      ensures Valid() && relays.Keys == old(relays.Keys) - {p} && Queues() == Route(old(Queues()), Stop(p))
      ensures old(relays)[p].atomicClose
    {
      assert Known(p);
      relays[p].atomicClose := true;
      relays := relays - {p};
      forall j | j in relays
        ensures Known(j)
      {
        assert old(Known(j));
      }
    }

    method EnqueueFor(p: Port, q: Queued)
      requires Valid() && p in relays
      modifies outs, bells
      ensures Queues() == Route(old(Queues()), Enqueue(p, q))
      ensures relays[p].ownWakeup.pipe == Nudged(old(relays[p].ownWakeup.pipe), relays[p].ownWakeup.capacity)
    {
      assert Known(p);
      relays[p].EnqueueOutbound(q);
    }

    /** One more port asked of the kernel. */
    method Ask()
      modifies this`created
      ensures created == old(created) + 1 && Queues() == old(Queues())
    {
      created := created + 1;
    }

    method CreateRelay(allotted: Option<Port>) returns (ghost e: Effect)
      requires Valid()
      modifies this`relays, this`created, this`sendq, this`writeEnabled, this`mask, this`made, this`outs, this`bells
      ensures Valid() && (State(), e) == old(State()).Process(Default(MessageType.CreateRelay), allotted)
      ensures Queues() == Route(old(Queues()), e)
      ensures fresh(outs - old(outs)) && fresh(bells - old(bells)) && fresh(made - old(made))
    {
      hide Valid, Route, Queues, Frame, ManagerState.AddToSendq, ManagerState.Process;
      e := Nothing;
      RouteNothing(Queues());
      Created(State(), allotted);
      Ask();
      match allotted {
        case None =>
          AddToSendq(Frame(NO_PORT));
        case Some(p) =>
          StartRelay(p);
          AddToSendq(Frame(RelayMessage(OpenRelay, p)));
          e := Start(p);
      }
    }

    static lemma Created(s: ManagerState, allotted: Option<Port>)
      ensures var t := s.(created := s.created + 1);
              s.Process(Default(MessageType.CreateRelay), allotted) ==
              match allotted
              case None => (t.AddToSendq(Frame(NO_PORT)), Nothing)
              case Some(p) => (t.(relays := s.relays + {p}).AddToSendq(Frame(RelayMessage(OpenRelay, p))), Start(p))
    {
    }

    /** `process_msg`; True tells of the KeyError that a CLOSE for an unknown relay raises. */
    method ProcessMsg(m: Message, allotted: Option<Port>) returns (raised: bool, ghost e: Effect)
      requires Valid() && PortsInRange(m)
      modifies this`relays, this`created, this`sendq, this`writeEnabled, this`mask
      modifies this`made, this`outs, this`bells, outs, bells, made`atomicClose
      ensures Valid() && (State(), e) == old(State()).Process(m, allotted) && (raised <==> e == Raised)
      ensures e.Enqueue? || e.Stop? ==> e.relay in old(relays)
      ensures e.Stop? ==> old(relays)[e.relay].atomicClose
      ensures e.Enqueue? ==> var bell := old(relays)[e.relay].ownWakeup; bell.pipe == Nudged(old(bell.pipe),
              bell.capacity)
      ensures Queues() == Route(old(Queues()), e)
      ensures fresh(outs - old(outs)) && fresh(bells - old(bells)) && fresh(made - old(made))
    {
      hide Valid, Route, Queues, Frame, FromWire, ManagerState.AddToSendq;
      raised, e := false, Nothing;
      RouteNothing(Queues());
      match m.kind {
        case CreateRelay =>
          e := CreateRelay(allotted);
        case CloseConnection =>
          if m.relayPort in relays {
            e := PassOn(m);
          } else {
            raised, e := true, Raised;
          }
        case DestroyRelay =>
          if m.relayPort in relays {
            StopRelay(m.relayPort);
            AddToSendq(Frame(RelayMessage(DestroyRelay, m.relayPort)));
            e := Stop(m.relayPort);
          }
        case Data =>
          if m.relayPort !in relays {
            AddToSendq(Frame(NO_RELAY));
          } else {
            e := PassOn(m);
          }
        case _ =>
      }
    }

    /** `relay.enqueue_outbound` for a relay in the table. */
    method PassOn(m: Message) returns (ghost e: Effect)
      requires Valid() && IsSessionMessage(m) && m.relayPort in relays
      modifies outs, bells
      ensures e == Enqueue(m.relayPort, FromWire(m)) && Queues() == Route(old(Queues()), e)
      ensures var bell := relays[m.relayPort].ownWakeup; bell.pipe == Nudged(old(bell.pipe), bell.capacity)
    {
      hide FromWire;
      EnqueueFor(m.relayPort, FromWire(m));
      e := Enqueue(m.relayPort, FromWire(m));
    }

    method Advance(rest: Octets)
      modifies this`recvq
      ensures recvq == rest && Queues() == old(Queues())
    {
      recvq := rest;
    }

    method Close()
      modifies this`closing
      ensures closing && Queues() == old(Queues())
    {
      closing := true;
    }

    /** One iteration of the receive loop: the buffer has advanced before the message is handled. */
    method DecodeOne(allot: nat -> Option<Port>) returns (c: Control, ghost e: Effect)
      requires Valid() && recvq != []
      modifies this`relays, this`created, this`sendq, this`recvq, this`writeEnabled, this`mask, this`closing,
               this`handed
      modifies this`made, this`outs, this`bells, outs, bells, made`atomicClose
      ensures Valid() && (State(), e, c) == old(State()).DecodeOne(allot)
      ensures handed == old(handed) + if Deserialize(old(recvq)).Got? then [Deserialize(old(recvq)).msg] else []
      ensures Queues() == Route(old(Queues()), e)
      ensures fresh(outs - old(outs)) && fresh(bells - old(bells)) && fresh(made - old(made))
    {
      hide Valid, Route, Queues, Frame, ManagerState.AddToSendq, ManagerState.Process, Deserialize, PortsInRange;
      c, e := Again, Nothing;
      RouteNothing(Queues());
      match Deserialize(recvq) {
        case Got(m, rest) =>
          Advance(rest);
          handed := handed + [m];
          var raised;
          raised, e := ProcessMsg(m, allot(created));
          if raised {
            c := Leave;
          }
        case Failed(error) =>
          if error.BadVersion? {
            AddToSendq(Frame(BAD_VERSION));
            Close();
          } else {
            c := Leave;
          }
      }
    }

    /** At most `turns` iterations of `while len(recvq) > 0`; `over` tells that the loop is done. */
    method Receive(turns: nat, allot: nat -> Option<Port>) returns (over: bool, ghost es: seq<Effect>)
      requires Valid()
      modifies this`relays, this`created, this`sendq, this`recvq, this`writeEnabled, this`mask, this`closing,
               this`handed
      modifies this`made, this`outs, this`bells, outs, bells, made`atomicClose
      ensures Valid() && (State(), es, over) == old(State()).Receive(turns, allot)
      ensures Queues() == RouteAll(old(Queues()), es) && handed == old(handed) + Handed(old(State()), turns, allot)
      ensures fresh(outs - old(outs)) && fresh(bells - old(bells)) && fresh(made - old(made))
    {
      hide Valid, Route, RouteAll, Queues, ManagerState.Receive, ManagerState.DecodeOne, InStep, Handed, Deserialize;
      ghost var state0, queues0, handed0 := State(), Queues(), handed;
      over, es := false, [];
      var left: nat := turns;
      InStepAtFirst(state0, turns, allot, queues0, handed);
      while recvq != [] && left > 0
        invariant left <= turns && Valid() && Queues() == RouteAll(queues0, es)
        invariant InStep(state0, turns, allot, State(), left, es, handed0, handed)
        invariant fresh(outs - old(outs)) && fresh(bells - old(bells)) && fresh(made - old(made))
        decreases left
      {
        InStepNext(state0, turns, allot, State(), left, es, handed0, handed);
        RouteStep(queues0, es, State().DecodeOne(allot).1);
        var c;
        ghost var e;
        c, e := DecodeOne(allot);
        es, left := es + [e], left - 1;
        if c == Leave {
          return true, es;
        }
      }
      InStepAtLast(state0, turns, allot, State(), left, es, handed0, handed);
      over := recvq == [];
    }

    /** The inbound drain: one message for the client at a time, at most 100 in a turn, none once closing. */
    method ForwardInbound()
      requires AllSendable(inboundData.items)
      modifies this`sendq, this`writeEnabled, this`mask, this`forwarded, inboundData
      ensures (State(), inboundData.items) == old(State()).ForwardAll(old(inboundData.items), INBOUND_BATCH)
      ensures forwarded + inboundData.items == old(forwarded + inboundData.items) && AllSendable(inboundData.items)
    {
      hide ManagerState.AddToSendq, FrameOf, Sendable;
      for i := 0 to INBOUND_BATCH
        invariant AllSendable(inboundData.items) && forwarded + inboundData.items == old(forwarded + inboundData.items)
        invariant old(State()).ForwardAll(old(inboundData.items), INBOUND_BATCH)
               == State().ForwardAll(inboundData.items, INBOUND_BATCH - i)
      {
        if closing {
          break;
        }
        if inboundData.items != [] {
          MoveAcross(forwarded, inboundData.items);
        }
        var r := inboundData.GetNowait();
        match r {
          case None =>
            break;
          case Some(q) =>
            AddToSendq(FrameOf(q));
            forwarded := forwarded + [q];
        }
      }
    }

    /** What the relays queue in the meantime. */
    method Arrive(arrivals: Trace)
      modifies inboundData
      ensures inboundData.items == old(inboundData.items) + arrivals
    {
      for i := 0 to |arrivals|
        invariant inboundData.items == old(inboundData.items) + arrivals[..i]
      {
        inboundData.Put(arrivals[i]);
        assert arrivals[..i + 1] == arrivals[..i] + [arrivals[i]];
      }
      assert arrivals[..|arrivals|] == arrivals;
    }

    /** What has come from the client has been handed on as far as it goes, and routed, once and in order. */
    ghost predicate Orderly(allot: nat -> Option<Port>)
      reads this, set p | p in relays :: relays[p].outbound
    {
      && State().Arming() && HandedOn(received, handed, recvq)
      && (forall m | m in handed :: PortsInRange(m))
      && Desk(relays.Keys, created, Queues()) == Routed(Desk({}, 0, map[]), handed, allot)
    }

    /** What has been queued for the client: the relays' messages, and between them the answers to its own. */
    ghost predicate Informed(allot: nat -> Option<Port>)
      reads this`frames, this`written, this`sendq, this`forwarded, this`handed
    {
      && (forall m | m in handed :: PortsInRange(m))
      && Told(frames, written + sendq, forwarded, AnswersTo(Desk({}, 0, map[]), handed, allot))
    }

    /** The callback for the client's socket, if it is ready, and the whole receive loop, if it has an end. */
    method Listen(r: ManagerRound, allot: nat -> Option<Port>) returns (over: bool)
      requires Valid() && Orderly(allot)
      modifies this`relays, this`created, this`sendq, this`recvq, this`writeEnabled, this`mask, this`closing,
               this`handed
      modifies this`received, this`written, this`frames, this`made, this`outs, this`bells, outs, bells,
               made`atomicClose
      ensures Valid() && Orderly(allot) && (!over ==> BadVersionAhead(recvq))
      ensures received == old(received) + ClientOctets(r)
      ensures var n := if r.write && r.sent.Sent? then Min(r.sent.n, |old(sendq)|) else 0;
              written == old(written) + old(sendq)[..n]
      ensures over ==> (closing <==> || old(closing) || ClientGone(r)
                                     || (r.write && old(sendq) != [] && r.sent.SendBroken?))
      ensures over ==> TakenUp(recvq, relays.Keys, handed)
      ensures over && old(Informed(allot)) ==> Informed(allot)
      ensures fresh(outs - old(outs)) && fresh(bells - old(bells)) && fresh(made - old(made))
    {
      hide Valid, HandedOn, Routed, Queues, BadVersionAhead, PortsInRange, Told, AnswersTo, TakenUp,
           ManagerState.Arming, ManagerState.HandleClient;
      ArmingAfter(State(), r.write, r.read, Capped(r.sent, |sendq|), r.got);
      HandleRelayClient(r.write, r.read, Capped(r.sent, |sendq|), r.got);
      assert written + sendq == old(written + sendq);
      over := TakeUp(allot, old(received), old(recvq), ClientOctets(r));
    }

    static lemma ArmingAfter(s: ManagerState, write: bool, read: bool, sent: SendResult, got: RecvResult)
      requires (sent.Sent? ==> sent.n <= |s.sendq|) && s.Arming()
      ensures s.HandleClient(write, read, sent, got).Arming()
    {
    }

    /** The whole receive loop, after `chunk` has been read behind what was left of the octets heard before. */
    method TakeUp(allot: nat -> Option<Port>, ghost heard: Octets, ghost left: Octets, ghost chunk: Octets)
      returns (over: bool)
      requires Valid() && State().Arming() && (forall m | m in handed :: PortsInRange(m))
      requires received == heard + chunk && recvq == left + chunk && HandedOn(heard, handed, left)
      requires Desk(relays.Keys, created, Queues()) == Routed(Desk({}, 0, map[]), handed, allot)
      modifies this`relays, this`created, this`sendq, this`recvq, this`writeEnabled, this`mask, this`closing,
               this`handed
      modifies this`frames, this`made, this`outs, this`bells, outs, bells, made`atomicClose
      ensures Valid() && Orderly(allot) && (!over ==> BadVersionAhead(recvq))
      ensures over ==> closing == old(closing) && TakenUp(recvq, relays.Keys, handed)
      ensures over && old(Informed(allot)) ==> Informed(allot)
      ensures fresh(outs - old(outs)) && fresh(bells - old(bells)) && fresh(made - old(made))
    {
      hide Valid, HandedOn, ManagerState.Receive, Handed, Routed, RouteAll, Queues, Stuck, BadVersionAhead,
           PortsInRange, Told, AnswersTo, TakenUp, Plain, ManagerState.Arming, Frames;
      ghost var s, before, queues := State(), handed, Queues();
      ghost var d, got := Desk(s.relays, s.created, queues), Handed(s, |recvq|, allot);
      HandedMore(heard, handed, left, chunk, s, |recvq|, allot);
      ReceiveKeepsArming(s, |recvq|, allot);
      EnoughTurns(s, allot);
      HandedRouted(s, |recvq|, allot, queues);
      RoutedOn(before, got, allot, d);
      ghost var es;
      over, es := Receive(|recvq|, allot);
      if over {
        ReceiveAnswers(s, d, |s.recvq|, allot);
        ReceiveTakesUp(s, |s.recvq|, allot);
        TakenUpLonger(recvq, relays.Keys, before, got);
        frames := frames + AnswersTo(d, got, allot);
        if old(Informed(allot)) {
          MoreAnswers(old(frames), old(written + sendq), forwarded, before, got, allot, d);
          Longer(written, old(sendq), AnswersTo(d, got, allot));
        }
      }
    }

    static lemma Longer(written: Octets, sendq: Octets, ms: seq<Message>)
      requires Plain(ms)
      ensures AllFrameable(ms) && written + (sendq + Frames(ms)) == written + sendq + Frames(ms)
    {
      hide Frames;
    }

    static lemma TakenUpLonger(recvq: Octets, relays: set<Port>, before: seq<Message>, got: seq<Message>)
      requires TakenUp(recvq, relays, got)
      ensures TakenUp(recvq, relays, before + got)
    {
    }

    static lemma MoreAnswers(
        frames: seq<Message>, octets: Octets, forwarded: Trace, before: seq<Message>, got: seq<Message>,
        allot: nat -> Option<Port>, d: Desk)
      requires forall m | m in before + got :: PortsInRange(m)
      requires forall m | m in before :: PortsInRange(m)
      requires forall m | m in got :: PortsInRange(m)
      requires d == Routed(Desk({}, 0, map[]), before, allot) && Plain(AnswersTo(d, got, allot))
      requires Told(frames, octets, forwarded, AnswersTo(Desk({}, 0, map[]), before, allot))
      ensures var more := AnswersTo(d, got, allot);
              Told(frames + more, octets + Frames(more), forwarded, AnswersTo(Desk({}, 0, map[]), before + got, allot))
    {
      hide Routed, PortsInRange, Told, AnswersTo, Frameable, IsSessionMessage;
      var more := AnswersTo(d, got, allot);
      AnswersConcat(Desk({}, 0, map[]), before, got, allot);
      ToldAnswers(more);
      ToldMore(frames, octets, forwarded, AnswersTo(Desk({}, 0, map[]), before, allot), more, Frames(more), [], more);
      assert forwarded + [] == forwarded;
    }

    static lemma RoutedOn(before: seq<Message>, more: seq<Message>, allot: nat -> Option<Port>, d: Desk)
      requires forall m | m in before :: PortsInRange(m)
      requires forall m | m in more :: PortsInRange(m)
      requires d == Routed(Desk({}, 0, map[]), before, allot)
      ensures forall m | m in before + more :: PortsInRange(m)
      ensures Routed(d, more, allot) == Routed(Desk({}, 0, map[]), before + more, allot)
    {
      hide Routed, PortsInRange;
      RoutedConcat(Desk({}, 0, map[]), before, more, allot);
    }

    /**
     One turn of the main loop: what the client has sent is read and taken up, what waits for it is
     written, and then the oldest of the relays' messages, a hundred at most, are queued for it. A
     receive loop that does not end keeps it from the inbound drain for ever.
     */
    method Turn(r: ManagerRound, allot: nat -> Option<Port>) returns (over: bool)
      requires Valid() && Orderly(allot) && AllSendable(inboundData.items) && AllSendable(r.arrivals)
      modifies this`relays, this`created, this`sendq, this`recvq, this`writeEnabled, this`mask, this`closing,
               this`handed
      modifies this`received, this`written, this`frames, this`forwarded, this`made, this`outs, this`bells, outs,
               bells, made`atomicClose, inboundData
      ensures Valid() && Orderly(allot) && AllSendable(inboundData.items) && (!over ==> BadVersionAhead(recvq))
      ensures received == old(received) + ClientOctets(r)
      ensures var n := if r.write && r.sent.Sent? then Min(r.sent.n, |old(sendq)|) else 0;
              written == old(written) + old(sendq)[..n]
      ensures over ==> (closing <==> || old(closing) || ClientGone(r)
                                     || (r.write && old(sendq) != [] && r.sent.SendBroken?))
      ensures over ==> TakenUp(recvq, relays.Keys, handed)
      ensures over ==>
                var queue := old(inboundData.items) + r.arrivals;
                var n := if closing then 0 else Min(100, |queue|);
                forwarded == old(forwarded) + queue[..n] && inboundData.items == queue[n..]
      ensures over && old(Informed(allot)) ==> Informed(allot)
      ensures fresh(outs - old(outs)) && fresh(bells - old(bells)) && fresh(made - old(made))
    {
      hide Orderly, BadVersionAhead, AllSendable, TakenUp, Informed;
      assert inboundData !in outs;
      over := Listen(r, allot);
      if over {
        Arrive(r.arrivals);
        SendableBoth(old(inboundData.items), r.arrivals);
        Forward(allot);
      }
    }

    /** The inbound drain: the oldest messages are queued as frames, and nothing else of the client's is touched. */
    method Forward(allot: nat -> Option<Port>)
      requires Valid() && Orderly(allot) && AllSendable(inboundData.items)
      modifies this`sendq, this`writeEnabled, this`mask, this`forwarded, this`frames, inboundData
      ensures Valid() && Orderly(allot) && AllSendable(inboundData.items)
      ensures var n := if closing then 0 else Min(100, |old(inboundData.items)|);
              && forwarded == old(forwarded) + old(inboundData.items)[..n]
              && inboundData.items == old(inboundData.items)[n..]
      ensures old(Informed(allot)) ==> Informed(allot)
    {
      hide HandedOn, Routed, ManagerState.ForwardAll, PortsInRange, ManagerState.Arming, AllSendable, Queues, Told,
           AnswersTo, Framed, Wires;
      ghost var s, queue := State(), inboundData.items;
      ghost var n := if closing then 0 else Min(100, |queue|);
      ForwardKeepsArming(s, queue, INBOUND_BATCH);
      ForwardTouches(s, queue);
      ForwardAllTakes(s, queue, INBOUND_BATCH);
      ForwardInbound();
      TakenOff(old(forwarded), queue, n, forwarded);
      frames := frames + Wires(queue[..n]);
      if old(Informed(allot)) {
        ghost var answers := AnswersTo(Desk({}, 0, map[]), handed, allot);
        ToldEntries(queue[..n]);
        ToldMore(old(frames), old(written + sendq), old(forwarded), answers, Wires(queue[..n]), Framed(queue[..n]),
                 queue[..n], []);
        assert written + sendq == old(written + sendq) + Framed(queue[..n]) && answers + [] == answers;
      }
    }

    static lemma SendableBoth(a: Trace, b: Trace)
      requires AllSendable(a) && AllSendable(b)
      ensures AllSendable(a + b)
    {
    }

    static lemma ForwardTouches(s: ManagerState, queue: Trace)
      requires AllSendable(queue)
      ensures var (t, left) := s.ForwardAll(queue, INBOUND_BATCH);
              t.recvq == s.recvq && t.relays == s.relays && t.created == s.created && t.closing == s.closing
    {
      ForwardTouchesIn(s, queue, INBOUND_BATCH);
    }

    static lemma {:induction false} ForwardTouchesIn(s: ManagerState, queue: Trace, turns: nat)
      requires AllSendable(queue)
      ensures var (t, left) := s.ForwardAll(queue, turns);
              t.recvq == s.recvq && t.relays == s.relays && t.created == s.created && t.closing == s.closing
      decreases turns
    {
      hide FrameOf;
      if turns == 0 || s.closing || queue == [] {
      } else {
        ForwardTouchesIn(s.Forward(queue[0]), queue[1..], turns - 1);
      }
    }

    /** What waits for the client when the loop has gone through these rounds. */
    static ghost function Waiting(queue: Trace, rounds: seq<ManagerRound>, closing: bool): Trace {
      if closing && rounds != [] then
        Backlog(queue, rounds[..|rounds| - 1], RelayArrivals, 100) + rounds[|rounds| - 1].arrivals
      else Backlog(queue, rounds, RelayArrivals, 100)
    }

    /** The loop is told to close in the last of these rounds, if at all, and by what happened there. */
    static ghost predicate ClosedBy(rounds: seq<ManagerRound>, closing: bool) {
      && (forall i | 0 <= i < |rounds| && ClientGone(rounds[i]) :: i == |rounds| - 1 && closing)
      && (closing ==> && rounds != []
                      && var last := rounds[|rounds| - 1];
                         ClientGone(last) || (last.write && last.sent.SendBroken?))
    }

    /** The main loop; true tells that it is caught in the receive loop. */
    method Loop(rounds: seq<ManagerRound>, allot: nat -> Option<Port>) returns (stuck: bool, ghost n: nat)
      requires Valid() && Orderly(allot) && Informed(allot) && forwarded == [] && received == [] && !closing
      requires AllSendable(inboundData.items) && forall i | 0 <= i < |rounds| :: AllSendable(rounds[i].arrivals)
      modifies this`relays, this`created, this`sendq, this`recvq, this`writeEnabled, this`mask, this`closing,
               this`handed
      modifies this`received, this`written, this`frames, this`forwarded, this`made, this`outs, this`bells, outs,
               bells, made`atomicClose, inboundData
      ensures Valid() && Orderly(allot) && n <= |rounds| && (n < |rounds| ==> closing || stuck)
      ensures stuck ==> BadVersionAhead(recvq)
      ensures received == Gathered(rounds[..n], ClientOctets)
      ensures !stuck ==> && Informed(allot) && ClosedBy(rounds[..n], closing)
                         && (n > 0 ==> TakenUp(recvq, relays.Keys, handed))
      ensures !stuck ==>
                && forwarded + inboundData.items == old(inboundData.items) + Gathered(rounds[..n], RelayArrivals)
                && inboundData.items == Waiting(old(inboundData.items), rounds[..n], closing)
      ensures fresh(outs - old(outs)) && fresh(bells - old(bells)) && fresh(made - old(made))
    {
      hide Orderly, Valid, Gathered, AllSendable, BadVersionAhead, Informed, TakenUp, Backlog, ClientGone, ClosedBy;
      stuck, n := false, 0;
      NothingGathered(rounds, RelayArrivals, inboundData.items);
      NothingGathered(rounds, ClientOctets, []);
      NotClosed(rounds);
      ghost var queue := inboundData.items;
      BacklogNone(queue, rounds);
      var i := 0;
      while i < |rounds| && !closing
        invariant i == n <= |rounds| && Valid() && Orderly(allot) && AllSendable(inboundData.items)
        invariant Informed(allot) && ClosedBy(rounds[..n], closing) && (n > 0 ==> TakenUp(recvq, relays.Keys, handed))
        invariant received == Gathered(rounds[..n], ClientOctets)
        invariant forwarded + inboundData.items == queue + Gathered(rounds[..n], RelayArrivals)
        invariant inboundData.items == Waiting(queue, rounds[..n], closing)
        invariant fresh(outs - old(outs)) && fresh(bells - old(bells)) && fresh(made - old(made))
      {
        GatheredStep(rounds, n, RelayArrivals, queue);
        GatheredStep(rounds, n, ClientOctets, []);
        ghost var waiting, sofar := inboundData.items, forwarded;
        var over := Turn(rounds[i], allot);
        if over {
          ClosedStep(rounds, n, closing);
          WaitingStep(queue, rounds, n, waiting, closing);
          ghost var full := waiting + rounds[n].arrivals;
          Regained(sofar, full, if closing then 0 else Min(100, |full|));
          assert sofar + waiting + rounds[n].arrivals == sofar + (waiting + rounds[n].arrivals);
        }
        i, n := i + 1, n + 1;
        if !over {
          stuck := true;
          break;
        }
      }
    }

    static lemma Regained(sofar: Trace, queue: Trace, n: nat)
      requires n <= |queue|
      ensures sofar + queue[..n] + queue[n..] == sofar + queue
    {
    }

    static lemma BacklogNone(queue: Trace, rounds: seq<ManagerRound>)
      ensures Waiting(queue, rounds[..0], false) == queue
    {
    }

    static lemma NotClosed(rounds: seq<ManagerRound>)
      ensures ClosedBy(rounds[..0], false)
    {
    }

    static lemma ClosedStep(rounds: seq<ManagerRound>, n: nat, closing: bool)
      requires n < |rounds| && ClosedBy(rounds[..n], false)
      requires ClientGone(rounds[n]) ==> closing
      requires closing ==> ClientGone(rounds[n]) || (rounds[n].write && rounds[n].sent.SendBroken?)
      ensures ClosedBy(rounds[..n + 1], closing)
    {
      hide ClientGone;
      var now := rounds[..n + 1];
      assert now[..n] == rounds[..n] && now[n] == rounds[n];
      assert forall i | 0 <= i < n :: rounds[..n][i] == now[i];
    }

    static lemma WaitingStep(queue: Trace, rounds: seq<ManagerRound>, n: nat, waiting: Trace, closing: bool)
      requires n < |rounds| && waiting == Waiting(queue, rounds[..n], false)
      ensures var full := waiting + rounds[n].arrivals;
              Waiting(queue, rounds[..n + 1], closing) == full[if closing then 0 else Min(100, |full|)..]
    {
      hide Backlog;
      assert rounds[..n + 1][..n] == rounds[..n];
      BacklogStep(queue, rounds, n, RelayArrivals, 100);
    }

    /**
     The management thread from start to end. Of any valid stream each message is handed on once, in
     order, as soon as it is complete, routed to the relay it names and answered; the relays' messages
     are forwarded in order, a hundred in each turn as long as there are so many, and the client can
     read them all, and the answers, from what is written and pending. It is never caught in its
     receive loop by a valid stream; when it is, a wrong version is at the head; when it is not, it
     ends with the client's stream, tells its relays to close and wakes them.
     */
    method Run(rounds: seq<ManagerRound>, allot: nat -> Option<Port>) returns (stuck: bool, ghost n: nat)
      requires Valid() && State() == Connected()
      requires received == [] && written == [] && frames == [] && handed == [] && forwarded == []
      requires AllSendable(inboundData.items) && forall i | 0 <= i < |rounds| :: AllSendable(rounds[i].arrivals)
      modifies this`relays, this`created, this`sendq, this`recvq, this`writeEnabled, this`mask, this`closing,
               this`handed
      modifies this`received, this`written, this`frames, this`forwarded, this`made, this`outs, this`bells, outs,
               bells, made`atomicClose, inboundData
      ensures n <= |rounds| && (n < |rounds| ==> closing || stuck)
      ensures (writeEnabled <==> sendq != []) && mask == MaskFor(sendq != [])
      ensures received == Gathered(rounds[..n], ClientOctets)
      ensures HandedOn(received, handed, recvq) && forall m | m in handed :: PortsInRange(m)
      ensures Desk(relays.Keys, created, Queues()) == Routed(Desk({}, 0, map[]), handed, allot)
      ensures !stuck && n > 0 ==> TakenUp(recvq, relays.Keys, handed)
      ensures !stuck ==>
                && forwarded + inboundData.items == old(inboundData.items) + Gathered(rounds[..n], RelayArrivals)
                && inboundData.items == Waiting(old(inboundData.items), rounds[..n], closing)
      ensures !stuck ==>
                var (ms, left) := Drain(written + sendq);
                && left == [] && FromWires(ms) == forwarded
                && Others(ms) == AnswersTo(Desk({}, 0, map[]), handed, allot)
      ensures !stuck ==> ClosedBy(rounds[..n], closing)
      ensures stuck ==> BadVersionAhead(recvq)
      ensures (exists ms :: AllFrameable(ms) && received <= Frames(ms)) ==> !stuck
      ensures !stuck ==> forall p | p in relays ::
                relays[p].atomicClose && (relays[p].ownWakeup.capacity > 0 ==> relays[p].ownWakeup.pipe > 0)
    {
      hide Gathered, AllSendable, BadVersionAhead, HandedOn, Frames, AllFrameable, Told, TakenUp, ClosedBy, Waiting,
           Drain, FromWires, Others, AnswersTo, Routed, PortsInRange;
      StartsOrderly(allot);
      stuck, n := Loop(rounds, allot);
      ValidNotStuck(received, handed, recvq, stuck);
      if !stuck {
        ToldReads(frames, written + sendq, forwarded, AnswersTo(Desk({}, 0, map[]), handed, allot));
        CloseRelays();
      }
    }

    static lemma ValidNotStuck(received: Octets, handed: seq<Message>, recvq: Octets, stuck: bool)
      requires HandedOn(received, handed, recvq) && (stuck ==> BadVersionAhead(recvq))
      ensures (exists ms :: AllFrameable(ms) && received <= Frames(ms)) ==> !stuck
    {
      hide HandedOn, BadVersionAhead, Frames, AllFrameable;
      if ms :| AllFrameable(ms) && received <= Frames(ms) {
        HandedNotStuck(received, handed, recvq, ms);
      }
    }

    lemma StartsOrderly(allot: nat -> Option<Port>)
      requires State() == Connected() && received == [] && written == [] && frames == [] && handed == []
      requires forwarded == []
      ensures Orderly(allot) && Informed(allot)
    {
      HandedNothing();
      ToldNothing();
      assert Queues() == map[];
    }

    /** After the loop: every relay still in the table is told to close, and woken. */
    method CloseRelays()
      requires Valid()
      modifies made`atomicClose, bells
      ensures forall p | p in relays ::
                relays[p].atomicClose && (relays[p].ownWakeup.capacity > 0 ==> relays[p].ownWakeup.pipe > 0)
    {
      var left := relays.Keys;
      while left != {}
        invariant left <= relays.Keys
        invariant forall p | p in relays && p !in left ::
                    relays[p].atomicClose && (relays[p].ownWakeup.capacity > 0 ==> relays[p].ownWakeup.pipe > 0)
        decreases left
      {
        var p :| p in left;
        assert Known(p);
        relays[p].atomicClose := true;
        relays[p].ownWakeup.Wakeup();
        left := left - {p};
      }
    }

    static lemma RouteNothing(queues: map<Port, Trace>)
      ensures Route(queues, Nothing) == queues && Route(queues, Raised) == queues
    {
    }

    static lemma RouteStart(queues: map<Port, Trace>, p: Port)
      ensures Route(queues, Start(p)) == queues[p := []]
    {
    }

    static lemma RouteStep(queues: map<Port, Trace>, es: seq<Effect>, e: Effect)
      ensures RouteAll(queues, es + [e]) == Route(RouteAll(queues, es), e)
      decreases |es|
    {
      if es == [] {
        assert [e][1..] == [];
      } else {
        assert (es + [e])[1..] == es[1..] + [e];
        RouteStep(Route(queues, es[0]), es[1..], e);
      }
    }

    /**
     From `s` in `turns` iterations is, after the effects `es` and having handed on more, from `t` in `left`
     iterations.
     */
    static ghost predicate InStep(
      s: ManagerState, turns: nat, allot: nat -> Option<Port>, t: ManagerState, left: nat, es: seq<Effect>,
      before: seq<Message>, handed: seq<Message>)
    {
      var (last, rest, over) := t.Receive(left, allot);
      && s.Receive(turns, allot) == (last, es + rest, over)
      && before + Handed(s, turns, allot) == handed + Handed(t, left, allot)
    }

    static lemma InStepAtFirst(
        s: ManagerState, turns: nat, allot: nat -> Option<Port>, queues: map<Port, Trace>, before: seq<Message>)
      ensures InStep(s, turns, allot, s, turns, [], before, before) && RouteAll(queues, []) == queues
    {
      assert [] + s.Receive(turns, allot).1 == s.Receive(turns, allot).1;
    }

    static lemma InStepNext(
        s: ManagerState, turns: nat, allot: nat -> Option<Port>, t: ManagerState, left: nat, es: seq<Effect>,
        before: seq<Message>, handed: seq<Message>)
      requires InStep(s, turns, allot, t, left, es, before, handed) && t.recvq != [] && left > 0
      ensures var (u, e, c) := t.DecodeOne(allot);
              var got := if Deserialize(t.recvq).Got? then [Deserialize(t.recvq).msg] else [];
              if c == Leave
              then s.Receive(turns, allot) == (u, es + [e], true) && before + Handed(s, turns, allot) == handed + got
              else InStep(s, turns, allot, u, left - 1, es + [e], before, handed + got)
    {
      hide ManagerState.DecodeOne, Deserialize;
      var (u, e, c) := t.DecodeOne(allot);
      assert es + ([e] + u.Receive(left - 1, allot).1) == es + [e] + u.Receive(left - 1, allot).1;
      if Deserialize(t.recvq).Got? {
        var m := Deserialize(t.recvq).msg;
        assert handed + ([m] + Handed(u, left - 1, allot)) == handed + [m] + Handed(u, left - 1, allot);
        assert [m] + [] == [m];
      } else {
        FailedRelays(t, allot);
        assert handed + [] == handed;
      }
    }

    static lemma InStepAtLast(
        s: ManagerState, turns: nat, allot: nat -> Option<Port>, t: ManagerState, left: nat, es: seq<Effect>,
        before: seq<Message>, handed: seq<Message>)
      requires InStep(s, turns, allot, t, left, es, before, handed) && (t.recvq == [] || left == 0)
      ensures s.Receive(turns, allot) == (t, es, t.recvq == []) && before + Handed(s, turns, allot) == handed
    {
      assert es + [] == es && handed + [] == handed;
    }
  }
}
