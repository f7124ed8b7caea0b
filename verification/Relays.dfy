/** `Relay` and `RelayConnection`: the objects, proved against the state machine of RelayStates. */
module Relays {
  import opened Wire
  import opened Sessions
  import opened RelayStates
  import opened Queues
  import RelayProofs

  class RelayConnection {
    const sck: nat
    ghost const peer: Key  // the address it is filed under
    var writeEnabled: bool
    var sendq: Octets

    constructor (sck: nat, ghost peer: Key)
      ensures this.sck == sck && this.peer == peer && !writeEnabled && sendq == []
    {
      this.sck := sck;
      this.peer := peer;
      writeEnabled := false;
      sendq := [];
    }
  }

  class Relay {
    const identifyingPort: Port
    const inbound: MessageQueue    // to the manager
    const outbound: MessageQueue   // from the manager
    const mgmtWakeup: WakeupPair   // wakes the manager
    const ownWakeup: WakeupPair    // wakes this relay
    var connectionTable: map<Key, RelayConnection>
    var peers: map<nat, Key>       // what getpeername answers for each open descriptor
    var selector: map<Sock, Mask>
    var gauge: int                 // this relay's own part of ACTIVE_CONNECTIONS
    var atomicClose: bool
    ghost var emitted: Trace       // histories: put on the inbound queue,
    ghost var taken: Trace         // taken off the outbound queue;
    ghost var strayed: bool        // the last of these was for an address not in the table

    ghost var table: map<Key, Conn>  // the connection table by value

    ghost predicate Valid()
      reads this`connectionTable, this`table, connectionTable.Values
    {
      && inbound != outbound && mgmtWakeup != ownWakeup
      && connectionTable.Keys == table.Keys
      && forall k | k in connectionTable :: Filed(connectionTable[k], k)
    }

    /** The object filed under `k` is the connection of that address. */
    ghost predicate Filed(con: RelayConnection, k: Key)
      reads this`table, con
      requires k in table
    {
      con.peer == k && table[k] == Conn(con.sck, con.sendq, con.writeEnabled)
    }

    ghost function State(): RelayState
      reads this`table, this`peers, this`selector, this`gauge, this`atomicClose
    {
      RelayState(identifyingPort, table, peers, selector, gauge, atomicClose)
    }

    /** The relay is now as told, and has put the told messages on its queue, each with a wake-up, and nothing else. */
    ghost predicate Did(effect: (RelayState, Trace), emittedBefore: Trace, inboundBefore: Trace, pipeBefore: nat)
      reads this, inbound, mgmtWakeup, connectionTable.Values
    {
      && Valid() && State() == effect.0
      && emitted == emittedBefore + effect.1 && inbound.items == inboundBefore + effect.1
      && mgmtWakeup.pipe == Nudges(pipeBefore, mgmtWakeup.capacity, |effect.1|)
    }

    constructor (port: Port, inbound: MessageQueue, outbound: MessageQueue, mgmtWakeup: WakeupPair,
        ownWakeup: WakeupPair)
      requires inbound != outbound && mgmtWakeup != ownWakeup
      ensures Valid() && this.inbound == inbound && this.outbound == outbound && emitted == [] && taken == []
      ensures identifyingPort == port && this.mgmtWakeup == mgmtWakeup && this.ownWakeup == ownWakeup
      ensures State() == Opened(port).(selector := map[WakeupReader := ReadOnly])
    {
      identifyingPort := port;
      this.inbound, this.outbound, this.mgmtWakeup, this.ownWakeup := inbound, outbound, mgmtWakeup, ownWakeup;
      connectionTable, table, peers, gauge, atomicClose, emitted := map[], map[], map[], 0, false, [];
      taken, strayed := [], false;
      selector := map[WakeupReader := ReadOnly];
    }

    method EnqueueInbound(q: Queued)
      modifies this`emitted, inbound, mgmtWakeup
      ensures inbound.items == old(inbound.items) + [q] && emitted == old(emitted) + [q]
      ensures mgmtWakeup.pipe == Nudged(old(mgmtWakeup.pipe), mgmtWakeup.capacity)
    {
      inbound.Put(q);
      emitted := emitted + [q];
      mgmtWakeup.Wakeup();
    }

    /** Called by the manager's thread. */
    method EnqueueOutbound(q: Queued)
      modifies outbound, ownWakeup
      ensures outbound.items == old(outbound.items) + [q]
      ensures ownWakeup.pipe == Nudged(old(ownWakeup.pipe), ownWakeup.capacity)
    {
      outbound.Put(q);
      ownWakeup.Wakeup();
    }

    method AcceptInboundConnection(k: Key, id: nat)
      requires Valid()
      modifies this`connectionTable, this`table, this`peers, this`selector, this`gauge, this`emitted, inbound,
               mgmtWakeup
      ensures Did(old(State().Accept(k, id)), old(emitted), old(inbound.items), old(mgmtWakeup.pipe))
      ensures fresh(connectionTable.Values - old(connectionTable.Values))
    {
      FileConnection(k, id);
      EnqueueInbound(Queued(NewSession, k, [], identifyingPort));
      gauge := gauge + 1;
    }

    /** The new connection goes into the table and the selector. */
    method FileConnection(k: Key, id: nat)
      requires Valid()
      modifies this`connectionTable, this`table, this`peers, this`selector
      ensures Valid() && fresh(connectionTable.Values - old(connectionTable.Values))
      ensures table == old(table)[k := Conn(id, [], false)] && peers == old(peers)[id := k]
      ensures selector == old(selector)[Peer(id) := ReadOnly]
    {
      var conn := new RelayConnection(id, k);
      connectionTable, table := connectionTable[k := conn], table[k := Conn(id, [], false)];
      peers := peers[id := k];
      selector := selector[Peer(id) := ReadOnly];
    }

    /** False stands for the KeyError of an address that is not in the table. */
    method CleanUpConnection(k: Key) returns (known: bool)
      requires Valid()
      modifies this`connectionTable, this`table, this`peers, this`selector, this`gauge, this`emitted, inbound,
               mgmtWakeup
      ensures (known <==> k in old(table)) && k !in table
      ensures known ==> Did(old(State()).CleanUp(k), old(emitted), old(inbound.items), old(mgmtWakeup.pipe))
      ensures !known ==> Did((old(State()), []), old(emitted), old(inbound.items), old(mgmtWakeup.pipe))
      ensures connectionTable.Values <= old(connectionTable.Values)
    {
      if k !in connectionTable {
        return false;
      }
      var con := connectionTable[k];
      EnqueueInbound(Queued(CloseSession, k, [], identifyingPort));
      connectionTable, table := connectionTable - {k}, table - {k};
      selector := selector - {Peer(con.sck)};
      peers := peers - {con.sck};
      gauge := gauge - 1;
      known := true;
    }

    /** `n` octets of a connection's buffer have been sent. */
    method Flush(k: Key, n: nat)
      requires Valid() && k in connectionTable && n <= |table[k].sendq| && table[k].sendq != []
      modifies this`table, this`selector, connectionTable[k]
      ensures Valid() && State() == old(State().WriteReady(k, Sent(n))).0 && old(State().WriteReady(k, Sent(n))).1 == []
    {
      var con := connectionTable[k];
      con.sendq := con.sendq[n..];
      if con.sendq == [] {
        con.writeEnabled := false;
        selector := selector[Peer(con.sck) := ReadOnly];
      }
      table := table[k := Conn(con.sck, con.sendq, con.writeEnabled)];
      forall j | j in connectionTable
        ensures Filed(connectionTable[j], j)
      {
        assert old(Filed(connectionTable[j], j));
      }
    }

    /** The EVENT_WRITE half of `handle_socket`; true tells that the callback returns here. */
    method WriteReady(k: Key, r: SendResult) returns (broken: bool)
      requires Valid() && State().CanSend(k, r)
      modifies this`connectionTable, this`table, this`peers, this`selector, this`gauge, this`emitted, inbound,
               mgmtWakeup
      modifies connectionTable[k]
      ensures Did(old(State().WriteReady(k, r)), old(emitted), old(inbound.items), old(mgmtWakeup.pipe))
      ensures broken <==> k !in table
      ensures connectionTable.Values <= old(connectionTable.Values)
    {
      hide RelayState.CleanUp;
      broken := false;
      if connectionTable[k].sendq != [] {
        match r {
          case Sent(n) =>
            Flush(k, n);
          case SendBroken =>
            var known := CleanUpConnection(k);
            broken := true;
          case SendWouldBlock =>
        }
      }
    }

    /** The EVENT_READ half of `handle_socket`. */
    method ReadReady(k: Key, r: RecvResult)
      requires Valid() && k in table && Readable(r)
      modifies this`connectionTable, this`table, this`peers, this`selector, this`gauge, this`emitted, inbound,
               mgmtWakeup
      ensures Did(old(State().ReadReady(k, r)), old(emitted), old(inbound.items), old(mgmtWakeup.pipe))
      ensures connectionTable.Values <= old(connectionTable.Values)
    {
      if r.RecvBroken? || r.data == [] {
        var known := CleanUpConnection(k);
      } else {
        EnqueueInbound(Queued(Payload, k, r.data, identifyingPort));
      }
    }

    method HandleSocket(id: nat, write: bool, read: bool, s: SendResult, r: RecvResult)
      requires Valid() && id in peers && State().CanSend(peers[id], s) && Readable(r)
      modifies this`connectionTable, this`table, this`peers, this`selector, this`gauge, this`emitted, inbound,
               mgmtWakeup
      modifies connectionTable[peers[id]]
      ensures Did(old(State().HandleSocket(id, write, read, s, r)), old(emitted), old(inbound.items),
              old(mgmtWakeup.pipe))
      ensures connectionTable.Values <= old(connectionTable.Values)
    {
      hide RelayState.CleanUp, RelayState.WriteReady, RelayState.ReadReady, Valid;
      var k := peers[id];
      if write {
        var broken := WriteReady(k, s);
        if broken {
          return;
        }
      }
      ghost var mid, sofar := State(), if write then old(State()).WriteReady(k, s).1 else [];
      assert emitted == old(emitted) + sofar && inbound.items == old(inbound.items) + sofar;
      if read {
        ReadReady(k, r);
        assert old(emitted) + sofar + mid.ReadReady(k, r).1 == old(emitted) + (sofar + mid.ReadReady(k, r).1);
        assert old(inbound.items) + sofar + mid.ReadReady(k, r).1 == old(inbound.items) + (sofar + mid.ReadReady(k,
            r).1);
      }
    }

    /** Acting on one entry of the outbound queue. */
    method TakeOutbound(q: Queued) returns (v: Verdict)
      requires Valid()
      modifies this`connectionTable, this`table, this`peers, this`selector, this`gauge, this`atomicClose, this`emitted
      modifies this`strayed, inbound, mgmtWakeup, connectionTable.Values
      ensures var (r, out, w) := old(State().TakeOutbound(q));
              Did((r, out), old(emitted), old(inbound.items), old(mgmtWakeup.pipe)) && v == w
      ensures strayed == (q.key !in old(table)) && (v != Processed ==> strayed || atomicClose)
      ensures connectionTable.Values <= old(connectionTable.Values)
    {
      hide RelayState.CleanUp;
      strayed := q.key !in connectionTable;
      if q.key !in connectionTable {
        return UnknownKey;
      }
      match q.kind {
        case Payload =>
          Append(q);
          v := Processed;
        case CloseSession =>
          var known := CleanUpConnection(q.key);
          v := Processed;
        case NewSession =>
          atomicClose := true;
          v := InvalidType;
      }
    }

    /** Data for a connection in the table; the first pending octets arm EVENT_WRITE. */
    method Append(q: Queued)
      requires Valid() && q.kind == Payload && q.key in connectionTable
      modifies this`table, this`selector, connectionTable[q.key]
      ensures Valid() && State() == old(State().TakeOutbound(q).0)
    {
      var con := connectionTable[q.key];
      con.sendq := con.sendq + q.data;
      if !con.writeEnabled {
        con.writeEnabled := true;
        selector := selector[Peer(con.sck) := ReadWrite];
      }
      table := table[q.key := Conn(con.sck, con.sendq, con.writeEnabled)];
      forall j | j in connectionTable
        ensures Filed(connectionTable[j], j)
      {
        assert old(Filed(connectionTable[j], j));
      }
    }

    /** Taking the oldest entry and acting on it. */
    method TakeNext() returns (v: Verdict)
      requires Valid() && outbound.items != []
      modifies this`connectionTable, this`table, this`peers, this`selector, this`gauge, this`atomicClose, this`emitted
      modifies this`taken, this`strayed, inbound, mgmtWakeup, outbound, connectionTable.Values
      ensures var (r, out, w) := old(State().TakeOutbound(outbound.items[0]));
              Did((r, out), old(emitted), old(inbound.items), old(mgmtWakeup.pipe)) && v == w
      ensures outbound.items == old(outbound.items)[1..]
      ensures taken + outbound.items == old(taken + outbound.items) && (v != Processed ==> strayed || atomicClose)
      ensures connectionTable.Values <= old(connectionTable.Values)
    {
      hide RelayState.TakeOutbound, Filed;
      MoveAcross(taken, outbound.items);
      var q := outbound.GetNowait();
      taken := taken + [q.value];
      v := TakeOutbound(q.value);
    }

    /** The drain of the outbound queue in `open`; an unknown address or a bad kind ends it early. */
    method DrainOutbound() returns (v: Verdict)
      requires Valid()
      modifies this`connectionTable, this`table, this`peers, this`selector, this`gauge, this`atomicClose, this`emitted
      modifies this`taken, this`strayed, inbound, mgmtWakeup, outbound, connectionTable.Values
      ensures var (r, out, left, w) := old(State().DrainOutbound(outbound.items));
              Did((r, out), old(emitted), old(inbound.items), old(mgmtWakeup.pipe)) && outbound.items == left && v == w
      ensures taken + outbound.items == old(taken + outbound.items)
      ensures outbound.items != [] ==> atomicClose || strayed
      ensures connectionTable.Values <= old(connectionTable.Values)
    {
      hide RelayState.TakeOutbound, RelayState.DrainOutbound, Filed;
      ghost var state0, queue0 := State(), outbound.items;
      ghost var out: Trace := [];
      v := Processed;
      assert [] + state0.DrainOutbound(queue0).1 == state0.DrainOutbound(queue0).1;
      while outbound.items != [] && !atomicClose
        invariant Valid() && v == Processed && connectionTable.Values <= old(connectionTable.Values)
        invariant emitted == old(emitted) + out && inbound.items == old(inbound.items) + out
        invariant mgmtWakeup.pipe == Nudges(old(mgmtWakeup.pipe), mgmtWakeup.capacity, |out|)
        invariant taken + outbound.items == old(taken + outbound.items)
        invariant var (r, more, left, w) := State().DrainOutbound(outbound.items);
                  state0.DrainOutbound(queue0) == (r, out + more, left, w)
        decreases |outbound.items|
      {
        ghost var before := State();
        ghost var q := outbound.items[0];
        RelayProofs.DrainStep(before, outbound.items, out);
        v := TakeNext();
        out := out + before.TakeOutbound(q).1;
        if v != Processed {
          return;
        }
      }
      RelayProofs.DrainNone(State(), outbound.items, out);
    }

    /** One event; the conditions are what the kernel guarantees of the events it reports. */
    method Dispatch(e: Ready)
      requires Valid()
      modifies this`connectionTable, this`table, this`peers, this`selector, this`gauge, this`emitted
      modifies inbound, mgmtWakeup, ownWakeup, connectionTable.Values
      ensures Did(old(State()).Handle(e), old(emitted), old(inbound.items), old(mgmtWakeup.pipe))
      ensures ownWakeup.pipe == if e.Woken? then 0 else old(ownWakeup.pipe)
      ensures fresh(connectionTable.Values - old(connectionTable.Values))
    {
      hide RelayState.CleanUp, RelayState.Accept, RelayState.HandleSocket;
      match e {
        case Connecting(k, id) =>
          if id !in peers {
            AcceptInboundConnection(k, id);
          }
        case Traffic(id, write, read, send, recv) =>
          if id in peers && peers[id] in connectionTable && Readable(recv) {
            assert Filed(connectionTable[peers[id]], peers[id]);
            if send.Sent? ==> send.n <= |connectionTable[peers[id]].sendq| {
              HandleSocket(id, write, read, send, recv);
            }
          }
        case Woken =>
          ownWakeup.HandleWakeup(true);
      }
    }

    /** `for key, mask in events: callback(key.fileobj, mask)`. */
    method Serve(ready: seq<Ready>)
      requires Valid()
      modifies this`connectionTable, this`table, this`peers, this`selector, this`gauge, this`emitted
      modifies inbound, mgmtWakeup, ownWakeup, connectionTable.Values
      ensures Did(old(State()).Serve(ready), old(emitted), old(inbound.items), old(mgmtWakeup.pipe))
      ensures ownWakeup.pipe == if Woken in ready then 0 else old(ownWakeup.pipe)
      ensures fresh(connectionTable.Values - old(connectionTable.Values))
    {
      hide RelayState.Handle, Valid;
      ghost var state0 := State();
      ghost var out: Trace := [];
      assert [] + state0.Serve(ready).1 == state0.Serve(ready).1 && ready[0..] == ready;
      for i := 0 to |ready|
        invariant Valid() && fresh(connectionTable.Values - old(connectionTable.Values))
        invariant emitted == old(emitted) + out && inbound.items == old(inbound.items) + out
        invariant mgmtWakeup.pipe == Nudges(old(mgmtWakeup.pipe), mgmtWakeup.capacity, |out|)
        invariant ownWakeup.pipe == if Woken in ready[..i] then 0 else old(ownWakeup.pipe)
        invariant state0.Serve(ready) == (State().Serve(ready[i..]).0, out + State().Serve(ready[i..]).1)
      {
        ghost var before, sofar := State(), out;
        Dispatch(ready[i]);
        out := out + before.Handle(ready[i]).1;
        assert ready[i..][1..] == ready[i + 1..] && ready[..i + 1] == ready[..i] + [ready[i]];
        ghost var rest := State().Serve(ready[i + 1..]).1;
        assert sofar + (before.Handle(ready[i]).1 + rest) == sofar + before.Handle(ready[i]).1 + rest;
      }
      assert ready[..|ready|] == ready;
    }

    /** What the other threads do to this relay while it is in `select`. */
    method Meanwhile(arrivals: Trace, stop: bool)
      requires Valid()
      modifies outbound, ownWakeup, this`atomicClose
      ensures Valid() && outbound.items == old(outbound.items) + arrivals && atomicClose == (old(atomicClose) || stop)
      ensures ownWakeup.pipe == Nudges(old(ownWakeup.pipe), ownWakeup.capacity, |arrivals|)
    {
      for i := 0 to |arrivals|
        invariant outbound.items == old(outbound.items) + arrivals[..i] && atomicClose == old(atomicClose)
        invariant ownWakeup.pipe == Nudges(old(ownWakeup.pipe), ownWakeup.capacity, i)
      {
        EnqueueOutbound(arrivals[i]);
        assert arrivals[..i + 1] == arrivals[..i] + [arrivals[i]];
      }
      assert arrivals[..|arrivals|] == arrivals;
      atomicClose := atomicClose || stop;
    }

    /**
     One turn of the loop: every callback, and then the entries of the outbound queue, all of them
     unless the relay is told to stop or meets one for an address that is not there.
     */
    method Turn(round: Round)
      requires Valid()
      modifies this`connectionTable, this`table, this`peers, this`selector, this`gauge, this`atomicClose, this`emitted
      modifies this`taken, this`strayed, inbound, mgmtWakeup, outbound, ownWakeup, connectionTable.Values
      ensures var (r, out, left) := old(State().Turn(outbound.items, round));
              Did((r, out), old(emitted), old(inbound.items), old(mgmtWakeup.pipe)) && outbound.items == left
      ensures var (mid, said) := old(State()).Serve(round.ready);
              && old(emitted) + said <= emitted
              && RelayProofs.Drained(mid.(atomicClose := mid.atomicClose || round.stop),
                                     old(outbound.items) + round.arrivals, State(), emitted[|old(emitted) + said|..],
                                     outbound.items)
      ensures taken + outbound.items == old(taken + outbound.items) + round.arrivals
      ensures outbound.items != [] ==> atomicClose || strayed
      ensures var pipe := if Woken in round.ready then 0 else old(ownWakeup.pipe);
              ownWakeup.pipe == Nudges(pipe, ownWakeup.capacity, |round.arrivals|)
      ensures fresh(connectionTable.Values - old(connectionTable.Values))
    {
      hide RelayState.Serve, RelayState.DrainOutbound, Valid, RelayProofs.Drained;
      ghost var before, queue := State(), outbound.items;
      RelayProofs.TurnTakes(before, queue, round);
      Serve(round.ready);
      ghost var out := before.Serve(round.ready).1;
      Meanwhile(round.arrivals, round.stop);
      ghost var more := State().DrainOutbound(outbound.items).1;
      var v := DrainOutbound();
      InTwo(old(emitted), out, more);
      InTwo(old(inbound.items), out, more);
      InTwo(old(taken), queue, round.arrivals);
    }

    static lemma InTwo(before: Trace, first: Trace, second: Trace)
      ensures before + first + second == before + (first + second) && (first + second)[|first|..] == second
      ensures before + first <= before + first + second && (before + first + second)[|before + first|..] == second
    {
    }

    /** The clean-up after the loop, over the listed keys. */
    method CloseAll(order: seq<Key>)
      requires Valid() && State().CanClose(order)
      modifies this`connectionTable, this`table, this`peers, this`selector, this`gauge, this`emitted, inbound,
               mgmtWakeup
      ensures Did(old(State()).CloseAll(order), old(emitted), old(inbound.items), old(mgmtWakeup.pipe))
    {
      hide RelayState.CleanUp, RelayState.CloseAll, RelayState.CanClose, Filed;
      ghost var state0 := State();
      ghost var out: Trace := [];
      assert [] + state0.CloseAll(order).1 == state0.CloseAll(order).1 && order[0..] == order;
      for i := 0 to |order|
        invariant Valid() && State().CanClose(order[i..])
        invariant emitted == old(emitted) + out && inbound.items == old(inbound.items) + out
        invariant mgmtWakeup.pipe == Nudges(old(mgmtWakeup.pipe), mgmtWakeup.capacity, |out|)
        invariant state0.CloseAll(order) == (State().CloseAll(order[i..]).0, out + State().CloseAll(order[i..]).1)
      {
        ghost var before := State();
        RelayProofs.CloseAllStep(before, order[i..], out);
        assert order[i..][0] == order[i] && order[i..][1..] == order[i + 1..];
        var known := CleanUpConnection(order[i]);
        out := out + before.CleanUp(order[i]).1;
      }
      RelayProofs.CloseNone(State());
      assert out + [] == out;
    }

    /** The same turn, as far as the loop looks at it. */
    method Next(round: Round)
      requires Valid()
      modifies this`connectionTable, this`table, this`peers, this`selector, this`gauge, this`atomicClose, this`emitted
      modifies this`taken, this`strayed, inbound, mgmtWakeup, outbound, ownWakeup, connectionTable.Values
      ensures var (r, out, left) := old(State().Turn(outbound.items, round));
              Did((r, out), old(emitted), old(inbound.items), old(mgmtWakeup.pipe)) && outbound.items == left
      ensures taken + outbound.items == old(taken + outbound.items) + round.arrivals
      ensures outbound.items != [] ==> atomicClose || strayed
      ensures fresh(connectionTable.Values - old(connectionTable.Values))
    {
      hide RelayState.Turn, RelayState.Serve, RelayProofs.Drained;
      Turn(round);
    }

    /** The loop of `open`. */
    method Loop(rounds: seq<Round>) returns (ghost n: nat)
      requires Valid()
      modifies this`connectionTable, this`table, this`peers, this`selector, this`gauge, this`atomicClose, this`emitted
      modifies this`taken, this`strayed, inbound, mgmtWakeup, outbound, ownWakeup, connectionTable.Values
      ensures var (r, out, left) := old(State().Loop(outbound.items, rounds));
              Did((r, out), old(emitted), old(inbound.items), old(mgmtWakeup.pipe)) && outbound.items == left
      ensures n <= |rounds| && (n < |rounds| ==> atomicClose)
      ensures taken + outbound.items == old(taken + outbound.items) + Gathered(rounds[..n], RoundArrivals)
      ensures n > 0 && outbound.items != [] ==> atomicClose || strayed
      ensures fresh(connectionTable.Values - old(connectionTable.Values))
    {
      hide RelayState.Turn, RelayState.Loop, Filed, Gathered;
      ghost var state0, queue0 := State(), outbound.items;
      ghost var out: Trace := [];
      n := 0;
      assert [] + state0.Loop(queue0, rounds).1 == state0.Loop(queue0, rounds).1 && rounds[0..] == rounds;
      NothingGathered(rounds, RoundArrivals, taken + outbound.items);
      var i := 0;
      while i < |rounds| && !atomicClose
        invariant i == n <= |rounds| && Valid() && fresh(connectionTable.Values - old(connectionTable.Values))
        invariant emitted == old(emitted) + out && inbound.items == old(inbound.items) + out
        invariant mgmtWakeup.pipe == Nudges(old(mgmtWakeup.pipe), mgmtWakeup.capacity, |out|)
        invariant taken + outbound.items == old(taken + outbound.items) + Gathered(rounds[..n], RoundArrivals)
        invariant n > 0 && outbound.items != [] ==> atomicClose || strayed
        invariant var (r, more, left) := State().Loop(outbound.items, rounds[i..]);
                  state0.Loop(queue0, rounds) == (r, out + more, left)
      {
        ghost var before, queue := State(), outbound.items;
        RelayProofs.LoopStep(before, queue, rounds[i..], out);
        GatheredStep(rounds, n, RoundArrivals, old(taken + outbound.items));
        Next(rounds[i]);
        out := out + before.Turn(queue, rounds[i]).1;
        assert rounds[i..][1..] == rounds[i + 1..];
        i, n := i + 1, n + 1;
      }
      RelayProofs.LoopNone(State(), outbound.items, rounds[i..], out);
    }

    method LoopThenCleanUp(rounds: seq<Round>) returns (order: seq<Key>, ghost n: nat)
      requires Valid()
      modifies this`connectionTable, this`table, this`peers, this`selector, this`gauge, this`atomicClose, this`emitted
      modifies this`taken, this`strayed, inbound, mgmtWakeup, outbound, ownWakeup, connectionTable.Values
      ensures var (r, out, left) := old(State().Loop(outbound.items, rounds));
              && Lists(order, r.table.Keys) && r.CanClose(order) && outbound.items == left
              && Did((r.CloseAll(order).0, out + r.CloseAll(order).1), old(emitted), old(inbound.items),
                 old(mgmtWakeup.pipe))
      ensures n <= |rounds| && (n < |rounds| ==> atomicClose)
      ensures taken + outbound.items == old(taken + outbound.items) + Gathered(rounds[..n], RoundArrivals)
      ensures n > 0 && outbound.items != [] ==> atomicClose || strayed
    {
      hide RelayState.Loop, RelayState.CloseAll, RelayState.CanClose, Lists, Filed, Gathered;
      n := Loop(rounds);
      ghost var last, out := State(), old(State().Loop(outbound.items, rounds)).1;
      order := ListKeys(connectionTable.Keys);
      RelayProofs.ListedCanClose(last, order);
      CloseAll(order);
      ghost var more := last.CloseAll(order).1;
      assert old(emitted) + out + more == old(emitted) + (out + more);
      assert old(inbound.items) + out + more == old(inbound.items) + (out + more);
    }

    /**
     The relay's thread, from `listen` to the end. What it has put on the queue is a run of whole
     sessions if and only if no accept returned an address still in the table; and it has taken all
     that the manager queued for it, unless it is told to stop or has just met an entry for an address
     that was not there.
     */
    method Run(rounds: seq<Round>) returns (order: seq<Key>, ghost n: nat)
      requires Valid() && emitted == [] && taken == []
               && State() == Opened(identifyingPort).(selector := map[WakeupReader := ReadOnly])
      modifies this`connectionTable, this`table, this`peers, this`selector, this`gauge, this`atomicClose, this`emitted
      modifies this`taken, this`strayed, inbound, mgmtWakeup, outbound, ownWakeup, connectionTable.Values
      ensures Valid() && inbound.items == old(inbound.items) + emitted
      ensures n <= |rounds| && (n < |rounds| ==> atomicClose)
      ensures taken + outbound.items == old(outbound.items) + Gathered(rounds[..n], RoundArrivals)
      ensures n > 0 && outbound.items != [] ==> atomicClose || strayed
      ensures mgmtWakeup.pipe == Nudges(old(mgmtWakeup.pipe), mgmtWakeup.capacity, |emitted|)
      ensures var (r, out, left) := Opened(identifyingPort).Loop(old(outbound.items), rounds);
              && Lists(order, r.table.Keys) && r.CanClose(order)
              && State() == r.CloseAll(order).0 && emitted == out + r.CloseAll(order).1 && outbound.items == left
      ensures Grammatical(emitted) <==> RelayProofs.FreshLoop(Opened(identifyingPort), old(outbound.items), rounds)
      ensures Grammatical(emitted) ==>
                && (forall k :: Count(emitted, NewSession, k) == Count(emitted, CloseSession, k) && WordOf(emitted, k))
                && connectionTable.Keys == {} && gauge == 0 && selector.Keys == {WakeupReader, Listener}
    {
      hide RelayState.Loop, RelayState.CloseAll, RelayState.CanClose, RelayProofs.FreshLoop, Lists, Filed, Gathered;
      selector := selector[Listener := ReadOnly];
      ghost var queue0 := outbound.items;
      assert State() == Opened(identifyingPort);
      order, n := LoopThenCleanUp(rounds);
      assert [] + emitted == emitted && [] + queue0 == queue0;
      RelayProofs.WholeRun(identifyingPort, queue0, rounds, order, State(), emitted);
    }
  }
}
