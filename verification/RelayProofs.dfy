/** Every run of a relay: session grammar, one CLOSE per session, agreement of its books. */
module RelayProofs {
  import opened Wire
  import opened Sessions
  import opened RelayStates

  /** A callback of the loop, or one entry taken off the outbound queue. */
  datatype Event =
    | Accepted(k: Key, id: nat)
    | SocketReady(id: nat, write: bool, read: bool, send: SendResult, recv: RecvResult)
    | Outbound(q: Queued)

  /** Descriptors are new; a peer is not accepted again while its key is in the table. */
  predicate Enabled(r: RelayState, e: Event) {
    match e
    case Accepted(k, id) => k !in r.table && id !in r.peers
    case SocketReady(id, _, _, send, recv) => id in r.peers && r.CanSend(r.peers[id], send) && Readable(recv)
    case Outbound(_) => true
  }

  function Step(r: RelayState, e: Event): (RelayState, Trace)
    requires Enabled(r, e)
  {
    match e
    case Accepted(k, id) => r.Accept(k, id)
    case SocketReady(id, write, read, send, recv) => r.HandleSocket(id, write, read, send, recv)
    case Outbound(q) => var (s, out, _) := r.TakeOutbound(q); (s, out)
  }

  predicate IsRun(r: RelayState, es: seq<Event>)
    decreases |es|
  {
    es == [] || (Enabled(r, es[0]) && IsRun(Step(r, es[0]).0, es[1..]))
  }

  function Run(r: RelayState, es: seq<Event>): (RelayState, Trace)
    requires IsRun(r, es)
    decreases |es|
  {
    if es == [] then (r, [])
    else
      var (s, out) := Step(r, es[0]);
      var (last, more) := Run(s, es[1..]);
      (last, out + more)
  }

  lemma AcceptAgrees(r: RelayState, k: Key, id: nat)
    requires r.Agrees() && k !in r.table && id !in r.peers
    ensures r.Accept(k, id).0.Agrees()
  {
    var s := r.Accept(k, id).0;
    forall j | j in s.table
      ensures s.Armed(j)
    {
      assert j != k ==> r.Armed(j);
    }
    forall i | i in s.peers
      ensures s.Open(i)
    {
      assert i != id ==> r.Open(i);
    }
    assert forall x | x in r.selector :: r.Known(x) ==> s.Known(x);
  }

  lemma AcceptKeeps(r: RelayState, t: Trace, k: Key, id: nat)
    requires r.Tells(t) && k !in r.table && id !in r.peers
    ensures r.Accept(k, id).0.Tells(t + r.Accept(k, id).1)
  {
    hide RelayState.Agrees;
    AcceptAgrees(r, k, id);
    Append(t, r.Accept(k, id).1[0]);
  }

  /** An address still in the table would be entered twice: the grammar breaks exactly then. */
  lemma AcceptKeepsGrammarIffAbsent(r: RelayState, t: Trace, k: Key, id: nat)
    requires r.Tells(t)
    ensures Grammatical(t + r.Accept(k, id).1) <==> k !in r.table
  {
    hide RelayState.Agrees;
    Append(t, r.Accept(k, id).1[0]);
  }

  lemma CleanUpAgrees(r: RelayState, k: Key)
    requires r.Agrees() && k in r.table
    ensures r.CleanUp(k).0.Agrees() && r.CleanUp(k).0.table.Keys == r.table.Keys - {k}
  {
    var s := r.CleanUp(k).0;
    assert r.Armed(k);
    assert s.table.Keys == r.table.Keys - {k};
    forall j | j in s.table
      ensures s.Armed(j)
    {
      assert r.Armed(j);
    }
    forall i | i in s.peers
      ensures s.Open(i)
    {
      assert r.Open(i);
    }
    assert forall x | x in s.selector :: r.Known(x) ==> s.Known(x);
  }

  lemma CleanUpKeeps(r: RelayState, t: Trace, k: Key)
    requires r.Tells(t) && k in r.table
    ensures r.CleanUp(k).0.Tells(t + r.CleanUp(k).1)
    ensures r.CleanUp(k).0.table.Keys == r.table.Keys - {k}
  {
    hide RelayState.Agrees;
    CleanUpAgrees(r, k);
    Append(t, r.CleanUp(k).1[0]);
  }

  /** Replacing one connection's buffer, with the mask its flag asks for. */
  function Rearmed(r: RelayState, k: Key, con: Conn): RelayState {
    r.(table := r.table[k := con], selector := r.selector[Peer(con.sck) := MaskFor(con.writeEnabled)])
  }

  lemma RearmAgrees(r: RelayState, k: Key, con: Conn)
    requires r.Agrees() && k in r.table && con.sck == r.table[k].sck
    requires con.sendq != [] ==> con.writeEnabled
    ensures Rearmed(r, k, con).Agrees()
  {
    var s := Rearmed(r, k, con);
    assert s.table.Keys == r.table.Keys;
    assert r.Armed(k);
    forall j | j in s.table
      ensures s.Armed(j)
    {
      assert r.Armed(j);
    }
    forall i | i in s.peers
      ensures s.Open(i)
    {
      assert r.Open(i);
    }
    forall x | x in s.selector
      ensures s.Known(x)
    {
      assert x in r.selector ==> r.Known(x);
    }
  }

  lemma RearmKeeps(r: RelayState, t: Trace, k: Key, con: Conn)
    requires r.Tells(t) && k in r.table && con.sck == r.table[k].sck
    requires con.sendq != [] ==> con.writeEnabled
    ensures Rearmed(r, k, con).Tells(t) && Rearmed(r, k, con).table.Keys == r.table.Keys
  {
    hide RelayState.Agrees;
    RearmAgrees(r, k, con);
  }

  lemma MaskKnown(r: RelayState, k: Key, con: Conn)
    requires r.Agrees() && k in r.table && con.sck == r.table[k].sck && con.writeEnabled == r.table[k].writeEnabled
    ensures Rearmed(r, k, con) == r.(table := r.table[k := con])
  {
    assert r.Armed(k);
  }

  predicate AtMostClose(out: Trace, k: Key, port: Port) {
    out == [] || out == [Queued(CloseSession, k, [], port)]
  }

  lemma WriteKeeps(r: RelayState, t: Trace, k: Key, res: SendResult)
    requires r.Tells(t) && r.CanSend(k, res)
    ensures var (s, out) := r.WriteReady(k, res);
            s.Tells(t + out) && s.port == r.port && AtMostClose(out, k, r.port)
  {
    var con := r.table[k];
    assert t + [] == t;
    if con.sendq != [] && res.SendBroken? {
      CleanUpKeeps(r, t, k);
    } else if con.sendq != [] && res.Sent? {
      assert r.Armed(k);
      assert r.Agrees();
      hide RelayState.Tells, RelayState.Agrees;
      var now := con.(sendq := con.sendq[res.n..], writeEnabled := res.n < |con.sendq|);
      RearmKeeps(r, t, k, now);
      if now.writeEnabled {
        MaskKnown(r, k, now);
      }
    }
  }

  lemma ReadKeeps(r: RelayState, t: Trace, k: Key, res: RecvResult)
    requires r.Tells(t) && k in r.table && Readable(res)
    ensures var (s, out) := r.ReadReady(k, res); s.Tells(t + out)
  {
    hide RelayState.Agrees;
    assert t + [] == t;
    if res == Received([]) || res.RecvBroken? {
      CleanUpKeeps(r, t, k);
    } else {
      Append(t, Queued(Payload, k, res.data, r.port));
    }
  }

  lemma SocketKeeps(r: RelayState, t: Trace, id: nat, write: bool, read: bool, send: SendResult, recv: RecvResult)
    requires r.Tells(t) && id in r.peers && r.CanSend(r.peers[id], send) && Readable(recv)
    ensures var (s, out) := r.HandleSocket(id, write, read, send, recv); s.Tells(t + out)
  {
    hide RelayState.Tells, RelayState.Agrees, RelayState.WriteReady, RelayState.ReadReady;
    var k := r.peers[id];
    assert t + [] == t;
    if write {
      WriteKeeps(r, t, k, send);
    }
    var (mid, out) := if write then r.WriteReady(k, send) else (r, []);
    if read && k in mid.table {
      ReadKeeps(mid, t + out, k, recv);
      assert t + out + mid.ReadReady(k, recv).1 == t + (out + mid.ReadReady(k, recv).1);
    }
  }

  /** An entry for an unknown key, a CLOSE that crossed the relay's own for one, changes no session. */
  lemma OutboundKeeps(r: RelayState, t: Trace, q: Queued)
    requires r.Tells(t)
    ensures var (s, out, v) := r.TakeOutbound(q);
            && s.Tells(t + out) && s.port == r.port && AtMostClose(out, q.key, r.port)
            && (v == UnknownKey <==> q.key !in OpenKeys(t))
            && (v == UnknownKey ==> s == r && out == [])
  {
    hide RelayState.Agrees;
    assert t + [] == t;
    if q.key in r.table {
      if q.kind == CloseSession {
        CleanUpKeeps(r, t, q.key);
      } else if q.kind == Payload {
        PayloadKeeps(r, t, q);
      } else {
        StopKeeps(r, t);
      }
    }
  }

  lemma StopKeeps(r: RelayState, t: Trace)
    requires r.Tells(t)
    ensures r.(atomicClose := true).Tells(t)
  {
    var s := r.(atomicClose := true);
    assert forall j | j in r.table :: r.Armed(j) ==> s.Armed(j);
    assert forall i | i in r.peers :: r.Open(i) ==> s.Open(i);
    assert forall x | x in r.selector :: r.Known(x) ==> s.Known(x);
  }

  lemma PayloadKeeps(r: RelayState, t: Trace, q: Queued)
    requires r.Tells(t) && q.key in r.table && q.kind == Payload
    ensures r.TakeOutbound(q).0.Tells(t)
  {
    var con := r.table[q.key];
    var now := con.(sendq := con.sendq + q.data, writeEnabled := true);
    RearmKeeps(r, t, q.key, now);
    if con.writeEnabled {
      MaskKnown(r, q.key, now);
    }
  }

  lemma StepKeeps(r: RelayState, t: Trace, e: Event)
    requires r.Tells(t) && Enabled(r, e)
    ensures Step(r, e).0.Tells(t + Step(r, e).1)
  {
    match e
    case Accepted(k, id) => AcceptKeeps(r, t, k, id);
    case SocketReady(id, write, read, send, recv) => SocketKeeps(r, t, id, write, read, send, recv);
    case Outbound(q) => OutboundKeeps(r, t, q);
  }

  lemma {:induction false} RunKeeps(r: RelayState, t: Trace, es: seq<Event>)
    requires r.Tells(t) && IsRun(r, es)
    ensures Run(r, es).0.Tells(t + Run(r, es).1)
    decreases |es|
  {
    hide RelayState.Tells, Step, Enabled;
    if es == [] {
      assert t + [] == t;
    } else {
      var (s, out) := Step(r, es[0]);
      StepKeeps(r, t, es[0]);
      RunKeeps(s, t + out, es[1..]);
      assert t + out + Run(s, es[1..]).1 == t + (out + Run(s, es[1..]).1);
    }
  }

  lemma {:induction false} CloseAllKeeps(r: RelayState, t: Trace, order: seq<Key>)
    requires r.Tells(t) && r.CanClose(order)
    ensures r.CloseAll(order).0.Tells(t + r.CloseAll(order).1)
    ensures r.CloseAll(order).0.table.Keys == r.table.Keys - set k | k in order
    decreases |order|
  {
    hide RelayState.Tells;
    if order == [] {
      assert t + [] == t;
    } else {
      var (s, out) := r.CleanUp(order[0]);
      CleanUpKeeps(r, t, order[0]);
      CloseAllKeeps(s, t + out, order[1..]);
      assert t + out + s.CloseAll(order[1..]).1 == t + (out + s.CloseAll(order[1..]).1);
      assert order == [order[0]] + order[1..];
    }
  }

  lemma OpenedTells(port: Port)
    ensures Opened(port).Tells([])
  {
  }

  /** After any run, per key: session words, an open tail exactly where the table has the key. */
  lemma SessionGrammar(port: Port, es: seq<Event>, k: Key)
    requires IsRun(Opened(port), es)
    ensures var (r, t) := Run(Opened(port), es);
            && SessionWord(Project(t, k))
            && (k in r.table <==> OpenTail(Project(t, k)))
            && Count(t, NewSession, k) == Count(t, CloseSession, k) + (if k in r.table then 1 else 0)
            && r.Agrees()
  {
    var (r, t) := Run(Opened(port), es);
    OpenedTells(port);
    RunKeeps(Opened(port), [], es);
    assert [] + t == t;
    GrammarGivesWord(t, k);
    OneCloseEach(t, k);
  }

  lemma EmptyTable(r: RelayState, t: Trace)
    requires r.Tells(t) && r.table.Keys == {}
    ensures r.table == map[] && r.gauge == 0 && r.selector.Keys == {WakeupReader, Listener}
    ensures Grammatical(t) && OpenKeys(t) == {}
  {
    assert forall id | id in r.peers :: r.Open(id) && r.peers[id] in r.table.Keys;
    assert forall x | x in r.selector :: r.Known(x);
  }

  /**
   When `open` returns, whatever ended the loop and in whatever order the table is cleaned up:
   no session is left, every NEW has had its one CLOSE, and the books are back to empty.
   */
  lemma ClosedRelay(port: Port, es: seq<Event>, order: seq<Key>, k: Key)
    requires IsRun(Opened(port), es)
    requires forall i, j | 0 <= i < j < |order| :: order[i] != order[j]
    requires (set j | j in order) == Run(Opened(port), es).0.table.Keys
    ensures var (r, t) := Run(Opened(port), es);
            var (s, more) := r.CloseAll(order);
            && s.table == map[] && s.gauge == 0 && s.selector.Keys == {WakeupReader, Listener}
            && SessionWord(Project(t + more, k)) && !OpenTail(Project(t + more, k))
            && Count(t + more, NewSession, k) == Count(t + more, CloseSession, k)
  {
    hide RelayState.Tells, RelayState.Agrees, Run;
    var (r, t) := Run(Opened(port), es);
    OpenedTells(port);
    RunKeeps(Opened(port), [], es);
    assert [] + t == t;
    assert forall i | 0 <= i < |order| :: order[i] in (set j | j in order);
    CloseAllKeeps(r, t, order);
    var (s, more) := r.CloseAll(order);
    EmptyTable(s, t + more);
    GrammarGivesWord(t + more, k);
    OneCloseEach(t + more, k);
  }

  // ------------------------------------------------------------ event loop

  /** The premise on `accept`, at each accept of a run: the address is not in the table. */
  predicate FreshPeer(r: RelayState, e: Ready) {
    e.Connecting? && r.Possible(e) ==> e.k !in r.table
  }

  predicate FreshServe(r: RelayState, ready: seq<Ready>)
    decreases |ready|
  {
    ready == [] || (FreshPeer(r, ready[0]) && FreshServe(r.Handle(ready[0]).0, ready[1..]))
  }

  predicate FreshLoop(r: RelayState, queue: Trace, rounds: seq<Round>)
    decreases |rounds|
  {
    || rounds == [] || r.atomicClose
    || (FreshServe(r, rounds[0].ready)
       && FreshLoop(r.Turn(queue, rounds[0]).0, r.Turn(queue, rounds[0]).2, rounds[1..]))
  }

  /** `s` tells all of `t`, or, when the premise has failed, `t` is already no run of sessions. */
  ghost predicate TellsIff(s: RelayState, t: Trace, met: bool) {
    if met then s.Tells(t) else !Grammatical(t)
  }

  lemma LaterNoBetter(t: Trace, more: Trace)
    requires !Grammatical(t)
    ensures !Grammatical(t + more)
  {
    if Grammatical(t + more) {
      GrammaticalPrefix(t, more);
    }
  }

  lemma HandleKeeps(r: RelayState, t: Trace, e: Ready)
    requires r.Tells(t)
    ensures TellsIff(r.Handle(e).0, t + r.Handle(e).1, FreshPeer(r, e))
  {
    hide RelayState.Tells, RelayState.HandleSocket, RelayState.Accept;
    assert t + [] == t;
    if r.Possible(e) {
      match e {
        case Connecting(k, id) =>
          if FreshPeer(r, e) {
            AcceptKeeps(r, t, k, id);
          } else {
            AcceptKeepsGrammarIffAbsent(r, t, k, id);
          }
        case Traffic(id, write, read, send, recv) => SocketKeeps(r, t, id, write, read, send, recv);
        case Woken =>
      }
    }
  }

  lemma {:induction false} ServeKeeps(r: RelayState, t: Trace, ready: seq<Ready>)
    requires r.Tells(t)
    ensures TellsIff(r.Serve(ready).0, t + r.Serve(ready).1, FreshServe(r, ready))
    decreases |ready|
  {
    hide RelayState.Tells, RelayState.Handle, FreshPeer;
    if ready == [] {
      assert t + [] == t;
    } else {
      var (s, out) := r.Handle(ready[0]);
      HandleKeeps(r, t, ready[0]);
      var more := s.Serve(ready[1..]).1;
      assert t + out + more == t + (out + more);
      if FreshPeer(r, ready[0]) {
        ServeKeeps(s, t + out, ready[1..]);
      } else {
        LaterNoBetter(t + out, more);
      }
    }
  }

  lemma {:induction false} DrainKeeps(r: RelayState, t: Trace, queue: Trace)
    requires r.Tells(t)
    ensures var (s, out, left, v) := r.DrainOutbound(queue); s.Tells(t + out)
    decreases |queue|
  {
    hide RelayState.Tells, RelayState.TakeOutbound;
    assert t + [] == t;
    if queue == [] || r.atomicClose {
    } else {
      var (s, out, v) := r.TakeOutbound(queue[0]);
      OutboundKeeps(r, t, queue[0]);
      if v == Processed {
        DrainKeeps(s, t + out, queue[1..]);
        var more := s.DrainOutbound(queue[1..]).1;
        assert t + out + more == t + (out + more);
      }
    }
  }

  lemma StoppedTells(r: RelayState, t: Trace, stop: bool)
    requires r.Tells(t)
    ensures r.(atomicClose := r.atomicClose || stop).Tells(t)
  {
    if stop {
      StopKeeps(r, t);
    }
  }

  lemma TurnKeeps(r: RelayState, t: Trace, queue: Trace, round: Round)
    requires r.Tells(t)
    ensures TellsIff(r.Turn(queue, round).0, t + r.Turn(queue, round).1, FreshServe(r, round.ready))
  {
    hide RelayState.Tells, RelayState.Serve, RelayState.DrainOutbound, FreshServe;
    var (s, out) := r.Serve(round.ready);
    ServeKeeps(r, t, round.ready);
    var now := s.(atomicClose := s.atomicClose || round.stop);
    var more := now.DrainOutbound(queue + round.arrivals).1;
    assert t + out + more == t + (out + more);
    if FreshServe(r, round.ready) {
      StoppedTells(s, t + out, round.stop);
      DrainKeeps(now, t + out, queue + round.arrivals);
    } else {
      LaterNoBetter(t + out, more);
    }
  }

  /** The emitted trace obeys the session grammar if and only if every accept met the premise. */
  lemma {:induction false} LoopKeeps(r: RelayState, t: Trace, queue: Trace, rounds: seq<Round>)
    requires r.Tells(t)
    ensures TellsIff(r.Loop(queue, rounds).0, t + r.Loop(queue, rounds).1, FreshLoop(r, queue, rounds))
    decreases |rounds|
  {
    hide RelayState.Tells, RelayState.Turn, FreshServe;
    assert t + [] == t;
    if rounds != [] && !r.atomicClose {
      var (s, out, left) := r.Turn(queue, rounds[0]);
      TurnKeeps(r, t, queue, rounds[0]);
      var more := s.Loop(left, rounds[1..]).1;
      assert t + out + more == t + (out + more);
      if FreshServe(r, rounds[0].ready) {
        LoopKeeps(s, t + out, left, rounds[1..]);
      } else {
        LaterNoBetter(t + out, more);
      }
    }
  }

  // ---------------------------------------------- what callbacks and drain do

  /**
   What a callback for an open connection does, for every pair of answers of its socket: octets that
   are sent leave the buffer, data is reported, and the end of the stream, a reset and a broken
   write of pending octets close the session; a broken write keeps the callback from reading.
   */
  lemma SocketDoes(r: RelayState, id: nat, write: bool, read: bool, send: SendResult, recv: RecvResult)
    requires id in r.peers && r.peers[id] in r.table && Readable(recv)
    requires send.Sent? ==> send.n <= |r.table[r.peers[id]].sendq|
    ensures var k := r.peers[id];
            var con, (s, out) := r.table[k], r.HandleSocket(id, write, read, send, recv);
            var sends := write && con.sendq != [];
            var breaks := sends && send.SendBroken?;
            var left := if sends && send.Sent? then con.sendq[send.n..] else con.sendq;
            var flushed, ends := sends && send.Sent? && left == [], read && (recv.RecvBroken? || recv == Received([]));
            var gone, sock := breaks || ends, Peer(con.sck);
            && s.table == (if gone then r.table - {k}
                           else r.table[k := Conn(con.sck, left, con.writeEnabled && !flushed)])
            && s.peers == (if gone then r.peers - {con.sck} else r.peers)
            && s.selector == (if gone then r.selector - {sock}
                              else if flushed then r.selector[sock := ReadOnly] else r.selector)
            && s.gauge == r.gauge - (if gone then 1 else 0) && s.atomicClose == r.atomicClose && s.port == r.port
            && out == (if read && !breaks && !ends then [Queued(Payload, k, recv.data, r.port)] else [])
                      + (if gone then [Queued(CloseSession, k, [], r.port)] else [])
  {
    hide RelayState.WriteReady, RelayState.ReadReady, RelayState.CleanUp;
    var k := r.peers[id];
    var none: Trace := [];
    var mid, first := r, none;
    SameEntry(r, k);
    if write {
      WriteDoes(r, k, send);
      mid, first := r.WriteReady(k, send).0, r.WriteReady(k, send).1;
    }
    if read && k in mid.table {
      ReadDoes(mid, k, recv);
      assert first == none;
      assert none + mid.ReadReady(k, recv).1 == mid.ReadReady(k, recv).1;
      Forgotten(r, k, mid.table[k], ReadOnly);
    }
    var data, close: Trace := [Queued(Payload, k, if recv.Received? then recv.data else [], r.port)],
                              [Queued(CloseSession, k, [], r.port)];
    assert data + none == data && none + close == close && none + none == none;
  }

  lemma SameEntry(r: RelayState, k: Key)
    requires k in r.table
    ensures r.table[k := r.table[k]] == r.table
  {
  }

  /** What an address had is of no account once it is gone. */
  lemma Forgotten(r: RelayState, k: Key, con: Conn, mask: Mask)
    ensures r.table[k := con] - {k} == r.table - {k}
    ensures r.selector[Peer(con.sck) := mask] - {Peer(con.sck)} == r.selector - {Peer(con.sck)}
  {
  }

  lemma WriteDoes(r: RelayState, k: Key, send: SendResult)
    requires r.CanSend(k, send)
    ensures var con, (s, out) := r.table[k], r.WriteReady(k, send);
            var breaks := con.sendq != [] && send.SendBroken?;
            var left := if con.sendq != [] && send.Sent? then con.sendq[send.n..] else con.sendq;
            var flushed := con.sendq != [] && send.Sent? && left == [];
            && (breaks ==> s == r.CleanUp(k).0 && out == [Queued(CloseSession, k, [], r.port)] && k !in s.table
                           && Dropped(r, k, s))
            && (!breaks ==>
                  && s == r.(table := r.table[k := Conn(con.sck, left, con.writeEnabled && !flushed)],
                             selector := if flushed then r.selector[Peer(con.sck) := ReadOnly] else r.selector)
                  && out == [])
  {
    SameEntry(r, k);
    if send.Sent? {
      assert r.table[k].sendq[send.n..] == [] <==> send.n == |r.table[k].sendq|;
    }
  }

  lemma ReadDoes(r: RelayState, k: Key, recv: RecvResult)
    requires k in r.table && Readable(recv)
    ensures var (s, out) := r.ReadReady(k, recv);
            if recv.RecvBroken? || recv == Received([]) then
              Dropped(r, k, s) && out == [Queued(CloseSession, k, [], r.port)]
            else s == r && out == [Queued(Payload, k, recv.data, r.port)]
  {
  }

  /** The connection is gone from all the books. */
  predicate Dropped(r: RelayState, k: Key, s: RelayState)
    requires k in r.table
  {
    var id := r.table[k].sck;
    s == r.(table := r.table - {k}, peers := r.peers - {id}, selector := r.selector - {Peer(id)}, gauge := r.gauge - 1)
  }

  function AsEvent(e: Ready): Event
    requires !e.Woken?
  {
    match e
    case Connecting(k, id) => Accepted(k, id)
    case Traffic(id, write, read, send, recv) => SocketReady(id, write, read, send, recv)
  }

  /** The reported events that concern a connection, as far as the kernel can report them when their turn comes. */
  function Felt(r: RelayState, ready: seq<Ready>): seq<Event>
    decreases |ready|
  {
    if ready == [] then []
    else if !ready[0].Woken? && Enabled(r, AsEvent(ready[0])) then
      [AsEvent(ready[0])] + Felt(Step(r, AsEvent(ready[0])).0, ready[1..])
    else Felt(r, ready[1..])
  }

  /** Serving the reported events is a run of them, in their order and with none left out. */
  lemma {:induction false} ServeRuns(r: RelayState, ready: seq<Ready>)
    requires FreshServe(r, ready)
    ensures IsRun(r, Felt(r, ready)) && Run(r, Felt(r, ready)) == r.Serve(ready)
    decreases |ready|
  {
    hide RelayState.Accept, RelayState.HandleSocket, RelayState.CanSend;
    if ready == [] {
    } else {
      ServeRuns(r.Handle(ready[0]).0, ready[1..]);
      var es := Felt(r, ready);
      if !ready[0].Woken? && r.Possible(ready[0]) {
        assert es[0] == AsEvent(ready[0]) && es[1..] == Felt(r.Handle(ready[0]).0, ready[1..]);
      } else {
        assert [] + r.Serve(ready[1..]).1 == r.Serve(ready[1..]).1;
      }
    }
  }

  /** An address that the relay does not have any more, or never had, after these entries. */
  predicate Absent(r: RelayState, entries: Trace, k: Key) {
    k !in r.table || Count(entries, CloseSession, k) > 0
  }

  /** A connection of the relay after these entries: the same one, with all their data for it. */
  predicate Fed(r: RelayState, entries: Trace, s: RelayState, k: Key)
    requires k in r.table && k in s.table
  {
    s.table[k] == Conn(r.table[k].sck, r.table[k].sendq + KeyBytes(entries, k),
                       r.table[k].writeEnabled || Count(entries, Payload, k) > 0)
  }

  /**
   From `r` the entries of `queue` but for `left` have been acted on, and `s` is the outcome: each
   connection has its data, each CLOSE has closed its session and was echoed, and nothing is left
   unless the relay is told to stop or the last entry was for an address that was not there.
   */
  ghost predicate Drained(r: RelayState, queue: Trace, s: RelayState, out: Trace, left: Trace) {
    var m := |queue| - |left|;
    && 0 <= m && left == queue[m..]
    && (forall k :: k in s.table <==> !Absent(r, queue[..m], k))
    && (forall k | k in s.table :: k in r.table && Fed(r, queue[..m], s, k))
    && (forall k :: Count(out, CloseSession, k) == if k in r.table && k !in s.table then 1 else 0)
    && (left != [] ==> s.atomicClose || (m > 0 && Absent(r, queue[..m - 1], queue[m - 1].key)))
    && (s.atomicClose <==> r.atomicClose || (m > 0 && queue[m - 1].kind == NewSession
                                             && !Absent(r, queue[..m - 1], queue[m - 1].key)))
  }

  /** Of no entries there is no data and no CLOSE. */
  lemma DrainedNothing(r: RelayState, queue: Trace)
    requires queue == [] || r.atomicClose
    ensures Drained(r, queue, r, [], queue)
  {
    assert queue[..0] == [] && queue[0..] == queue;
    forall k | k in r.table
      ensures Fed(r, [], r, k)
    {
      assert r.table[k].sendq + [] == r.table[k].sendq;
    }
  }

  /** The first entry, and then the others. */
  lemma DrainedMore(r: RelayState, queue: Trace, t: RelayState, first: Trace, s: RelayState, more: Trace, left: Trace)
    requires queue != [] && !r.atomicClose && r.TakeOutbound(queue[0]) == (t, first, Processed)
    requires Drained(t, queue[1..], s, more, left)
    ensures Drained(r, queue, s, first + more, left)
  {
    hide RelayState.TakeOutbound, Absent, Fed, Count;
    var q, rest := queue[0], queue[1..];
    var m := |rest| - |left|;
    assert queue == [q] + rest;
    assert rest[m..] == queue[m + 1..];
    assert queue[..m + 1] == [q] + rest[..m];
    forall k
      ensures Absent(r, queue[..m + 1], k) <==> Absent(t, rest[..m], k)
      ensures k in s.table ==> k in r.table && Fed(r, queue[..m + 1], s, k)
      ensures Count(first + more, CloseSession, k) == if k in r.table && k !in s.table then 1 else 0
    {
      AbsentLater(r, q, t, first, rest[..m], k);
      CloseLater(r, q, t, first, rest[..m], s, more, k);
      if k in s.table {
        FedLater(r, q, t, first, rest[..m], s, k);
      }
    }
    if m > 0 {
      assert queue[..m] == [q] + rest[..m - 1] && queue[m] == rest[m - 1];
      AbsentLater(r, q, t, first, rest[..m - 1], rest[m - 1].key);
    } else {
      assert queue[..0] == [];
      PresentFirst(r, q, t, first);
    }
    EntryCounts(r, q, t, first, q.key);
  }

  lemma PresentFirst(r: RelayState, q: Queued, t: RelayState, first: Trace)
    requires r.TakeOutbound(q) == (t, first, Processed)
    ensures !Absent(r, [], q.key) && q.kind != NewSession
  {
  }

  lemma AbsentLater(r: RelayState, q: Queued, t: RelayState, first: Trace, entries: Trace, k: Key)
    requires r.TakeOutbound(q) == (t, first, Processed)
    ensures Absent(r, [q] + entries, k) <==> Absent(t, entries, k)
  {
    hide RelayState.TakeOutbound, Count;
    EntryCounts(r, q, t, first, k);
    CountConcat([q], entries, CloseSession, k);
  }

  lemma CloseLater(
      r: RelayState, q: Queued, t: RelayState, first: Trace, entries: Trace, s: RelayState, more: Trace, k: Key)
    requires r.TakeOutbound(q) == (t, first, Processed)
    requires Count(more, CloseSession, k) == if k in t.table && k !in s.table then 1 else 0
    requires k in s.table ==> k in t.table
    ensures Count(first + more, CloseSession, k) == if k in r.table && k !in s.table then 1 else 0
  {
    hide RelayState.TakeOutbound, Count;
    EntryCounts(r, q, t, first, k);
    CountConcat(first, more, CloseSession, k);
  }

  lemma FedLater(r: RelayState, q: Queued, t: RelayState, first: Trace, entries: Trace, s: RelayState, k: Key)
    requires r.TakeOutbound(q) == (t, first, Processed) && k in t.table && k in s.table && Fed(t, entries, s, k)
    ensures k in r.table && Fed(r, [q] + entries, s, k)
  {
    hide RelayState.TakeOutbound, Count, KeyBytes;
    EntryCounts(r, q, t, first, k);
    KeyBytesConcat([q], entries, k);
    CountConcat([q], entries, Payload, k);
    assert r.table[k].sendq + (KeyBytes([q], k) + KeyBytes(entries, k))
        == r.table[k].sendq + KeyBytes([q], k) + KeyBytes(entries, k);
  }

  /** What one entry that was processed does to an address. */
  lemma EntryCounts(r: RelayState, q: Queued, t: RelayState, out: Trace, k: Key)
    requires r.TakeOutbound(q) == (t, out, Processed)
    ensures k in t.table <==> !Absent(r, [q], k)
    ensures k in t.table ==> k in r.table && Fed(r, [q], t, k)
    ensures Count(out, CloseSession, k) == if k in r.table && k !in t.table then 1 else 0
    ensures Count([q], CloseSession, k) == if q.kind == CloseSession && q.key == k then 1 else 0
    ensures t.atomicClose == r.atomicClose && q.kind != NewSession && q.key in r.table
  {
    OneMessage(q, k);
    NoMessage(k);
    if k in r.table {
      assert r.table[k].sendq + [] == r.table[k].sendq;
    }
    if out != [] {
      assert out == [out[0]];
      OneMessage(out[0], k);
    }
  }

  /** The last entry, when it is for an absent address or of the wrong kind. */
  lemma DrainedLast(r: RelayState, queue: Trace, t: RelayState, out: Trace, v: Verdict)
    requires queue != [] && !r.atomicClose && r.TakeOutbound(queue[0]) == (t, out, v) && v != Processed
    ensures Drained(r, queue, t, out, queue[1..])
  {
    var q := queue[0];
    assert queue[..1] == [q] && queue[..0] == [];
    forall k
      ensures k in t.table <==> !Absent(r, [q], k)
      ensures k in t.table ==> Fed(r, [q], t, k)
    {
      OneMessage(q, k);
      if k in r.table {
        assert r.table[k].sendq + [] == r.table[k].sendq;
      }
    }
  }

  lemma {:induction false} DrainTakes(r: RelayState, queue: Trace)
    ensures var (s, out, left, _) := r.DrainOutbound(queue); Drained(r, queue, s, out, left)
    decreases |queue|
  {
    hide RelayState.TakeOutbound, Drained;
    if queue == [] || r.atomicClose {
      DrainedNothing(r, queue);
    } else {
      var (t, first, v) := r.TakeOutbound(queue[0]);
      if v != Processed {
        DrainedLast(r, queue, t, first, v);
      } else {
        DrainTakes(t, queue[1..]);
        var (s, more, left, _) := t.DrainOutbound(queue[1..]);
        DrainedMore(r, queue, t, first, s, more, left);
      }
    }
  }

  /** In every turn the entries that are there are acted on, after the callbacks and as far as `Drained` says. */
  lemma TurnTakes(r: RelayState, queue: Trace, round: Round)
    ensures var (s, out, left) := r.Turn(queue, round);
            var (mid, said) := r.Serve(round.ready);
            && said <= out
            && Drained(mid.(atomicClose := mid.atomicClose || round.stop), queue + round.arrivals, s, out[|said|..],
                       left)
  {
    hide RelayState.Serve, RelayState.DrainOutbound, Drained;
    var (mid, said) := r.Serve(round.ready);
    var now := mid.(atomicClose := mid.atomicClose || round.stop);
    var more := now.DrainOutbound(queue + round.arrivals).1;
    DrainTakes(now, queue + round.arrivals);
    assert (said + more)[|said|..] == more;
  }

  /** When all of them are data for connections that are there, and nothing stops the relay, all of it arrives. */
  lemma TurnDelivers(r: RelayState, queue: Trace, round: Round, k: Key)
    requires var mid := r.Serve(round.ready).0;
             && !mid.atomicClose && !round.stop && k in mid.table
             && forall q | q in queue + round.arrivals :: q.kind == Payload && q.key in mid.table
    ensures var (s, _, left) := r.Turn(queue, round);
            && left == [] && !s.atomicClose && k in s.table
            && s.table[k].sendq == r.Serve(round.ready).0.table[k].sendq + KeyBytes(queue + round.arrivals, k)
  {
    hide RelayState.Serve, RelayState.Turn, Drained;
    TurnTakes(r, queue, round);
    var (mid, said) := r.Serve(round.ready);
    var (s, out, left) := r.Turn(queue, round);
    AllDelivered(mid, queue + round.arrivals, s, out[|said|..], left, k);
  }

  lemma AllDelivered(r: RelayState, queue: Trace, s: RelayState, out: Trace, left: Trace, k: Key)
    requires Drained(r.(atomicClose := false), queue, s, out, left) && k in r.table
    requires forall q | q in queue :: q.kind == Payload && q.key in r.table
    ensures left == [] && !s.atomicClose && k in s.table
    ensures s.table[k].sendq == r.table[k].sendq + KeyBytes(queue, k)
  {
    var m := |queue| - |left|;
    assert forall i | 0 <= i < |queue| :: queue[i] in queue;
    if m > 0 {
      NoCloses(queue[..m - 1], queue[m - 1].key);
    }
    assert left == [];
    assert queue[..m] == queue;
    NoCloses(queue, k);
  }

  lemma {:induction false} NoCloses(t: Trace, k: Key)
    requires forall i | 0 <= i < |t| :: t[i].kind == Payload
    ensures Count(t, CloseSession, k) == 0
  {
    if t == [] {
    } else {
      NoCloses(t[..|t| - 1], k);
    }
  }

  lemma ListedCanClose(r: RelayState, order: seq<Key>)
    requires Lists(order, r.table.Keys)
    ensures r.CanClose(order)
  {
    assert forall i | 0 <= i < |order| :: order[i] in (set k | k in order);
  }

  /** The folds of the loops, one turn at a time, with what was emitted before. */
  lemma DrainStep(r: RelayState, queue: Trace, sofar: Trace)
    requires queue != [] && !r.atomicClose
    ensures var (s, out, v) := r.TakeOutbound(queue[0]);
            var (last, more, left, w) := r.DrainOutbound(queue);
            if v != Processed then last == s && more == out && left == queue[1..] && w == v
            else
              var rest := s.DrainOutbound(queue[1..]);
              last == rest.0 && sofar + more == sofar + out + rest.1 && left == rest.2 && w == rest.3
  {
    hide RelayState.TakeOutbound;
    var (s, out, v) := r.TakeOutbound(queue[0]);
    if v == Processed {
      assert sofar + (out + s.DrainOutbound(queue[1..]).1) == sofar + out + s.DrainOutbound(queue[1..]).1;
    }
  }

  lemma DrainNone(r: RelayState, queue: Trace, sofar: Trace)
    requires queue == [] || r.atomicClose
    ensures r.DrainOutbound(queue) == (r, [], queue, Processed) && sofar + [] == sofar
  {
  }

  lemma LoopStep(r: RelayState, queue: Trace, rounds: seq<Round>, sofar: Trace)
    requires rounds != [] && !r.atomicClose
    ensures var (s, out, left) := r.Turn(queue, rounds[0]);
            var (last, more, rest) := s.Loop(left, rounds[1..]);
            && r.Loop(queue, rounds).0 == last && r.Loop(queue, rounds).2 == rest
            && sofar + r.Loop(queue, rounds).1 == sofar + out + more
  {
    hide RelayState.Turn;
    var (s, out, left) := r.Turn(queue, rounds[0]);
    assert sofar + (out + s.Loop(left, rounds[1..]).1) == sofar + out + s.Loop(left, rounds[1..]).1;
  }

  lemma LoopNone(r: RelayState, queue: Trace, rounds: seq<Round>, sofar: Trace)
    requires rounds == [] || r.atomicClose
    ensures r.Loop(queue, rounds) == (r, [], queue) && sofar + [] == sofar
  {
  }

  lemma CloseNone(r: RelayState)
    ensures r.CloseAll([]) == (r, [])
  {
  }

  lemma CloseAllStep(r: RelayState, order: seq<Key>, sofar: Trace)
    requires order != [] && r.CanClose(order)
    ensures order[0] in r.table && r.CleanUp(order[0]).0.CanClose(order[1..])
    ensures var (s, out) := r.CleanUp(order[0]);
            && r.CloseAll(order).0 == s.CloseAll(order[1..]).0
            && sofar + r.CloseAll(order).1 == sofar + out + s.CloseAll(order[1..]).1
  {
    var (s, out) := r.CleanUp(order[0]);
    assert sofar + (out + s.CloseAll(order[1..]).1) == sofar + out + s.CloseAll(order[1..]).1;
  }

  /**
   `open`, start to finish: what it has put on the queue is a run of whole sessions if and only if
   no accept returned an address still in the table; then each NEW has its one CLOSE, and table,
   selector and gauge are back where they began.
   */
  lemma WholeRun(port: Port, queue: Trace, rounds: seq<Round>, order: seq<Key>, last: RelayState, t: Trace)
    requires Lists(order, Opened(port).Loop(queue, rounds).0.table.Keys)
    requires Opened(port).Loop(queue, rounds).0.CanClose(order)
    requires var (r, out, _) := Opened(port).Loop(queue, rounds); var (s, more) := r.CloseAll(order);
             last == s && t == out + more
    ensures Grammatical(t) <==> FreshLoop(Opened(port), queue, rounds)
    ensures Grammatical(t) ==> (forall k :: Count(t, NewSession, k) == Count(t, CloseSession, k) && WordOf(t, k))
    ensures Grammatical(t) ==> last.table == map[] && last.gauge == 0 && last.selector == Opened(port).selector
  {
    hide RelayState.Tells, RelayState.Agrees, RelayState.Loop, RelayState.CloseAll;
    var (r, out, _) := Opened(port).Loop(queue, rounds);
    OpenedTells(port);
    LoopKeeps(Opened(port), [], queue, rounds);
    assert [] + out == out;
    var more := r.CloseAll(order).1;
    if FreshLoop(Opened(port), queue, rounds) {
      CloseAllKeeps(r, out, order);
      EmptyTable(last, t);
      MasksBack(last, t);
      forall k
        ensures Count(t, NewSession, k) == Count(t, CloseSession, k) && WordOf(t, k)
      {
        OneCloseEach(t, k);
        GrammarGivesWord(t, k);
      }
    } else {
      LaterNoBetter(out, more);
    }
  }

  lemma MasksBack(r: RelayState, t: Trace)
    requires r.Tells(t) && r.selector.Keys == {WakeupReader, Listener}
    ensures r.selector == Opened(r.port).selector
  {
  }
}
