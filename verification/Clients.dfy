/** The two threads of the client as objects, proved against the state machines of ClientStates. */
module Clients {
  import opened Wire
  import opened Messages
  import opened Sessions
  import opened Pipes
  import opened RelayStates
  import opened ClientStates
  import opened ClientProofs
  import opened Framing
  import opened Queues

  /** `create_remote_proxy` after the handshake: its variables, which its closures update. */
  class RemoteProxy {
    const fromRemote: MessageQueue  // to the local thread
    const toRemote: MessageQueue    // from the local thread
    const wakeupLocal: WakeupPair
    var sendq: Octets
    var recvq: Octets
    var writeEnabled: bool
    var mask: Mask
    var closing: bool
    var open: bool
    ghost var received: Octets      // histories: read from the link,
    ghost var written: Octets       // written to it,
    ghost var passed: Trace         // put on the queue to the local thread,
    ghost var taken: Trace          // taken off the other queue

    function State(): RemoteState
      reads this`sendq, this`recvq, this`writeEnabled, this`mask, this`closing, this`open
    {
      RemoteState(sendq, recvq, writeEnabled, mask, closing, open)
    }

    /** What came with OPEN_RELAY in the handshake's receive is not carried over. */
    constructor (fromRemote: MessageQueue, toRemote: MessageQueue, wakeupLocal: WakeupPair)
      requires fromRemote != toRemote
      ensures this.fromRemote == fromRemote && this.toRemote == toRemote && this.wakeupLocal == wakeupLocal
      ensures State() == RemoteState([], [], false, ReadOnly, false, true)
      ensures received == [] && written == [] && passed == [] && taken == []
    {
      this.fromRemote, this.toRemote, this.wakeupLocal := fromRemote, toRemote, wakeupLocal;
      received, written, passed, taken := [], [], [], [];
      sendq, recvq, writeEnabled, mask, closing, open := [], [], false, ReadOnly, false, true;
    }

    method HandleRelay(write: bool, read: bool, sent: SendResult, got: RecvResult)
      requires open && (sent.Sent? ==> sent.n <= |sendq|)
      modifies this`sendq, this`recvq, this`closing, this`open, this`received, this`written
      ensures State() == old(State()).HandleRelay(write, read, sent, got)
      ensures var fails := write && old(sendq) != [] && sent.SendBroken?;
              var data := if read && !fails && got.Received? then got.data else [];
              var gone := fails || (read && (got.RecvBroken? || got == Received([])));
              && recvq == old(recvq) + data && received == old(received) + data
              && open == !gone && (closing <==> old(closing) || gone)
      ensures var n := if write && sent.Sent? then sent.n else 0;
              sendq == old(sendq)[n..] && written == old(written) + old(sendq)[..n]
    {
      if write && sendq != [] {
        match sent {
          case Sent(n) =>
            assert written + sendq[..n] + sendq[n..] == written + sendq;
            written, sendq := written + sendq[..n], sendq[n..];
          case SendBroken =>
            closing, open := true, false;
            return;
          case SendWouldBlock =>
        }
      }
      if read {
        match got {
          case Received(data) =>
            if data == [] {
              closing, open := true, false;
              return;
            }
            recvq, received := recvq + data, received + data;
          case RecvBroken => closing, open := true, false;
          case RecvWouldBlock =>
        }
      }
    }

    method EnqueueSendq(data: Octets)
      modifies this`sendq, this`writeEnabled, this`mask
      ensures State() == old(State()).Enqueue(data)
    {
      sendq := sendq + data;
      if data != [] && !writeEnabled {
        writeEnabled := true;
        mask := ReadWrite;
      }
    }

    method ProcessMsg(m: Message)
      requires PortsInRange(m)
      modifies this`closing, this`passed, fromRemote, wakeupLocal
      ensures State() == old(State()).Process(m).0
      ensures fromRemote.items == old(fromRemote.items) + old(State()).Process(m).1
      ensures passed == old(passed) + old(State()).Process(m).1
      ensures wakeupLocal.pipe == Nudges(old(wakeupLocal.pipe), wakeupLocal.capacity, if Rings(m) then 1 else 0)
    {
      match m.kind {
        case NewConnection | CloseConnection | Data =>
          fromRemote.Put(FromWire(m));
          passed := passed + [FromWire(m)];
          wakeupLocal.Wakeup();
        case Error =>
          closing := true;
          wakeupLocal.Wakeup();
        case _ =>
      }
    }

    /**
     `while len(recvq) > 0`; every complete frame shortens the buffer, and wakes the local thread if it
     concerns it.
     */
    method Receive()
      modifies this`recvq, this`closing, this`passed, fromRemote, wakeupLocal
      ensures State() == old(State()).Receive().0
      ensures fromRemote.items == old(fromRemote.items) + old(State()).Receive().1
      ensures passed == old(passed) + old(State()).Receive().1
      ensures wakeupLocal.pipe == Nudges(old(wakeupLocal.pipe), wakeupLocal.capacity, Bells(Drain(old(recvq)).0))
    {
      hide RemoteState.Process, RemoteState.Receive, Deserialize, Drain, Bells, Rings, Drained;
      ghost var state0, out: Trace, bells: nat := State(), [], 0;
      DrainedNothing(state0);
      while recvq != [] && Deserialize(recvq).Got?
        invariant fromRemote.items == old(fromRemote.items) + out && passed == old(passed) + out
        invariant Drained(state0, State(), out, bells)
        invariant wakeupLocal.pipe == Nudges(old(wakeupLocal.pipe), wakeupLocal.capacity, bells)
        decreases |recvq|
      {
        var m, rest := Deserialize(recvq).msg, Deserialize(recvq).rest;
        ghost var before := State().(recvq := rest);
        DrainedOne(state0, State(), out, bells);
        recvq := rest;
        ProcessMsg(m);
        out, bells := out + before.Process(m).1, bells + if Rings(m) then 1 else 0;
      }
      DrainedAll(state0, State(), out, bells);
    }

    /** Draining `s` is draining `t` after having passed on `out` with so many wake-ups. */
    static ghost predicate Drained(s: RemoteState, t: RemoteState, out: Trace, bells: nat) {
      && s.Receive() == (t.Receive().0, out + t.Receive().1)
      && Bells(Drain(s.recvq).0) == bells + Bells(Drain(t.recvq).0)
    }

    static lemma DrainedNothing(s: RemoteState)
      ensures Drained(s, s, [], 0)
    {
      assert [] + s.Receive().1 == s.Receive().1;
    }

    static lemma DrainedOne(s: RemoteState, t: RemoteState, out: Trace, bells: nat)
      requires Drained(s, t, out, bells) && Deserialize(t.recvq).Got?
      ensures var r := Deserialize(t.recvq);
              var (u, more) := t.(recvq := r.rest).Process(r.msg);
              |r.rest| < |t.recvq| && Drained(s, u, out + more, bells + if Rings(r.msg) then 1 else 0)
    {
      hide RemoteState.Process, RemoteState.Receive, Deserialize, Drain, Bells, Rings;
      var r := Deserialize(t.recvq);
      var (u, more) := t.(recvq := r.rest).Process(r.msg);
      DecodedFirst(t);
      BellsCons(r.msg, Drain(r.rest).0);
      assert out + (more + u.Receive().1) == out + more + u.Receive().1;
    }

    static lemma DrainedAll(s: RemoteState, t: RemoteState, out: Trace, bells: nat)
      requires Drained(s, t, out, bells) && !(t.recvq != [] && Deserialize(t.recvq).Got?)
      ensures s.Receive() == (t, out) && Bells(Drain(s.recvq).0) == bells
    {
      hide Deserialize;
      EmptyDecodesNot(t.recvq);
      DecodedNone(t);
      assert out + [] == out;
    }

    static lemma EmptyDecodesNot(buf: Octets)
      ensures buf == [] ==> Deserialize(buf).Failed?
    {
    }

    /** At most five entries of the local thread's queue; true tells of an entry that raised. */
    method ForwardBatch() returns (raised: bool)
      requires AllSendable(toRemote.items)
      modifies this`sendq, this`writeEnabled, this`mask, this`taken, toRemote
      ensures (State(), toRemote.items, raised) == ClientStates.ForwardBatch(old(State()), old(toRemote.items),
              CLIENT_BATCH)
      ensures AllSendable(toRemote.items)
      ensures var n := |old(toRemote.items)| - |toRemote.items| - if raised then 1 else 0;
              0 <= n && taken == old(taken) + old(toRemote.items)[..n]
      ensures old(Sending()) ==> Sending()
    {
      hide RemoteState.Enqueue, FrameOf, Sendable, Sending, AllSendable, ClientStates.ForwardBatch;
      ghost var queue := toRemote.items;
      for i := 0 to CLIENT_BATCH
        invariant i <= |queue| && toRemote.items == queue[i..] && taken == old(taken) + queue[..i]
        invariant AllSendable(toRemote.items) && (old(Sending()) ==> Sending())
        invariant ClientStates.ForwardBatch(old(State()), queue, CLIENT_BATCH)
               == ClientStates.ForwardBatch(State(), toRemote.items, CLIENT_BATCH - i)
      {
        BatchHead(State(), toRemote.items, CLIENT_BATCH - i);
        if i < |queue| {
          HeadOff(queue, i);
        }
        var r := toRemote.GetNowait();
        match r {
          case None =>
            return false;
          case Some(q) =>
            if q.kind == NewSession {
              return true;
            }
            EnqueueFrame(q);
        }
      }
      BatchHead(State(), toRemote.items, 0);
      raised := false;
    }

    static lemma HeadOff(queue: Trace, i: nat)
      requires i < |queue|
      ensures queue[i..] == [queue[i]] + queue[i + 1..] && queue[..i + 1] == queue[..i] + [queue[i]]
    {
    }

    /** What was taken off the queue is, frame by frame, what was written and what is pending. */
    ghost predicate Sending()
      reads this`taken, this`written, this`sendq
    {
      AllSendable(taken) && written + sendq == Framed(taken)
    }

    method EnqueueFrame(q: Queued)
      requires Sendable(q) && q.kind != NewSession
      modifies this`sendq, this`writeEnabled, this`mask, this`taken
      ensures State() == old(State()).Enqueue(FrameOf(q)) && taken == old(taken) + [q]
      ensures old(Sending()) ==> Sending()
    {
      hide FrameOf, Sendable;
      if Sending() {
        FramedAppend(taken, q);
        assert written + (sendq + FrameOf(q)) == written + sendq + FrameOf(q);
      }
      EnqueueSendq(FrameOf(q));
      taken := taken + [q];
    }

    /** What the local thread queues for this one in the meantime. */
    method Arrive(replies: Trace)
      modifies toRemote
      ensures toRemote.items == old(toRemote.items) + replies
    {
      for i := 0 to |replies|
        invariant toRemote.items == old(toRemote.items) + replies[..i]
      {
        toRemote.Put(replies[i]);
        assert replies[..i + 1] == replies[..i] + [replies[i]];
      }
      assert replies[..|replies|] == replies;
    }

    /** Everything between the two queues and the link is accounted for. */
    ghost predicate Orderly()
      reads this
    {
      State().Arming() && Sending() && PassedOn(received, passed, recvq)
    }

    /** The octets of a turn, given what was pending and whether the link was still registered. */
    static function Heard(open: bool, sendq: Octets, r: LinkRound): Octets {
      if open && !SendFails(sendq, r) then LinkOctets(r) else []
    }

    /**
     The callback for the link, if it is still registered and ready, and the drain of what has come:
     the session messages of all complete frames are passed on, and the buffer keeps the cut one.
     */
    method Listen(r: LinkRound)
      requires Orderly()
      modifies this`sendq, this`recvq, this`closing, this`open, this`received, this`written, this`passed,
               fromRemote, wakeupLocal
      ensures Orderly() && received == old(received) + Heard(old(open), old(sendq), r)
      ensures var (ms, left) := Drain(old(recvq) + Heard(old(open), old(sendq), r));
              && recvq == left && passed == old(passed) + FromWires(ms)
              && fromRemote.items == old(fromRemote.items) + FromWires(ms)
              && wakeupLocal.pipe == Nudges(old(wakeupLocal.pipe), wakeupLocal.capacity, Bells(ms))
              && (closing <==> || old(closing) || HasError(ms)
                               || (old(open) && (SendFails(old(sendq), r) || LinkGone(r))))
      ensures open <==> old(open) && !SendFails(old(sendq), r) && !LinkGone(r)
      ensures var n := if old(open) && r.write && r.sent.Sent? then Min(r.sent.n, |old(sendq)|) else 0;
              sendq == old(sendq)[n..] && written == old(written) + old(sendq)[..n]
    {
      hide PassedOn, RemoteState.Receive, Drain, Framed, HasError, Bells, FromWires, RemoteState.HandleRelay;
      if open {
        StaysArmed(State(), r);
        HandleRelay(r.write, r.read, Capped(r.sent, |sendq|), r.got);
      }
      ghost var chunk := Heard(old(open), old(sendq), r);
      assert recvq == old(recvq) + chunk && received == old(received) + chunk;
      assert written + sendq == old(written + sendq) && State().Arming();
      PassedMore(old(received), passed, State(), chunk, old(recvq));
      ReceiveDrains(State());
      Receive();
    }

    static lemma StaysArmed(s: RemoteState, r: LinkRound)
      requires s.Arming()
      ensures s.HandleRelay(r.write, r.read, Capped(r.sent, |s.sendq|), r.got).Arming()
    {
    }

    /**
     One turn of the main loop: what has come over the link is read and passed on, what waits for it is
     written, and then the oldest entries of the local thread's queue, five at most and up to a NEW,
     which raises, are framed.
     */
    method Turn(r: LinkRound) returns (raised: bool)
      requires Orderly() && AllSendable(toRemote.items) && AllSendable(r.replies) && fromRemote != toRemote
      modifies this, fromRemote, toRemote, wakeupLocal
      ensures Orderly() && AllSendable(toRemote.items)
      ensures received == old(received) + Heard(old(open), old(sendq), r)
      ensures var (ms, left) := Drain(old(recvq) + Heard(old(open), old(sendq), r));
              && recvq == left && passed == old(passed) + FromWires(ms)
              && fromRemote.items == old(fromRemote.items) + FromWires(ms)
              && wakeupLocal.pipe == Nudges(old(wakeupLocal.pipe), wakeupLocal.capacity, Bells(ms))
              && (closing <==> || old(closing) || HasError(ms)
                               || (old(open) && (SendFails(old(sendq), r) || LinkGone(r))))
      ensures open <==> old(open) && !SendFails(old(sendq), r) && !LinkGone(r)
      ensures var n := if old(open) && r.write && r.sent.Sent? then Min(r.sent.n, |old(sendq)|) else 0;
              written == old(written) + old(sendq)[..n]
      ensures var queue := old(toRemote.items) + r.replies;
              var n := Batch(queue, 5);
              && (raised <==> FirstNew(queue) < Min(5, |queue|))
              && taken == old(taken) + queue[..n] && toRemote.items == queue[if raised then n + 1 else n..]
    {
      hide Orderly, Drain, HasError, Bells, FromWires, FirstNew, Batch, SendFails, LinkGone, Heard, AllSendable;
      Listen(r);
      raised := SendBack(r.replies);
    }

    /** The batch, after what the local thread has queued by then. */
    method SendBack(replies: Trace) returns (raised: bool)
      requires Orderly() && AllSendable(toRemote.items) && AllSendable(replies)
      modifies this`sendq, this`writeEnabled, this`mask, this`taken, toRemote
      ensures Orderly() && AllSendable(toRemote.items)
      ensures var queue := old(toRemote.items) + replies;
              var n := Batch(queue, 5);
              && (raised <==> FirstNew(queue) < Min(5, |queue|))
              && taken == old(taken) + queue[..n] && toRemote.items == queue[if raised then n + 1 else n..]
    {
      hide PassedOn, Sending, ClientStates.ForwardBatch, RemoteState.Arming, FirstNew, Batch, AllSendable;
      SendableTogether(toRemote.items, replies);
      Arrive(replies);
      ghost var queue := toRemote.items;
      BatchKeepsArming(State(), queue, CLIENT_BATCH);
      BatchTakes(State(), queue, CLIENT_BATCH);
      raised := ForwardBatch();
      TookBatch(queue, toRemote.items, raised);
    }

    static lemma SendableTogether(a: Trace, b: Trace)
      requires AllSendable(a) && AllSendable(b)
      ensures AllSendable(a + b)
    {
    }

    static lemma TookBatch(queue: Trace, left: Trace, raised: bool)
      requires raised <==> FirstNew(queue) < Min(5, |queue|)
      requires left == queue[if raised then Batch(queue, 5) + 1 else Batch(queue, 5)..]
      ensures |queue| - |left| - (if raised then 1 else 0) == Batch(queue, 5)
    {
    }

    /** After `n` rounds: what the link has brought has been read and decoded, and the link has been there till now. */
    ghost predicate Heeded(before: Trace, rounds: seq<LinkRound>, n: nat)
      reads this, fromRemote
      requires n <= |rounds|
    {
      && fromRemote.items == before + passed && (n > 0 ==> Deserialize(recvq).Failed?) && (!closing ==> open)
      && (!closing ==> received == Gathered(rounds[..n], LinkOctets))
      && forall i | 0 <= i < n && LinkGone(rounds[i]) :: i == n - 1 && closing
    }

    /** And of what the local thread has queued, the oldest five of each round have been taken. */
    ghost predicate Emptied(queue: Trace, rounds: seq<LinkRound>, n: nat)
      reads this`taken, toRemote
      requires n <= |rounds|
    {
      && taken + toRemote.items == queue + Gathered(rounds[..n], LinkReplies)
      && toRemote.items == Backlog(queue, rounds[..n], LinkReplies, 5)
    }

    /** The link thread, after the handshake: one more turn. */
    method Next(ghost before: Trace, ghost queue: Trace, rounds: seq<LinkRound>, n: nat) returns (raised: bool)
      requires n < |rounds| && Orderly() && AllSendable(toRemote.items) && AllSendable(rounds[n].replies)
      requires fromRemote != toRemote && !closing && Heeded(before, rounds, n) && Emptied(queue, rounds, n)
      modifies this, fromRemote, toRemote, wakeupLocal
      ensures Orderly() && AllSendable(toRemote.items) && Heeded(before, rounds, n + 1)
      ensures !raised ==> Emptied(queue, rounds, n + 1)
      ensures NoNew(old(toRemote.items)) && NoNew(rounds[n].replies) ==> !raised && NoNew(toRemote.items)
    {
      hide PassedOn, NoNew, AllSendable, Orderly, Gathered, Backlog, LinkGone, SendFails, Drain, HasError, Bells,
           FromWires, FirstNew, Batch;
      GatheredStep(rounds, n, LinkReplies, queue);
      GatheredStep(rounds, n, LinkOctets, []);
      BacklogStep(queue, rounds, n, LinkReplies, 5);
      DrainLeaves(recvq + Heard(open, sendq, rounds[n]));
      if NoNew(toRemote.items) && NoNew(rounds[n].replies) {
        NewNowhere(toRemote.items, rounds[n].replies);
      }
      ghost var sofar, waiting := taken, toRemote.items;
      raised := Turn(rounds[n]);
      if !raised {
        BatchAdds(sofar, waiting, rounds[n].replies, taken, toRemote.items);
      }
    }

    /**
     The link thread, after the handshake. However the link cuts a valid stream, its session messages
     are passed on, all and in order; whatever the local thread queues is framed and written, in order
     and five entries in each turn as long as there are so many, unless it queues a NEW; and pending
     octets keep EVENT_WRITE registered.
     */
    method Run(rounds: seq<LinkRound>) returns (raised: bool, ghost n: nat)
      requires State() == RemoteState([], [], false, ReadOnly, false, true) && fromRemote != toRemote
      requires received == [] && written == [] && passed == [] && taken == []
      requires AllSendable(toRemote.items) && forall i | 0 <= i < |rounds| :: AllSendable(rounds[i].replies)
      modifies this, fromRemote, toRemote, wakeupLocal
      ensures n <= |rounds| && (n < |rounds| ==> closing || raised)
      ensures sendq != [] ==> writeEnabled && mask == ReadWrite
      ensures !closing ==> received == Gathered(rounds[..n], LinkOctets)
      ensures forall i | 0 <= i < n && LinkGone(rounds[i]) :: i == n - 1 && closing
      ensures PassedOn(received, passed, recvq) && fromRemote.items == old(fromRemote.items) + passed
      ensures n > 0 ==> Deserialize(recvq).Failed?
      ensures AllSendable(taken) && written + sendq == Framed(taken)
      ensures !raised ==> && taken + toRemote.items == old(toRemote.items) + Gathered(rounds[..n], LinkReplies)
                          && toRemote.items == Backlog(old(toRemote.items), rounds[..n], LinkReplies, 5)
      ensures NoNew(old(toRemote.items)) && (forall i | 0 <= i < |rounds| :: NoNew(rounds[i].replies)) ==> !raised
    {
      hide PassedOn, NoNew, AllSendable, Orderly, Gathered, Backlog, Deserialize, LinkGone;
      raised, n := false, 0;
      StartsOrderly();
      ghost var before, queue := fromRemote.items, toRemote.items;
      ghost var good := NoNew(queue) && forall i | 0 <= i < |rounds| :: NoNew(rounds[i].replies);
      NothingGathered(rounds, LinkReplies, queue);
      NothingGathered(rounds, LinkOctets, []);
      NothingWaiting(queue, rounds);
      var i := 0;
      while i < |rounds| && !closing
        invariant i == n <= |rounds| && Orderly() && AllSendable(toRemote.items)
        invariant Heeded(before, rounds, n) && Emptied(queue, rounds, n) && (good ==> NoNew(toRemote.items))
      {
        raised := Next(before, queue, rounds, i);
        i, n := i + 1, n + 1;
        if raised {
          break;
        }
      }
      OrderlyMeans();
    }

    static lemma NothingWaiting(queue: Trace, rounds: seq<LinkRound>)
      ensures Backlog(queue, rounds[..0], LinkReplies, 5) == queue && [] + queue == queue
    {
    }

    static lemma DrainLeaves(buf: Octets)
      ensures Deserialize(Drain(buf).1).Failed?
    {
    }

    static lemma NewNowhere(a: Trace, b: Trace)
      requires NoNew(a) && NoNew(b)
      ensures FirstNew(a + b) == |a + b| && NoNew((a + b)[Min(5, |a + b|)..])
    {
    }

    /** A turn that does not raise takes from the front of the queue what it leaves off it. */
    static lemma BatchAdds(sofar: Trace, before: Trace, replies: Trace, taken: Trace, left: Trace)
      requires var queue := before + replies;
               var n := Batch(queue, 5);
               FirstNew(queue) >= Min(5, |queue|) && taken == sofar + queue[..n] && left == queue[n..]
      ensures taken + left == sofar + before + replies
      ensures left == (before + replies)[Min(5, |before + replies|)..]
    {
    }

    lemma OrderlyMeans()
      requires Orderly()
      ensures sendq != [] ==> writeEnabled && mask == ReadWrite
      ensures PassedOn(received, passed, recvq) && AllSendable(taken) && written + sendq == Framed(taken)
    {
    }

    lemma StartsOrderly()
      requires State() == RemoteState([], [], false, ReadOnly, false, true)
      requires received == [] && written == [] && passed == [] && taken == []
      ensures Orderly()
    {
      PassedNothing();
    }
  }

  /** One connection to the local service. */
  class ProxiedConnection {
    const addr: Key
    const relayId: Port
    const recvQueue: MessageQueue   // to the link thread
    const wakeupRecv: WakeupPair    // wakes the link thread
    const wakeupOwn: WakeupPair     // wakes the local thread itself
    var sendq: Octets
    var writeEnabled: bool
    var mask: Mask
    var closed: bool
    var closedMsgSent: bool

    constructor (addr: Key, relayId: Port, recvQueue: MessageQueue, wakeupRecv: WakeupPair, wakeupOwn: WakeupPair)
      ensures this.addr == addr && this.relayId == relayId && this.recvQueue == recvQueue
      ensures this.wakeupRecv == wakeupRecv && this.wakeupOwn == wakeupOwn && State() == Dialled(relayId)
    {
      this.addr, this.relayId, this.recvQueue, this.wakeupRecv, this.wakeupOwn := addr, relayId, recvQueue,
        wakeupRecv, wakeupOwn;
      sendq, writeEnabled, mask, closed, closedMsgSent := [], false, ReadOnly, false, false;
    }

    function State(): Proxied
      reads this
    {
      Proxied(sendq, writeEnabled, mask, closed, closedMsgSent, relayId)
    }

    method Announce(kind: EventKind, data: Octets)
      modifies recvQueue, wakeupRecv
      ensures recvQueue.items == old(recvQueue.items) + [Queued(kind, addr, data, relayId)]
      ensures wakeupRecv.pipe == Nudged(old(wakeupRecv.pipe), wakeupRecv.capacity)
    {
      recvQueue.Put(Queued(kind, addr, data, relayId));
      wakeupRecv.Wakeup();
    }

    /** The EVENT_READ half of `handle_io_event`; true tells that the callback returns here. */
    method ReadReady(r: RecvResult, ghost l: LocalState) returns (done: bool)
      requires l.Live(addr) && l.connections[addr] == State()
      modifies this, recvQueue, wakeupRecv
      ensures l.ReadReady(addr, r).0 == l.(connections := l.connections[addr := State()]) && done == closed
      ensures sendq == old(sendq)
      ensures recvQueue.items == old(recvQueue.items) + l.ReadReady(addr, r).1
      ensures wakeupRecv.pipe == Nudges(old(wakeupRecv.pipe), wakeupRecv.capacity, |l.ReadReady(addr, r).1|)
    {
      done := false;
      match r {
        case Received(data) =>
          if data == [] {
            closed := true;
            Announce(CloseSession, data);
            closedMsgSent, done := true, true;
          } else {
            Announce(Payload, data);
          }
        case RecvBroken =>
          closed, done := true, true;
        case RecvWouldBlock =>
      }
    }

    /** The EVENT_WRITE half of `handle_io_event`. */
    method WriteReady(s: SendResult, ghost l: LocalState)
      requires l.Live(addr) && l.connections[addr] == State() && l.CanSend(addr, s) && wakeupRecv != wakeupOwn
      modifies this, recvQueue, wakeupRecv, wakeupOwn
      ensures l.WriteReady(addr, s).0 == l.(connections := l.connections[addr := State()])
      ensures recvQueue.items == old(recvQueue.items) + l.WriteReady(addr, s).1
      ensures wakeupRecv.pipe == Nudges(old(wakeupRecv.pipe), wakeupRecv.capacity, |l.WriteReady(addr, s).1|)
      ensures wakeupOwn.pipe == if sendq == [] && old(sendq) != [] then Nudged(old(wakeupOwn.pipe), wakeupOwn.capacity)
                                else old(wakeupOwn.pipe)
    {
      if sendq != [] {
        match s {
          case Sent(n) =>
            sendq := sendq[n..];
            if sendq == [] {
              writeEnabled := false;
              mask := ReadOnly;
              wakeupOwn.Wakeup();
            }
          case SendBroken =>
            Announce(CloseSession, []);
            closed, closedMsgSent := true, true;
          case SendWouldBlock =>
        }
      }
    }

    /** `handle_io_event`, wherever in the client's table `l` this connection is. */
    method HandleIoEvent(read: bool, write: bool, r: RecvResult, s: SendResult, ghost l: LocalState)
      requires l.Live(addr) && l.connections[addr] == State() && l.CanSend(addr, s) && wakeupRecv != wakeupOwn
      modifies this, recvQueue, wakeupRecv, wakeupOwn
      ensures l.HandleIo(addr, read, write, r, s).0 == l.(connections := l.connections[addr := State()])
      ensures recvQueue.items == old(recvQueue.items) + l.HandleIo(addr, read, write, r, s).1
      ensures wakeupRecv.pipe == Nudges(old(wakeupRecv.pipe), wakeupRecv.capacity, |l.HandleIo(addr, read, write, r,
              s).1|)
      ensures wakeupOwn.pipe == if sendq == [] && old(sendq) != [] then Nudged(old(wakeupOwn.pipe), wakeupOwn.capacity)
                                else old(wakeupOwn.pipe)
    {
      hide LocalState.ReadReady, LocalState.WriteReady;
      ghost var mid, out := l, [];
      if read {
        var done := ReadReady(r, l);
        mid, out := l.ReadReady(addr, r).0, l.ReadReady(addr, r).1;
        if done {
          return;
        }
      }
      if write {
        WriteReady(s, mid);
        assert old(recvQueue.items) + out + mid.WriteReady(addr,
            s).1 == old(recvQueue.items) + (out + mid.WriteReady(addr, s).1);
      }
    }
  }

  /** `create_local_proxy`: its table, and the queues it serves. */
  class LocalProxy {
    const remotePort: Port
    const toLocal: MessageQueue     // from the link thread
    const toProxy: MessageQueue     // to the link thread
    const wakeupRemote: WakeupPair  // wakes the link thread
    const wakeupLocal: WakeupPair   // wakes this thread
    var connections: map<Key, ProxiedConnection>
    var dead: bool                  // an exception has ended the thread
    ghost var table: map<Key, Proxied>  // the connections by value
    ghost var consumed: Trace           // history: what it has taken off its queue

    ghost predicate Valid()
      reads this`connections, this`table, connections.Values
    {
      && toLocal != toProxy && wakeupRemote != wakeupLocal && connections.Keys == table.Keys
      && forall k | k in connections :: Filed(connections[k], k)
    }

    ghost predicate Filed(con: ProxiedConnection, k: Key)
      reads this`table, con
      requires k in table
    {
      && con.addr == k && con.State() == table[k]
      && con.recvQueue == toProxy && con.wakeupRecv == wakeupRemote && con.wakeupOwn == wakeupLocal
    }

    ghost function State(): LocalState
      reads this`table, this`dead
    {
      LocalState(remotePort, table, dead)
    }

    /**
     The thread's table is now as told, and it has put the told messages on its queue, each with a wake-up,
     and nothing else.
     */
    ghost predicate Did(effect: (LocalState, Trace), before: Trace, pipeBefore: nat)
      reads this, toProxy, wakeupRemote, connections.Values
    {
      && Valid() && State() == effect.0 && toProxy.items == before + effect.1
      && wakeupRemote.pipe == Nudges(pipeBefore, wakeupRemote.capacity, |effect.1|)
    }

    constructor (remotePort: Port, toLocal: MessageQueue, toProxy: MessageQueue, wakeupRemote: WakeupPair,
        wakeupLocal: WakeupPair)
      requires toLocal != toProxy && wakeupRemote != wakeupLocal
      ensures Valid() && State() == LocalState(remotePort, map[], false) && consumed == []
      ensures this.toLocal == toLocal && this.toProxy == toProxy
    {
      this.remotePort, this.toLocal, this.toProxy := remotePort, toLocal, toProxy;
      this.wakeupRemote, this.wakeupLocal := wakeupRemote, wakeupLocal;
      connections, table, dead, consumed := map[], map[], false, [];
    }

    /** `cleanup_socket`; false stands for the KeyError of an address that is not in the table. */
    method CleanUpSocket(k: Key) returns (known: bool)
      requires Valid()
      modifies this`connections, this`table
      ensures Valid() && (known <==> k in old(table)) && connections.Values <= old(connections.Values)
      ensures State() == old(State()).(connections := old(table) - {k}) && (!known ==> table == old(table))
    {
      known := k in connections;
      if known {
        connections, table := connections - {k}, table - {k};
      } else {
        assert table - {k} == table;
      }
    }

    method Report(q: Queued)
      modifies toProxy, wakeupRemote
      ensures toProxy.items == old(toProxy.items) + [q]
      ensures wakeupRemote.pipe == Nudged(old(wakeupRemote.pipe), wakeupRemote.capacity)
    {
      toProxy.Put(q);
      wakeupRemote.Wakeup();
    }

    method Insert(k: Key, relayId: Port)
      requires Valid()
      modifies this`connections, this`table
      ensures Valid() && State() == old(State()).(connections := old(table)[k := Dialled(relayId)])
      ensures fresh(connections.Values - old(connections.Values))
    {
      var con := new ProxiedConnection(k, relayId, toProxy, wakeupRemote, wakeupLocal);
      connections, table := connections[k := con], table[k := Dialled(relayId)];
    }

    /**
     NEW: the entry is there before the socket is registered and connected. It is taken out again when
     the connect is refused, and stays when registering raises.
     */
    method Dial(q: Queued, answer: Answer)
      requires Valid() && q.kind == NewSession
      modifies this`connections, this`table, this`dead, toProxy, wakeupRemote
      ensures Did(old(State()).Take(q, answer), old(toProxy.items), old(wakeupRemote.pipe))
      ensures fresh(connections.Values - old(connections.Values))
    {
      hide Filed;
      Insert(q.key, q.relayPort);
      if answer.Refuses? {
        Report(Queued(CloseSession, q.key, [], remotePort));
        var known := CleanUpSocket(q.key);
        assert table == old(table) - {q.key};
      } else if answer.Clashes? {
        dead := true;
      }
    }

    /** The pending data of a connection grows; arming a closed one raises. */
    static method Feed(con: ProxiedConnection, data: Octets) returns (raised: bool)
      modifies con`sendq, con`writeEnabled, con`mask
      ensures var p := old(con.State());
              && con.State() == p.(sendq := p.sendq + data, writeEnabled := true,
                                   mask := if p.writeEnabled || p.closed then p.mask else ReadWrite)
              && raised == (p.closed && !p.writeEnabled)
    {
      raised := false;
      con.sendq := con.sendq + data;
      if !con.writeEnabled {
        con.writeEnabled := true;
        if con.closed {
          raised := true;
        } else {
          con.mask := ReadWrite;
        }
      }
    }

    /** Data for a connection in the table. */
    method Append(q: Queued)
      requires Valid() && q.kind == Payload && q.key in connections
      modifies this`table, this`dead, connections[q.key]
      ensures Valid() && State() == old(State()).Take(q, Connects).0
    {
      var raised := Feed(connections[q.key], q.data);
      dead := dead || raised;
      Mirror(q.key);
    }

    /** The table by value follows a change of one connection. */
    ghost method Mirror(k: Key)
      requires toLocal != toProxy && wakeupRemote != wakeupLocal && connections.Keys == table.Keys && k in connections
      requires connections[k].addr == k && connections[k].recvQueue == toProxy
      requires connections[k].wakeupRecv == wakeupRemote && connections[k].wakeupOwn == wakeupLocal
      requires forall j | j in connections && j != k :: Filed(connections[j], j)
      modifies this`table
      ensures Valid() && table == old(table)[k := connections[k].State()]
    {
      table := table[k := connections[k].State()];
      forall j | j in connections
        ensures Filed(connections[j], j)
      {
        assert j != k ==> old(Filed(connections[j], j));
      }
    }

    method TakeOne(q: Queued, answer: Answer)
      requires Valid()
      modifies this`connections, this`table, this`dead, toProxy, wakeupRemote, connections.Values
      ensures Did(old(State()).Take(q, answer), old(toProxy.items), old(wakeupRemote.pipe))
      ensures fresh(connections.Values - old(connections.Values))
    {
      hide Filed;
      match q.kind {
        case NewSession =>
          Dial(q, answer);
        case Payload =>
          if q.key !in connections {
            Report(Queued(CloseSession, q.key, [], remotePort));
          } else {
            Append(q);
          }
        case CloseSession =>
          var known := CleanUpSocket(q.key);
          if !known {
            dead := true;
          }
      }
    }

    /** At most five entries of the inbound queue, before the thread goes into `select`. */
    method TakeBatch(answers: nat -> Answer)
      requires Valid()
      modifies this`connections, this`table, this`dead, this`consumed, toProxy, toLocal, wakeupRemote,
               connections.Values
      ensures var (s, out, left) := old(State()).TakeBatch(old(toLocal.items), CLIENT_BATCH, answers);
              Did((s, out), old(toProxy.items), old(wakeupRemote.pipe)) && toLocal.items == left
      ensures consumed + toLocal.items == old(consumed + toLocal.items)
      ensures fresh(connections.Values - old(connections.Values))
    {
      hide LocalState.Take, LocalState.TakeBatch, Filed, InBatch;
      ghost var state0, queue0, out: Trace := State(), toLocal.items, [];
      BatchBegins(state0, queue0, answers);
      var turns: nat := CLIENT_BATCH;
      while turns > 0 && toLocal.items != [] && !dead
        invariant Valid() && fresh(connections.Values - old(connections.Values))
        invariant consumed + toLocal.items == old(consumed + toLocal.items)
        invariant toProxy.items == old(toProxy.items) + out
        invariant wakeupRemote.pipe == Nudges(old(wakeupRemote.pipe), wakeupRemote.capacity, |out|)
        invariant InBatch(state0, queue0, answers, State(), toLocal.items, turns, out)
        decreases turns
      {
        ghost var before := State();
        BatchGoesOn(state0, queue0, answers, before, toLocal.items, turns, out);
        MoveAcross(consumed, toLocal.items);
        var q := toLocal.GetNowait();
        consumed := consumed + [q.value];
        TakeOne(q.value, answers(turns));
        out := out + before.Take(q.value, answers(turns)).1;
        turns := turns - 1;
      }
      BatchEnds(state0, queue0, answers, State(), toLocal.items, turns, out);
    }

    /** A batch from `s` and `queue` is, after having said `said`, so many more turns from `t` and `left`. */
    static ghost predicate InBatch(
      s: LocalState, queue: Trace, answers: nat -> Answer, t: LocalState, left: Trace, turns: nat, said: Trace)
    {
      var (last, more, end) := t.TakeBatch(left, turns, answers);
      s.TakeBatch(queue, CLIENT_BATCH, answers) == (last, said + more, end)
    }

    static lemma BatchBegins(s: LocalState, queue: Trace, answers: nat -> Answer)
      ensures InBatch(s, queue, answers, s, queue, CLIENT_BATCH, [])
    {
      assert [] + s.TakeBatch(queue, CLIENT_BATCH, answers).1 == s.TakeBatch(queue, CLIENT_BATCH, answers).1;
    }

    static lemma BatchGoesOn(
        s: LocalState, queue: Trace, answers: nat -> Answer, t: LocalState, left: Trace, turns: nat, said: Trace)
      requires InBatch(s, queue, answers, t, left, turns, said) && turns > 0 && left != [] && !t.dead
      ensures var (u, out) := t.Take(left[0], answers(turns));
              InBatch(s, queue, answers, u, left[1..], turns - 1, said + out)
    {
      hide LocalState.Take;
      var (u, out) := t.Take(left[0], answers(turns));
      var more := u.TakeBatch(left[1..], turns - 1, answers).1;
      assert said + (out + more) == said + out + more;
    }

    static lemma BatchEnds(
        s: LocalState, queue: Trace, answers: nat -> Answer, t: LocalState, left: Trace, turns: nat, said: Trace)
      requires InBatch(s, queue, answers, t, left, turns, said) && (turns == 0 || left == [] || t.dead)
      ensures s.TakeBatch(queue, CLIENT_BATCH, answers) == (t, said, left)
    {
      assert said + [] == said;
    }

    /** One event; the conditions are what the kernel guarantees of the events it reports. */
    method Dispatch(e: IoEvent)
      requires Valid()
      modifies this`table, toProxy, wakeupRemote, wakeupLocal, connections.Values
      ensures Did(old(State()).Serve(e), old(toProxy.items), old(wakeupRemote.pipe))
    {
      hide LocalState.HandleIo;
      if e.k in connections {
        assert Filed(connections[e.k], e.k);
        if !connections[e.k].closed && (e.send.Sent? ==> e.send.n <= |connections[e.k].sendq|) {
          ghost var l := State();
          connections[e.k].HandleIoEvent(e.read, e.write, e.recv, e.send, l);
          Mirror(e.k);
        }
      }
    }

    /** The clean-up after the loop, over the listed keys; each connection is announced as closed. */
    method DismissAll(order: seq<Key>)
      requires Valid() && State().CanDismiss(order)
      modifies this`connections, this`table, toProxy, wakeupRemote
      ensures Did(old(State()).DismissAll(order), old(toProxy.items), old(wakeupRemote.pipe))
    {
      hide LocalState.Dismiss, LocalState.DismissAll, LocalState.CanDismiss, Filed;
      ghost var state0, out: Trace := State(), [];
      assert [] + state0.DismissAll(order).1 == state0.DismissAll(order).1 && order[0..] == order;
      for i := 0 to |order|
        invariant Valid() && State().CanDismiss(order[i..])
        invariant toProxy.items == old(toProxy.items) + out
        invariant wakeupRemote.pipe == Nudges(old(wakeupRemote.pipe), wakeupRemote.capacity, |out|)
        invariant state0.DismissAll(order) == (State().DismissAll(order[i..]).0, out + State().DismissAll(order[i..]).1)
      {
        ghost var before := State();
        DismissStep(before, order[i..], out);
        assert order[i..][0] == order[i] && order[i..][1..] == order[i + 1..];
        DismissOne(order[i]);
        out := out + before.Dismiss(order[i]).1;
      }
      DismissEnd(State(), out);
    }

    method DismissOne(k: Key)
      requires Valid() && k in table
      modifies this`connections, this`table, toProxy, wakeupRemote
      ensures Did(old(State()).Dismiss(k), old(toProxy.items), old(wakeupRemote.pipe))
    {
      assert Filed(connections[k], k);
      var relayId := connections[k].relayId;
      var known := CleanUpSocket(k);
      Report(Queued(CloseSession, k, [], relayId));
    }

    static lemma DismissStep(s: LocalState, order: seq<Key>, sofar: Trace)
      requires order != [] && s.CanDismiss(order)
      ensures order[0] in s.connections && s.Dismiss(order[0]).0.CanDismiss(order[1..])
      ensures var (t, out) := s.Dismiss(order[0]);
              && s.DismissAll(order).0 == t.DismissAll(order[1..]).0
              && sofar + s.DismissAll(order).1 == sofar + out + t.DismissAll(order[1..]).1
    {
      var (t, out) := s.Dismiss(order[0]);
      assert sofar + (out + t.DismissAll(order[1..]).1) == sofar + out + t.DismissAll(order[1..]).1;
    }

    static lemma DismissEnd(s: LocalState, sofar: Trace)
      ensures s.DismissAll([]) == (s, []) && sofar + [] == sofar
    {
    }

    /** `for key, mask in events: key.data(key.fileobj, mask)`. */
    method Serve(events: seq<IoEvent>)
      requires Valid()
      modifies this`table, toProxy, wakeupRemote, wakeupLocal, connections.Values
      ensures Did(old(State()).ServeAll(events), old(toProxy.items), old(wakeupRemote.pipe))
    {
      hide LocalState.Serve, LocalState.ServeAll, Filed;
      ghost var state0, out: Trace := State(), [];
      assert [] + state0.ServeAll(events).1 == state0.ServeAll(events).1 && events[0..] == events;
      for i := 0 to |events|
        invariant Valid()
        invariant toProxy.items == old(toProxy.items) + out
        invariant wakeupRemote.pipe == Nudges(old(wakeupRemote.pipe), wakeupRemote.capacity, |out|)
        invariant state0.ServeAll(events) == (State().ServeAll(events[i..]).0, out + State().ServeAll(events[i..]).1)
      {
        ghost var before := State();
        ServeStep(before, events[i..], out);
        assert events[i..][0] == events[i] && events[i..][1..] == events[i + 1..];
        Dispatch(events[i]);
        out := out + before.Serve(events[i]).1;
      }
      ServeEnd(State(), out);
    }

    static lemma ServeStep(s: LocalState, events: seq<IoEvent>, sofar: Trace)
      requires events != []
      ensures var (t, out) := s.Serve(events[0]);
              && s.ServeAll(events).0 == t.ServeAll(events[1..]).0
              && sofar + s.ServeAll(events).1 == sofar + out + t.ServeAll(events[1..]).1
    {
      hide LocalState.Serve;
      var (t, out) := s.Serve(events[0]);
      assert sofar + (out + t.ServeAll(events[1..]).1) == sofar + out + t.ServeAll(events[1..]).1;
    }

    static lemma ServeEnd(s: LocalState, sofar: Trace)
      ensures s.ServeAll([]) == (s, []) && sofar + [] == sofar
    {
    }

    /** What the link thread queues for this one in the meantime. */
    method Arrive(arrivals: Trace)
      modifies toLocal
      ensures toLocal.items == old(toLocal.items) + arrivals
    {
      for i := 0 to |arrivals|
        invariant toLocal.items == old(toLocal.items) + arrivals[..i]
      {
        toLocal.Put(arrivals[i]);
        assert arrivals[..i + 1] == arrivals[..i] + [arrivals[i]];
      }
      assert arrivals[..|arrivals|] == arrivals;
    }

    /** One turn of the main loop. */
    method Turn(round: LocalRound)
      requires Valid()
      modifies this`connections, this`table, this`dead, this`consumed, toProxy, toLocal, wakeupRemote, wakeupLocal
      modifies connections.Values
      ensures var (s, out, left) := old(State()).Turn(old(toLocal.items), round);
              Did((s, out), old(toProxy.items), old(wakeupRemote.pipe)) && toLocal.items == left
      ensures consumed + toLocal.items == old(consumed + toLocal.items) + round.arrivals
      ensures fresh(connections.Values - old(connections.Values))
    {
      hide LocalState.TakeBatch, LocalState.ServeAll, Filed;
      assert toLocal != toProxy;
      Arrive(round.arrivals);
      ghost var out := State().TakeBatch(toLocal.items, CLIENT_BATCH, round.answers).1;
      TakeBatch(round.answers);
      assert old(consumed) + (old(toLocal.items) + round.arrivals)
          == old(consumed) + old(toLocal.items) + round.arrivals;
      if !dead {
        ghost var more := State().ServeAll(round.events).1;
        Serve(round.events);
        assert old(toProxy.items) + out + more == old(toProxy.items) + (out + more);
      }
    }

    /** The main loop, until its end or an exception. */
    method Loop(rounds: seq<LocalRound>) returns (ghost said: Trace, ghost n: nat)
      requires Valid() && State().Arming() && consumed == []
      modifies this`connections, this`table, this`dead, this`consumed, toProxy, toLocal, wakeupRemote, wakeupLocal
      modifies connections.Values
      ensures n <= |rounds| && (n < |rounds| ==> dead) && State().Arming() && NoNew(said)
      ensures (State(), said, toLocal.items) == old(State()).Loop(old(toLocal.items), rounds)
      ensures Valid() && toProxy.items == old(toProxy.items) + said
      ensures wakeupRemote.pipe == Nudges(old(wakeupRemote.pipe), wakeupRemote.capacity, |said|)
      ensures consumed + toLocal.items == old(toLocal.items) + Gathered(rounds[..n], LocalArrivals)
    {
      hide LocalState.Turn, LocalState.Loop, LocalState.Arming, NoNew, Filed, Gathered, InLoop;
      said, n := [], 0;
      NoNewNothing();
      NothingGathered(rounds, LocalArrivals, toLocal.items);
      ghost var state0, queue0 := State(), toLocal.items;
      LoopBegins(state0, queue0, rounds);
      var i := 0;
      while i < |rounds| && !dead
        invariant i == n <= |rounds| && Valid() && State().Arming() && NoNew(said)
        invariant InLoop(state0, queue0, rounds, State(), toLocal.items, rounds[i..], said)
        invariant toProxy.items == old(toProxy.items) + said
        invariant wakeupRemote.pipe == Nudges(old(wakeupRemote.pipe), wakeupRemote.capacity, |said|)
        invariant consumed + toLocal.items == queue0 + Gathered(rounds[..n], LocalArrivals)
        invariant fresh(connections.Values - old(connections.Values))
      {
        ghost var out := State().Turn(toLocal.items, rounds[i]).1;
        TurnSays(State(), toLocal.items, rounds[i]);
        NoNewConcat(said, out);
        GatheredStep(rounds, n, LocalArrivals, queue0);
        LoopGoesOn(state0, queue0, rounds, State(), toLocal.items, rounds[i..], said);
        Turn(rounds[i]);
        assert old(toProxy.items) + said + out == old(toProxy.items) + (said + out);
        assert rounds[i..][0] == rounds[i] && rounds[i..][1..] == rounds[i + 1..];
        said, i, n := said + out, i + 1, n + 1;
      }
      LoopEnds(state0, queue0, rounds, State(), toLocal.items, rounds[i..], said);
    }

    /** From `s` with `queue` over `rounds` is, after having said `said`, from `t` with `left` over `rest`. */
    static ghost predicate InLoop(
      s: LocalState, queue: Trace, rounds: seq<LocalRound>, t: LocalState, left: Trace, rest: seq<LocalRound>,
        said: Trace)
    {
      var (last, more, end) := t.Loop(left, rest);
      s.Loop(queue, rounds) == (last, said + more, end)
    }

    static lemma LoopBegins(s: LocalState, queue: Trace, rounds: seq<LocalRound>)
      ensures InLoop(s, queue, rounds, s, queue, rounds[0..], [])
    {
      assert rounds[0..] == rounds && [] + s.Loop(queue, rounds).1 == s.Loop(queue, rounds).1;
    }

    static lemma LoopGoesOn(
        s: LocalState, queue: Trace, rounds: seq<LocalRound>, t: LocalState, left: Trace, rest: seq<LocalRound>,
          said: Trace)
      requires InLoop(s, queue, rounds, t, left, rest, said) && rest != [] && !t.dead
      ensures var (u, out, after) := t.Turn(left, rest[0]);
              InLoop(s, queue, rounds, u, after, rest[1..], said + out)
    {
      hide LocalState.Turn;
      var (u, out, after) := t.Turn(left, rest[0]);
      assert said + (out + u.Loop(after, rest[1..]).1) == said + out + u.Loop(after, rest[1..]).1;
    }

    static lemma LoopEnds(
        s: LocalState, queue: Trace, rounds: seq<LocalRound>, t: LocalState, left: Trace, rest: seq<LocalRound>,
          said: Trace)
      requires InLoop(s, queue, rounds, t, left, rest, said) && (rest == [] || t.dead)
      ensures s.Loop(queue, rounds) == (t, said, left)
    {
      assert said + [] == said;
    }

    /**
     The local thread from start to end. In each round it takes the oldest five entries of its queue
     and then serves every callback, until an exception ends it; it says no NEW, keeps EVENT_WRITE
     registered wherever octets are pending, wakes the link thread for all it says, and, unless an
     exception has ended it, leaves no connection behind and closes once each that it still holds
     when its loop ends.
     */
    method Run(rounds: seq<LocalRound>) returns (ghost said: Trace, ghost n: nat, ghost closes: Trace)
      requires Valid() && connections.Keys == {} && !dead && consumed == []
      modifies this`connections, this`table, this`dead, this`consumed, toProxy, toLocal, wakeupRemote, wakeupLocal
      modifies connections.Values
      ensures n <= |rounds| && (n < |rounds| ==> dead) && Valid() && State().Arming()
      ensures toProxy.items == old(toProxy.items) + said + closes && NoNew(said) && NoNew(closes)
      ensures wakeupRemote.pipe == Nudges(old(wakeupRemote.pipe), wakeupRemote.capacity, |said + closes|)
      ensures consumed + toLocal.items == old(toLocal.items) + Gathered(rounds[..n], LocalArrivals)
      ensures !dead ==> toLocal.items == Backlog(old(toLocal.items), rounds, LocalArrivals, 5)
      ensures var (s, out) := Play(LocalState(remotePort, map[], false), Script(old(toLocal.items), rounds));
              && said == out && dead == s.dead
              && (dead ==> closes == [] && State() == s)
              && (!dead ==> connections.Keys == {}
                            && forall k :: Count(closes, CloseSession, k) == if k in s.connections then 1 else 0)
    {
      hide NoNew, Filed, Gathered, Backlog, Play, Script, LocalState.DismissAll, LocalState.CanDismiss, LocalState.Loop;
      assert State() == LocalState(remotePort, map[], false);
      LoopPlays(State(), toLocal.items, rounds);
      said, n := Loop(rounds);
      closes := [];
      NoNewNothing();
      assert said + [] == said && old(toProxy.items) + said + [] == old(toProxy.items) + said;
      if !dead {
        ghost var last := State();
        var order := ListKeys(connections.Keys);
        ListedCanDismiss(last, order);
        DismissAllSays(last, order);
        closes := last.DismissAll(order).1;
        forall k
          ensures Count(closes, CloseSession, k) == if k in last.connections then 1 else 0
        {
          DismissAllAnnounces(last, order, k);
        }
        DismissAllAnnounces(last, order, Key(ANY_IP, 0));
        DismissAll(order);
      }
    }

    static lemma ListedCanDismiss(s: LocalState, order: seq<Key>)
      requires Lists(order, s.connections.Keys)
      ensures s.CanDismiss(order) && (set k | k in order) == s.connections.Keys
    {
      assert forall i | 0 <= i < |order| :: order[i] in (set k | k in order);
    }
  }
}
