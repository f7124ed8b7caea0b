/** The client's two threads over all their runs: write arming, decoding in chunks, shutdown. */
module ClientProofs {
  import opened Wire
  import opened Messages
  import opened Framing
  import opened Sessions
  import opened Pipes
  import opened RelayStates
  import opened ClientStates

  // ------------------------------------------------------------ link thread

  /** What the loop of the link thread does. */
  datatype LinkEvent =
    | Relayed(write: bool, read: bool, sent: SendResult, got: RecvResult)
    | Drained
    | Batched(queue: Trace)

  predicate LinkEnabled(s: RemoteState, e: LinkEvent) {
    match e
    case Relayed(_, _, sent, _) => s.open && (sent.Sent? ==> sent.n <= |s.sendq|)
    case Drained => true
    case Batched(queue) => AllSendable(queue)
  }

  function LinkStep(s: RemoteState, e: LinkEvent): RemoteState
    requires LinkEnabled(s, e)
  {
    match e
    case Relayed(write, read, sent, got) => s.HandleRelay(write, read, sent, got)
    case Drained => s.Receive().0
    case Batched(queue) => ForwardBatch(s, queue, CLIENT_BATCH).0
  }

  predicate IsLinkRun(s: RemoteState, es: seq<LinkEvent>)
    decreases |es|
  {
    es == [] || (LinkEnabled(s, es[0]) && IsLinkRun(LinkStep(s, es[0]), es[1..]))
  }

  function LinkRun(s: RemoteState, es: seq<LinkEvent>): RemoteState
    requires IsLinkRun(s, es)
    decreases |es|
  {
    if es == [] then s else LinkRun(LinkStep(s, es[0]), es[1..])
  }

  /** An ERROR is among the messages. */
  predicate HasError(ms: seq<Message>) { exists i | 0 <= i < |ms| :: ms[i].kind == MessageType.Error }

  lemma HasErrorCons(m: Message, ms: seq<Message>)
    ensures HasError([m] + ms) <==> m.kind == MessageType.Error || HasError(ms)
  {
    var all := [m] + ms;
    assert all[0] == m && forall i | 0 <= i < |ms| :: all[i + 1] == ms[i];
    if HasError(all) && m.kind != MessageType.Error {
      var i :| 0 <= i < |all| && all[i].kind == MessageType.Error;
      assert ms[i - 1].kind == MessageType.Error;
    }
  }

  /** Drain and decoding, one complete frame at a time. */
  lemma DecodedFirst(s: RemoteState)
    requires Deserialize(s.recvq).Got?
    ensures var r := Deserialize(s.recvq);
            var (t, out) := s.(recvq := r.rest).Process(r.msg);
            && |r.rest| < |s.recvq| && t == s.(recvq := r.rest, closing := t.closing)
            && s.Receive() == (t.Receive().0, out + t.Receive().1)
            && Drain(s.recvq) == ([r.msg] + Drain(r.rest).0, Drain(r.rest).1)
            && out == (if IsSessionMessage(r.msg) then [FromWire(r.msg)] else [])
            && (t.closing <==> s.closing || r.msg.kind == MessageType.Error)
  {
    hide Deserialize, FromWire;
  }

  lemma DecodedNone(s: RemoteState)
    requires Deserialize(s.recvq).Failed?
    ensures s.Receive() == (s, []) && Drain(s.recvq) == ([], s.recvq)
  {
    hide Deserialize;
  }

  lemma FromWiresCons(m: Message, ms: seq<Message>)
    ensures FromWires([m] + ms) == (if IsSessionMessage(m) then [FromWire(m)] else []) + FromWires(ms)
  {
    hide FromWire, IsSessionMessage;
    assert ([m] + ms)[1..] == ms;
    assert [] + FromWires(ms) == FromWires(ms);
  }

  /** The drain is the decoding of the buffer, with the session messages passed on in order. */
  lemma {:induction false} ReceiveDrains(s: RemoteState)
    ensures var (t, out) := s.Receive();
            && t.recvq == Drain(s.recvq).1 && out == FromWires(Drain(s.recvq).0)
            && t == s.(recvq := t.recvq, closing := t.closing)
            && (t.closing <==> s.closing || HasError(Drain(s.recvq).0))
    decreases |s.recvq|
  {
    hide Deserialize, FromWire, IsSessionMessage, Drain, RemoteState.Receive, RemoteState.Process, HasError, FromWires;
    var r := Deserialize(s.recvq);
    if r.Failed? {
      DecodedNone(s);
      NoMessages();
    } else {
      DecodedFirst(s);
      var t := s.(recvq := r.rest).Process(r.msg).0;
      ReceiveDrains(t);
      FromWiresCons(r.msg, Drain(r.rest).0);
      HasErrorCons(r.msg, Drain(r.rest).0);
    }
  }

  lemma NoMessages()
    ensures FromWires([]) == [] && !HasError([])
  {
  }

  lemma {:induction false} BatchKeepsArming(s: RemoteState, queue: Trace, turns: nat)
    requires AllSendable(queue) && s.Arming()
    ensures ForwardBatch(s, queue, turns).0.Arming()
    decreases turns
  {
    hide FrameOf;
    if turns == 0 || queue == [] || queue[0].kind == NewSession {
    } else {
      BatchKeepsArming(s.Forward(queue[0]), queue[1..], turns - 1);
    }
  }

  /** Pending octets for the link keep EVENT_WRITE registered, in every state of every run. */
  lemma {:induction false} LinkArmed(s: RemoteState, es: seq<LinkEvent>)
    requires s.Arming() && IsLinkRun(s, es)
    ensures LinkRun(s, es).Arming()
    decreases |es|
  {
    hide RemoteState.Receive, ForwardBatch;
    if es == [] {
    } else {
      match es[0] {
        case Relayed(_, _, _, _) =>
        case Drained => ReceiveDrains(s);
        case Batched(queue) => BatchKeepsArming(s, queue, CLIENT_BATCH);
      }
      LinkArmed(LinkStep(s, es[0]), es[1..]);
    }
  }

  /** One receive per chunk, each followed by the drain: the last state, and all that was passed on. */
  function Chunked(s: RemoteState, chunks: seq<Octets>): (RemoteState, Trace)
    decreases |chunks|
  {
    if chunks == [] then (s, [])
    else
      var (t, out) := s.(recvq := s.recvq + chunks[0]).Receive();
      var (last, more) := Chunked(t, chunks[1..]);
      (last, out + more)
  }

  lemma {:induction false} ChunkedFeeds(s: RemoteState, chunks: seq<Octets>)
    ensures Chunked(s, chunks).0.recvq == Feed(s.recvq, chunks).1
    ensures Chunked(s, chunks).1 == FromWires(Feed(s.recvq, chunks).0)
    decreases |chunks|
  {
    hide RemoteState.Receive, Drain;
    if chunks == [] {
    } else {
      var r := s.(recvq := s.recvq + chunks[0]);
      ReceiveDrains(r);
      var t := r.Receive().0;
      ChunkedFeeds(t, chunks[1..]);
      FromWiresConcat(Drain(r.recvq).0, Feed(t.recvq, chunks[1..]).0);
    }
  }

  /** However the link cuts a valid stream, the local thread is passed its session messages, all and in order. */
  lemma ChunksDelivered(s: RemoteState, ms: seq<Message>, chunks: seq<Octets>)
    requires AllFrameable(ms) && s.recvq == [] && Concat(chunks) == Frames(ms)
    ensures Chunked(s, chunks).1 == FromWires(ms) && Chunked(s, chunks).0.recvq == []
  {
    ChunkedFeeds(s, chunks);
    WholeStreamDelivered(ms, chunks);
  }

  /** Where the first NEW stands, or the end. */
  function FirstNew(t: Trace): (r: nat)
    ensures r <= |t| && NoNew(t[..r]) && (r < |t| ==> t[r].kind == NewSession)
    ensures NoNew(t) ==> r == |t|
  {
    if t == [] || t[0].kind == NewSession then 0
    else
      var n := FirstNew(t[1..]);
      assert t[..1 + n] == [t[0]] + t[1..][..n];
      1 + n
  }

  /** How many entries a batch takes for good. */
  function Batch(queue: Trace, turns: nat): (n: nat)
    ensures n <= |queue|
  {
    Min(Min(turns, |queue|), FirstNew(queue))
  }

  /** A batch takes the oldest entries, so many at most, up to a NEW, which raises, and queues exactly their frames. */
  lemma {:induction false} BatchTakes(s: RemoteState, queue: Trace, turns: nat)
    requires AllSendable(queue)
    ensures var (t, left, raised) := ForwardBatch(s, queue, turns);
            var n := Batch(queue, turns);
            && (raised <==> FirstNew(queue) < Min(turns, |queue|)) && left == queue[if raised then n + 1 else n..]
            && AllSendable(queue[..n]) && t.sendq == s.sendq + Framed(queue[..n])
            && t == s.(sendq := t.sendq, writeEnabled := t.writeEnabled, mask := t.mask)
    decreases turns
  {
    hide FrameOf, FirstNew, Batch, RemoteState.Enqueue, Framed, ForwardBatch, AllSendable, Sendable;
    BatchHead(s, queue, turns);
    BatchNext(queue, turns);
    if turns == 0 || queue == [] || queue[0].kind == NewSession {
      NoneFramed(s.sendq, queue);
    } else {
      Enqueues(s, FrameOf(queue[0]));
      BatchTakes(s.Enqueue(FrameOf(queue[0])), queue[1..], turns - 1);
      OneMoreFramed(s.sendq, queue, Batch(queue, turns));
    }
  }

  /** One more turn of the batch. */
  lemma BatchHead(s: RemoteState, queue: Trace, turns: nat)
    requires AllSendable(queue)
    ensures queue != [] ==> Sendable(queue[0]) && AllSendable(queue[1..])
    ensures ForwardBatch(s, queue, turns) ==
            if turns == 0 || queue == [] then (s, queue, false)
            else if queue[0].kind == NewSession then (s, queue[1..], true)
            else ForwardBatch(s.Enqueue(FrameOf(queue[0])), queue[1..], turns - 1)
  {
    hide RemoteState.Enqueue, FrameOf;
  }

  lemma BatchNext(queue: Trace, turns: nat)
    ensures FirstNew(queue) < Min(turns, |queue|) ==> Batch(queue, turns) < |queue|
    ensures var raises := FirstNew(queue) < Min(turns, |queue|);
            if turns == 0 || queue == [] then Batch(queue, turns) == 0 && !raises
            else if queue[0].kind == NewSession then Batch(queue, turns) == 0 && raises
            else Batch(queue, turns) == 1 + Batch(queue[1..], turns - 1)
                 && (raises <==> FirstNew(queue[1..]) < Min(turns - 1, |queue| - 1))
  {
    hide FirstNew;
    FirstNewHead(queue);
  }

  lemma NoneFramed(sendq: Octets, queue: Trace)
    ensures AllSendable(queue[..0]) && sendq + Framed(queue[..0]) == sendq && queue[0..] == queue
  {
  }

  lemma Enqueues(s: RemoteState, data: Octets)
    ensures var t := s.Enqueue(data);
            t == s.(sendq := s.sendq + data, writeEnabled := t.writeEnabled, mask := t.mask)
  {
  }

  lemma FirstNewHead(t: Trace)
    ensures t == [] ==> FirstNew(t) == 0
    ensures t != [] ==> FirstNew(t) == if t[0].kind == NewSession then 0 else 1 + FirstNew(t[1..])
  {
  }

  lemma OneMoreFramed(sendq: Octets, queue: Trace, n: nat)
    requires 0 < n <= |queue| && AllSendable(queue)
    ensures AllSendable(queue[1..][..n - 1]) && AllSendable(queue[..n])
    ensures sendq + FrameOf(queue[0]) + Framed(queue[1..][..n - 1]) == sendq + Framed(queue[..n])
    ensures queue[1..][n - 1..] == queue[n..] && (n < |queue| ==> queue[1..][n..] == queue[n + 1..])
  {
    hide FrameOf;
    assert queue[..n][1..] == queue[1..][..n - 1];
  }

  // ----------------------------------------------------------- local thread

  /** What the local thread does: one entry off its queue, one callback, one clean-up after the loop. */
  datatype LocalEvent =
    | Taken(q: Queued, answer: Answer)
    | Served(e: IoEvent)
    | Dismissed(k: Key)

  predicate LocalEnabled(s: LocalState, e: LocalEvent) {
    !s.dead && (e.Dismissed? ==> e.k in s.connections)
  }

  function LocalStep(s: LocalState, e: LocalEvent): (LocalState, Trace)
    requires LocalEnabled(s, e)
  {
    match e
    case Taken(q, answer) => s.Take(q, answer)
    case Served(io) => s.Serve(io)
    case Dismissed(k) => s.Dismiss(k)
  }

  predicate IsLocalRun(s: LocalState, es: seq<LocalEvent>)
    decreases |es|
  {
    es == [] || (LocalEnabled(s, es[0]) && IsLocalRun(LocalStep(s, es[0]).0, es[1..]))
  }

  function LocalRun(s: LocalState, es: seq<LocalEvent>): (LocalState, Trace)
    requires IsLocalRun(s, es)
    decreases |es|
  {
    if es == [] then (s, [])
    else
      var (t, out) := LocalStep(s, es[0]);
      var (last, more) := LocalRun(t, es[1..]);
      (last, out + more)
  }

  lemma ServeKeepsArming(s: LocalState, e: IoEvent)
    requires s.Arming()
    ensures s.Serve(e).0.Arming()
  {
    if s.Live(e.k) && s.CanSend(e.k, e.send) {
      assert s.connections[e.k].Arming();
      var mid := if e.read then s.ReadReady(e.k, e.recv).0 else s;
      assert mid.Arming();
      if e.write && mid.Live(e.k) {
        assert mid.connections[e.k].Arming();
        assert mid.WriteReady(e.k, e.send).0.Arming();
      }
    }
  }

  lemma TakeKeepsArming(s: LocalState, q: Queued, answer: Answer)
    requires s.Arming()
    ensures s.Take(q, answer).0.Arming()
  {
    if q.key in s.connections {
      assert s.connections[q.key].Arming();
    }
  }

  /**
   Every connection with pending octets keeps EVENT_WRITE registered as long as its socket is open,
   in every state of every run, whatever arrives.
   */
  lemma {:induction false} LocalArmed(s: LocalState, es: seq<LocalEvent>)
    requires s.Arming() && IsLocalRun(s, es)
    ensures LocalRun(s, es).0.Arming()
    decreases |es|
  {
    hide LocalState.Arming, LocalState.Take, LocalState.Serve;
    if es == [] {
    } else {
      match es[0] {
        case Taken(q, answer) => TakeKeepsArming(s, q, answer);
        case Served(e) => ServeKeepsArming(s, e);
        case Dismissed(k) => DismissKeepsArming(s, k);
      }
      LocalArmed(LocalStep(s, es[0]).0, es[1..]);
    }
  }

  lemma DismissKeepsArming(s: LocalState, k: Key)
    requires s.Arming() && k in s.connections
    ensures s.Dismiss(k).0.Arming()
  {
  }

  /** The thread never puts a NEW on its queue, so the link thread's batch never raises. */
  lemma {:induction false} NeverNew(s: LocalState, es: seq<LocalEvent>)
    requires IsLocalRun(s, es)
    ensures forall i | 0 <= i < |LocalRun(s, es).1| :: LocalRun(s, es).1[i].kind != NewSession
    decreases |es|
  {
    if es == [] {
    } else {
      NeverNew(LocalStep(s, es[0]).0, es[1..]);
    }
  }

  /** Shutdown: the table is emptied and each of its connections is announced as closed, once. */
  lemma DismissAllAnnounces(s: LocalState, order: seq<Key>, k: Key)
    requires s.CanDismiss(order) && (set j | j in order) == s.connections.Keys
    ensures var (t, out) := s.DismissAll(order);
            t.connections == map[] && Count(out, CloseSession, k) == if k in s.connections then 1 else 0
  {
    DismissAllCounts(s, order, k);
    assert s.DismissAll(order).0.connections.Keys == {};
    assert k in s.connections <==> k in (set j | j in order);
  }

  lemma {:induction false} DismissAllCounts(s: LocalState, order: seq<Key>, k: Key)
    requires s.CanDismiss(order)
    ensures var (t, out) := s.DismissAll(order);
            && t.connections.Keys == s.connections.Keys - (set j | j in order)
            && Count(out, CloseSession, k) == if k in order then 1 else 0
    decreases |order|
  {
    if order == [] {
    } else {
      var (t, out) := s.Dismiss(order[0]);
      DismissAllCounts(t, order[1..], k);
      CountConcat(out, t.DismissAll(order[1..]).1, CloseSession, k);
      assert out[..0] == [];
      assert order == [order[0]] + order[1..];
    }
  }

  // ------------------------------------------------------ for whole threads

  predicate Rings(m: Message) { IsSessionMessage(m) || m.kind == MessageType.Error }

  /** How often the local thread is woken for these messages. */
  function Bells(ms: seq<Message>): nat {
    if ms == [] then 0 else (if Rings(ms[0]) then 1 else 0) + Bells(ms[1..])
  }

  lemma BellsCons(m: Message, ms: seq<Message>)
    ensures Bells([m] + ms) == (if Rings(m) then 1 else 0) + Bells(ms) && Bells([]) == 0
  {
    hide Rings;
    assert ([m] + ms)[1..] == ms;
  }

  /** Of a valid stream, the session messages decoded so far have been passed on, and the buffer is the rest. */
  ghost predicate PassedOn(received: Octets, passed: Trace, recvq: Octets) {
    forall ms | AllFrameable(ms) && received <= Frames(ms) ::
      passed == FromWires(Drain(received).0) && recvq == Drain(received).1
  }

  lemma PassedNothing()
    ensures PassedOn([], [], [])
  {
    DrainNothing();
  }

  lemma PassedMore(received: Octets, passed: Trace, s: RemoteState, chunk: Octets, recvq: Octets)
    requires PassedOn(received, passed, recvq) && s.recvq == recvq + chunk
    ensures PassedOn(received + chunk, passed + s.Receive().1, s.Receive().0.recvq)
  {
    hide Deserialize, Frame, Encodable, Carried, Frames, RemoteState.Receive, Drain, FromWires;
    ReceiveDrains(s);
    forall ms | AllFrameable(ms) && received + chunk <= Frames(ms)
      ensures passed + s.Receive().1 == FromWires(Drain(received + chunk).0)
      ensures s.Receive().0.recvq == Drain(received + chunk).1
    {
      assert received <= received + chunk && received <= Frames(ms);
      DrainInTwo(ms, received, chunk);
      FromWiresConcat(Drain(received).0, Drain(recvq + chunk).0);
    }
  }

  predicate NoNew(t: Trace) { forall i | 0 <= i < |t| :: t[i].kind != NewSession }

  /** What a batch of the local thread keeps, and what it never says. */
  lemma {:induction false} BatchSays(s: LocalState, queue: Trace, turns: nat, answers: nat -> Answer)
    requires s.Arming()
    ensures var (t, out, left) := s.TakeBatch(queue, turns, answers); t.Arming() && NoNew(out)
    decreases turns
  {
    hide LocalState.Arming, LocalState.Take;
    if turns == 0 || queue == [] || s.dead {
    } else {
      TakeKeepsArming(s, queue[0], answers(turns));
      TakeSays(s, queue[0], answers(turns));
      BatchSays(s.Take(queue[0], answers(turns)).0, queue[1..], turns - 1, answers);
    }
  }

  lemma TakeSays(s: LocalState, q: Queued, answer: Answer)
    ensures NoNew(s.Take(q, answer).1)
  {
  }

  lemma ServeSays(s: LocalState, e: IoEvent)
    requires s.Arming()
    ensures s.Serve(e).0.Arming() && NoNew(s.Serve(e).1)
  {
    ServeKeepsArming(s, e);
  }

  lemma {:induction false} DismissAllSays(s: LocalState, order: seq<Key>)
    requires s.CanDismiss(order) && s.Arming()
    ensures s.DismissAll(order).0.Arming() && NoNew(s.DismissAll(order).1) && s.DismissAll(order).0.dead == s.dead
    decreases |order|
  {
    if order == [] {
    } else {
      DismissKeepsArming(s, order[0]);
      DismissAllSays(s.Dismiss(order[0]).0, order[1..]);
    }
  }

  lemma NoNewConcat(a: Trace, b: Trace)
    requires NoNew(a) && NoNew(b)
    ensures NoNew(a + b)
  {
  }

  lemma {:induction false} ServeAllSays(s: LocalState, events: seq<IoEvent>)
    requires s.Arming()
    ensures s.ServeAll(events).0.Arming() && NoNew(s.ServeAll(events).1)
    decreases |events|
  {
    hide LocalState.Arming, LocalState.Serve, NoNew;
    if events == [] {
      NoNewNothing();
    } else {
      var t := s.Serve(events[0]).0;
      ServeSays(s, events[0]);
      ServeAllSays(t, events[1..]);
      NoNewConcat(s.Serve(events[0]).1, t.ServeAll(events[1..]).1);
    }
  }

  lemma NoNewNothing()
    ensures NoNew([])
  {
  }

  // ------------------------------------------------- what the loop amounts to

  /** The thread does these things one after another, until an exception ends it. */
  function Play(s: LocalState, es: seq<LocalEvent>): (LocalState, Trace)
    decreases |es|
  {
    if es == [] || s.dead then (s, [])
    else
      var (t, out) := if LocalEnabled(s, es[0]) then LocalStep(s, es[0]) else (s, []);
      var (last, more) := Play(t, es[1..]);
      (last, out + more)
  }

  lemma {:induction false} PlayInTurn(s: LocalState, a: seq<LocalEvent>, b: seq<LocalEvent>)
    ensures var (t, out) := Play(s, a);
            Play(s, a + b) == (Play(t, b).0, out + Play(t, b).1)
    decreases |a|
  {
    hide LocalStep, LocalEnabled;
    if a == [] || s.dead {
      assert a == [] ==> a + b == b;
      assert [] + Play(s, b).1 == Play(s, b).1;
    } else {
      var (t, out) := if LocalEnabled(s, a[0]) then LocalStep(s, a[0]) else (s, []);
      assert (a + b)[1..] == a[1..] + b;
      PlayInTurn(t, a[1..], b);
      var (u, more) := Play(t, a[1..]);
      assert out + (more + Play(u, b).1) == out + more + Play(u, b).1;
    }
  }

  /** Taking the oldest entries of a queue, so many at most, with the answers to the connects. */
  function Entries(queue: Trace, most: nat, answers: nat -> Answer): (es: seq<LocalEvent>)
    ensures |es| == Min(most, |queue|)
  {
    if most == 0 || queue == [] then []
    else [Taken(queue[0], answers(most))] + Entries(queue[1..], most - 1, answers)
  }

  function Callbacks(events: seq<IoEvent>): seq<LocalEvent> {
    if events == [] then [] else [Served(events[0])] + Callbacks(events[1..])
  }

  /** In each round five entries at most, and then every callback. */
  function Script(queue: Trace, rounds: seq<LocalRound>): seq<LocalEvent>
    decreases |rounds|
  {
    if rounds == [] then []
    else
      var full := queue + rounds[0].arrivals;
      Entries(full, 5, rounds[0].answers) + Callbacks(rounds[0].events) + Script(full[Min(5, |full|)..], rounds[1..])
  }

  /** A batch plays the entries it takes off the queue, and takes all of them unless one raises. */
  lemma {:induction false} BatchPlays(s: LocalState, queue: Trace, turns: nat, answers: nat -> Answer)
    ensures var (t, out, left) := s.TakeBatch(queue, turns, answers);
            var m := |queue| - |left|;
            && 0 <= m <= Min(turns, |queue|) && left == queue[m..] && (!t.dead ==> m == Min(turns, |queue|))
            && Play(s, Entries(queue, turns, answers)) == (t, out)
            && Play(s, Entries(queue, turns, answers)[..m]) == (t, out)
    decreases turns
  {
    hide LocalState.Take, LocalState.TakeBatch, Play, Entries;
    EntriesHead(queue, turns, answers);
    TakeHead(s, queue, turns, answers);
    NonePlayed(s, Entries(queue, turns, answers));
    if turns == 0 || queue == [] || s.dead {
    } else {
      var t := s.Take(queue[0], answers(turns)).0;
      BatchPlays(t, queue[1..], turns - 1, answers);
      var es, left := Entries(queue, turns, answers), t.TakeBatch(queue[1..], turns - 1, answers).2;
      var m := |queue| - |left|;
      assert queue[1..][m - 1..] == queue[m..] && es[..m][1..] == es[1..][..m - 1];
      PlayHead(s, es);
      PlayHead(s, es[..m]);
    }
  }

  lemma EntriesHead(queue: Trace, most: nat, answers: nat -> Answer)
    ensures var es := Entries(queue, most, answers);
            if most == 0 || queue == [] then es == []
            else && es != [] && es[0] == Taken(queue[0], answers(most))
                 && es[1..] == Entries(queue[1..], most - 1, answers)
  {
  }

  lemma TakeHead(s: LocalState, queue: Trace, turns: nat, answers: nat -> Answer)
    ensures s.TakeBatch(queue, turns, answers) ==
            if turns == 0 || queue == [] || s.dead then (s, [], queue)
            else
              var (t, out) := s.Take(queue[0], answers(turns));
              var (last, more, left) := t.TakeBatch(queue[1..], turns - 1, answers);
              (last, out + more, left)
  {
    hide LocalState.Take;
  }

  lemma NonePlayed(s: LocalState, es: seq<LocalEvent>)
    ensures es[..0] == [] && Play(s, []) == (s, []) && (s.dead ==> Play(s, es) == (s, []))
  {
  }

  lemma PlayHead(s: LocalState, es: seq<LocalEvent>)
    requires es != [] && es[0].Taken? && !s.dead
    ensures var (t, out) := s.Take(es[0].q, es[0].answer);
            Play(s, es) == (Play(t, es[1..]).0, out + Play(t, es[1..]).1)
  {
    hide LocalState.Take;
  }

  lemma {:induction false} CallbacksPlay(s: LocalState, events: seq<IoEvent>)
    requires !s.dead
    ensures Play(s, Callbacks(events)) == s.ServeAll(events) && !s.ServeAll(events).0.dead
    decreases |events|
  {
    hide LocalState.Serve;
    if events == [] {
    } else {
      var es := Callbacks(events);
      assert es[0] == Served(events[0]) && es[1..] == Callbacks(events[1..]);
      StillAlive(s, events[0]);
      CallbacksPlay(s.Serve(events[0]).0, events[1..]);
    }
  }

  lemma StillAlive(s: LocalState, e: IoEvent)
    requires !s.dead
    ensures !s.Serve(e).0.dead
  {
  }

  lemma TurnPlays(s: LocalState, queue: Trace, round: LocalRound)
    ensures var (t, out, left) := s.Turn(queue, round);
            var full := queue + round.arrivals;
            && Play(s, Entries(full, 5, round.answers) + Callbacks(round.events)) == (t, out)
            && (!t.dead ==> left == full[Min(5, |full|)..])
  {
    hide Play, LocalState.TakeBatch, LocalState.ServeAll, Entries, Callbacks;
    var full := queue + round.arrivals;
    var (t, out, _) := s.TakeBatch(full, CLIENT_BATCH, round.answers);
    BatchPlays(s, full, CLIENT_BATCH, round.answers);
    PlayInTurn(s, Entries(full, 5, round.answers), Callbacks(round.events));
    if t.dead {
      DeadPlaysNothing(t, Callbacks(round.events));
      assert out + [] == out;
    } else {
      CallbacksPlay(t, round.events);
    }
  }

  lemma DeadPlaysNothing(s: LocalState, es: seq<LocalEvent>)
    requires s.dead
    ensures Play(s, es) == (s, [])
  {
  }

  /** Round after round and until an exception, the main loop plays what its queue and its sockets bring, all of it. */
  lemma {:induction false} LoopPlays(s: LocalState, queue: Trace, rounds: seq<LocalRound>)
    ensures var (t, out, left) := s.Loop(queue, rounds);
            && Play(s, Script(queue, rounds)) == (t, out)
            && (!t.dead ==> left == Backlog(queue, rounds, LocalArrivals, 5))
    decreases |rounds|
  {
    hide Play, LocalState.Turn, Entries, Callbacks, Backlog;
    if rounds == [] {
      NothingPlayed(s, queue);
    } else if s.dead {
      DeadPlaysNothing(s, Script(queue, rounds));
    } else {
      var full := queue + rounds[0].arrivals;
      var here := Entries(full, 5, rounds[0].answers) + Callbacks(rounds[0].events);
      var (t, out, left) := s.Turn(queue, rounds[0]);
      TurnPlays(s, queue, rounds[0]);
      PlayInTurn(s, here, Script(full[Min(5, |full|)..], rounds[1..]));
      BacklogFront(queue, rounds, LocalArrivals, 5);
      if t.dead {
        DeadPlaysNothing(t, Script(full[Min(5, |full|)..], rounds[1..]));
        DeadLoopsNot(t, left, rounds[1..]);
      } else {
        LoopPlays(t, left, rounds[1..]);
      }
    }
  }

  lemma DeadLoopsNot(s: LocalState, queue: Trace, rounds: seq<LocalRound>)
    requires s.dead
    ensures s.Loop(queue, rounds) == (s, [], queue)
  {
  }

  lemma NothingPlayed(s: LocalState, queue: Trace)
    ensures Play(s, []) == (s, []) && Backlog(queue, [], LocalArrivals, 5) == queue
  {
  }

  /**
   What a callback for an open connection does, for every pair of answers of its socket: data and the
   end of the stream are reported, a reset is not; a broken write of pending octets is, unless the
   read has closed the connection before.
   */
  lemma CallbackDoes(s: LocalState, e: IoEvent)
    requires e.k in s.connections && !s.connections[e.k].closed
    requires e.send.Sent? ==> e.send.n <= |s.connections[e.k].sendq|
    ensures var p, (t, out) := s.connections[e.k], s.Serve(e);
            var ends, reset := e.read && e.recv == Received([]), e.read && e.recv.RecvBroken?;
            var sends := e.write && !ends && !reset && p.sendq != [];
            var breaks := sends && e.send.SendBroken?;
            var left := if sends && e.send.Sent? then p.sendq[e.send.n..] else p.sendq;
            var flushed := sends && e.send.Sent? && left == [];
            && e.k in t.connections && t == s.(connections := s.connections[e.k := t.connections[e.k]])
            && t.connections[e.k] == Proxied(left, p.writeEnabled && !flushed, if flushed then ReadOnly else p.mask,
                                             ends || reset || breaks, p.closeSent || ends || breaks, p.relayId)
            && out == (if e.read && e.recv.Received? && !ends then [Queued(Payload, e.k, e.recv.data, p.relayId)]
                       else [])
                      + (if ends || breaks then [Queued(CloseSession, e.k, [], p.relayId)] else [])
  {
  }

  /** A turn of the local thread keeps the arming, and says no NEW. */
  lemma TurnSays(s: LocalState, queue: Trace, round: LocalRound)
    requires s.Arming()
    ensures s.Turn(queue, round).0.Arming() && NoNew(s.Turn(queue, round).1)
  {
    hide LocalState.Arming, LocalState.TakeBatch, LocalState.ServeAll, NoNew;
    var (t, out, _) := s.TakeBatch(queue + round.arrivals, CLIENT_BATCH, round.answers);
    BatchSays(s, queue + round.arrivals, CLIENT_BATCH, round.answers);
    ServeAllSays(t, round.events);
    NoNewConcat(out, t.ServeAll(round.events).1);
  }
}
