/** Queued relay messages, and what a trace of them says about the sessions it carries. */
module Sessions {
  import opened Wire

  /** RelayMessageTypes: NEW_CONNECTION, CLOSE_CONNECTION and MESSAGE. */
  datatype EventKind = NewSession | CloseSession | Payload

  /** The remote end of an external connection: the only name a session has. */
  datatype Key = Key(ip: Ip, port: Port)

  /** The tuples that travel on the four queues. */
  datatype Queued = Queued(kind: EventKind, key: Key, data: Octets, relayPort: Port)

  type Trace = seq<Queued>

  /** What the threads put on the queues: data only in MESSAGE entries, and less than 4 GiB. */
  predicate Sendable(q: Queued) {
    InU32(|q.data|) && (q.kind != Payload ==> q.data == [])
  }

  predicate AllSendable(t: Trace) { forall i | 0 <= i < |t| :: Sendable(t[i]) }

  /** The keys whose last NEW is not yet closed. */
  function OpenKeys(t: Trace): set<Key> {
    if t == [] then {}
    else
      var before, q := OpenKeys(t[..|t| - 1]), t[|t| - 1];
      match q.kind
      case NewSession => before + {q.key}
      case CloseSession => before - {q.key}
      case Payload => before
  }

  /** NEW only while closed; data and CLOSE only while open. */
  predicate Grammatical(t: Trace) {
    t == []
    || (&& Grammatical(t[..|t| - 1])
        && (t[|t| - 1].kind == NewSession <==> t[|t| - 1].key !in OpenKeys(t[..|t| - 1])))
  }

  function Count(t: Trace, kind: EventKind, k: Key): nat {
    if t == [] then 0
    else Count(t[..|t| - 1], kind, k) + if t[|t| - 1].kind == kind && t[|t| - 1].key == k then 1 else 0
  }

  /** The data that a trace carries in the `i`-th session of a key, counted from one. */
  function SessionBytes(t: Trace, k: Key, i: nat): Octets {
    if t == [] then []
    else
      var init, q := t[..|t| - 1], t[|t| - 1];
      if q.kind == Payload && q.key == k && Count(init, NewSession, k) == i
      then SessionBytes(init, k, i) + q.data
      else SessionBytes(init, k, i)
  }

  /** All the data that a trace carries for a key. */
  function KeyBytes(t: Trace, k: Key): Octets {
    if t == [] then []
    else
      var init, q := t[..|t| - 1], t[|t| - 1];
      if q.kind == Payload && q.key == k then KeyBytes(init, k) + q.data else KeyBytes(init, k)
  }

  /** The data that a trace carries for a key ahead of the first CLOSE of it. */
  function Ahead(t: Trace, k: Key): Octets {
    if t == [] then []
    else
      var init, q := t[..|t| - 1], t[|t| - 1];
      if q.kind == Payload && q.key == k && Count(init, CloseSession, k) == 0
      then Ahead(init, k) + q.data
      else Ahead(init, k)
  }

  /** The kinds of the messages of one key, in order. */
  function Project(t: Trace, k: Key): seq<EventKind> {
    if t == [] then []
    else
      var init, q := t[..|t| - 1], t[|t| - 1];
      if q.key == k then Project(init, k) + [q.kind] else Project(init, k)
  }

  /** The words (NEW MESSAGE* CLOSE)*, the last session possibly still open. */
  predicate SessionWord(w: seq<EventKind>) {
    forall i | 0 <= i < |w| :: NewWhereDue(w, i)
  }

  /** NEW stands at the start and right after each CLOSE, and nowhere else. */
  predicate NewWhereDue(w: seq<EventKind>, i: nat)
    requires i < |w|
  {
    w[i] == NewSession <==> (i == 0 || w[i - 1] == CloseSession)
  }

  predicate WordOf(t: Trace, k: Key) { SessionWord(Project(t, k)) }

  predicate OpenTail(w: seq<EventKind>) { w != [] && w[|w| - 1] != CloseSession }

  /** Each fold, one message at a time. */
  lemma Append(t: Trace, q: Queued)
    ensures (t + [q])[..|t|] == t && (t + [q])[|t|] == q
    ensures Grammatical(t + [q]) <==> Grammatical(t) && (q.kind == NewSession <==> q.key !in OpenKeys(t))
    ensures OpenKeys(t + [q]) ==
            match q.kind
            case NewSession => OpenKeys(t) + {q.key}
            case CloseSession => OpenKeys(t) - {q.key}
            case Payload => OpenKeys(t)
    ensures forall k :: Project(t + [q], k) == if q.key == k then Project(t, k) + [q.kind] else Project(t, k)
    ensures forall kind, k :: Count(t + [q], kind, k) == Count(t, kind, k) + if q.kind == kind
            && q.key == k then 1 else 0
    ensures forall k ::
              KeyBytes(t + [q], k) == if q.kind == Payload
                && q.key == k then KeyBytes(t, k) + q.data else KeyBytes(t, k)
    ensures forall k, i ::
              SessionBytes(t + [q], k, i) ==
              if q.kind == Payload && q.key == k && Count(t, NewSession, k) == i
              then SessionBytes(t, k, i) + q.data
              else SessionBytes(t, k, i)
  {
    assert (t + [q])[..|t|] == t && (t + [q])[|t|] == q;
  }

  lemma {:induction false} GrammaticalPrefix(a: Trace, b: Trace)
    requires Grammatical(a + b)
    ensures Grammatical(a)
  {
    if b == [] {
      assert a + b == a;
    } else {
      var init := b[..|b| - 1];
      assert a + b == (a + init) + [b[|b| - 1]];
      Append(a + init, b[|b| - 1]);
      GrammaticalPrefix(a, init);
    }
  }

  /** In a grammatical trace every session but an open one has been closed, and closed once. */
  lemma {:induction false} OneCloseEach(t: Trace, k: Key)
    requires Grammatical(t)
    ensures Count(t, NewSession, k) == Count(t, CloseSession, k) + if k in OpenKeys(t) then 1 else 0
  {
    if t == [] {
    } else {
      OneCloseEach(t[..|t| - 1], k);
    }
  }

  lemma SessionWordAppend(w: seq<EventKind>, x: EventKind)
    ensures SessionWord(w + [x]) <==> SessionWord(w) && (x == NewSession <==> !OpenTail(w))
  {
    var v := w + [x];
    assert forall i | 0 <= i < |w| :: NewWhereDue(v, i) <==> NewWhereDue(w, i);
    assert NewWhereDue(v, |w|) <==> (x == NewSession <==> !OpenTail(w));
  }

  lemma {:induction false} GrammarGivesWord(t: Trace, k: Key)
    requires Grammatical(t)
    ensures WordOf(t, k) && (k in OpenKeys(t) <==> OpenTail(Project(t, k)))
  {
    if t == [] {
    } else {
      var init, q := t[..|t| - 1], t[|t| - 1];
      GrammarGivesWord(init, k);
      SessionWordAppend(Project(init, k), q.kind);
    }
  }

  lemma {:induction false} WordsGiveGrammar(t: Trace)
    requires forall k :: WordOf(t, k)
    ensures Grammatical(t)
  {
    if t == [] {
    } else {
      var init, q := t[..|t| - 1], t[|t| - 1];
      forall k
        ensures WordOf(init, k)
      {
        SessionWordAppend(Project(init, k), q.kind);
        assert WordOf(t, k);
      }
      WordsGiveGrammar(init);
      GrammarGivesWord(init, q.key);
      SessionWordAppend(Project(init, q.key), q.kind);
      assert WordOf(t, q.key);
    }
  }

  /** The grammar, key by key: exactly the session words, with an open tail where the key is open. */
  lemma GrammarIsSessionWords(t: Trace)
    ensures Grammatical(t) <==> forall k :: WordOf(t, k)
    ensures Grammatical(t) ==> forall k :: k in OpenKeys(t) <==> OpenTail(Project(t, k))
  {
    if Grammatical(t) {
      forall k
        ensures WordOf(t, k) && (k in OpenKeys(t) <==> OpenTail(Project(t, k)))
      {
        GrammarGivesWord(t, k);
      }
    } else if forall k :: WordOf(t, k) {
      WordsGiveGrammar(t);
    }
  }

  /** Later messages only add data to a session. */
  lemma {:induction false} SessionBytesGrow(a: Trace, b: Trace, k: Key, i: nat)
    ensures SessionBytes(a, k, i) <= SessionBytes(a + b, k, i)
  {
    if b == [] {
      assert a + b == a;
    } else {
      var init := b[..|b| - 1];
      assert (a + b)[..|a + b| - 1] == a + init && (a + b)[|a + b| - 1] == b[|b| - 1];
      SessionBytesGrow(a, init, k, i);
    }
  }

  /** While no new session of the key begins, the data that follows belongs to the current one. */
  lemma {:induction false} CurrentSessionGrows(a: Trace, b: Trace, k: Key)
    requires Count(b, NewSession, k) == 0
    ensures Count(a + b, NewSession, k) == Count(a, NewSession, k)
    ensures SessionBytes(a + b, k, Count(a, NewSession, k)) == SessionBytes(a, k, Count(a, NewSession,
            k)) + KeyBytes(b, k)
  {
    if b == [] {
      assert a + b == a;
    } else {
      var init := b[..|b| - 1];
      assert (a + b)[..|a + b| - 1] == a + init && (a + b)[|a + b| - 1] == b[|b| - 1];
      CurrentSessionGrows(a, init, k);
    }
  }

  lemma {:induction false} KeyBytesConcat(a: Trace, b: Trace, k: Key)
    ensures KeyBytes(a + b, k) == KeyBytes(a, k) + KeyBytes(b, k)
  {
    if b == [] {
      assert a + b == a;
    } else {
      var init := b[..|b| - 1];
      assert (a + b)[..|a + b| - 1] == a + init && (a + b)[|a + b| - 1] == b[|b| - 1];
      KeyBytesConcat(a, init, k);
    }
  }

  lemma {:induction false} CountConcat(a: Trace, b: Trace, kind: EventKind, k: Key)
    ensures Count(a + b, kind, k) == Count(a, kind, k) + Count(b, kind, k)
  {
    if b == [] {
      assert a + b == a;
    } else {
      assert (a + b)[..|a + b| - 1] == a + b[..|b| - 1] && (a + b)[|a + b| - 1] == b[|b| - 1];
      CountConcat(a, b[..|b| - 1], kind, k);
    }
  }

  lemma OneMessage(q: Queued, k: Key)
    ensures forall kind :: Count([q], kind, k) == if q.key == k && q.kind == kind then 1 else 0
    ensures KeyBytes([q], k) == if q.key == k && q.kind == Payload then q.data else []
    ensures Ahead([q], k) == KeyBytes([q], k)
  {
    assert [q][..0] == [];
    assert [] + q.data == q.data;
  }

  lemma NoMessage(k: Key)
    ensures (forall kind :: Count([], kind, k) == 0) && KeyBytes([], k) == [] && Ahead([], k) == []
  {
  }

  /** A message at the end is ahead of a CLOSE only if none came before. */
  lemma AheadAppend(t: Trace, q: Queued, k: Key)
    ensures Ahead(t + [q], k) ==
            if q.kind == Payload && q.key == k && Count(t, CloseSession, k) == 0 then Ahead(t, k) + q.data
            else Ahead(t, k)
  {
    assert (t + [q])[..|t|] == t && (t + [q])[|t|] == q;
  }

  /** What stands ahead of a CLOSE once a message is put in front of a trace. */
  function AheadOf(q: Queued, k: Key, rest: Octets): Octets {
    if q.key != k then rest
    else match q.kind
      case CloseSession => []
      case Payload => q.data + rest
      case NewSession => rest
  }

  lemma {:induction false} AheadFront(q: Queued, t: Trace, k: Key)
    ensures Ahead([q] + t, k) == AheadOf(q, k, Ahead(t, k))
    decreases |t|
  {
    if t == [] {
      OneMessage(q, k);
      NoMessage(k);
      assert [q] + t == [q] && q.data + [] == q.data;
    } else {
      hide Ahead, AheadOf;
      var init, last := t[..|t| - 1], t[|t| - 1];
      AheadFront(q, init, k);
      AheadLonger(q, init, last, k);
      assert t == init + [last];
      assert [q] + t == [q] + init + [last];
    }
  }

  lemma AheadLonger(q: Queued, init: Trace, last: Queued, k: Key)
    requires Ahead([q] + init, k) == AheadOf(q, k, Ahead(init, k))
    ensures Ahead([q] + init + [last], k) == AheadOf(q, k, Ahead(init + [last], k))
  {
    hide Ahead, Count;
    assert Count([q] + init, CloseSession, k) > 0 <==>
           (q.key == k && q.kind == CloseSession) || Count(init, CloseSession, k) > 0 by {
      OneMessage(q, k);
      CountConcat([q], init, CloseSession, k);
    }
    AheadAppend([q] + init, last, k);
    AheadAppend(init, last, k);
    assert q.data + (Ahead(init, k) + last.data) == q.data + Ahead(init, k) + last.data;
  }

  /** What is ahead of a CLOSE is the beginning of all the data, and all of it where there is none. */
  lemma {:induction false} AheadWithin(t: Trace, k: Key)
    ensures Ahead(t, k) <= KeyBytes(t, k)
    ensures Count(t, CloseSession, k) == 0 ==> Ahead(t, k) == KeyBytes(t, k)
  {
    if t == [] {
    } else {
      AheadWithin(t[..|t| - 1], k);
    }
  }

  lemma {:induction false} ProjectConcat(a: Trace, b: Trace, k: Key)
    ensures Project(a + b, k) == Project(a, k) + Project(b, k)
    ensures Count(a + b, NewSession, k) == Count(a, NewSession, k) + Count(b, NewSession, k)
  {
    if b == [] {
      assert a + b == a;
    } else {
      var init := b[..|b| - 1];
      assert (a + b)[..|a + b| - 1] == a + init && (a + b)[|a + b| - 1] == b[|b| - 1];
      ProjectConcat(a, init, k);
    }
  }

  /** A trace that does not mention a key carries no data and no NEW for it. */
  lemma {:induction false} UnmentionedEmpty(t: Trace, k: Key)
    requires Project(t, k) == []
    ensures KeyBytes(t, k) == [] && Ahead(t, k) == [] && forall kind :: Count(t, kind, k) == 0
  {
    if t == [] {
    } else {
      UnmentionedEmpty(t[..|t| - 1], k);
    }
  }

  /** The messages of one relay. */
  function Of(t: Trace, p: Port): Trace {
    if t == [] then []
    else if t[0].relayPort == p then [t[0]] + Of(t[1..], p) else Of(t[1..], p)
  }

  lemma {:induction false} OfConcat(a: Trace, b: Trace, p: Port)
    ensures Of(a + b, p) == Of(a, p) + Of(b, p)
  {
    if a == [] {
      assert a + b == b;
    } else {
      assert (a + b)[1..] == a[1..] + b;
      OfConcat(a[1..], b, p);
    }
  }

  function Min(a: nat, b: nat): nat { if a < b then a else b }

  /** What the rounds of a loop brought, one after another. */
  function Gathered<R, T>(rounds: seq<R>, brought: R -> seq<T>): seq<T> {
    if rounds == [] then [] else Gathered(rounds[..|rounds| - 1], brought) + brought(rounds[|rounds| - 1])
  }

  lemma NothingGathered<R, T>(rounds: seq<R>, brought: R -> seq<T>, before: seq<T>)
    ensures Gathered(rounds[..0], brought) == [] && before == before + Gathered(rounds[..0], brought)
  {
  }

  lemma GatheredStep<R, T>(rounds: seq<R>, n: nat, brought: R -> seq<T>, before: seq<T>)
    requires n < |rounds|
    ensures Gathered(rounds[..n + 1], brought) == Gathered(rounds[..n], brought) + brought(rounds[n])
    ensures before + Gathered(rounds[..n + 1], brought) == before + Gathered(rounds[..n], brought) + brought(rounds[n])
  {
    assert rounds[..n + 1][..n] == rounds[..n];
  }

  lemma MoveAcross<T>(a: seq<T>, b: seq<T>)
    requires b != []
    ensures a + [b[0]] + b[1..] == a + b
  {
  }

  /** What was taken off the front of a queue is told by what is left of it. */
  lemma TakenOff(before: Trace, queue: Trace, n: nat, after: Trace)
    requires n <= |queue| && after + queue[n..] == before + queue
    ensures after == before + queue[..n]
  {
    assert queue == queue[..n] + queue[n..];
    assert before + queue == before + queue[..n] + queue[n..];
    assert (after + queue[n..])[..|after|] == after;
  }

  /** What a queue holds after rounds that each bring something and then take the oldest entries, at most `bound`. */
  function Backlog<R>(queue: Trace, rounds: seq<R>, brought: R -> Trace, bound: nat): Trace {
    if rounds == [] then queue
    else
      var full := Backlog(queue, rounds[..|rounds| - 1], brought, bound) + brought(rounds[|rounds| - 1]);
      full[Min(bound, |full|)..]
  }

  lemma BacklogStep<R>(queue: Trace, rounds: seq<R>, n: nat, brought: R -> Trace, bound: nat)
    requires n < |rounds|
    ensures var full := Backlog(queue, rounds[..n], brought, bound) + brought(rounds[n]);
            Backlog(queue, rounds[..n + 1], brought, bound) == full[Min(bound, |full|)..]
  {
    assert rounds[..n + 1][..n] == rounds[..n];
  }

  lemma {:induction false} BacklogFront<R>(queue: Trace, rounds: seq<R>, brought: R -> Trace, bound: nat)
    requires rounds != []
    ensures var full := queue + brought(rounds[0]);
            Backlog(queue, rounds, brought, bound) == Backlog(full[Min(bound, |full|)..], rounds[1..], brought, bound)
  {
    if |rounds| == 1 {
      assert rounds[..0] == [] && rounds[1..] == [];
    } else {
      var init := rounds[..|rounds| - 1];
      BacklogFront(queue, init, brought, bound);
      assert init[1..] == rounds[1..][..|rounds| - 2];
    }
  }

  /** Where each round brings less than it may take, the backlog falls by the difference each time, down to nothing. */
  lemma {:induction false} BacklogFalls<R>(queue: Trace, rounds: seq<R>, brought: R -> Trace, bound: nat, most: nat)
    requires most <= bound && forall i | 0 <= i < |rounds| :: |brought(rounds[i])| <= most
    ensures var left := |Backlog(queue, rounds, brought, bound)|;
            left == 0 || left + |rounds| * (bound - most) <= |queue|
  {
    if rounds == [] {
    } else {
      BacklogFalls(queue, rounds[..|rounds| - 1], brought, bound, most);
      assert |rounds| * (bound - most) == (|rounds| - 1) * (bound - most) + (bound - most);
    }
  }

  /** Each of the keys once. */
  predicate Lists(order: seq<Key>, keys: set<Key>) {
    && (set k | k in order) == keys
    && forall i, j | 0 <= i < j < |order| :: order[i] != order[j]
  }

  /** `list(table.keys())`. */
  method ListKeys(keys: set<Key>) returns (order: seq<Key>)
    ensures Lists(order, keys)
  {
    order := [];
    var left := keys;
    while left != {}
      invariant left <= keys && Lists(order, keys - left)
      decreases left
    {
      var k :| k in left;
      assert forall i | 0 <= i < |order| :: order[i] in (set j | j in order);
      assert (set j | j in order + [k]) == (set j | j in order) + {k};
      order, left := order + [k], left - {k};
    }
  }
}
