/**
 From the local service to the external peers, session by session: a session whose address was
 quiet when it was accepted is sent its own bytes and no others, in order.
 */
module Fidelity {
  import opened Wire
  import opened Messages
  import opened Sessions
  import opened Pipes
  import opened RelayStates
  import opened ClientStates
  import opened Meetings
  import opened System
  import opened SystemInvariants
  import opened SystemSteps

  /**
   One address: how many NEWs are under way to the client; the data under way to the relay, the part
   of it ahead of a CLOSE, and whether there is one; the session ordinals at relay and client;
   whether the local service can still be read or a NEW still be met, also in silence; and the
   relay's unsent bytes if the address is in its table.
   */
  datatype KeyView = KeyView(
    news: nat, bytes: Octets, ahead: Octets, shut: bool, atRelay: nat, atClient: nat,
    live: bool, meets: bool, silent: bool, pending: Option<Octets>)

  /** The tapes of this direction, and the sessions that began badly. */
  datatype Books = Books(read: Tape, sent: Tape, hasty: set<(Key, nat)>, unsettled: set<(Key, nat)>)

  function View(s: System, k: Key): KeyView {
    var up := s.Uplink().Transit();
    KeyView(Count(s.Downlink().Transit(), NewSession, k), KeyBytes(up, k), Ahead(up, k), Count(up, CloseSession, k) > 0,
            s.RelaySession(k), s.ClientSession(k), s.LiveAt(k), s.MayMeet(k, false), s.MayMeet(k, true), Pending(s, k))
  }

  /** The relay's unsent bytes for an address in its table. */
  function Pending(s: System, k: Key): Option<Octets> {
    if k in s.relay.table then Some(s.relay.table[k].sendq) else None
  }

  function BooksOf(s: System): Books { Books(s.log.localRead, s.log.externalSent, s.log.hasty, s.log.unsettled) }

  /** Sessions that have not begun have no bytes. */
  ghost predicate Bounded(k: Key, v: KeyView, t: Books) {
    && v.atRelay == v.atClient + v.news
    && (forall x: nat | x > v.atClient :: On(t.read, k, x) == [])
    && (forall x: nat | x > v.atRelay :: On(t.sent, k, x) == [])
  }

  /** Of every session that began well, what was sent is a prefix of what was read. */
  ghost predicate Prefixes(k: Key, t: Books) {
    forall x: nat | (k, x) !in t.hasty :: On(t.sent, k, x) <= On(t.read, k, x)
  }

  /**
   The session in the relay's table. Up to a CLOSE under way, what is pending and what comes is the
   session's own; without a CLOSE it is all there is, and as long as the client is not in the
   session yet, nothing is or can be under way.
   */
  ghost predicate Own(k: Key, v: KeyView, t: Books)
    requires v.pending.Some?
  {
    var read, sent := On(t.read, k, v.atRelay), On(t.sent, k, v.atRelay) + v.pending.value + v.ahead;
    && sent <= read
    && (!v.shut && v.news == 0 ==> sent == read)
    && (!v.shut && v.news > 0 ==> !v.live && (v.silent ==> v.news == 1))
  }

  /** Where the session began with nothing under way, all that is under way is its own. */
  ghost predicate Full(k: Key, v: KeyView, t: Books)
    requires v.pending.Some?
  {
    && On(t.read, k, v.atRelay) == On(t.sent, k, v.atRelay) + v.pending.value + v.bytes
    && (v.news > 0 ==> v.bytes == [] && !v.live && (v.meets ==> v.news == 1))
  }

  ghost predicate Faithful(k: Key, v: KeyView, t: Books) {
    && Bounded(k, v, t) && Prefixes(k, t)
    && (v.pending.Some? && (k, v.atRelay) !in t.hasty ==> Own(k, v, t))
    && (v.pending.Some? && (k, v.atRelay) !in t.unsettled ==> Full(k, v, t))
  }

  /** The client may have lost the ability to read, or to meet a NEW, and nothing else has changed. */
  predicate Fainter(u: KeyView, v: KeyView) {
    && u == v.(live := u.live, meets := u.meets, silent := u.silent)
    && (u.live ==> v.live) && (u.meets ==> v.meets) && (u.silent ==> v.silent)
  }

  // ----------------------------------------------- one address, one event

  lemma FainterKeeps(k: Key, u: KeyView, v: KeyView, t: Books)
    requires Faithful(k, v, t) && Fainter(u, v)
    ensures Faithful(k, u, t)
  {
  }

  /** A new session begins at the relay, well or badly. */
  lemma NewKeeps(k: Key, v: KeyView, t: Books, u: KeyView, b: Books)
    requires Faithful(k, v, t)
    requires u == v.(news := v.news + 1, atRelay := v.atRelay + 1, pending := Some([]),
                     live := u.live, meets := u.meets, silent := u.silent)
    requires b.read == t.read && b.sent == t.sent && t.hasty <= b.hasty && t.unsettled <= b.unsettled
    requires (k, u.atRelay) !in b.hasty ==>
               v.ahead == [] && (!v.shut ==> !u.live && (u.silent ==> v.news == 0))
    requires (k, u.atRelay) !in b.unsettled ==> v.bytes == [] && !u.live && (u.meets ==> v.news == 0)
    ensures Faithful(k, u, b)
  {
    assert On(t.sent, k, u.atRelay) == [] && On(t.read, k, u.atRelay) == [];
  }

  /** The address leaves the relay's table. */
  lemma GoneKeeps(k: Key, v: KeyView, t: Books)
    requires Faithful(k, v, t)
    ensures Faithful(k, v.(pending := None), t)
  {
  }

  /** While the address is not in the table, what arrives is dropped. */
  lemma DroppedKeeps(k: Key, v: KeyView, t: Books, bytes: Octets, ahead: Octets, shut: bool)
    requires Faithful(k, v, t) && v.pending == None
    ensures Faithful(k, v.(bytes := bytes, ahead := ahead, shut := shut), t)
  {
  }

  /** Bytes leave for the external peer. */
  lemma SentKeeps(k: Key, v: KeyView, t: Books, data: Octets, left: Octets)
    requires Faithful(k, v, t) && v.pending == Some(data + left)
    ensures Faithful(k, v.(pending := Some(left)), t.(sent := Record(t.sent, k, v.atRelay, data)))
  {
    OnRecord(t.sent, k, v.atRelay, data);
    hide Record, On;
    var sent := On(t.sent, k, v.atRelay);
    assert sent + data + left + v.ahead == sent + (data + left) + v.ahead;
    assert sent + data + left + v.bytes == sent + (data + left) + v.bytes;
    assert sent + data <= sent + (data + left) + v.ahead;
  }

  /** Data at the head of the queue joins the connection's buffer. */
  lemma ArrivedKeeps(k: Key, v: KeyView, t: Books, data: Octets, bytes: Octets, ahead: Octets)
    requires Faithful(k, v, t) && v.pending.Some? && v.bytes == data + bytes && v.ahead == data + ahead
    ensures Faithful(k, v.(bytes := bytes, ahead := ahead, pending := Some(v.pending.value + data)), t)
  {
    hide On;
    var sent, p := On(t.sent, k, v.atRelay), v.pending.value;
    assert sent + (p + data) + ahead == sent + p + (data + ahead);
    assert sent + (p + data) + bytes == sent + p + (data + bytes);
  }

  /** The local thread takes a NEW. */
  lemma MetKeeps(k: Key, v: KeyView, t: Books, u: KeyView)
    requires Faithful(k, v, t) && v.meets && v.silent && v.news == u.news + 1
    requires u == v.(news := u.news, atClient := v.atClient + 1, live := u.live, meets := u.meets, silent := u.silent)
    ensures Faithful(k, u, t)
  {
    assert On(t.read, k, v.atRelay) == [];
  }

  /** The local service is read. */
  lemma ReadKeeps(k: Key, v: KeyView, t: Books, data: Octets)
    requires Faithful(k, v, t) && v.live
    ensures Faithful(k, v.(bytes := v.bytes + data, ahead := if v.shut then v.ahead else v.ahead + data),
                     t.(read := Record(t.read, k, v.atClient, data)))
  {
    OnRecord(t.read, k, v.atClient, data);
    hide Record, On;
    if v.pending.Some? {
      var sent, p := On(t.sent, k, v.atRelay), v.pending.value;
      assert sent + p + (v.ahead + data) == sent + p + v.ahead + data;
      assert sent + p + (v.bytes + data) == sent + p + v.bytes + data;
    }
  }

  /** The local thread says something else about the address, a CLOSE perhaps. */
  lemma SaidKeeps(k: Key, v: KeyView, t: Books, u: KeyView)
    requires Faithful(k, v, t) && (v.shut ==> u.shut) && (u.silent ==> v.silent || u.shut)
    requires (u.live ==> v.live) && (u.meets ==> v.meets)
    requires u == v.(shut := u.shut, live := u.live, meets := u.meets, silent := u.silent)
    ensures Faithful(k, u, t)
  {
  }

  lemma SameBooks(k: Key, v: KeyView, t: Books, b: Books)
    requires Faithful(k, v, t)
    requires forall x :: On(b.read, k, x) == On(t.read, k, x) && On(b.sent, k, x) == On(t.sent, k, x)
    requires forall x ::
               && ((k, x) in b.hasty <==> (k, x) in t.hasty)
               && ((k, x) in b.unsettled <==> (k, x) in t.unsettled)
    ensures Faithful(k, v, b)
  {
  }

  // ----------------------------------------------------- every action

  ghost predicate AllFaithful(s: System) {
    forall k :: Faithful(k, View(s, k), BooksOf(s))
  }

  lemma FaithfulAt(s: System, k: Key)
    requires AllFaithful(s)
    ensures Faithful(k, View(s, k), BooksOf(s))
  {
  }

  /** What a step moves, seen from one address: downlink and ordinals. */
  lemma ViewDown(s: System, t: System, emitted: Trace, taken: Trace, replied: Trace, applied: Trace, k: Key)
    requires Moves(s, t, emitted, taken, replied, applied)
    ensures View(s, k).news + Count(emitted, NewSession, k) == Count(taken, NewSession, k) + View(t, k).news
    ensures View(t, k).atRelay == View(s, k).atRelay + Count(emitted, NewSession, k)
    ensures View(t, k).atClient == View(s, k).atClient + Count(taken, NewSession, k)
  {
    hide Pipe.Transit, System.MayMeet, System.LiveAt, Pending;
    CountConcat(s.Downlink().Transit(), emitted, NewSession, k);
    CountConcat(taken, t.Downlink().Transit(), NewSession, k);
    CountConcat(s.log.emitted, emitted, NewSession, k);
    CountConcat(s.log.consumed, taken, NewSession, k);
  }

  predicate About(t: Trace, key: Key) { |t| <= 1 && forall i | 0 <= i < |t| :: t[i].key == key }

  function Data(t: Trace): Octets
    requires |t| <= 1
  {
    if t == [] || t[0].kind != Payload then [] else t[0].data
  }

  function News(t: Trace): nat
    requires |t| <= 1
  {
    if t != [] && t[0].kind == NewSession then 1 else 0
  }

  predicate Closes(t: Trace)
    requires |t| <= 1
  {
    t != [] && t[0].kind == CloseSession
  }

  lemma AboutNews(t: Trace, key: Key, k: Key)
    requires About(t, key)
    ensures Count(t, NewSession, k) == if k == key then News(t) else 0
  {
    NoMessage(k);
    if t != [] {
      assert t == [t[0]];
      OneMessage(t[0], k);
    }
  }

  /** The uplink of a step in which the relay took nothing. */
  lemma UpReplied(s: System, t: System, emitted: Trace, taken: Trace, replied: Trace, key: Key, k: Key)
    requires Moves(s, t, emitted, taken, replied, []) && About(replied, key)
    ensures var v, u := View(s, k), View(t, k);
            var data := if k == key then Data(replied) else [];
            && u.bytes == v.bytes + data && u.ahead == (if v.shut then v.ahead else v.ahead + data)
            && u.shut == (v.shut || (k == key && Closes(replied)))
  {
    hide Moves, Pipe.Transit, View, KeyBytes, Ahead, Count;
    UpLonger(s, t, emitted, taken, replied);
    UpSeen(s, k);
    UpSeen(t, k);
    var w := s.Uplink().Transit();
    if replied == [] {
      assert w + [] == w;
      assert View(s, k).bytes + [] == View(s, k).bytes && View(s, k).ahead + [] == View(s, k).ahead;
    } else {
      var q := replied[0];
      assert replied == [q];
      KeyBytesConcat(w, [q], k);
      CountConcat(w, [q], CloseSession, k);
      AheadAppend(w, q, k);
      OneMessage(q, k);
      assert View(s, k).ahead + [] == View(s, k).ahead && View(s, k).bytes + [] == View(s, k).bytes;
    }
  }

  lemma UpLonger(s: System, t: System, emitted: Trace, taken: Trace, replied: Trace)
    requires Moves(s, t, emitted, taken, replied, [])
    ensures t.Uplink().Transit() == s.Uplink().Transit() + replied
  {
    hide Pipe.Transit;
    assert [] + t.Uplink().Transit() == t.Uplink().Transit();
  }

  lemma UpSeen(s: System, k: Key)
    ensures var v, up := View(s, k), s.Uplink().Transit();
            v.bytes == KeyBytes(up, k) && v.ahead == Ahead(up, k) && v.shut == (Count(up, CloseSession, k) > 0)
  {
    hide Pipe.Transit, System.MayMeet, System.LiveAt, Pending, KeyBytes, Ahead, Count;
  }

  /** The uplink of a step in which the relay took an entry. */
  lemma UpApplied(s: System, t: System, emitted: Trace, q: Queued, k: Key)
    requires Moves(s, t, emitted, [], [], [q])
    ensures var v, u := View(s, k), View(t, k);
            && (q.key != k || q.kind == NewSession ==> u.bytes == v.bytes && u.ahead == v.ahead && u.shut == v.shut)
            && (q.key == k && q.kind == Payload ==>
                  v.bytes == q.data + u.bytes && v.ahead == q.data + u.ahead && u.shut == v.shut)
  {
    hide Pipe.Transit, System.MayMeet, System.LiveAt, Pending;
    var w := t.Uplink().Transit();
    assert s.Uplink().Transit() + [] == s.Uplink().Transit();
    KeyBytesConcat([q], w, k);
    CountConcat([q], w, CloseSession, k);
    AheadFront(q, w, k);
    OneMessage(q, k);
    assert [] + KeyBytes(w, k) == KeyBytes(w, k);
  }

  /** Where an action happened, and that nothing else but the client's abilities is seen to change elsewhere. */
  ghost predicate LocalChange(s: System, t: System, key: Key) {
    && (forall k | k != key :: Fainter(View(t, k), View(s, k)))
    && (forall k, x | k != key ::
          && On(t.log.localRead, k, x) == On(s.log.localRead, k, x)
          && On(t.log.externalSent, k, x) == On(s.log.externalSent, k, x))
    && (forall k, x | k != key ::
          && ((k, x) in t.log.hasty <==> (k, x) in s.log.hasty)
          && ((k, x) in t.log.unsettled <==> (k, x) in s.log.unsettled))
  }

  lemma AllIfOne(s: System, t: System, key: Key)
    requires AllFaithful(s) && LocalChange(s, t, key) && Faithful(key, View(t, key), BooksOf(t))
    ensures AllFaithful(t)
  {
    hide Faithful, View, Fainter;
    forall k
      ensures Faithful(k, View(t, k), BooksOf(t))
    {
      if k != key {
        FainterKeeps(k, View(t, k), View(s, k), BooksOf(s));
        SameBooks(k, View(t, k), BooksOf(s), BooksOf(t));
      }
    }
  }

  /** What the client can read, and what it can meet, does not grow. */
  ghost predicate Fades(s: System, t: System, k: Key) {
    && (t.LiveAt(k) ==> s.LiveAt(k))
    && (t.MayMeet(k, false) ==> s.MayMeet(k, false)) && (t.MayMeet(k, true) ==> s.MayMeet(k, true))
  }

  lemma OthersSame(s: System, t: System, emitted: Trace, taken: Trace, replied: Trace, applied: Trace, key: Key)
    requires Moves(s, t, emitted, taken, replied, applied) && (replied == [] || applied == [])
    requires About(emitted, key) && About(taken, key) && About(replied, key) && About(applied, key)
    requires forall k | k != key :: Pending(s, k) == Pending(t, k) && Fades(s, t, k)
    ensures forall k | k != key :: Fainter(View(t, k), View(s, k))
  {
    hide Moves, View, Pending, Fades, Fainter, About;
    forall k | k != key
      ensures Fainter(View(t, k), View(s, k))
    {
      OtherSame(s, t, emitted, taken, replied, applied, key, k);
    }
  }

  lemma OtherSame(s: System, t: System, emitted: Trace, taken: Trace, replied: Trace, applied: Trace, key: Key, k: Key)
    requires Moves(s, t, emitted, taken, replied, applied) && (replied == [] || applied == []) && k != key
    requires About(emitted, key) && About(taken, key) && About(replied, key) && About(applied, key)
    requires Pending(s, k) == Pending(t, k) && Fades(s, t, k)
    ensures Fainter(View(t, k), View(s, k))
  {
    FadesSeen(s, t, k);
    UpOther(s, t, emitted, taken, replied, applied, key, k);
    hide Moves, Pipe.Transit, Pending, System.MayMeet, System.LiveAt, Fades, View;
    AboutNews(emitted, key, k);
    AboutNews(taken, key, k);
    ViewDown(s, t, emitted, taken, replied, applied, k);
  }

  /** The views' last fields are what they are named after. */
  lemma FadesSeen(s: System, t: System, k: Key)
    ensures Fades(s, t, k) ==>
              var v, u := View(s, k), View(t, k);
              (u.live ==> v.live) && (u.meets ==> v.meets) && (u.silent ==> v.silent)
    ensures View(s, k).pending == Pending(s, k) && View(s, k).live == s.LiveAt(k)
    ensures View(s, k).meets == s.MayMeet(k, false) && View(s, k).silent == s.MayMeet(k, true)
    ensures View(t, k).pending == Pending(t, k) && View(t, k).live == t.LiveAt(k)
    ensures View(t, k).meets == t.MayMeet(k, false) && View(t, k).silent == t.MayMeet(k, true)
  {
    hide Pipe.Transit, System.MayMeet, System.LiveAt, Pending, System.Uplink, System.Downlink;
  }

  lemma UpOther(s: System, t: System, emitted: Trace, taken: Trace, replied: Trace, applied: Trace, key: Key, k: Key)
    requires Moves(s, t, emitted, taken, replied, applied) && (replied == [] || applied == []) && k != key
    requires About(taken, key) && About(replied, key) && About(applied, key)
    ensures var v, u := View(s, k), View(t, k); u.bytes == v.bytes && u.ahead == v.ahead && u.shut == v.shut
  {
    hide Pipe.Transit, View;
    if applied == [] {
      UpReplied(s, t, emitted, taken, replied, key, k);
      assert View(s, k).bytes + [] == View(s, k).bytes && View(s, k).ahead + [] == View(s, k).ahead;
    } else {
      var q, w := applied[0], t.Uplink().Transit();
      assert applied == [q] && s.Uplink().Transit() + [] == s.Uplink().Transit();
      UpFront(s, t, q, k);
    }
  }

  lemma UpFront(s: System, t: System, q: Queued, k: Key)
    requires s.Uplink().Transit() == [q] + t.Uplink().Transit() && q.key != k
    ensures var v, u := View(s, k), View(t, k); u.bytes == v.bytes && u.ahead == v.ahead && u.shut == v.shut
  {
    hide Pipe.Transit, System.MayMeet, System.LiveAt, Pending;
    var w := t.Uplink().Transit();
    KeyBytesConcat([q], w, k);
    CountConcat([q], w, CloseSession, k);
    AheadFront(q, w, k);
    OneMessage(q, k);
    assert [] + KeyBytes(w, k) == KeyBytes(w, k);
  }

  /** The books read like those of `s`, but for what was read from the local service. */
  ghost predicate SameBut(s: System, t: System, read: Tape) {
    && t.log.hasty == s.log.hasty && t.log.unsettled == s.log.unsettled
    && forall k, x ::
         On(t.log.localRead, k, x) == On(read, k, x) && On(t.log.externalSent, k, x) == On(s.log.externalSent, k, x)
  }

  ghost predicate SameReadings(s: System, t: System) { SameBut(s, t, s.log.localRead) }

  // ------------------------------------------------ what the client can do

  /** Nothing new to meet comes from the relay, except by an accept, and then only a first NEW. */
  lemma EmittedFades(s: System, t: System, out: Trace, applied: Trace, key: Key, k: Key)
    requires Moves(s, t, out, [], [], applied) && About(out, key) && t.local == s.local && t.localPhase == s.localPhase
    ensures Fades(s, t, k) || (News(out) == 1 && k == key && View(s, k).news == 0)
    ensures t.LiveAt(k) ==> s.LiveAt(k)
    ensures t.MayMeet(k, false) ==> s.MayMeet(k, false) || (News(out) == 1 && k == key && View(s, k).news == 0)
    ensures t.MayMeet(k, true) ==> s.MayMeet(k, true) || (News(out) == 1 && k == key && View(s, k).news == 0)
  {
    EmittedMeets(s, t, out, applied, key, k, false);
    EmittedMeets(s, t, out, applied, key, k, true);
    hide Moves, Pipe.Transit, System.MayMeet, View;
  }

  lemma EmittedMeets(s: System, t: System, out: Trace, applied: Trace, key: Key, k: Key, silent: bool)
    requires Moves(s, t, out, [], [], applied) && About(out, key) && t.local == s.local && t.localPhase == s.localPhase
    ensures t.MayMeet(k, silent) ==> s.MayMeet(k, silent) || (News(out) == 1 && k == key && View(s, k).news == 0)
  {
    hide Pipe.Transit, LocalState.Meets, System.LiveAt, Pending;
    var w := s.Downlink().Transit();
    assert w + out == t.Downlink().Transit() by {
      assert [] + t.Downlink().Transit() == t.Downlink().Transit();
    }
    if t.MayMeet(k, silent) {
      if out == [] {
        assert w + [] == w;
      } else {
        assert out == [out[0]];
        MeetsAppend(s.local, w, out[0], k, silent);
      }
    }
  }

  /** Neither does what the local thread does by itself. */
  lemma RepliedFades(s: System, t: System, out: Trace, k: Key)
    requires Moves(s, t, [], [], out, []) && Below(t.local, s.local) && (t.Attends() ==> s.Attends())
    requires t.Attends() && t.local.Live(k) ==> s.local.Live(k)
    ensures Fades(s, t, k)
  {
    hide Pipe.Transit, LocalState.Meets, Below;
    assert s.Downlink().Transit() == t.Downlink().Transit() by {
      assert s.Downlink().Transit() + [] == s.Downlink().Transit();
      assert [] + t.Downlink().Transit() == t.Downlink().Transit();
    }
    if t.MayMeet(k, false) {
      MeetsBelow(t.local, s.local, t.Downlink().Transit(), k, false);
    }
    if t.MayMeet(k, true) {
      MeetsBelow(t.local, s.local, t.Downlink().Transit(), k, true);
    }
  }

  /** What it takes, it meets; what it can meet afterwards, it could before, but for silence broken just now. */
  lemma TakenMeets(s: System, t: System, q: Queued, answer: Answer, out: Trace, k: Key, silent: bool)
    requires Moves(s, t, [], [q], out, []) && s.Attends() && t.localPhase == s.localPhase
    requires t.local == s.local.Take(q, answer).0 && out == s.local.Take(q, answer).1
    ensures q.kind == NewSession && q.key == k ==> s.MayMeet(k, silent)
    ensures t.MayMeet(k, silent) ==> s.MayMeet(k, silent) || (silent && q.key == k && out != [])
  {
    hide Pipe.Transit, LocalState.Take, Below;
    var w := t.Downlink().Transit();
    assert s.Downlink().Transit() == [q] + w by {
      assert s.Downlink().Transit() + [] == s.Downlink().Transit();
    }
    assert ([q] + w)[1..] == w;
    if t.MayMeet(k, silent) {
      BelowItself(s.local);
      BelowTake(s.local, s.local, q, answer);
      MeetsBelow(t.local, s.local.Take(q, Connects).0, w, k, silent);
      SaysAnyway(s.local, q, answer);
    }
  }

  /** What is said about an entry that is no NEW does not depend on the kernel's answer. */
  lemma SaysAnyway(s: LocalState, q: Queued, answer: Answer)
    ensures q.kind != NewSession ==> s.Take(q, answer).1 == s.Take(q, Connects).1
  {
  }

  lemma BelowItself(s: LocalState)
    ensures Below(s, s)
  {
  }

  lemma TakeLive(s: LocalState, q: Queued, answer: Answer, k: Key)
    requires q.kind != NewSession || q.key != k
    ensures s.Take(q, answer).0.Live(k) ==> s.Live(k)
    ensures !s.Take(q, answer).0.dead ==> !s.dead
  {
  }

  // -------------------------------------------------- the relay's actions

  /** The relay puts `out` on its queue: what its address looks like afterwards. */
  lemma ViewEmitted(s: System, t: System, out: Trace, k: Key)
    requires Moves(s, t, out, [], [], []) && About(out, k)
    ensures var v, u := View(s, k), View(t, k);
            u == v.(news := v.news + News(out), atRelay := v.atRelay + News(out),
                    live := u.live, meets := u.meets, silent := u.silent, pending := u.pending)
  {
    hide Moves, Pipe.Transit, View;
    AboutNews(out, k, k);
    NoMessage(k);
    ViewDown(s, t, out, [], [], [], k);
    UpReplied(s, t, out, [], [], k, k);
    assert View(s, k).bytes + [] == View(s, k).bytes && View(s, k).ahead + [] == View(s, k).ahead;
  }

  lemma AcceptFaithful(s: System, k: Key, id: nat, t: System, out: Trace)
    requires k !in s.relay.table && id !in s.relay.peers && t == s.ExternalAccept(k, id)
    requires out == s.relay.Accept(k, id).1
    requires Moves(s, t, out, [], [], []) && AllFaithful(s)
    ensures AllFaithful(t)
  {
    hide Moves, Pipe.Transit, AllFaithful, System.Quiet, System.Settled, System.Downlink, System.Uplink;
    assert BooksOf(t) == BegunBooks(s, k);
    NewFaithful(s, k, t, out);
  }

  /** A NEW, with the session's beginning entered in the books. */
  lemma NewFaithful(s: System, k: Key, t: System, out: Trace)
    requires Moves(s, t, out, [], [], []) && AllFaithful(s)
    requires out == [Queued(NewSession, k, [], s.relay.port)]
    requires t.local == s.local && t.localPhase == s.localPhase
    requires BooksOf(t) == BegunBooks(s, k)
    requires Pending(t, k) == Some([]) && forall j | j != k :: Pending(s, j) == Pending(t, j)
    ensures AllFaithful(t)
  {
    hide Moves, Faithful, AllFaithful, View, Fades, Pending, System.Quiet, System.Settled, Fainter;
    FaithfulAt(s, k);
    BegunFaithful(s, k, t, out);
    AcceptFades(s, t, out, k);
    OthersSame(s, t, out, [], [], [], k);
    AllIfOne(s, t, k);
  }

  /** The books after an accept. */
  function BegunBooks(s: System, k: Key): Books {
    var b, begun := BooksOf(s), {(k, s.RelaySession(k) + 1)};
    b.(hasty := if s.Quiet(k) then b.hasty else b.hasty + begun,
       unsettled := if s.Settled(k) then b.unsettled else b.unsettled + begun)
  }

  /** The address that was accepted. */
  lemma BegunFaithful(s: System, k: Key, t: System, out: Trace)
    requires Moves(s, t, out, [], [], []) && Faithful(k, View(s, k), BooksOf(s))
    requires out == [Queued(NewSession, k, [], s.relay.port)]
    requires t.local == s.local && t.localPhase == s.localPhase
    requires BooksOf(t) == BegunBooks(s, k) && Pending(t, k) == Some([])
    ensures Faithful(k, View(t, k), BooksOf(t))
  {
    var v, u := View(s, k), View(t, k);
    BeginsWell(s, t, out, k);
    hide Moves, Faithful, View, Fades, Pending, System.Quiet, System.Settled;
    ViewEmitted(s, t, out, k);
    FadesSeen(s, t, k);
    OrdinalSeen(s, k);
    NewKeeps(k, v, BooksOf(s), u, BooksOf(t));
  }

  lemma OrdinalSeen(s: System, k: Key)
    ensures View(s, k).atRelay == s.RelaySession(k) && View(s, k).atClient == s.ClientSession(k)
  {
  }

  /** What quiet and settled mean for the address after its accept. */
  lemma BeginsWell(s: System, t: System, out: Trace, k: Key)
    requires Moves(s, t, out, [], [], []) && About(out, k) && t.local == s.local && t.localPhase == s.localPhase
    ensures var v, u := View(s, k), View(t, k);
            && (s.Quiet(k) ==> v.ahead == [] && (!v.shut ==> !u.live && (u.silent ==> v.news == 0)))
            && (s.Settled(k) ==> v.bytes == [] && !u.live && (u.meets ==> v.news == 0))
  {
    EmittedFades(s, t, out, [], k, k);
    QuietSeen(s, k);
    hide Moves, Pipe.Transit, Pending, Fades, System.Quiet, System.Settled, System.MayMeet, System.LiveAt, View;
    FadesSeen(s, t, k);
  }

  lemma QuietSeen(s: System, k: Key)
    ensures var v := View(s, k);
            && (s.Quiet(k) <==> v.ahead == [] && (!v.shut ==> !v.live && !v.silent))
            && (s.Settled(k) <==> v.bytes == [] && !v.live && !v.meets)
  {
    hide Pipe.Transit, System.MayMeet, System.LiveAt, Pending, System.Uplink, System.Downlink;
  }

  lemma AcceptFades(s: System, t: System, out: Trace, k: Key)
    requires Moves(s, t, out, [], [], []) && About(out, k) && t.local == s.local && t.localPhase == s.localPhase
    ensures forall j | j != k :: Fades(s, t, j)
  {
    hide Moves, System.MayMeet, System.LiveAt, Fades, View;
    forall j | j != k
      ensures Fades(s, t, j)
    {
      EmittedFades(s, t, out, [], k, j);
    }
  }

  /** Any other message for the client, none at all, or an entry that was dropped: no session begins. */
  lemma NothingBegins(s: System, t: System, out: Trace, applied: Trace, key: Key)
    requires Moves(s, t, out, [], [], applied) && About(out, key) && News(out) == 0
    requires t.local == s.local && t.localPhase == s.localPhase
    ensures forall j :: Fades(s, t, j)
  {
    hide Moves, System.MayMeet, System.LiveAt, Fades, View;
    forall j
      ensures Fades(s, t, j)
    {
      EmittedFades(s, t, out, applied, key, j);
    }
  }

  /** Data or CLOSE for the client: reads of the external socket, and the clean-up after the loop. */
  lemma ComingFaithful(s: System, k: Key, t: System, out: Trace)
    requires Moves(s, t, out, [], [], []) && AllFaithful(s)
    requires |out| == 1 && out[0].key == k && out[0].kind != NewSession
    requires t.local == s.local && t.localPhase == s.localPhase && SameReadings(s, t)
    requires forall j | j != k :: Pending(s, j) == Pending(t, j)
    requires Pending(t, k) == Pending(s, k) || Pending(t, k) == None
    ensures AllFaithful(t)
  {
    hide Moves, Pipe.Transit, Faithful, AllFaithful, View, Fades, Pending;
    var v, u := View(s, k), View(t, k);
    FaithfulAt(s, k);
    GoneKeeps(k, v, BooksOf(s));
    ViewEmitted(s, t, out, k);
    NothingBegins(s, t, out, [], k);
    FadesSeen(s, t, k);
    FainterKeeps(k, u, v.(pending := u.pending), BooksOf(s));
    OthersSame(s, t, out, [], [], [], k);
    SameBooks(k, u, BooksOf(s), BooksOf(t));
    AllIfOne(s, t, k);
  }

  lemma ReadExternalFaithful(s: System, k: Key, r: RecvResult, t: System, out: Trace)
    requires k in s.relay.table && Readable(r) && t == s.ExternalRead(k, r)
    requires out == s.relay.ReadReady(k, r).1
    requires Moves(s, t, out, [], [], []) && AllFaithful(s)
    ensures AllFaithful(t)
  {
    hide Moves, Pipe.Transit, AllFaithful;
    ComingFaithful(s, k, t, out);
  }

  lemma CleanUpFaithful(s: System, k: Key, t: System, out: Trace)
    requires k in s.relay.table && t == s.Emit(s.relay.CleanUp(k))
    requires out == s.relay.CleanUp(k).1
    requires Moves(s, t, out, [], [], []) && AllFaithful(s)
    ensures AllFaithful(t)
  {
    hide Moves, Pipe.Transit, AllFaithful;
    ComingFaithful(s, k, t, out);
  }

  lemma SentFaithful(s: System, k: Key, t: System, data: Octets, left: Octets)
    requires Moves(s, t, [], [], [], []) && AllFaithful(s) && t.local == s.local && t.localPhase == s.localPhase
    requires Pending(s, k) == Some(data + left) && Pending(t, k) == Some(left)
    requires forall j | j != k :: Pending(s, j) == Pending(t, j)
    requires BooksOf(t) == BooksOf(s).(sent := Record(s.log.externalSent, k, s.RelaySession(k), data))
    ensures AllFaithful(t)
  {
    hide Moves, Pipe.Transit, Faithful, AllFaithful, View, Fades, Pending, Record;
    var v, u := View(s, k), View(t, k);
    FaithfulAt(s, k);
    OrdinalSeen(s, k);
    FadesSeen(s, t, k);
    OnRecord(s.log.externalSent, k, s.RelaySession(k), data);
    SentKeeps(k, v, BooksOf(s), data, left);
    ViewEmitted(s, t, [], k);
    NothingBegins(s, t, [], [], k);
    FainterKeeps(k, u, v.(pending := Some(left)), BooksOf(t));
    OthersSame(s, t, [], [], [], [], k);
    AllIfOne(s, t, k);
  }

  /** What a write to an external socket changes, besides the relay's queue. */
  lemma WriteExternalEffect(s: System, k: Key, r: SendResult, t: System, out: Trace, data: Octets, left: Octets)
    requires s.relay.CanSend(k, r) && t == s.ExternalWrite(k, r) && out == s.relay.WriteReady(k, r).1
    requires data == if r.Sent? then s.relay.table[k].sendq[..r.n] else []
    requires left == if r.Sent? then s.relay.table[k].sendq[r.n..] else s.relay.table[k].sendq
    ensures t.local == s.local && t.localPhase == s.localPhase && (forall j | j != k :: Pending(s, j) == Pending(t, j))
    ensures BooksOf(t) == BooksOf(s).(sent := Record(s.log.externalSent, k, s.RelaySession(k), data))
    ensures out == [] ==> Pending(s, k) == Some(data + left) && Pending(t, k) == Some(left)
    ensures out != [] ==> out == [Queued(CloseSession, k, [], s.relay.port)] && data == [] && Pending(t, k) == None
  {
    hide Record;
    assert data + left == s.relay.table[k].sendq;
  }

  lemma WriteExternalFaithful(s: System, k: Key, r: SendResult, t: System, out: Trace)
    requires s.relay.CanSend(k, r) && t == s.ExternalWrite(k, r) && out == s.relay.WriteReady(k, r).1
    requires Moves(s, t, out, [], [], []) && AllFaithful(s)
    ensures AllFaithful(t)
  {
    hide Moves, AllFaithful, Record, Pending, System.ExternalWrite, RelayState.WriteReady, On, SameReadings;
    var sendq, i := s.relay.table[k].sendq, s.RelaySession(k);
    var data, left := if r.Sent? then sendq[..r.n] else [], if r.Sent? then sendq[r.n..] else sendq;
    WriteExternalEffect(s, k, r, t, out, data, left);
    if out == [] {
      SentFaithful(s, k, t, data, left);
    } else {
      BlankReadings(s, t, k, i);
      ComingFaithful(s, k, t, out);
    }
  }

  lemma BlankReadings(s: System, t: System, k: Key, i: nat)
    requires BooksOf(t) == BooksOf(s).(sent := Record(s.log.externalSent, k, i, []))
    ensures SameReadings(s, t)
  {
    OnRecord(s.log.externalSent, k, i, []);
    assert On(s.log.externalSent, k, i) + [] == On(s.log.externalSent, k, i);
  }

  /** What an entry off the outbound queue changes at the relay. */
  lemma TakeOutboundEffect(s: System, t: System, q: Queued, out: Trace)
    requires s.outbound != [] && t == s.RelayTake() && q == s.outbound[0] && out == s.relay.TakeOutbound(q).1
    ensures t.local == s.local && t.localPhase == s.localPhase && BooksOf(t) == BooksOf(s)
    ensures About(out, q.key) && News(out) == 0 && forall j | j != q.key :: Pending(s, j) == Pending(t, j)
    ensures var p := Pending(s, q.key);
            Pending(t, q.key) ==
            if p.None? || q.kind == CloseSession then None else if q.kind == Payload then Some(p.value + q.data) else p
  {
  }

  lemma TakeOutboundFaithful(s: System, t: System, q: Queued, out: Trace)
    requires s.outbound != [] && t == s.RelayTake()
    requires q == s.outbound[0] && out == s.relay.TakeOutbound(q).1
    requires Moves(s, t, out, [], [], [q]) && AllFaithful(s)
    ensures AllFaithful(t)
  {
    hide Moves, Faithful, AllFaithful, View, Fades, Pending, System.RelayTake, RelayState.TakeOutbound;
    var k := q.key;
    var v, u := View(s, k), View(t, k);
    TakeOutboundEffect(s, t, q, out);
    FaithfulAt(s, k);
    FadesSeen(s, t, k);
    NothingBegins(s, t, out, [q], k);
    ViewApplied(s, t, q, out);
    EntryKeeps(q, v, u, BooksOf(s));
    OthersSame(s, t, out, [], [], [q], k);
    AllIfOne(s, t, k);
  }

  /** The relay takes `q` off its queue and puts `out` on the other. */
  lemma ViewApplied(s: System, t: System, q: Queued, out: Trace)
    requires Moves(s, t, out, [], [], [q]) && About(out, q.key) && News(out) == 0
    ensures var v, u := View(s, q.key), View(t, q.key);
            && (q.kind == NewSession ==> u.bytes == v.bytes && u.ahead == v.ahead && u.shut == v.shut)
            && (q.kind == Payload ==> v.bytes == q.data + u.bytes && v.ahead == q.data + u.ahead && u.shut == v.shut)
            && u == v.(bytes := u.bytes, ahead := u.ahead, shut := u.shut,
                       live := u.live, meets := u.meets, silent := u.silent, pending := u.pending)
  {
    hide Moves, Pipe.Transit, View;
    var k := q.key;
    AboutNews(out, k, k);
    NoMessage(k);
    ViewDown(s, t, out, [], [], [q], k);
    UpApplied(s, t, out, q, k);
  }

  lemma EntryKeeps(q: Queued, v: KeyView, u: KeyView, t: Books)
    requires Faithful(q.key, v, t)
    requires q.kind == NewSession ==> u.bytes == v.bytes && u.ahead == v.ahead && u.shut == v.shut
    requires q.kind == Payload ==> v.bytes == q.data + u.bytes && v.ahead == q.data + u.ahead && u.shut == v.shut
    requires u == v.(bytes := u.bytes, ahead := u.ahead, shut := u.shut,
                     live := u.live, meets := u.meets, silent := u.silent, pending := u.pending)
    requires (u.live ==> v.live) && (u.meets ==> v.meets) && (u.silent ==> v.silent)
    requires u.pending == if v.pending.None? || q.kind == CloseSession then None
                          else if q.kind == Payload then Some(v.pending.value + q.data) else v.pending
    ensures Faithful(q.key, u, t)
  {
    hide Faithful;
    var k := q.key;
    if u.pending == None {
      GoneKeeps(k, v, t);
      DroppedKeeps(k, v.(pending := None), t, u.bytes, u.ahead, u.shut);
    } else if q.kind == Payload {
      ArrivedKeeps(k, v, t, q.data, u.bytes, u.ahead);
    }
    FainterKeeps(k, u, v.(bytes := u.bytes, ahead := u.ahead, shut := u.shut, pending := u.pending), t);
  }

  // ----------------------------------------------- the local thread's actions

  /** The local thread puts `out` on its queue: what its address looks like afterwards. */
  lemma ViewReplied(s: System, t: System, taken: Trace, out: Trace, k: Key)
    requires Moves(s, t, [], taken, out, []) && About(taken, k) && About(out, k)
    ensures var v, u := View(s, k), View(t, k);
            && v.news == News(taken) + u.news && u.bytes == v.bytes + Data(out)
            && u.ahead == (if v.shut then v.ahead else v.ahead + Data(out)) && u.shut == (v.shut || Closes(out))
            && u == v.(news := u.news, atClient := v.atClient + News(taken), bytes := u.bytes, ahead := u.ahead,
                       shut := u.shut, live := u.live, meets := u.meets, silent := u.silent, pending := u.pending)
  {
    hide Moves, Pipe.Transit, View;
    AboutNews(taken, k, k);
    NoMessage(k);
    ViewDown(s, t, [], taken, out, [], k);
    UpReplied(s, t, [], taken, out, k, k);
  }

  /** The local thread puts `out` on its queue, or lets go of something, by itself. */
  lemma ReplyFaithful(s: System, k: Key, t: System, out: Trace)
    requires Moves(s, t, [], [], out, []) && AllFaithful(s) && About(out, k) && t.relay == s.relay
    requires Below(t.local, s.local) && (t.Attends() ==> s.Attends())
    requires forall j :: t.Attends() && t.local.Live(j) ==> s.local.Live(j)
    requires Data(out) == [] || (s.LiveAt(k) && !Closes(out))
    requires SameBut(s, t, Record(s.log.localRead, k, s.ClientSession(k), Data(out)))
    ensures AllFaithful(t)
  {
    hide Moves, Pipe.Transit, AllFaithful, Record, System.MayMeet, System.LiveAt, Fades, Below, View, Pending;
    forall j
      ensures Fades(s, t, j)
    {
      RepliedFades(s, t, out, j);
    }
    SayFaithful(s, k, t, out);
  }

  /** The same, from what it means for the client's abilities. */
  lemma SayFaithful(s: System, k: Key, t: System, out: Trace)
    requires Moves(s, t, [], [], out, []) && AllFaithful(s) && About(out, k) && t.relay == s.relay
    requires forall j :: Fades(s, t, j)
    requires Data(out) == [] || (s.LiveAt(k) && !Closes(out))
    requires SameBut(s, t, Record(s.log.localRead, k, s.ClientSession(k), Data(out)))
    ensures AllFaithful(t)
  {
    assert forall j :: Pending(s, j) == Pending(t, j);
    hide Moves, Faithful, AllFaithful, Record, View, Fades, Fainter, Pending, SameBut, LocalChange, Data, About;
    FaithfulAt(s, k);
    SaidFaithful(s, k, t, out);
    OthersSame(s, t, [], [], out, [], k);
    ReadElsewhere(s, k, t, s.ClientSession(k), Data(out));
    AllIfOne(s, t, k);
  }

  /** The address that was spoken of. */
  lemma SaidFaithful(s: System, k: Key, t: System, out: Trace)
    requires Moves(s, t, [], [], out, []) && Faithful(k, View(s, k), BooksOf(s)) && About(out, k)
    requires Fades(s, t, k) && Pending(s, k) == Pending(t, k)
    requires Data(out) == [] || (s.LiveAt(k) && !Closes(out))
    requires SameBut(s, t, Record(s.log.localRead, k, s.ClientSession(k), Data(out)))
    ensures Faithful(k, View(t, k), BooksOf(t))
  {
    hide Moves, Faithful, Record, View, Fades, Pending, System.LiveAt, On;
    var v, u := View(s, k), View(t, k);
    FadesSeen(s, t, k);
    OrdinalSeen(s, k);
    ViewReplied(s, t, [], out, k);
    ReplyKeeps(k, v, BooksOf(s), u, Data(out));
    SameBooks(k, u, BooksOf(s).(read := Record(s.log.localRead, k, v.atClient, Data(out))), BooksOf(t));
  }

  /** What is read for one address is not read for another. */
  lemma ReadElsewhere(s: System, k: Key, t: System, i: nat, data: Octets)
    requires SameBut(s, t, Record(s.log.localRead, k, i, data))
    requires forall j | j != k :: Fainter(View(t, j), View(s, j))
    ensures LocalChange(s, t, k)
  {
    hide Fainter, View;
    OnRecord(s.log.localRead, k, i, data);
    hide Record, On;
  }

  lemma ReplyKeeps(k: Key, v: KeyView, t: Books, u: KeyView, data: Octets)
    requires Faithful(k, v, t) && (v.shut ==> u.shut) && (data == [] || (v.live && u.shut == v.shut))
    requires (u.live ==> v.live) && (u.meets ==> v.meets) && (u.silent ==> v.silent)
    requires u == v.(bytes := v.bytes + data, ahead := if v.shut then v.ahead else v.ahead + data,
                     shut := u.shut, live := u.live, meets := u.meets, silent := u.silent)
    ensures Faithful(k, u, t.(read := Record(t.read, k, v.atClient, data)))
  {
    if data == [] {
      assert v.bytes + [] == v.bytes && v.ahead + [] == v.ahead;
      OnRecord(t.read, k, v.atClient, []);
      assert On(t.read, k, v.atClient) + [] == On(t.read, k, v.atClient);
      hide Faithful, On, Record;
      SaidKeeps(k, v, t, u);
      SameBooks(k, u, t, t.(read := Record(t.read, k, v.atClient, [])));
    } else {
      hide Faithful, On, Record;
      ReadKeeps(k, v, t, data);
      FainterKeeps(k, u, u.(live := v.live, meets := v.meets, silent := v.silent),
                   t.(read := Record(t.read, k, v.atClient, data)));
    }
  }

  lemma NothingRecorded(s: System, k: Key, i: nat)
    ensures SameBut(s, s, Record(s.log.localRead, k, i, []))
  {
    OnRecord(s.log.localRead, k, i, []);
    assert On(s.log.localRead, k, i) + [] == On(s.log.localRead, k, i);
  }

  lemma ReadLocalFaithful(s: System, k: Key, r: RecvResult, t: System, out: Trace)
    requires s.Attends() && s.local.Live(k) && (r.Received? ==> |r.data| <= RECV_SIZE) && t == s.LocalRead(k, r)
    requires out == s.local.ReadReady(k, r).1
    requires Moves(s, t, [], [], out, []) && AllFaithful(s)
    ensures AllFaithful(t)
  {
    hide Moves, Pipe.Transit, AllFaithful, Below, Record, On;
    ReadBelow(s.local, k, r);
    ReplyFaithful(s, k, t, out);
  }

  lemma WriteLocalFaithful(s: System, k: Key, r: SendResult, t: System, out: Trace)
    requires s.Attends() && s.local.Live(k) && s.local.CanSend(k, r) && t == s.LocalWrite(k, r)
    requires out == s.local.WriteReady(k, r).1
    requires Moves(s, t, [], [], out, []) && AllFaithful(s)
    ensures AllFaithful(t)
  {
    hide Moves, Pipe.Transit, AllFaithful, Below, Record, On;
    WriteBelow(s.local, k, r);
    NothingRecorded(s, k, s.ClientSession(k));
    ReplyFaithful(s, k, t, out);
  }

  /** A thread that is not in its loop reads nothing and meets nothing. */
  lemma DismissFaithful(s: System, k: Key, t: System, out: Trace)
    requires s.started && s.localPhase == Closing && !s.local.dead && k in s.local.connections
    requires t == s.Reply(s.local.Dismiss(k)) && out == s.local.Dismiss(k).1
    requires Moves(s, t, [], [], out, []) && AllFaithful(s)
    ensures AllFaithful(t)
  {
    hide Moves, Pipe.Transit, AllFaithful, Record, On, LocalState.Meets;
    NothingRecorded(s, k, s.ClientSession(k));
    assert forall j :: Fades(s, t, j);
    SayFaithful(s, k, t, out);
  }

  lemma TakeInboundFaithful(s: System, answer: Answer, t: System, q: Queued, out: Trace)
    requires s.started && s.Attends() && s.fromRemote != [] && t == s.LocalTake(answer)
    requires q == s.fromRemote[0] && out == s.local.Take(q, answer).1
    requires Moves(s, t, [], [q], out, []) && AllFaithful(s)
    ensures AllFaithful(t)
  {
    hide Moves, Pipe.Transit, AllFaithful;
    TakenFaithful(s, t, q, out, answer);
  }

  lemma TakenFaithful(s: System, t: System, q: Queued, out: Trace, answer: Answer)
    requires Moves(s, t, [], [q], out, []) && AllFaithful(s) && t.relay == s.relay && BooksOf(t) == BooksOf(s)
    requires s.Attends() && t.localPhase == s.localPhase
    requires t.local == s.local.Take(q, answer).0 && out == s.local.Take(q, answer).1
    requires About(out, q.key) && (out == [] || out[0].kind == CloseSession)
    ensures AllFaithful(t)
  {
    assert forall j :: Pending(s, j) == Pending(t, j);
    hide Moves, Faithful, AllFaithful, View, Fades, Fainter, LocalState.Take, Pending, System.Attends;
    FaithfulAt(s, q.key);
    TakenOthers(s, t, q, out, answer);
    MetFaithful(s, t, q, out, answer);
    OthersSame(s, t, [], [q], out, [], q.key);
    AllIfOne(s, t, q.key);
  }

  /** The address of the entry that was taken. */
  lemma MetFaithful(s: System, t: System, q: Queued, out: Trace, answer: Answer)
    requires Moves(s, t, [], [q], out, []) && Faithful(q.key, View(s, q.key), BooksOf(s)) && t.relay == s.relay
    requires BooksOf(t) == BooksOf(s) && s.Attends() && t.localPhase == s.localPhase
    requires t.local == s.local.Take(q, answer).0 && out == s.local.Take(q, answer).1
    requires About(out, q.key) && (out == [] || out[0].kind == CloseSession)
    ensures Faithful(q.key, View(t, q.key), BooksOf(t))
  {
    hide Moves, Faithful, View, LocalState.Take, System.Attends;
    TakenOwn(s, t, q, out, answer);
    ViewReplied(s, t, [q], out, q.key);
    TakenKeeps(q, View(s, q.key), View(t, q.key), out, BooksOf(s));
  }

  lemma TakenKeeps(q: Queued, v: KeyView, u: KeyView, out: Trace, t: Books)
    requires Faithful(q.key, v, t) && |out| <= 1 && Data(out) == [] && (out == [] || Closes(out))
    requires v.news == News([q]) + u.news && u.bytes == v.bytes + Data(out)
    requires u.ahead == (if v.shut then v.ahead else v.ahead + Data(out)) && u.shut == (v.shut || Closes(out))
    requires u == v.(news := u.news, atClient := v.atClient + News([q]), bytes := u.bytes, ahead := u.ahead,
                     shut := u.shut, live := u.live, meets := u.meets, silent := u.silent)
    requires q.kind == NewSession ==> v.meets && v.silent
    requires q.kind != NewSession ==>
               (u.live ==> v.live) && (u.meets ==> v.meets) && (u.silent ==> v.silent || out != [])
    ensures Faithful(q.key, u, t)
  {
    hide Faithful;
    var k := q.key;
    assert v.bytes + [] == v.bytes && v.ahead + [] == v.ahead;
    if q.kind == NewSession {
      var w := v.(news := u.news, atClient := u.atClient, live := u.live, meets := u.meets, silent := u.silent);
      MetKeeps(k, v, t, w);
      SaidKeeps(k, w, t, u);
    } else {
      SaidKeeps(k, v, t, u);
    }
  }

  lemma TakenOthers(s: System, t: System, q: Queued, out: Trace, answer: Answer)
    requires Moves(s, t, [], [q], out, []) && s.Attends() && t.localPhase == s.localPhase
    requires t.local == s.local.Take(q, answer).0 && out == s.local.Take(q, answer).1
    ensures forall j | j != q.key :: Fades(s, t, j)
  {
    hide Moves, LocalState.Take, LocalState.Meets, System.Downlink, System.Uplink;
    forall j | j != q.key
      ensures Fades(s, t, j)
    {
      TakenMeets(s, t, q, answer, out, j, false);
      TakenMeets(s, t, q, answer, out, j, true);
      TakeLive(s.local, q, answer, j);
    }
  }

  lemma TakenOwn(s: System, t: System, q: Queued, out: Trace, answer: Answer)
    requires Moves(s, t, [], [q], out, []) && s.Attends() && t.localPhase == s.localPhase
    requires t.local == s.local.Take(q, answer).0 && out == s.local.Take(q, answer).1 && t.relay == s.relay
    ensures var v, u := View(s, q.key), View(t, q.key);
            && u.pending == v.pending
            && (q.kind == NewSession ==> v.meets && v.silent)
            && (q.kind != NewSession ==>
                  (u.live ==> v.live) && (u.meets ==> v.meets) && (u.silent ==> v.silent || out != []))
  {
    var k := q.key;
    assert Pending(s, k) == Pending(t, k);
    FadesSeen(s, t, k);
    hide Moves, LocalState.Take, LocalState.Meets, System.Downlink, System.Uplink, View, Pending;
    TakenMeets(s, t, q, answer, out, k, false);
    TakenMeets(s, t, q, answer, out, k, true);
    if q.kind != NewSession {
      TakeLive(s.local, q, answer, k);
    }
  }

  // ------------------------------------------------------------ every run

  lemma RelayActionFaithful(s: System, a: Action, t: System)
    requires Enabled(s, a) && (a.Accept? || a.ReadExternal? || a.WriteExternal? || a.CleanUp? || a.TakeOutbound?)
    requires t == Apply(s, a)
    requires Moves(s, t, Emitted(s, a), [], [], Applied(s, a)) && AllFaithful(s)
    ensures AllFaithful(t)
  {
    hide Moves, AllFaithful, RelayState.Accept, RelayState.ReadReady, RelayState.WriteReady, RelayState.CleanUp,
         RelayState.TakeOutbound, System.ExternalAccept, System.ExternalRead, System.ExternalWrite, System.RelayTake;
    var out := Emitted(s, a);
    match a
    case Accept(k, id) => AcceptFaithful(s, k, id, t, out);
    case ReadExternal(k, r) => ReadExternalFaithful(s, k, r, t, out);
    case WriteExternal(k, r) => WriteExternalFaithful(s, k, r, t, out);
    case CleanUp(k) => CleanUpFaithful(s, k, t, out);
    case TakeOutbound => TakeOutboundFaithful(s, t, s.outbound[0], out);
    case _ =>
  }

  lemma LocalActionFaithful(s: System, a: Action, t: System)
    requires Enabled(s, a) && (a.TakeInbound? || a.ReadLocal? || a.WriteLocal? || a.Dismiss?)
    requires t == Apply(s, a)
    requires Moves(s, t, [], Taken(s, a), Replied(s, a), []) && AllFaithful(s)
    ensures AllFaithful(t)
  {
    hide Moves, AllFaithful, LocalState.Take, LocalState.ReadReady, LocalState.WriteReady, LocalState.Dismiss,
         System.LocalTake, System.LocalRead, System.LocalWrite;
    var out := Replied(s, a);
    match a
    case TakeInbound(answer) => TakeInboundFaithful(s, answer, t, s.fromRemote[0], out);
    case ReadLocal(k, r) => ReadLocalFaithful(s, k, r, t, out);
    case WriteLocal(k, r) => WriteLocalFaithful(s, k, r, t, out);
    case Dismiss(k) => DismissFaithful(s, k, t, out);
    case _ =>
  }

  lemma LinkActionFaithful(s: System, a: Action, t: System)
    requires Enabled(s, a) && t == Apply(s, a)
    requires a.SendDown? || a.ReceiveUp? || a.DecodeUp? || a.ForwardDown? || a.Shake?
          || a.LeaveLoop? || a.LeaveLocalLoop?
          || a.SendUp? || a.ReceiveDown? || a.DecodeDown? || a.ForwardUp?
    requires Moves(s, t, [], [], [], []) && AllFaithful(s)
    ensures AllFaithful(t)
  {
    hide Moves, AllFaithful, Deserialize, FromWire, Below, Record, On, LocalState.Meets;
    BelowItself(s.local);
    NothingRecorded(s, Key(ANY_IP, 0), s.ClientSession(Key(ANY_IP, 0)));
    ReplyFaithful(s, Key(ANY_IP, 0), t, []);
  }

  /** What was lost, and how sessions began, stays on the log. */
  lemma LogGrows(s: System, a: Action)
    requires Enabled(s, a) && (!s.started ==> s.log.lost == [])
    ensures Apply(s, a).log.lost == [] ==> s.log.lost == []
    ensures s.log.hasty <= Apply(s, a).log.hasty && s.log.unsettled <= Apply(s, a).log.unsettled
  {
    hide System.Quiet, System.Settled, Record, Deserialize;
  }

  lemma NothingLostYet(s: System)
    requires Inv(s)
    ensures !s.started ==> s.log.lost == []
  {
    hide RelayPart, LinkPart, LocalPart;
  }

  lemma ActionFaithful(s: System, a: Action)
    requires Enabled(s, a)
    requires Kept(s, a)
    requires AllFaithful(s) && Apply(s, a).log.lost == []
    ensures AllFaithful(Apply(s, a))
  {
    hide Moves, AllFaithful, Inv, Apply;
    var t := Apply(s, a);
    match a {
      case Accept(_, _) | ReadExternal(_, _) | WriteExternal(_, _) | CleanUp(_) | TakeOutbound =>
        RelayActionFaithful(s, a, t);
      case TakeInbound(_) | ReadLocal(_, _) | WriteLocal(_, _) | Dismiss(_) =>
        LocalActionFaithful(s, a, t);
      case _ =>
        LinkActionFaithful(s, a, t);
    }
  }

  lemma InitialFaithful(port: Port)
    ensures AllFaithful(Initial(port))
  {
    hide Pipe.Transit, Frame, Faithful, View;
    var s := Initial(port);
    OpenFrame(port);
    EmptyPipe(s.Downlink());
    EmptyPipe(s.Uplink());
    forall k
      ensures Faithful(k, View(s, k), BooksOf(s))
    {
      NothingYet(s, k);
    }
  }

  lemma NothingYet(s: System, k: Key)
    requires s.Downlink().Transit() == [] && s.Uplink().Transit() == [] && s.log.emitted == [] && s.log.consumed == []
    requires s.relay.table == map[] && s.log.localRead == map[] && s.log.externalSent == map[]
    ensures Faithful(k, View(s, k), BooksOf(s))
  {
    hide Pipe.Transit, System.Downlink, System.Uplink, System.MayMeet, System.LiveAt, Faithful;
    NoMessage(k);
    BlankTape(s.log.localRead, k);
    BlankTape(s.log.externalSent, k);
    NothingAtFirst(k, View(s, k), BooksOf(s));
  }

  lemma BlankTape(t: Tape, k: Key)
    requires t == map[]
    ensures forall x :: On(t, k, x) == []
  {
  }

  lemma NothingAtFirst(k: Key, v: KeyView, t: Books)
    requires v.pending == None && v.atRelay == v.atClient + v.news
    requires forall x :: On(t.read, k, x) == []
    requires forall x :: On(t.sent, k, x) == []
    ensures Faithful(k, v, t)
  {
    hide On;
    assert Bounded(k, v, t);
    assert Prefixes(k, t);
  }

  /** In every run that lost nothing in the handshake. */
  lemma {:induction false} RunFaithful(s: System, actions: seq<Action>)
    requires IsRun(s, actions) && Inv(s)
    requires s.log.lost == [] ==> AllFaithful(s)
    ensures Run(s, actions).log.lost == [] ==> AllFaithful(Run(s, actions))
    ensures s.log.hasty <= Run(s, actions).log.hasty && s.log.unsettled <= Run(s, actions).log.unsettled
    decreases |actions|
  {
    hide Inv, Enabled, Apply, Moves, AllFaithful;
    if actions == [] {
    } else {
      var t := Apply(s, actions[0]);
      ActionKeeps(s, actions[0]);
      NothingLostYet(s);
      LogGrows(s, actions[0]);
      if t.log.lost == [] {
        ActionFaithful(s, actions[0]);
      }
      RunFaithful(t, actions[1..]);
    }
  }
}
