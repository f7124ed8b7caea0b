/** What the local thread can still come to: a NEW may stand behind an entry that ends the thread. */
module Meetings {
  import opened Sessions
  import opened RelayStates
  import opened ClientStates

  /** Neither read from nor armed: data for it raises. */
  predicate Deaf(p: Proxied) { p.closed && !p.writeEnabled }

  /** Whatever raises for `b` raises for `a`. */
  ghost predicate Below(a: LocalState, b: LocalState) {
    && (b.dead ==> a.dead)
    && (!a.dead ==> forall k :: BelowAt(a, b, k))
  }

  ghost predicate BelowAt(a: LocalState, b: LocalState, k: Key) {
    && (k !in b.connections ==> k !in a.connections)
    && (k in b.connections && Deaf(b.connections[k]) ==> k in a.connections && Deaf(a.connections[k]))
  }

  /** A connect that is not made only makes things worse. */
  lemma BelowTake(a: LocalState, b: LocalState, q: Queued, answer: Answer)
    requires Below(a, b)
    ensures Below(a.Take(q, answer).0, b.Take(q, Connects).0)
  {
    var c, d := a.Take(q, answer).0, b.Take(q, Connects).0;
    assert !a.dead ==> BelowAt(a, b, q.key);
    if !c.dead {
      assert !a.dead;
      forall k
        ensures BelowAt(c, d, k)
      {
        assert BelowAt(a, b, k);
      }
    }
  }

  /** What `a` passes over in silence, so does `b`. */
  lemma SilentBelow(a: LocalState, b: LocalState, q: Queued)
    requires Below(a, b) && !a.dead && a.Take(q, Connects).1 == []
    ensures b.Take(q, Connects).1 == []
  {
    assert BelowAt(a, b, q.key);
  }

  lemma {:induction false} MeetsBelow(a: LocalState, b: LocalState, w: Trace, k: Key, silent: bool)
    requires Below(a, b) && a.Meets(w, k, silent)
    ensures b.Meets(w, k, silent)
    decreases |w|
  {
    hide LocalState.Take, Below;
    assert !b.dead by { NotDead(a, b); }
    if w[0].kind == NewSession && w[0].key == k {
    } else {
      if silent && w[0].key == k {
        SilentBelow(a, b, w[0]);
      }
      BelowTake(a, b, w[0], Connects);
      MeetsBelow(a.Take(w[0], Connects).0, b.Take(w[0], Connects).0, w[1..], k, silent);
    }
  }

  lemma NotDead(a: LocalState, b: LocalState)
    requires Below(a, b) && !a.dead
    ensures !b.dead
  {
  }

  lemma {:induction false} MeetsCounts(s: LocalState, w: Trace, k: Key, silent: bool)
    requires s.Meets(w, k, silent)
    ensures Count(w, NewSession, k) > 0
    decreases |w|
  {
    hide LocalState.Take;
    assert w == [w[0]] + w[1..];
    CountConcat([w[0]], w[1..], NewSession, k);
    OneMessage(w[0], k);
    if w[0].kind == NewSession && w[0].key == k {
    } else {
      MeetsCounts(s.Take(w[0], Connects).0, w[1..], k, silent);
    }
  }

  lemma {:induction false} SilentMeets(s: LocalState, w: Trace, k: Key)
    requires s.Meets(w, k, true)
    ensures s.Meets(w, k, false)
    decreases |w|
  {
    hide LocalState.Take;
    if w[0].kind == NewSession && w[0].key == k {
    } else {
      SilentMeets(s.Take(w[0], Connects).0, w[1..], k);
    }
  }

  /** A message added at the end is a new one to meet only if it is the only NEW of the address. */
  lemma {:induction false} MeetsAppend(s: LocalState, w: Trace, q: Queued, k: Key, silent: bool)
    requires s.Meets(w + [q], k, silent)
    ensures s.Meets(w, k, silent) || (q.kind == NewSession && q.key == k && Count(w, NewSession, k) == 0)
    decreases |w|
  {
    hide LocalState.Take;
    if w == [] {
      assert (w + [q])[1..] == [];
    } else if w[0].kind != NewSession || w[0].key != k {
      assert (w + [q])[1..] == w[1..] + [q];
      MeetsAppend(s.Take(w[0], Connects).0, w[1..], q, k, silent);
      assert w == [w[0]] + w[1..];
      CountConcat([w[0]], w[1..], NewSession, k);
      OneMessage(w[0], k);
    }
  }

  /** What comes later does not keep it from what it can meet. */
  lemma {:induction false} MeetsLonger(s: LocalState, w: Trace, q: Queued, k: Key, silent: bool)
    requires s.Meets(w, k, silent)
    ensures s.Meets(w + [q], k, silent)
    decreases |w|
  {
    hide LocalState.Take;
    assert (w + [q])[1..] == w[1..] + [q];
    if w[0].kind == NewSession && w[0].key == k {
    } else {
      MeetsLonger(s.Take(w[0], Connects).0, w[1..], q, k, silent);
    }
  }

  /** Callbacks close connections and disarm them, and do nothing else to the table. */
  lemma ReadBelow(s: LocalState, k: Key, r: RecvResult)
    requires s.Live(k)
    ensures Below(s.ReadReady(k, r).0, s)
  {
    var t := s.ReadReady(k, r).0;
    assert forall j :: BelowAt(t, s, j);
  }

  lemma WriteBelow(s: LocalState, k: Key, r: SendResult)
    requires s.Live(k) && s.CanSend(k, r)
    ensures Below(s.WriteReady(k, r).0, s)
  {
    var t := s.WriteReady(k, r).0;
    assert forall j :: BelowAt(t, s, j);
  }
}
