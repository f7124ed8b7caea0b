/** Incremental decoding of a byte stream: the receive loops over a growing buffer. */
module Framing {
  import opened Wire
  import opened Messages
  import opened MessageProofs

  /** A message as the peers build it: sendable, of this version, no stray fields, not AUTH. */
  predicate Frameable(m: Message) {
    Encodable(m) && m.version == VERSION && m.kind != Auth && Carried(m) == m
  }

  predicate AllFrameable(ms: seq<Message>) { forall i | 0 <= i < |ms| :: Frameable(ms[i]) }

  /** The octets of a list of messages, sent back to back. */
  function Frames(ms: seq<Message>): (r: Octets)
    requires AllFrameable(ms)
    ensures ms == [] <==> r == []
  {
    if ms == [] then [] else Frame(ms[0]) + Frames(ms[1..])
  }

  /**
   `while len(recvq) > 0: msg, recvq = grab_msg(recvq)` up to the first decoding failure:
   the messages in the order they are handed on, and the buffer that is left.
   */
  function Drain(buf: Octets): (r: (seq<Message>, Octets))
    ensures |r.1| <= |buf|
    ensures Deserialize(r.1).Failed?
    decreases |buf|
  {
    match Deserialize(buf)
    case Failed(_) => ([], buf)
    case Got(m, rest) => var (ms, left) := Drain(rest); ([m] + ms, left)
  }

  /** One receive per chunk, each followed by a full drain. */
  function Feed(recvq: Octets, chunks: seq<Octets>): (seq<Message>, Octets)
    decreases |chunks|
  {
    if chunks == [] then ([], recvq)
    else
      var (ms, left) := Drain(recvq + chunks[0]);
      var (more, last) := Feed(left, chunks[1..]);
      (ms + more, last)
  }

  function Concat(chunks: seq<Octets>): Octets {
    if chunks == [] then [] else chunks[0] + Concat(chunks[1..])
  }

  lemma DrainNothing()
    ensures Drain([]) == ([], [])
  {
  }

  lemma {:induction false} FramesAppend(a: seq<Message>, b: seq<Message>)
    requires AllFrameable(a) && AllFrameable(b)
    ensures Frames(a + b) == Frames(a) + Frames(b)
  {
    hide Deserialize, Frame, Carried, Encodable;
    if a == [] {
      assert a + b == b;
    } else {
      FramesAppend(a[1..], b);
      assert (a + b)[1..] == a[1..] + b;
    }
  }

  /** Frames at the head of a buffer are handed on one for one; what follows is drained as if alone. */
  lemma {:induction false} DrainFrames(ms: seq<Message>, tail: Octets)
    requires AllFrameable(ms)
    ensures Drain(Frames(ms) + tail) == (ms + Drain(tail).0, Drain(tail).1)
  {
    hide Deserialize, Frame, Carried, Encodable;
    if ms == [] {
      assert Frames(ms) + tail == tail;
      assert ms + Drain(tail).0 == Drain(tail).0;
    } else {
      assert Frames(ms) + tail == Frame(ms[0]) + (Frames(ms[1..]) + tail);
      RoundTrip(ms[0], Frames(ms[1..]) + tail);
      DrainFrames(ms[1..], tail);
      assert [ms[0]] + (ms[1..] + Drain(tail).0) == ms + Drain(tail).0;
    }
  }

  /** Nothing is lost or invented: a drained buffer is the frames handed on and the leftover. */
  lemma {:induction false} DrainConserves(buf: Octets)
    requires forall m | m in Drain(buf).0 :: m.kind != Auth
    ensures AllFrameable(Drain(buf).0)
    ensures buf == Frames(Drain(buf).0) + Drain(buf).1
    decreases |buf|
  {
    hide Deserialize, Frame, Carried, Encodable;
    var r := Deserialize(buf);
    if r.Failed? {
    } else {
      var (ms, left) := Drain(r.rest);
      assert Drain(buf) == ([r.msg] + ms, left);
      assert ([r.msg] + ms)[0] == r.msg && ([r.msg] + ms)[1..] == ms;
      Canonical(buf);
      assert forall m | m in ms :: m in [r.msg] + ms;
      DrainConserves(r.rest);
      assert Frame(r.msg) + (Frames(ms) + left) == Frame(r.msg) + Frames(ms) + left;
    }
  }

  /** A byte stream has at most one reading as non-AUTH frames. */
  lemma FramesInjective(a: seq<Message>, b: seq<Message>)
    requires AllFrameable(a) && AllFrameable(b) && Frames(a) == Frames(b)
    ensures a == b
  {
    DrainFrames(a, []);
    DrainFrames(b, []);
    assert Frames(a) + [] == Frames(a) && Frames(b) + [] == Frames(b);
    assert a + [] == a && b + [] == b;
  }

  /** `left` is what has arrived of the frame that follows the messages `got` of `ms`. */
  predicate StrictlyInside(ms: seq<Message>, got: seq<Message>, left: Octets)
    requires AllFrameable(ms)
  {
    && got <= ms
    && if |got| == |ms| then left == [] else left < Frame(ms[|got|])
  }

  /** Of any cut of a valid stream, the complete frames are handed on and nothing else is touched. */
  lemma {:induction false} DrainCut(ms: seq<Message>, buf: Octets)
    requires AllFrameable(ms) && buf <= Frames(ms)
    ensures StrictlyInside(ms, Drain(buf).0, Drain(buf).1)
    ensures AllFrameable(Drain(buf).0) && buf == Frames(Drain(buf).0) + Drain(buf).1
  {
    hide Deserialize, Frame, Carried, Encodable;
    if ms == [] {
    } else {
      var f := Frame(ms[0]);
      if |buf| < |f| {
        PrefixFree(ms[0], |buf|);
        assert buf == f[..|buf|];
      } else {
        var tail := buf[|f|..];
        assert buf == f + tail;
        assert tail <= Frames(ms[1..]);
        RoundTrip(ms[0], tail);
        DrainCut(ms[1..], tail);
        var got := Drain(tail).0;
        assert Drain(buf).0 == [ms[0]] + got;
        assert ms == [ms[0]] + ms[1..];
        assert ([ms[0]] + got)[1..] == got;
      }
    }
  }

  /** After the messages `got`, being inside the rest of the stream is being inside the stream. */
  lemma InsideRest(ms: seq<Message>, got: seq<Message>, more: seq<Message>, left: Octets)
    requires AllFrameable(ms) && got <= ms && StrictlyInside(ms[|got|..], more, left)
    ensures StrictlyInside(ms, got + more, left)
  {
    hide Deserialize, Frame, Carried, Encodable;
    var rest := ms[|got|..];
    assert ms == got + rest;
    assert got + more <= got + rest;
    if |more| < |rest| {
      assert ms[|got + more|] == rest[|more|];
    }
  }

  lemma PrefixCancels<T>(a: seq<T>, b: seq<T>, c: seq<T>)
    requires a + b <= a + c
    ensures b <= c
  {
    assert |b| <= |c|;
    forall i | 0 <= i < |b|
      ensures b[i] == c[i]
    {
      assert (a + b)[|a| + i] == (a + c)[|a| + i];
    }
  }

  /** The stream splits at a drain: what is left of the first piece belongs in front of the second. */
  lemma DrainInTwo(ms: seq<Message>, first: Octets, later: Octets)
    requires AllFrameable(ms) && first + later <= Frames(ms)
    ensures var (got, left) := Drain(first);
            && AllFrameable(got) && got <= ms && left + later <= Frames(ms[|got|..])
            && Drain(first + later) == (got + Drain(left + later).0, Drain(left + later).1)
  {
    hide Deserialize, Frame, Carried, Encodable, Frames, Drain;
    assert first <= first + later;
    assert first <= Frames(ms);
    DrainCut(ms, first);
    var (got, left) := Drain(first);
    assert ms == got + ms[|got|..];
    FramesAppend(got, ms[|got|..]);
    assert first + later == Frames(got) + (left + later);
    PrefixCancels(Frames(got), left + later, Frames(ms[|got|..]));
    DrainFrames(got, left + later);
  }

  /**
   However a valid stream is cut into chunks, draining after each chunk hands on the same messages
   in the same order as draining it in one piece, and keeps only a cut frame.
   */
  lemma {:induction false} ChunkIndependence(ms: seq<Message>, recvq: Octets, chunks: seq<Octets>)
    requires AllFrameable(ms) && recvq + Concat(chunks) <= Frames(ms)
    requires Deserialize(recvq).Failed?
    ensures Feed(recvq, chunks) == Drain(recvq + Concat(chunks))
    ensures StrictlyInside(ms, Feed(recvq, chunks).0, Feed(recvq, chunks).1)
    decreases |chunks|
  {
    hide Deserialize, Frame, Carried, Encodable, Frames;
    DrainCut(ms, recvq + Concat(chunks));
    if chunks == [] {
      assert recvq + Concat(chunks) == recvq;
    } else {
      var first, later := recvq + chunks[0], Concat(chunks[1..]);
      assert recvq + Concat(chunks) == first + later;
      DrainInTwo(ms, first, later);
      var (got, left) := Drain(first);
      ChunkIndependence(ms[|got|..], left, chunks[1..]);
      InsideRest(ms, got, Feed(left, chunks[1..]).0, Feed(left, chunks[1..]).1);
    }
  }

  /** The whole stream, in any chunks, arrives as exactly the list that was sent. */
  lemma WholeStreamDelivered(ms: seq<Message>, chunks: seq<Octets>)
    requires AllFrameable(ms) && Concat(chunks) == Frames(ms)
    ensures Feed([], chunks) == (ms, [])
  {
    assert [] + Concat(chunks) == Frames(ms);
    ChunkIndependence(ms, [], chunks);
    DrainFrames(ms, []);
    assert Frames(ms) + [] == Frames(ms) && ms + [] == ms;
  }
}
