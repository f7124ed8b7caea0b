/** What every step of the running system keeps. */
module SystemInvariants {
  import opened Wire
  import opened Messages
  import opened Sessions
  import opened ManagerStates
  import opened ClientStates
  import opened System

  /** A tape holds, session by session, exactly the data of a trace. */
  ghost predicate TapeFollows(t: Trace, tape: Tape) {
    forall k, i :: On(tape, k, i) == SessionBytes(t, k, i)
  }

  /** Before the handshake the client side is untouched and OPEN_RELAY leads the stream. */
  ghost predicate Unshaken(s: System) {
    && s.log.consumed == [] && s.log.replied == [] && s.fromRemote == [] && s.toRemote == []
    && s.log.lost == [] && s.local.connections == map[]
    && s.remote.recvq == [] && s.remote.sendq == []
    && Frame(RelayMessage(OpenRelay, s.relay.port)) <= s.down + s.manager.sendq
  }

  /** What the local thread says on its queue: data and CLOSE, for the one relay it serves. */
  ghost predicate RepliesFit(t: Trace, port: Port) {
    forall i | 0 <= i < |t| :: t[i].kind != NewSession && t[i].relayPort == port
  }

  /** The client's table against the trace it has consumed. */
  ghost predicate TableFits(local: LocalState, phase: Phase, consumed: Trace, refused: set<Key>) {
    && local.connections.Keys <= OpenKeys(consumed) - refused
    && (phase == Serving ==> local.connections.Keys == OpenKeys(consumed) - refused)
    && (forall k | k in local.connections :: local.connections[k].relayId == local.remotePort)
    && local.Arming()
  }

  /** Of every session, what was written is a prefix of what the session has been sent. */
  ghost predicate PastFits(consumed: Trace, written: Tape, k: Key) {
    forall i :: On(written, k, i) <= SessionBytes(consumed, k, i)
  }

  /** Of the current session, what was written and what is pending is all it has been sent. */
  ghost predicate PendingFits(consumed: Trace, written: Tape, k: Key, pending: Octets) {
    var i := Count(consumed, NewSession, k);
    On(written, k, i) + pending == SessionBytes(consumed, k, i)
  }

  ghost predicate WritesFit(local: LocalState, consumed: Trace, written: Tape) {
    && (forall k :: PastFits(consumed, written, k))
    && (forall k | k in local.connections :: PendingFits(consumed, written, k, local.connections[k].sendq))
  }

  ghost predicate LocalPart(s: System) {
    && s.local.remotePort == s.relay.port
    && RepliesFit(s.log.replied, s.relay.port)
    && TableFits(s.local, s.localPhase, s.log.consumed, s.log.refused)
    && WritesFit(s.local, s.log.consumed, s.log.localWritten)
  }

  ghost predicate LinkPart(s: System) {
    s.Downlink().Conserved() && s.Uplink().Conserved() && s.manager.relays == {s.relay.port}
  }

  ghost predicate RelayPart(s: System) {
    && s.relay.Tells(s.log.emitted) && TapeFollows(s.log.emitted, s.log.externalRead)
    && s.manager.Arming() && s.remote.Arming()
  }

  ghost predicate Inv(s: System) {
    && RelayPart(s)
    && (!s.started ==> Unshaken(s))
    && (s.log.lost == [] ==> LinkPart(s) && LocalPart(s))
  }

  // -------------------------------------------------------------- the tapes

  lemma OnRecord(t: Tape, k: Key, i: nat, data: Octets)
    ensures forall j, x :: On(Record(t, k, i, data), j, x) == if j == k
            && x == i then On(t, k, i) + data else On(t, j, x)
  {
  }

  lemma TapeStep(t: Trace, tape: Tape, q: Queued)
    requires TapeFollows(t, tape)
    ensures q.kind != Payload ==> TapeFollows(t + [q], tape)
    ensures q.kind == Payload ==>
              TapeFollows(t + [q], Record(tape, q.key, Count(t, NewSession, q.key), q.data))
  {
    Append(t, q);
    OnRecord(tape, q.key, Count(t, NewSession, q.key), q.data);
  }

  lemma TapeBlank(t: Trace, tape: Tape, k: Key, i: nat)
    requires TapeFollows(t, tape)
    ensures TapeFollows(t, Record(tape, k, i, []))
  {
    OnRecord(tape, k, i, []);
  }

  /** A session that has not begun has no data. */
  lemma {:induction false} FutureEmpty(t: Trace, k: Key, i: nat)
    requires i > Count(t, NewSession, k)
    ensures SessionBytes(t, k, i) == []
  {
    if t == [] {
    } else {
      FutureEmpty(t[..|t| - 1], k, i);
    }
  }
}
