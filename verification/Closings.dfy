/**
 Who says CLOSE, and why: at the relay and at the client each CLOSE has one cause among what the
 sockets, the queues and the shutdown bring, and each cause makes one CLOSE.
 */
module Closings {
  import opened Wire
  import opened Messages
  import opened Sessions
  import opened Pipes
  import opened RelayStates
  import opened ClientStates
  import opened System
  import opened SystemSteps
  import opened Continuations
  import opened Theorems

  // ---------------------------------------------------------- cause by cause

  /**
   The relay ends the session of an address: its peer is at the end of its stream or reset, a write of
   pending octets breaks, the client's CLOSE arrives, or the relay shuts down.
   */
  predicate RelayCause(s: System, a: Action, k: Key)
    requires Enabled(s, a)
  {
    match a
    case ReadExternal(j, r) => j == k && (r.RecvBroken? || r == Received([]))
    case WriteExternal(j, r) => j == k && r.SendBroken? && s.relay.table[j].sendq != []
    case TakeOutbound => s.outbound[0].key == k && s.outbound[0].kind == CloseSession && k in s.relay.table
    case CleanUp(j) => j == k
    case _ => false
  }

  /**
   The client asks for the end of a session: the service is at the end of its stream, a write of
   pending octets breaks, the connect is refused, data comes for an address it does not have, or its
   local thread shuts down. A read that is reset is no such cause.
   */
  predicate LocalCause(s: System, a: Action, k: Key)
    requires Enabled(s, a)
  {
    match a
    case ReadLocal(j, r) => j == k && r == Received([])
    case WriteLocal(j, r) => j == k && r.SendBroken? && s.local.connections[j].sendq != []
    case TakeInbound(answer) =>
      var q := s.fromRemote[0];
      && q.key == k
      && ((q.kind == NewSession && answer.Refuses?) || (q.kind == Payload && k !in s.local.connections))
    case Dismiss(j) => j == k
    case _ => false
  }

  /** What is said in one step, as far as CLOSEs go, and what leaves the relay's table. */
  lemma RelayEnds(s: System, a: Action, k: Key)
    requires Enabled(s, a)
    ensures Count(Emitted(s, a), CloseSession, k) == if RelayCause(s, a, k) then 1 else 0
    ensures k in s.relay.table ==> (k !in Apply(s, a).relay.table <==> RelayCause(s, a, k))
  {
    RelayLeaves(s, a, k);
    hide Record, Deserialize, System.Quiet, System.Settled, Frame, FromWire, LocalState.Take, LocalState.ReadReady,
         LocalState.WriteReady, Count, Apply;
    NoMessage(k);
    var out := Emitted(s, a);
    if out != [] {
      assert out == [out[0]];
      OneMessage(out[0], k);
    }
  }

  lemma RelayLeaves(s: System, a: Action, k: Key)
    requires Enabled(s, a)
    ensures k in s.relay.table ==> (k !in Apply(s, a).relay.table <==> RelayCause(s, a, k))
  {
    if a.ReadExternal? || a.WriteExternal? || a.TakeOutbound? {
      SocketLeaves(s, a, k);
    } else {
      OtherLeaves(s, a, k);
    }
  }

  lemma SocketLeaves(s: System, a: Action, k: Key)
    requires Enabled(s, a) && (a.ReadExternal? || a.WriteExternal? || a.TakeOutbound?)
    ensures k in s.relay.table ==> (k !in Apply(s, a).relay.table <==> RelayCause(s, a, k))
  {
    hide Record, System.RelaySession;
  }

  lemma OtherLeaves(s: System, a: Action, k: Key)
    requires Enabled(s, a) && !(a.ReadExternal? || a.WriteExternal? || a.TakeOutbound?)
    ensures k in s.relay.table ==> (k !in Apply(s, a).relay.table <==> RelayCause(s, a, k))
  {
    hide Record, Deserialize, System.Quiet, System.Settled, Frame, FromWire, LocalState.Take, LocalState.ReadReady,
         LocalState.WriteReady, System.RelaySession;
  }

  lemma LocalEnds(s: System, a: Action, k: Key)
    requires Enabled(s, a)
    ensures Count(Replied(s, a), CloseSession, k) == if LocalCause(s, a, k) then 1 else 0
  {
    hide Record, Deserialize, System.Quiet, System.Settled, Frame, FromWire, RelayState.ReadReady,
         RelayState.WriteReady, RelayState.TakeOutbound, RelayState.CleanUp, Count;
    NoMessage(k);
    var out := Replied(s, a);
    if out != [] {
      assert out == [out[0]];
      OneMessage(out[0], k);
    }
  }

  /** How many causes there are in a run. */
  function RelayCauses(s: System, actions: seq<Action>, k: Key): nat
    requires IsRun(s, actions)
    decreases |actions|
  {
    if actions == [] then 0
    else (if RelayCause(s, actions[0], k) then 1 else 0) + RelayCauses(Apply(s, actions[0]), actions[1..], k)
  }

  function LocalCauses(s: System, actions: seq<Action>, k: Key): nat
    requires IsRun(s, actions)
    decreases |actions|
  {
    if actions == [] then 0
    else (if LocalCause(s, actions[0], k) then 1 else 0) + LocalCauses(Apply(s, actions[0]), actions[1..], k)
  }

  lemma {:induction false} RunCloses(s: System, actions: seq<Action>, k: Key)
    requires IsRun(s, actions)
    ensures var t := Run(s, actions);
            && Count(t.log.emitted, CloseSession, k) ==
               Count(s.log.emitted, CloseSession, k) + RelayCauses(s, actions, k)
            && Count(t.log.replied, CloseSession, k) ==
               Count(s.log.replied, CloseSession, k) + LocalCauses(s, actions, k)
    decreases |actions|
  {
    hide Enabled, Apply, Emitted, Replied, RelayCause, LocalCause, Count;
    if actions == [] {
    } else {
      var a := actions[0];
      EmittedLogged(s, a);
      RepliedLogged(s, a);
      RelayEnds(s, a, k);
      LocalEnds(s, a, k);
      CountConcat(s.log.emitted, Emitted(s, a), CloseSession, k);
      CountConcat(s.log.replied, Replied(s, a), CloseSession, k);
      RunCloses(Apply(s, a), actions[1..], k);
    }
  }

  /** In every run each end has said as many CLOSEs of an address as there were causes for it, and none without. */
  lemma ClosesHaveCauses(port: Port, actions: seq<Action>, k: Key)
    requires IsRun(Initial(port), actions)
    ensures var s := Run(Initial(port), actions);
            && Count(s.log.emitted, CloseSession, k) == RelayCauses(Initial(port), actions, k)
            && Count(s.log.replied, CloseSession, k) == LocalCauses(Initial(port), actions, k)
  {
    hide Initial, IsRun, Run, RelayCauses, LocalCauses;
    NothingSaidAtFirst(port, k);
    RunCloses(Initial(port), actions, k);
  }

  lemma NothingSaidAtFirst(port: Port, k: Key)
    ensures var s := Initial(port);
            && Count(s.log.emitted, CloseSession, k) == 0 && Count(s.log.replied, CloseSession, k) == 0
            && s.local.connections == map[]
  {
    hide Frame;
  }

  // ------------------------------------------------ the client's connections

  /**
   A connection in the client's table: since its NEW was taken one CLOSE has been said if its service
   has come to its end or a write has broken, and none otherwise; it is closed then, or by a reset.
   */
  ghost predicate Announced(s: System, k: Key)
    requires k in s.local.connections
  {
    var p, e := s.local.connections[k], s.log.endings;
    && k in e.said && Count(s.log.replied, CloseSession, k) == e.said[k] + (if k in e.over then 1 else 0)
    && (p.closeSent <==> k in e.over) && (p.closed <==> k in e.over || k in e.reset)
    && !(k in e.over && k in e.reset)
  }

  lemma AnnouncedStep(s: System, a: Action, k: Key)
    requires Enabled(s, a)
    requires k in s.local.connections ==> Announced(s, k)
    ensures k in Apply(s, a).local.connections ==> Announced(Apply(s, a), k)
  {
    LocalEnds(s, a, k);
    RepliedLogged(s, a);
    CountConcat(s.log.replied, Replied(s, a), CloseSession, k);
    if a.TakeInbound? {
      TakenAnnounced(s, a, k);
    } else if a.ReadLocal? || a.WriteLocal? || a.Dismiss? {
      ServedAnnounced(s, a, k);
    } else {
      Untouched(s, a);
    }
  }

  lemma Untouched(s: System, a: Action)
    requires Enabled(s, a) && !a.TakeInbound? && !a.ReadLocal? && !a.WriteLocal? && !a.Dismiss?
    ensures Apply(s, a).local == s.local && Apply(s, a).log.endings == s.log.endings
    ensures Replied(s, a) == [] && forall k :: !LocalCause(s, a, k)
  {
    hide Record, Deserialize, System.Quiet, System.Settled, Frame, FromWire;
  }

  lemma TakenAnnounced(s: System, a: Action, k: Key)
    requires Enabled(s, a) && a.TakeInbound?
    requires k in s.local.connections ==> Announced(s, k)
    requires Count(Apply(s, a).log.replied, CloseSession, k) ==
             Count(s.log.replied, CloseSession, k) + if LocalCause(s, a, k) then 1 else 0
    ensures k in Apply(s, a).local.connections ==> Announced(Apply(s, a), k)
  {
    hide Count;
  }

  lemma ServedAnnounced(s: System, a: Action, k: Key)
    requires Enabled(s, a) && (a.ReadLocal? || a.WriteLocal? || a.Dismiss?)
    requires k in s.local.connections ==> Announced(s, k)
    requires Count(Apply(s, a).log.replied, CloseSession, k) ==
             Count(s.log.replied, CloseSession, k) + if LocalCause(s, a, k) then 1 else 0
    ensures k in Apply(s, a).local.connections ==> Announced(Apply(s, a), k)
  {
    hide Record, Count, System.ClientSession;
  }

  lemma {:induction false} AnnouncedThroughout(s: System, actions: seq<Action>, k: Key)
    requires IsRun(s, actions)
    requires k in s.local.connections ==> Announced(s, k)
    ensures k in Run(s, actions).local.connections ==> Announced(Run(s, actions), k)
    decreases |actions|
  {
    hide Enabled, Apply, Announced;
    if actions == [] {
    } else {
      AnnouncedStep(s, actions[0], k);
      AnnouncedThroughout(Apply(s, actions[0]), actions[1..], k);
    }
  }

  /**
   In every reachable state, for every connection in the client's table: its CLOSE is marked as sent if
   and only if one has been said since its NEW was taken, and otherwise none has; and it is closed
   without that exactly after a read that was reset. So no end of a stream and no broken write is silent.
   */
  lemma CloseSentIffSaid(s: System, k: Key)
    requires k in s.local.connections
    requires Reachable(s)
    ensures var p, e := s.local.connections[k], s.log.endings;
            && k in e.said
            && Count(s.log.replied, CloseSession, k) == e.said[k] + (if p.closeSent then 1 else 0)
            && (p.closeSent <==> k in e.over) && (p.closed && !p.closeSent <==> k in e.reset)
  {
    hide IsRun, Run, Initial;
    var port :| Leads(Initial(port), s);
    var actions :| IsRun(Initial(port), actions) && s == Run(Initial(port), actions);
    NothingSaidAtFirst(port, k);
    AnnouncedThroughout(Initial(port), actions, k);
  }
}
