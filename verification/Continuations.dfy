/** Runs put together: where a state can lead to. */
module Continuations {
  import opened System

  /** Some interleaving leads from one state to the other. */
  ghost predicate Leads(s: System, t: System) {
    exists actions :: IsRun(s, actions) && t == Run(s, actions)
  }

  lemma LeadsNowhere(s: System)
    ensures Leads(s, s)
  {
    assert IsRun(s, []) && Run(s, []) == s;
  }

  lemma {:induction false} RunLonger(s: System, actions: seq<Action>, a: Action)
    requires IsRun(s, actions) && Enabled(Run(s, actions), a)
    ensures IsRun(s, actions + [a]) && Run(s, actions + [a]) == Apply(Run(s, actions), a)
    decreases |actions|
  {
    hide Enabled, Apply;
    if actions == [] {
      assert [] + [a] == [a];
      assert IsRun(Apply(s, a), []) && Run(Apply(s, a), []) == Apply(s, a);
    } else {
      assert (actions + [a])[1..] == actions[1..] + [a];
      RunLonger(Apply(s, actions[0]), actions[1..], a);
    }
  }

  /** One step further. */
  lemma Onward(s: System, t: System, a: Action, u: System)
    requires Enabled(t, a) && u == Apply(t, a)
    requires Leads(s, t)
    ensures Leads(s, u)
  {
    hide Enabled, Apply, Run, IsRun;
    var actions :| IsRun(s, actions) && t == Run(s, actions);
    RunLonger(s, actions, a);
  }

  lemma {:induction false} RunThen(s: System, first: seq<Action>, second: seq<Action>)
    requires IsRun(s, first) && IsRun(Run(s, first), second)
    ensures IsRun(s, first + second) && Run(s, first + second) == Run(Run(s, first), second)
    decreases |first|
  {
    hide Enabled, Apply;
    if first == [] {
      assert first + second == second;
    } else {
      assert (first + second)[1..] == first[1..] + second;
      RunThen(Apply(s, first[0]), first[1..], second);
    }
  }

  lemma LeadsOn(s: System, t: System, u: System)
    requires Leads(s, t) && Leads(t, u)
    ensures Leads(s, u)
  {
    hide Run, IsRun;
    var first :| IsRun(s, first) && t == Run(s, first);
    var second :| IsRun(t, second) && u == Run(t, second);
    RunThen(s, first, second);
  }

  // ------------------------------------------------------- without accepts

  predicate NoAccept(actions: seq<Action>) { forall i | 0 <= i < |actions| :: !actions[i].Accept? }

  /** Some interleaving in which no connection is accepted leads from one state to the other. */
  ghost predicate LeadsAlone(s: System, t: System) {
    exists actions :: NoAccept(actions) && IsRun(s, actions) && t == Run(s, actions)
  }

  lemma AloneNowhere(s: System)
    ensures LeadsAlone(s, s)
  {
    assert NoAccept([]) && IsRun(s, []) && Run(s, []) == s;
  }

  lemma AloneOnward(s: System, t: System, a: Action, u: System)
    requires Enabled(t, a) && !a.Accept? && u == Apply(t, a)
    requires LeadsAlone(s, t)
    ensures LeadsAlone(s, u)
  {
    hide Enabled, Apply, Run, IsRun;
    var actions :| NoAccept(actions) && IsRun(s, actions) && t == Run(s, actions);
    RunLonger(s, actions, a);
    assert NoAccept(actions + [a]);
  }

  lemma AloneOn(s: System, t: System, u: System)
    requires LeadsAlone(s, t) && LeadsAlone(t, u)
    ensures LeadsAlone(s, u)
  {
    hide Run, IsRun;
    var first :| NoAccept(first) && IsRun(s, first) && t == Run(s, first);
    var second :| NoAccept(second) && IsRun(t, second) && u == Run(t, second);
    RunThen(s, first, second);
    assert NoAccept(first + second);
  }

  lemma AloneLeads(s: System, t: System)
    requires LeadsAlone(s, t)
    ensures Leads(s, t)
  {
    hide Run, IsRun;
  }
}
