/**
 Sequences of steps of one call of LaunchProtocol inside its section, and the same steps as events of the service.
 */
module LaunchRuns {
  import opened Options
  import P = LaunchProtocol

  function AdvanceAll(l: P.Local, agent: P.AgentId, choices: seq<P.Choice>): Option<P.Local>
    decreases |choices|
  {
    if choices == [] then Some(l)
    else
      var next := P.Advance(l, agent, choices[0]);
      if next.None? then None else AdvanceAll(next.value, agent, choices[1..])
  }

  ghost predicate Reaches(l: P.Local, l': P.Local, agent: P.AgentId) {
    exists choices: seq<P.Choice> :: AdvanceAll(l, agent, choices) == Some(l')
  }

  lemma StepReaches(l: P.Local, c: P.Choice, l': P.Local, agent: P.AgentId)
    requires P.Advance(l, agent, c).Some? && Reaches(P.Advance(l, agent, c).value, l', agent)
    ensures Reaches(l, l', agent)
  {
    var choices: seq<P.Choice> :| AdvanceAll(P.Advance(l, agent, c).value, agent, choices) == Some(l');
    assert ([c] + choices)[1..] == choices;
    assert AdvanceAll(l, agent, [c] + choices) == Some(l');
  }

  lemma Stays(l: P.Local, agent: P.AgentId)
    ensures Reaches(l, l, agent)
  {
    assert AdvanceAll(l, agent, []) == Some(l);
  }

  /** The same steps as events of the interleaved service. */
  function Works(i: nat, choices: seq<P.Choice>): seq<P.Event> {
    seq(|choices|, k requires 0 <= k < |choices| => P.Work(i, choices[k]))
  }

  lemma {:induction false} StepsAreEvents(s: P.Service, i: nat, choices: seq<P.Choice>, l: P.Local)
    requires |s.calls| == |s.locks.tickets| && P.Inside(s, i) && s.calls[i].reason.None?
    requires AdvanceAll(P.LocalOf(s, i), s.locks.tickets[i].agent, choices) == Some(l)
    ensures P.Final(s, Works(i, choices)) == Some(P.Put(s, i, l)) && P.SafeRun(s, Works(i, choices))
    decreases |choices|
  {
    if choices == [] {
      assert s.calls[i := s.calls[i].(work := l.work)] == s.calls;
    } else {
      var next := P.Advance(P.LocalOf(s, i), s.locks.tickets[i].agent, choices[0]).value;
      var s' := P.Put(s, i, next);
      assert P.Step(s, P.Work(i, choices[0])) == Some(s');
      assert Works(i, choices)[0] == P.Work(i, choices[0]) && Works(i, choices)[1..] == Works(i, choices[1..]);
      StepsAreEvents(s', i, choices[1..], l);
      assert P.Put(s', i, l) == P.Put(s, i, l);
    }
  }

  lemma {:induction false} FinalOfBoth(s: P.Service, a: seq<P.Event>, b: seq<P.Event>)
    requires |s.calls| == |s.locks.tickets| && P.Final(s, a).Some? && P.SafeRun(s, a)
    requires P.SafeRun(P.Final(s, a).value, b)
    ensures P.Final(s, a + b) == P.Final(P.Final(s, a).value, b) && P.SafeRun(s, a + b)
    decreases |a|
  {
    if a == [] {
      assert a + b == b;
    } else {
      assert (a + b)[1..] == a[1..] + b;
      FinalOfBoth(P.Step(s, a[0]).value, a[1..], b);
    }
  }

  lemma OneEvent(s: P.Service, e: P.Event, s': P.Service)
    requires |s.calls| == |s.locks.tickets| && P.Step(s, e) == Some(s') && P.Safe(s, e)
    ensures P.Final(s, [e]) == Some(s') && P.SafeRun(s, [e])
  {
    assert [e][0] == e && [e][1..] == [];
    assert P.Final(s', []) == Some(s');
  }
}
