/**
 The two models of a launch are of one launch: what an accepted or failed launch does to the containers as
 LaunchAcceptance describes them is what some sequence of the local steps of LaunchProtocol does, and so some run of the
 interleaved service.
 */
module LaunchRefinement {
  import opened LaunchRuns
  import opened Options
  import A = LaunchAcceptance
  import J = Judges
  import P = LaunchProtocol

  function StatusOf(status: string): P.Status {
    match status
    case "created" => P.Created
    case "running" => P.Running
    case "restarting" => P.Restarting
    case "paused" => P.Paused
    case "exited" => P.Exited
    case "dead" => P.Dead
    case "removing" => P.Removing
    case _ => P.Unknown
  }

  function AgentOf(r: A.Record): Option<string> { J.Label(r.inspect, J.AGENT_ID) }

  function ContainerOf(r: A.Record): P.Container
    requires AgentOf(r).Some?
  {
    P.Container(AgentOf(r).value, StatusOf(r.status))
  }

  /** The containers with an agent label, as the protocol sees them. */
  function View(m: A.Containers): P.Docker {
    map id | id in m && AgentOf(m[id]).Some? :: ContainerOf(m[id])
  }

  // -------------------------------------------------------------------------------------------------------- the launch

  /** The first containers of the list go one after the other. */
  lemma {:induction false} PartCleared(l: P.Local, part: seq<P.Surplus>, rest: seq<P.Surplus>, end: P.Local,
                                       agent: P.AgentId)
    requires l.work.Clearing? && l.work.surplus == part + rest
    requires Reaches(l.(docker := l.docker - SurplusIds(part), work := P.Clearing(rest, l.work.keep)), end, agent)
    ensures Reaches(l, end, agent)
    decreases |part|
  {
    var keep := l.work.keep;
    if part == [] {
      assert l.docker - SurplusIds(part) == l.docker && part + rest == rest;
    } else {
      var id, later := part[0].id, part[1..] + rest;
      assert l.work.surplus == [part[0]] + later && part == [part[0]] + part[1..];
      assert SurplusIds(part) == {id} + SurplusIds(part[1..]);
      assert l.docker - {id} - SurplusIds(part[1..]) == l.docker - SurplusIds(part);
      var removed := l.(docker := l.docker - {id}, work := P.Clearing(later, keep));
      PartCleared(removed, part[1..], rest, end, agent);
      FirstGoes(l, part[0], later, end, agent);
    }
  }

  lemma FirstGoes(l: P.Local, first: P.Surplus, later: seq<P.Surplus>, end: P.Local, agent: P.AgentId)
    requires l.work.Clearing? && l.work.surplus == [first] + later
    requires Reaches(l.(docker := l.docker - {first.id}, work := P.Clearing(later, l.work.keep)), end, agent)
    ensures Reaches(l, end, agent)
  {
    assert l.work.surplus[0] == first && l.work.surplus[1..] == later;
    if first.stopFirst {
      var stopped := P.Advance(l, agent, P.Go).value;
      assert P.DockerStop(l.docker, first.id) - {first.id} == l.docker - {first.id};
      assert ([P.Surplus(first.id, false)] + later)[1..] == later;
      StepReaches(stopped, P.Go, end, agent);
    }
    StepReaches(l, P.Go, end, agent);
  }

  lemma SurplusCleared(l: P.Local, end: P.Local, agent: P.AgentId)
    requires l.work.Clearing?
    requires var cleared := l.docker - SurplusIds(l.work.surplus);
             Reaches(l.(docker := cleared, work := P.Clearing([], l.work.keep)), end, agent)
    ensures Reaches(l, end, agent)
  {
    assert l.work.surplus + [] == l.work.surplus;
    PartCleared(l, l.work.surplus, [], end, agent);
  }

  function SurplusIds(surplus: seq<P.Surplus>): set<string> { set s | s in surplus :: s.id }

  /** Some order to list a set of containers in. */
  lemma {:induction false} SomeOrder(ids: set<string>) returns (order: seq<string>)
    ensures P.NoDuplicates(order) && (set id | id in order) == ids
    ensures forall id :: id in order <==> id in ids
    decreases ids
  {
    order := [];
    if ids == {} { return; }
    var id :| id in ids;
    var rest := SomeOrder(ids - {id});
    order := rest + [id];
    assert id !in rest by { assert forall k :: k in rest ==> k in (set j | j in rest); }
    assert (set k | k in order) == (set k | k in rest) + {id};
  }

  /** From the first step of a launch to the point where the surplus is gone. */
  lemma ClearedByListing(d: P.Docker, issued: map<string, P.AgentId>, agent: P.AgentId, keep: Option<string>,
                         end: P.Local)
    requires keep.Some? ==> keep.value in P.Labelled(d, agent) && P.Labelled(d, agent)[keep.value].Running?
    requires Reaches(P.Local(d - (P.Labelled(d, agent).Keys - P.Kept(keep)), issued, P.Clearing([], keep)), end, agent)
    ensures Reaches(P.Local(d, issued, P.Projecting), end, agent)
  {
    var order := SomeOrder(P.Labelled(d, agent).Keys);
    P.WithoutProperties(order, keep);
    var surplus := P.SurplusOf(P.Without(order, keep), d);
    SurplusIdsOf(P.Without(order, keep), d);
    forall id ensures id in SurplusIds(surplus) <==> id in P.Labelled(d, agent).Keys - P.Kept(keep) {
      assert id in order <==> id in (set k | k in order);
    }
    assert SurplusIds(surplus) == P.Labelled(d, agent).Keys - P.Kept(keep);
    var listed := P.Local(d, issued, P.Clearing(surplus, keep));
    SurplusCleared(listed, end, agent);
    StepReaches(P.Local(d, issued, P.Listing), P.Found(order, keep), end, agent);
    StepReaches(P.Local(d, issued, P.Resolving), P.Go, end, agent);
    StepReaches(P.Local(d, issued, P.Projecting), P.Go, end, agent);
  }

  lemma SurplusIdsOf(ids: seq<string>, d: P.Docker)
    ensures forall id :: id in SurplusIds(P.SurplusOf(ids, d)) <==> id in ids
  {
    var surplus := P.SurplusOf(ids, d);
    forall id | id in ids ensures id in SurplusIds(surplus) {
      var i :| 0 <= i < |ids| && ids[i] == id;
      assert surplus[i] in surplus && surplus[i].id == id;
    }
  }

  lemma LabelledIsHere(m: A.Containers, agent: string)
    ensures P.Labelled(View(m), agent).Keys == A.Here(m, agent).Keys
    ensures forall id :: id in A.Here(m, agent) ==> P.Labelled(View(m), agent)[id] == StatusOf(m[id].status)
  {
  }

  /** Nobody else's containers changed, and of the agent's there is only this one: all others have been removed. */
  lemma OnlyKeptIsLeft(m0: A.Containers, m: A.Containers, agent: string, kept: string)
    requires A.Here(m, agent).Keys == {kept} && kept in m && A.Elsewhere(m, agent) == A.Elsewhere(m0, agent)
    ensures View(m) == (View(m0) - A.Here(m0, agent).Keys)[kept := ContainerOf(m[kept])]
  {
    var left := (View(m0) - A.Here(m0, agent).Keys)[kept := ContainerOf(m[kept])];
    assert kept in A.Here(m, agent);
    forall id | id != kept ensures id in View(m) <==> id in left {
      assert id !in A.Here(m, agent);
      if id in View(m) { assert id in A.Elsewhere(m, agent); }
      if id in left { assert id in A.Elsewhere(m0, agent); }
    }
    forall id | id in View(m) && id != kept ensures View(m)[id] == left[id] {
      assert id !in A.Here(m, agent);
      assert id in A.Elsewhere(m, agent) && A.Elsewhere(m, agent)[id] == A.Elsewhere(m0, agent)[id];
    }
  }

  /** What the protocol's launch has at its end, as the convergence theorem describes it. */
  function EndOf(m: A.Containers, c: A.Context, acc: A.Acceptance, issued: map<string, P.AgentId>): P.Local {
    P.Local(View(m), if acc.disposition.Reused? then issued else issued[acc.container := c.agentId],
            P.Accepted(acc.container))
  }

  /** The launch's steps when it keeps a running container. */
  lemma KeepingRuns(d: P.Docker, issued: map<string, P.AgentId>, agent: P.AgentId, id: string)
    requires id in P.Labelled(d, agent) && P.Labelled(d, agent)[id].Running?
    ensures var left := d - (P.Labelled(d, agent).Keys - {id});
            Reaches(P.Local(d, issued, P.Projecting), P.Local(left, issued, P.Accepted(id)), agent)
  {
    var left := d - (P.Labelled(d, agent).Keys - {id});
    var end := P.Local(left, issued, P.Accepted(id));
    Stays(end, agent);
    StepReaches(P.Local(left, issued, P.Selected(id)), P.Go, end, agent);
    StepReaches(P.Local(left, issued, P.Clearing([], Some(id))), P.Go, end, agent);
    ClearedByListing(d, issued, agent, Some(id), end);
  }

  /** Its steps when it makes a container of its own. */
  lemma MakingRuns(d: P.Docker, issued: map<string, P.AgentId>, agent: P.AgentId, id: string, status: P.Status)
    requires id !in issued
    ensures var made := (d - P.Labelled(d, agent).Keys)[id := P.Container(agent, status)];
            Reaches(P.Local(d, issued, P.Projecting), P.Local(made, issued[id := agent], P.Accepted(id)), agent)
  {
    var left := d - P.Labelled(d, agent).Keys;
    var made := left[id := P.Container(agent, status)];
    var end := P.Local(made, issued[id := agent], P.Accepted(id));
    Stays(end, agent);
    StepReaches(P.Local(made, issued[id := agent], P.Selected(id)), P.Go, end, agent);
    StepReaches(P.Local(made, issued[id := agent], P.Inspecting(id)), P.Go, end, agent);
    StepReaches(P.Local(left, issued, P.Creating), P.Fresh(id, status), end, agent);
    StepReaches(P.Local(left, issued, P.Clearing([], None)), P.Go, end, agent);
    assert P.Labelled(d, agent).Keys - P.Kept(None) == P.Labelled(d, agent).Keys;
    ClearedByListing(d, issued, agent, None, end);
  }

  lemma ReuseRuns(m0: A.Containers, m: A.Containers, c: A.Context, own: J.Operation, acc: A.Acceptance,
                  issued: map<string, P.AgentId>)
    requires A.Accepts(m0, m, c, own, acc) && acc.disposition.Reused?
    ensures Reaches(P.Local(View(m0), issued, P.Projecting), EndOf(m, c, acc, issued), c.agentId)
  {
    var id, agent := acc.container, c.agentId;
    LabelledIsHere(m0, agent);
    OnlyKeptIsLeft(m0, m, agent, id);
    assert m0[id].status == "running" && m[id] == m0[id] && id in A.Here(m0, agent);
    KeepingRuns(View(m0), issued, agent, id);
    OneKept(View(m0), A.Here(m0, agent).Keys, id);
  }

  lemma OneKept(d: P.Docker, here: set<string>, id: string)
    requires id in d && id in here
    ensures (d - here)[id := d[id]] == d - (here - {id})
  {
  }

  lemma CreationRuns(m0: A.Containers, m: A.Containers, c: A.Context, own: J.Operation, acc: A.Acceptance,
                     issued: map<string, P.AgentId>)
    requires A.Accepts(m0, m, c, own, acc) && !acc.disposition.Reused? && acc.container !in issued
    ensures Reaches(P.Local(View(m0), issued, P.Projecting), EndOf(m, c, acc, issued), c.agentId)
  {
    var id, agent := acc.container, c.agentId;
    LabelledIsHere(m0, agent);
    OnlyKeptIsLeft(m0, m, agent, id);
    assert id in A.Here(m, agent) && AgentOf(m[id]) == Some(agent);
    MakingRuns(View(m0), issued, agent, id, StatusOf(m[id].status));
  }

  /**
   Every launch accepted in the sense of the convergence theorem is a run of the protocol's local steps, from its first
   step to its acceptance, with the same containers at both ends and the same container accepted.
   */
  lemma AcceptedIsARun(m0: A.Containers, m: A.Containers, c: A.Context, own: J.Operation, acc: A.Acceptance,
                       issued: map<string, P.AgentId>)
    requires A.Accepts(m0, m, c, own, acc)
    requires !acc.disposition.Reused? ==> acc.container !in issued
    ensures Reaches(P.Local(View(m0), issued, P.Projecting), EndOf(m, c, acc, issued), c.agentId)
  {
    if acc.disposition.Reused? {
      ReuseRuns(m0, m, c, own, acc, issued);
    } else {
      CreationRuns(m0, m, c, own, acc, issued);
    }
  }

  // ---------------------------------------------------------------------------------------------- the whole service

  /**
   So when a launch of the service has just entered its section over these containers, some safe run of the service
   takes it to its acceptance, and leaves exactly the containers that the convergence theorem promises.
   */
  lemma AcceptedInTheService(s: P.Service, i: nat, m0: A.Containers, m: A.Containers, c: A.Context, own: J.Operation,
                             acc: A.Acceptance)
    requires P.Inv(s) && P.Inside(s, i) && s.calls[i] == P.Call(P.Launch, None, P.Projecting)
    requires s.docker == View(m0) && s.locks.tickets[i].agent == c.agentId
    requires A.Accepts(m0, m, c, own, acc) && (!acc.disposition.Reused? ==> acc.container !in s.issued)
    ensures exists events: seq<P.Event> ::
              && P.SafeRun(s, events) && P.Final(s, events) == Some(P.Put(s, i, EndOf(m, c, acc, s.issued)))
              && P.Inv(P.Final(s, events).value)
  {
    AcceptedIsARun(m0, m, c, own, acc, s.issued);
    var end := EndOf(m, c, acc, s.issued);
    var choices: seq<P.Choice> :| AdvanceAll(P.LocalOf(s, i), c.agentId, choices) == Some(end);
    StepsAreEvents(s, i, choices, end);
    P.SafeRunsKeepInv(s, Works(i, choices));
  }

  // ----------------------------------------------------------------------------------------------- launches that fail

  /** How a launch fails: after some steps a command fails, with or without its effect; the unwinding may fail, too. */
  datatype Failure = Failure(choices: seq<P.Choice>, last: P.Choice, took: bool, undone: bool)

  function FailsTo(l: P.Local, agent: P.AgentId, f: Failure): Option<P.Local> {
    var mid := AdvanceAll(l, agent, f.choices);
    if mid.None? || mid.value.work.Selected? then None
    else
      var cut := P.Interrupted(mid.value, agent, P.Launch, f.last, f.took);
      if cut.None? || !cut.value.work.Unwinding? then None
      else if f.undone then P.Advance(cut.value, agent, P.Go)
      else P.Interrupted(cut.value, agent, P.Launch, P.Go, false)
  }

  ghost predicate CanFailTo(l: P.Local, end: P.Local, agent: P.AgentId) {
    exists f: Failure :: FailsTo(l, agent, f) == Some(end)
  }

  /** A launch that gets to a state and is cut off there. */
  lemma FailsThere(l: P.Local, mid: P.Local, last: P.Choice, took: bool, undone: bool, end: P.Local, agent: P.AgentId)
    requires Reaches(l, mid, agent) && !mid.work.Selected?
    requires var cut := P.Interrupted(mid, agent, P.Launch, last, took);
             && cut.Some? && cut.value.work.Unwinding?
             && (if undone then P.Advance(cut.value, agent, P.Go)
                 else P.Interrupted(cut.value, agent, P.Launch, P.Go, false)) == Some(end)
    ensures CanFailTo(l, end, agent)
  {
    var choices: seq<P.Choice> :| AdvanceAll(l, agent, choices) == Some(mid);
    assert FailsTo(l, agent, Failure(choices, last, took, undone)) == Some(end);
  }

  /** A launch that is cut off in its clearing leaves Docker as it is then. */
  lemma FailsClearing(l: P.Local, mid: P.Local, agent: P.AgentId)
    requires Reaches(l, mid, agent) && mid.work.Clearing? && mid.work.keep.None?
    ensures CanFailTo(l, mid.(work := P.Failed), agent)
  {
    FailsThere(l, mid, P.Go, false, true, mid.(work := P.Failed), agent);
  }

  /** The launch has listed these containers in this order and has gone through the first of them. */
  lemma ListedAndPartCleared(d: P.Docker, issued: map<string, P.AgentId>, agent: P.AgentId, gone: seq<string>,
                             rest: seq<string>)
    requires P.NoDuplicates(gone + rest) && (set id | id in gone + rest) == P.Labelled(d, agent).Keys
    ensures Reaches(P.Local(d, issued, P.Projecting),
                    P.Local(d - (set id | id in gone), issued, P.Clearing(P.SurplusOf(rest, d), None)), agent)
  {
    var order, left := gone + rest, d - (set id | id in gone);
    var end := P.Local(left, issued, P.Clearing(P.SurplusOf(rest, d), None));
    WithoutNone(order);
    var listed := P.Local(d, issued, P.Clearing(P.SurplusOf(order, d), None));
    assert P.SurplusOf(order, d) == P.SurplusOf(gone, d) + P.SurplusOf(rest, d);
    SurplusIdsOf(gone, d);
    assert SurplusIds(P.SurplusOf(gone, d)) == (set id | id in gone);
    Stays(end, agent);
    PartCleared(listed, P.SurplusOf(gone, d), P.SurplusOf(rest, d), end, agent);
    StepReaches(P.Local(d, issued, P.Listing), P.Found(order, None), end, agent);
    StepReaches(P.Local(d, issued, P.Resolving), P.Go, end, agent);
    StepReaches(P.Local(d, issued, P.Projecting), P.Go, end, agent);
  }

  lemma {:induction false} WithoutNone(ids: seq<string>)
    ensures P.Without(ids, None) == ids
  {
    if ids != [] { WithoutNone(ids[1..]); }
  }

  lemma BothWithoutDuplicates(a: seq<string>, b: seq<string>)
    requires P.NoDuplicates(a) && P.NoDuplicates(b) && forall id :: id in a ==> id !in b
    ensures P.NoDuplicates(a + b)
  {
    forall i, j | 0 <= i < j < |a + b| ensures (a + b)[i] != (a + b)[j] {
      if i < |a| && j >= |a| { assert a[i] in a && b[j - |a|] in b; }
    }
  }

  /** An order in which these come first. */
  lemma OrderWith(first: set<string>, all: set<string>) returns (gone: seq<string>, rest: seq<string>)
    requires first <= all
    ensures P.NoDuplicates(gone + rest) && (set id | id in gone + rest) == all
    ensures (set id | id in gone) == first && (set id | id in rest) == all - first && P.NoDuplicates(rest)
  {
    gone := SomeOrder(first);
    rest := SomeOrder(all - first);
    assert (set id | id in gone + rest) == (set id | id in gone) + (set id | id in rest);
    BothWithoutDuplicates(gone, rest);
  }

  lemma PartlyClearedRuns(d: P.Docker, issued: map<string, P.AgentId>, agent: P.AgentId, gone: set<string>)
    requires gone <= P.Labelled(d, agent).Keys
    ensures CanFailTo(P.Local(d, issued, P.Projecting), P.Local(d - gone, issued, P.Failed), agent)
  {
    var first, rest := OrderWith(gone, P.Labelled(d, agent).Keys);
    ListedAndPartCleared(d, issued, agent, first, rest);
    var mid := P.Local(d - gone, issued, P.Clearing(P.SurplusOf(rest, d), None));
    FailsClearing(P.Local(d, issued, P.Projecting), mid, agent);
  }

  lemma StoppedRuns(d: P.Docker, issued: map<string, P.AgentId>, agent: P.AgentId, gone: set<string>, stopped: string)
    requires gone <= P.Labelled(d, agent).Keys && stopped in P.Labelled(d, agent) && stopped !in gone
    requires P.IsActive(d[stopped].status)
    ensures CanFailTo(P.Local(d, issued, P.Projecting),
                      P.Local(P.DockerStop(d - gone, stopped), issued, P.Failed), agent)
  {
    var first, others := OrderWith(gone, P.Labelled(d, agent).Keys - {stopped});
    var rest := [stopped] + others;
    FrontOrder(first, others, stopped);
    assert (set id | id in first + rest) == P.Labelled(d, agent).Keys;
    ListedAndPartCleared(d, issued, agent, first, rest);
    var surplus := P.SurplusOf(rest, d);
    var mid := P.Local(d - gone, issued, P.Clearing(surplus, None));
    assert surplus[0] == P.Surplus(stopped, true);
    var halted := P.Advance(mid, agent, P.Go).value;
    OneMoreStep(P.Local(d, issued, P.Projecting), mid, P.Go, agent);
    FailsClearing(P.Local(d, issued, P.Projecting), halted, agent);
  }

  lemma FrontOrder(first: seq<string>, others: seq<string>, one: string)
    requires P.NoDuplicates(first + others) && one !in first && one !in others
    ensures P.NoDuplicates(first + ([one] + others))
    ensures (set id | id in first + ([one] + others)) == (set id | id in first + others) + {one}
  {
    var all, both := first + ([one] + others), first + others;
    forall i, j | 0 <= i < j < |all| ensures all[i] != all[j] {
      var a := if i <= |first| then i else i - 1;
      var b := if j <= |first| then j else j - 1;
      if i == |first| { assert all[i] == one && all[j] in others; }
      else if j == |first| { assert all[j] == one && all[i] in first; }
      else { assert all[i] == both[a] && all[j] == both[b]; }
    }
  }

  lemma {:induction false} OneMoreStep(l: P.Local, mid: P.Local, c: P.Choice, agent: P.AgentId)
    requires Reaches(l, mid, agent) && P.Advance(mid, agent, c).Some?
    ensures Reaches(l, P.Advance(mid, agent, c).value, agent)
  {
    var choices: seq<P.Choice> :| AdvanceAll(l, agent, choices) == Some(mid);
    AdvanceThen(l, agent, choices, c);
  }

  lemma {:induction false} AdvanceThen(l: P.Local, agent: P.AgentId, choices: seq<P.Choice>, c: P.Choice)
    requires AdvanceAll(l, agent, choices).Some?
    ensures AdvanceAll(l, agent, choices + [c]) == P.Advance(AdvanceAll(l, agent, choices).value, agent, c)
    decreases |choices|
  {
    if choices == [] {
      assert [] + [c] == [c] && [c][1..] == [];
    } else {
      assert (choices + [c])[1..] == choices[1..] + [c];
      AdvanceThen(P.Advance(l, agent, choices[0]).value, agent, choices[1..], c);
    }
  }

  lemma MadeThenFails(d: P.Docker, issued: map<string, P.AgentId>, agent: P.AgentId, id: string, status: P.Status)
    requires id !in issued
    ensures var made := (d - P.Labelled(d, agent).Keys)[id := P.Container(agent, status)];
            CanFailTo(P.Local(d, issued, P.Projecting), P.Local(made, issued[id := agent], P.Failed), agent)
  {
    var start, left := P.Local(d, issued, P.Projecting), d - P.Labelled(d, agent).Keys;
    var made := left[id := P.Container(agent, status)];
    var creating := P.Local(left, issued, P.Creating);
    Stays(creating, agent);
    StepReaches(P.Local(left, issued, P.Clearing([], None)), P.Go, creating, agent);
    assert P.Labelled(d, agent).Keys - P.Kept(None) == P.Labelled(d, agent).Keys;
    ClearedByListing(d, issued, agent, None, creating);
    FailsThere(start, creating, P.Fresh(id, status), true, false, P.Local(made, issued[id := agent], P.Failed), agent);
  }

  // ------------------------------------------------------------------------------------------ what a failed one leaves

  function LeftOf(m0: A.Containers, m: A.Containers, agent: string): P.Docker {
    View(m0) - (A.Here(m0, agent).Keys - A.Here(m, agent).Keys)
  }

  lemma SameDomain(m0: A.Containers, m: A.Containers, agent: string)
    requires A.Elsewhere(m, agent) == A.Elsewhere(m0, agent) && A.Here(m, agent).Keys <= A.Here(m0, agent).Keys
    ensures View(m).Keys == LeftOf(m0, m, agent).Keys
  {
    forall id ensures id in View(m) <==> id in LeftOf(m0, m, agent) {
      if id in View(m) { assert id in A.Here(m, agent) || id in A.Elsewhere(m, agent); }
      if id in LeftOf(m0, m, agent) { assert id in A.Here(m0, agent) || id in A.Elsewhere(m0, agent); }
    }
  }

  lemma SameElsewhere(m0: A.Containers, m: A.Containers, agent: string, id: string)
    requires A.Elsewhere(m, agent) == A.Elsewhere(m0, agent) && id in m && id !in A.Here(m, agent)
    ensures id in m0 && m[id] == m0[id]
  {
    assert id in A.Elsewhere(m, agent) && A.Elsewhere(m, agent)[id] == A.Elsewhere(m0, agent)[id];
  }

  lemma OthersSame(m0: A.Containers, m: A.Containers, agent: string, stopped: string)
    requires A.Elsewhere(m, agent) == A.Elsewhere(m0, agent) && A.Here(m, agent).Keys <= A.Here(m0, agent).Keys
    requires A.UnchangedBut(m0, m, agent, stopped)
    ensures View(m).Keys == LeftOf(m0, m, agent).Keys
    ensures forall id :: id in View(m) ==> id in m0
    ensures forall id :: id in View(m) && id != stopped ==> View(m)[id] == LeftOf(m0, m, agent)[id]
    ensures stopped in View(m) && stopped !in A.Here(m, agent) ==> m[stopped] == m0[stopped]
  {
    SameDomain(m0, m, agent);
    forall id | id in View(m) && id !in A.Here(m, agent) ensures id in m0 && m[id] == m0[id] {
      SameElsewhere(m0, m, agent, id);
    }
  }

  lemma ViewOfPart(m0: A.Containers, m: A.Containers, agent: string, stopped: string)
    requires A.Elsewhere(m, agent) == A.Elsewhere(m0, agent) && A.Here(m, agent).Keys <= A.Here(m0, agent).Keys
    requires A.UnchangedBut(m0, m, agent, stopped)
    ensures var left := LeftOf(m0, m, agent);
            View(m) == left
            || (stopped in A.Here(m, agent) && A.IsActive(m0[stopped].status) && View(m) == P.DockerStop(left, stopped))
  {
    var left := LeftOf(m0, m, agent);
    OthersSame(m0, m, agent, stopped);
    if stopped in View(m) && m[stopped] != m0[stopped] {
      ExitedView(m0[stopped], m[stopped]);
      DiffersAt(View(m), left, stopped);
    } else {
      assert View(m) == left;
    }
  }

  lemma DiffersAt(d: P.Docker, left: P.Docker, id: string)
    requires d.Keys == left.Keys && id in d && d[id] == left[id].(status := P.Exited)
    requires forall k :: k in d && k != id ==> d[k] == left[k]
    ensures d == P.DockerStop(left, id)
  {
  }

  lemma ExitedView(before: A.Record, after: A.Record)
    requires after == before.(status := "exited") && AgentOf(before).Some?
    ensures AgentOf(after) == AgentOf(before) && ContainerOf(after) == ContainerOf(before).(status := P.Exited)
  {
  }

  /**
   Whatever a failed launch leaves behind, in the sense of LaunchAcceptance, is what some failing run of the protocol's
   local steps leaves behind: a command fails with or without its effect, and the launch unwinds.
   */
  lemma FailedIsARun(m0: A.Containers, m: A.Containers, agent: string, used: set<string>,
                     issued: map<string, P.AgentId>)
    requires A.LeftBy(m0, m, agent, used) && issued.Keys <= used
    ensures exists end: P.Local ::
              && CanFailTo(P.Local(View(m0), issued, P.Projecting), end, agent)
              && end.docker == View(m) && end.work.Failed?
  {
    LabelledIsHere(m0, agent);
    if A.PartlyCleared(m0, m, agent) {
      var stopped: string :| A.UnchangedBut(m0, m, agent, stopped);
      var gone := A.Here(m0, agent).Keys - A.Here(m, agent).Keys;
      ViewOfPart(m0, m, agent, stopped);
      PartlyClearedRuns(View(m0), issued, agent, gone);
      if View(m) != View(m0) - gone {
        ActiveIsActive(m0[stopped].status);
        StoppedRuns(View(m0), issued, agent, gone, stopped);
      }
    } else {
      var k :| k !in used && A.Here(m, agent).Keys == {k};
      assert k in A.Here(m, agent) && AgentOf(m[k]) == Some(agent);
      OnlyKeptIsLeft(m0, m, agent, k);
      MadeThenFails(View(m0), issued, agent, k, StatusOf(m[k].status));
    }
  }

  lemma ActiveIsActive(status: string)
    requires A.IsActive(status)
    ensures P.IsActive(StatusOf(status))
  {
  }

  // --------------------------------------------------------------------------------------------- and in the service

  /** So some safe run of the service, with its faults, takes a launch from its entry to that failure. */
  lemma FailedInTheService(s: P.Service, i: nat, m0: A.Containers, m: A.Containers, agent: string, used: set<string>)
    requires P.Inv(s) && P.Inside(s, i) && s.calls[i] == P.Call(P.Launch, None, P.Projecting)
    requires s.docker == View(m0) && s.locks.tickets[i].agent == agent
    requires A.LeftBy(m0, m, agent, used) && s.issued.Keys <= used
    ensures exists events: seq<P.Event>, end: P.Local ::
              && P.SafeRun(s, events) && P.Final(s, events) == Some(P.Put(s, i, end)) && P.Inv(P.Put(s, i, end))
              && end.docker == View(m) && end.work.Failed?
  {
    FailedIsARun(m0, m, agent, used, s.issued);
    var end: P.Local :| CanFailTo(P.Local(View(m0), s.issued, P.Projecting), end, agent)
                        && end.docker == View(m) && end.work.Failed?;
    var events := FailingRun(s, i, end);
  }

  lemma FailingRun(s: P.Service, i: nat, end: P.Local) returns (events: seq<P.Event>)
    requires P.Inv(s) && P.Inside(s, i) && s.calls[i].kind.Launch? && s.calls[i].reason.None?
    requires CanFailTo(P.LocalOf(s, i), end, s.locks.tickets[i].agent)
    ensures P.SafeRun(s, events) && P.Final(s, events) == Some(P.Put(s, i, end)) && P.Inv(P.Put(s, i, end))
  {
    var f: Failure :| FailsTo(P.LocalOf(s, i), s.locks.tickets[i].agent, f) == Some(end);
    events := FailureEvents(s, i, f, end);
    P.SafeRunsKeepInv(s, events);
  }

  lemma FailureEvents(s: P.Service, i: nat, f: Failure, end: P.Local) returns (events: seq<P.Event>)
    requires |s.calls| == |s.locks.tickets| && P.Inside(s, i)
    requires s.calls[i].kind.Launch? && s.calls[i].reason.None?
    requires FailsTo(P.LocalOf(s, i), s.locks.tickets[i].agent, f) == Some(end)
    ensures P.SafeRun(s, events) && P.Final(s, events) == Some(P.Put(s, i, end))
  {
    var agent := s.locks.tickets[i].agent;
    var mid := AdvanceAll(P.LocalOf(s, i), agent, f.choices).value;
    StepsAreEvents(s, i, f.choices, mid);
    var s1 := P.Put(s, i, mid);
    var cut := P.Interrupted(mid, agent, P.Launch, f.last, f.took).value;
    var fault := P.Fault(i, f.last, f.took);
    var s2 := P.Put(s1, i, cut);
    OneEvent(s1, fault, s2);
    var last := if f.undone then P.Work(i, P.Go) else P.Fault(i, P.Go, false);
    var s3 := P.Put(s2, i, end);
    OneEvent(s2, last, s3);
    FinalOfBoth(s1, [fault], [last]);
    FinalOfBoth(s, Works(i, f.choices), [fault] + [last]);
    events := Works(i, f.choices) + ([fault] + [last]);
    assert P.Put(P.Put(P.Put(s, i, mid), i, cut), i, end) == P.Put(s, i, end);
  }
}
