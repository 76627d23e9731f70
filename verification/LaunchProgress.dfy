/**
 Stops and cleanups can succeed and do: alone inside its section such a call ends in success after a fixed number of
 commands, only a failing command makes it fail, and whatever state the service is in, some run without a failing
 command takes a call that waits or works through to its success.
 */
module LaunchProgress {
  import opened LaunchProtocol
  import opened LaunchRuns
  import opened Options
  import L = AgentLock

  // ------------------------------------------------------------------------------------- what a stop and a cleanup do

  /** The agent's containers that a stop has to stop. */
  function Busy(d: Docker, agent: AgentId): set<ContainerId> {
    set id | id in d && d[id].agent == agent && (d[id].status.Running? || d[id].status.Restarting?)
  }

  /** What the agent's containers and everybody else's are once the call has succeeded. */
  function After(kind: Kind, d: Docker, agent: AgentId): Docker {
    match kind
    case Stop => map id | id in d :: if id in Busy(d, agent) then Container(agent, Exited) else d[id]
    case Cleanup => map id | id in d && d[id].agent != agent :: d[id]
    case Launch => d
  }

  /** How many steps the call takes inside its section. */
  function Length(kind: Kind, d: Docker, agent: AgentId): nat {
    match kind
    case Stop => |Busy(d, agent)| + 3
    case Cleanup => |Labelled(d, agent)| + 2
    case Launch => 0
  }

  /** How far a call that began over `d` has come. */
  ghost predicate OnTheWay(kind: Kind, d: Docker, agent: AgentId, l: Local) {
    match l.work
    case StopListing => kind.Stop? && l.docker == d
    case Stopping(running) =>
      && kind.Stop? && running == Busy(l.docker, agent)
      && After(Stop, l.docker, agent) == After(Stop, d, agent)
    case StopReport => kind.Stop? && l.docker == After(Stop, d, agent)
    case CleanupListing => kind.Cleanup? && l.docker == d
    case Deleting(doomed) =>
      && kind.Cleanup? && doomed == Labelled(l.docker, agent).Keys
      && After(Cleanup, l.docker, agent) == After(Cleanup, d, agent)
    case Succeeded => l.docker == After(kind, d, agent)
    case _ => false
  }

  function StepsLeft(l: Local, agent: AgentId): nat {
    match l.work
    case StopListing => |Busy(l.docker, agent)| + 3
    case Stopping(running) => |running| + 2
    case StopReport => 1
    case CleanupListing => |Labelled(l.docker, agent)| + 2
    case Deleting(doomed) => |doomed| + 1
    case _ => 0
  }

  lemma StoppingOne(d: Docker, agent: AgentId, id: ContainerId)
    requires id in Busy(d, agent)
    ensures Busy(DockerStop(d, id), agent) == Busy(d, agent) - {id}
    ensures After(Stop, DockerStop(d, id), agent) == After(Stop, d, agent)
  {
  }

  lemma RemovingOne(d: Docker, agent: AgentId, id: ContainerId)
    requires id in Labelled(d, agent)
    ensures Labelled(DockerRemove(d, id), agent).Keys == Labelled(d, agent).Keys - {id}
    ensures After(Cleanup, DockerRemove(d, id), agent) == After(Cleanup, d, agent)
  {
  }

  lemma StaysOnTheWay(kind: Kind, d: Docker, agent: AgentId, l: Local, c: Choice)
    requires OnTheWay(kind, d, agent, l) && Advance(l, agent, c).Some?
    ensures var l' := Advance(l, agent, c).value;
            && OnTheWay(kind, d, agent, l') && l'.issued == l.issued
            && StepsLeft(l, agent) == StepsLeft(l', agent) + 1
  {
    match l.work
    case Stopping(running) =>
      if running == {} {
        assert After(Stop, l.docker, agent) == l.docker;
      } else {
        StoppingOne(l.docker, agent, c.id);
      }
    case Deleting(doomed) =>
      if doomed == {} {
        assert forall id :: id in l.docker && l.docker[id].agent == agent ==> id in Labelled(l.docker, agent);
        assert After(Cleanup, l.docker, agent) == l.docker;
      } else {
        RemovingOne(l.docker, agent, c.id);
      }
    case _ =>
  }

  lemma {:induction false} StepsCount(kind: Kind, d: Docker, agent: AgentId, l: Local, choices: seq<Choice>)
    requires OnTheWay(kind, d, agent, l) && AdvanceAll(l, agent, choices).Some?
    ensures var l' := AdvanceAll(l, agent, choices).value;
            && OnTheWay(kind, d, agent, l') && l'.issued == l.issued
            && StepsLeft(l, agent) == StepsLeft(l', agent) + |choices|
    decreases |choices|
  {
    if choices != [] {
      StaysOnTheWay(kind, d, agent, l, choices[0]);
      StepsCount(kind, d, agent, Advance(l, agent, choices[0]).value, choices[1..]);
    }
  }

  predicate Underway(w: Work) {
    w.StopListing? || w.Stopping? || w.StopReport? || w.CleanupListing? || w.Deleting? || w.Succeeded?
  }

  lemma CanGoOn(l: Local, agent: AgentId) returns (c: Choice)
    requires Underway(l.work) && !l.work.Succeeded?
    ensures Advance(l, agent, c).Some? && Underway(Advance(l, agent, c).value.work)
    ensures StepsLeft(Advance(l, agent, c).value, agent) < StepsLeft(l, agent)
  {
    if l.work.Stopping? && l.work.running != {} {
      c := StopsAnother(l, agent);
    } else if l.work.Deleting? && l.work.doomed != {} {
      c := DeletesAnother(l, agent);
    } else {
      c := Go;
      if l.work.StopListing? {
        assert Advance(l, agent, c).value.work.running == Busy(l.docker, agent);
      }
    }
  }

  lemma StopsAnother(l: Local, agent: AgentId) returns (c: Choice)
    requires l.work.Stopping? && l.work.running != {}
    ensures Advance(l, agent, c).Some? && Underway(Advance(l, agent, c).value.work)
    ensures StepsLeft(Advance(l, agent, c).value, agent) < StepsLeft(l, agent)
  {
    var id :| id in l.work.running;
    c := Pick(id);
    assert |l.work.running - {id}| < |l.work.running|;
  }

  lemma DeletesAnother(l: Local, agent: AgentId) returns (c: Choice)
    requires l.work.Deleting? && l.work.doomed != {}
    ensures Advance(l, agent, c).Some? && Underway(Advance(l, agent, c).value.work)
    ensures StepsLeft(Advance(l, agent, c).value, agent) < StepsLeft(l, agent)
  {
    var id :| id in l.work.doomed;
    c := Pick(id);
    assert |l.work.doomed - {id}| < |l.work.doomed|;
  }

  /** From wherever it is, such a call can go on to its success. */
  lemma {:induction false} CanFinish(l: Local, agent: AgentId) returns (l': Local)
    requires Underway(l.work)
    ensures Reaches(l, l', agent) && l'.work.Succeeded?
    decreases StepsLeft(l, agent)
  {
    if l.work.Succeeded? {
      l' := l;
      Stays(l, agent);
    } else {
      var c := CanGoOn(l, agent);
      l' := CanFinish(Advance(l, agent, c).value, agent);
      StepReaches(l, c, l', agent);
    }
  }

  // ---------------------------------------------------------------------------------------- alone inside its section

  lemma {:induction false} EventsAreSteps(s: Service, i: nat, choices: seq<Choice>)
    requires |s.calls| == |s.locks.tickets| && Inside(s, i) && s.calls[i].reason.None?
    requires Final(s, Works(i, choices)).Some?
    ensures AdvanceAll(LocalOf(s, i), s.locks.tickets[i].agent, choices).Some?
    decreases |choices|
  {
    if choices != [] {
      assert Works(i, choices)[0] == Work(i, choices[0]) && Works(i, choices)[1..] == Works(i, choices[1..]);
      EventsAreSteps(Step(s, Work(i, choices[0])).value, i, choices[1..]);
    }
  }

  /** The service once the call has done what it is for. */
  function Succeeding(s: Service, i: nat): Service
    requires i < |s.calls| == |s.locks.tickets|
  {
    Put(s, i, Local(After(s.calls[i].kind, s.docker, s.locks.tickets[i].agent), s.issued, Succeeded))
  }

  /** However a stop or cleanup takes its own steps, it never fails and has succeeded after exactly so many of them. */
  lemma OwnStepsSucceed(s: Service, i: nat, choices: seq<Choice>)
    requires Inv(s) && Inside(s, i) && !s.calls[i].kind.Launch? && s.calls[i].work == Start(s.calls[i].kind)
    requires Final(s, Works(i, choices)).Some?
    ensures var s', n := Final(s, Works(i, choices)).value, Length(s.calls[i].kind, s.docker, s.locks.tickets[i].agent);
            && i < |s'.calls| && !s'.calls[i].work.Failed?
            && |choices| <= n
            && (s'.calls[i].work.Succeeded? <==> |choices| == n)
            && (|choices| == n ==> s' == Succeeding(s, i))
  {
    var kind, agent, l := s.calls[i].kind, s.locks.tickets[i].agent, LocalOf(s, i);
    assert InStep(s.locks.tickets[i], s.calls[i]);
    EventsAreSteps(s, i, choices);
    var l' := AdvanceAll(l, agent, choices).value;
    StepsAreEvents(s, i, choices, l');
    StepsCount(kind, s.docker, agent, l, choices);
  }

  /** And it can: some of its own steps without a fault end in success, and it can leave its section then. */
  lemma SucceedsAlone(s: Service, i: nat) returns (choices: seq<Choice>)
    requires Inv(s) && Inside(s, i) && !s.calls[i].kind.Launch? && s.calls[i].work == Start(s.calls[i].kind)
    ensures SafeRun(s, Works(i, choices)) && Final(s, Works(i, choices)) == Some(Succeeding(s, i))
    ensures Step(Succeeding(s, i), Leave(i)).Some?
  {
    var agent := s.locks.tickets[i].agent;
    assert InStep(s.locks.tickets[i], s.calls[i]);
    var l' := CanFinish(LocalOf(s, i), agent);
    choices :| AdvanceAll(LocalOf(s, i), agent, choices) == Some(l');
    StepsAreEvents(s, i, choices, l');
    OwnStepsSucceed(s, i, choices);
  }

  // ------------------------------------------------------------------------------------------- a launch by itself

  /** All of the agent's containers are gone, but for this one. */
  function Cleared(d: Docker, agent: AgentId, keep: Option<ContainerId>): Docker {
    map id | id in d && (d[id].agent != agent || keep == Some(id)) :: d[id]
  }

  /** Between these two some of the agent's containers are gone or have been stopped, and nothing else is different. */
  ghost predicate Between(d: Docker, d': Docker, agent: AgentId, keep: Option<ContainerId>) {
    && d'.Keys <= d.Keys && Cleared(d', agent, keep) == Cleared(d, agent, keep)
    && (keep.Some? ==> keep.value in d && d[keep.value] == Container(agent, Running))
  }

  /** How far a launch that began over `d` has come: it keeps one that runs, or makes one and knows which. */
  ghost predicate LaunchUnderway(d: Docker, issued: map<ContainerId, AgentId>, agent: AgentId, l: Local) {
    match l.work
    case Projecting => l.docker == d && l.issued == issued
    case Resolving => l.docker == d && l.issued == issued
    case Listing => l.docker == d && l.issued == issued
    case Clearing(surplus, keep) =>
      && l.issued == issued && Between(d, l.docker, agent, keep)
      && (keep.Some? ==> keep.value !in Ids(surplus))
      && forall id :: id in Labelled(l.docker, agent) ==> id in Ids(surplus) || keep == Some(id)
    case Creating => l.issued == issued && l.docker == Cleared(d, agent, None)
    case Inspecting(id) => MadeOne(d, issued, agent, l, id)
    case Selected(id) => MadeOne(d, issued, agent, l, id) || KeptOne(d, issued, agent, l, id)
    case Accepted(id) => MadeOne(d, issued, agent, l, id) || KeptOne(d, issued, agent, l, id)
    case _ => false
  }

  /** Nothing but a new container is left of the agent's. */
  ghost predicate MadeOne(d: Docker, issued: map<ContainerId, AgentId>, agent: AgentId, l: Local, id: ContainerId) {
    && id !in issued && l.issued == issued[id := agent]
    && id in l.docker && l.docker == Cleared(d, agent, None)[id := l.docker[id]]
  }

  /** Nothing but one that ran before is left of them. */
  ghost predicate KeptOne(d: Docker, issued: map<ContainerId, AgentId>, agent: AgentId, l: Local, id: ContainerId) {
    && id in d && d[id] == Container(agent, Running)
    && l.issued == issued && l.docker == Cleared(d, agent, Some(id))
  }

  lemma ListsAll(d: Docker, issued: map<ContainerId, AgentId>, agent: AgentId, l: Local, c: Choice)
    requires LaunchUnderway(d, issued, agent, l) && l.work.Listing? && Advance(l, agent, c).Some?
    ensures LaunchUnderway(d, issued, agent, Advance(l, agent, c).value)
  {
    var w := Advance(l, agent, c).value.work;
    WithoutProperties(c.order, c.winner);
    assert Ids(w.surplus) == Without(c.order, c.winner);
    forall id | id in Labelled(d, agent) ensures id in Ids(w.surplus) || c.winner == Some(id) {
      assert id in (set k | k in c.order);
    }
  }

  lemma ClearsOne(d: Docker, issued: map<ContainerId, AgentId>, agent: AgentId, l: Local, c: Choice)
    requires LaunchUnderway(d, issued, agent, l) && l.work.Clearing? && l.work.surplus != []
    requires l.work.surplus[0].id in l.docker ==> l.docker[l.work.surplus[0].id].agent == agent
    ensures LaunchUnderway(d, issued, agent, Advance(l, agent, c).value)
  {
    var surplus, keep, first := l.work.surplus, l.work.keep, l.work.surplus[0];
    assert Ids(surplus) == [first.id] + Ids(surplus[1..]);
    assert first.id in Ids(surplus);
    if first.stopFirst {
      assert Ids([Surplus(first.id, false)] + surplus[1..]) == Ids(surplus);
    }
  }

  lemma ClearedAll(d: Docker, issued: map<ContainerId, AgentId>, agent: AgentId, l: Local)
    requires LaunchUnderway(d, issued, agent, l) && l.work.Clearing? && l.work.surplus == []
    ensures l.docker == Cleared(d, agent, l.work.keep)
  {
    assert Ids(l.work.surplus) == [];
    assert forall id :: id in l.docker && l.docker[id].agent == agent ==> id in Labelled(l.docker, agent);
    assert Cleared(l.docker, agent, l.work.keep) == l.docker;
  }

  lemma LaunchStays(d: Docker, issued: map<ContainerId, AgentId>, agent: AgentId, l: Local, c: Choice)
    requires LaunchUnderway(d, issued, agent, l) && LocalInv(l, agent, Launch) && Advance(l, agent, c).Some?
    ensures LaunchUnderway(d, issued, agent, Advance(l, agent, c).value)
  {
    if l.work.Listing? {
      ListsAll(d, issued, agent, l, c);
    } else if l.work.Clearing? {
      if l.work.surplus == [] {
        ClearedAll(d, issued, agent, l);
      } else {
        assert l.work.surplus[0].id in Ids(l.work.surplus) by { assert Ids(l.work.surplus)[0] == l.work.surplus[0].id; }
        assert l.work.surplus[0].id in Labelled(l.docker, agent);
        ClearsOne(d, issued, agent, l, c);
      }
    }
  }

  /**
   However a launch takes its own steps: when it is accepted, its agent has exactly one container, one that ran when the
   launch began and is as it was, or a new one; and nothing of anybody else has changed.
   */
  lemma {:induction false} LaunchSteps(d: Docker, issued: map<ContainerId, AgentId>, agent: AgentId, l: Local,
                                       choices: seq<Choice>)
    requires LaunchUnderway(d, issued, agent, l) && LocalInv(l, agent, Launch)
    requires AdvanceAll(l, agent, choices).Some?
    ensures var l' := AdvanceAll(l, agent, choices).value;
            LaunchUnderway(d, issued, agent, l') && LocalInv(l', agent, Launch)
    decreases |choices|
  {
    if choices != [] {
      AdvanceKeeps(l, agent, Launch, choices[0]);
      LaunchStays(d, issued, agent, l, choices[0]);
      LaunchSteps(d, issued, agent, Advance(l, agent, choices[0]).value, choices[1..]);
    }
  }

  /**
   A launch that fails before its container has been verified, whatever command fails and whether or not with its
   effect, leaves no container that was not there when it began, once the unwinding has been carried out.
   */
  lemma FailureLeavesNothingNew(d: Docker, issued: map<ContainerId, AgentId>, agent: AgentId, choices: seq<Choice>,
                                c: Choice, took: bool)
    requires Consistent(d, issued)
    requires var start := Local(d, issued, Projecting);
             && AdvanceAll(start, agent, choices).Some?
             && !AdvanceAll(start, agent, choices).value.work.Selected?
             && Interrupted(AdvanceAll(start, agent, choices).value, agent, Launch, c, took).Some?
    ensures var mid := AdvanceAll(Local(d, issued, Projecting), agent, choices).value;
            var cut := Interrupted(mid, agent, Launch, c, took).value;
            var end := Advance(cut, agent, Go);
            cut.work.Unwinding? && end.Some? && end.value.work.Failed? && end.value.docker.Keys <= d.Keys
  {
    var mid := AdvanceAll(Local(d, issued, Projecting), agent, choices).value;
    LaunchSteps(d, issued, agent, Local(d, issued, Projecting), choices);
    if mid.work.Clearing? && mid.work.surplus == [] { ClearedAll(d, issued, agent, mid); }
    if mid.work.Listing? || mid.work.Clearing? { LaunchStays(d, issued, agent, mid, c); }
  }

  // ------------------------------------------------------------------------------------ whatever else the service does

  predicate NoFaultOf(es: seq<Event>, i: nat) {
    forall e :: e in es && e.Fault? ==> e.call != i
  }

  lemma StepFailsOnlyByFault(s: Service, e: Event, i: nat)
    requires |s.calls| == |s.locks.tickets| && i < |s.calls| && InStep(s.locks.tickets[i], s.calls[i])
    requires !s.calls[i].kind.Launch? && !s.calls[i].work.Failed? && (e.Fault? ==> e.call != i)
    requires Step(s, e).Some?
    ensures var s' := Step(s, e).value;
            i < |s'.calls| && !s'.calls[i].kind.Launch? && !s'.calls[i].work.Failed?
  {
    if e.Work? && e.call == i {
      assert !Advance(LocalOf(s, i), s.locks.tickets[i].agent, e.choice).value.work.Failed?;
    }
  }

  /** Whatever else happens, only a failing command of its own makes a stop or cleanup fail. */
  lemma {:induction false} OnlyFaultsFail(s: Service, es: seq<Event>, i: nat)
    requires Inv(s) && i < |s.calls| && !s.calls[i].kind.Launch? && !s.calls[i].work.Failed?
    requires Final(s, es).Some? && SafeRun(s, es) && NoFaultOf(es, i)
    ensures var s' := Final(s, es).value; i < |s'.calls| && !s'.calls[i].work.Failed?
    decreases |es|
  {
    if es != [] {
      StepKeepsInv(s, es[0]);
      StepFailsOnlyByFault(s, es[0], i);
      OnlyFaultsFail(Step(s, es[0]).value, es[1..], i);
    }
  }

  // ----------------------------------------------------------------------------------------- nobody waits for ever

  /** From s the service can come to s' by a safe run in which no command fails. */
  ghost predicate Can(s: Service, s': Service)
    requires |s.calls| == |s.locks.tickets|
  {
    exists es: seq<Event> :: Smoothly(s, es) && Final(s, es) == Some(s')
  }

  predicate Smoothly(s: Service, es: seq<Event>)
    requires |s.calls| == |s.locks.tickets|
  {
    SafeRun(s, es) && forall e :: e in es ==> !e.Fault?
  }

  lemma Stands(s: Service)
    requires |s.calls| == |s.locks.tickets|
    ensures Can(s, s)
  {
    assert Smoothly(s, []) && Final(s, []) == Some(s);
  }

  lemma CanByOne(s: Service, e: Event)
    requires Inv(s) && Safe(s, e) && Step(s, e).Some? && !e.Fault?
    ensures Can(s, Step(s, e).value) && Inv(Step(s, e).value)
  {
    var s' := Step(s, e).value;
    StepKeepsInv(s, e);
    OneEvent(s, e, s');
    assert Smoothly(s, [e]) && Final(s, [e]) == Some(s');
  }

  lemma CanByBoth(s: Service, s1: Service, s2: Service)
    requires |s.calls| == |s.locks.tickets| && Can(s, s1)
    requires |s1.calls| == |s1.locks.tickets| && Can(s1, s2)
    ensures Can(s, s2)
  {
    var a: seq<Event> :| Smoothly(s, a) && Final(s, a) == Some(s1);
    var b: seq<Event> :| Smoothly(s1, b) && Final(s1, b) == Some(s2);
    FinalOfBoth(s, a, b);
    assert Smoothly(s, a + b);
  }

  /** Only call h is elsewhere in s': it has left. */
  ghost predicate OnlyLeft(s: Service, s': Service, h: nat)
    requires |s.calls| == |s.locks.tickets| && h < |s.calls|
  {
    && Inv(s') && |s'.calls| == |s.calls|
    && s'.locks.tickets[h].phase.Left?
    && (forall j :: 0 <= j < |s.calls| ==> s'.locks.tickets[j].agent == s.locks.tickets[j].agent)
    && (forall j :: 0 <= j < |s.calls| && j != h ==>
          s'.locks.tickets[j] == s.locks.tickets[j] && s'.calls[j] == s.calls[j])
  }

  /** Call h, still inside, has come to an end; nothing else about the calls is different. */
  ghost predicate OnlyFinished(s: Service, s': Service, h: nat)
    requires |s.calls| == |s.locks.tickets| && h < |s.calls|
  {
    && Inv(s') && s'.locks == s.locks && |s'.calls| == |s.calls|
    && Finished(s'.calls[h].work) && s'.calls[h].kind == s.calls[h].kind
    && forall j :: 0 <= j < |s.calls| && j != h ==> s'.calls[j] == s.calls[j]
  }

  lemma FinishedLeaves(s: Service, h: nat) returns (s': Service)
    requires Inv(s) && Inside(s, h) && Finished(s.calls[h].work)
    ensures Can(s, s') && OnlyLeft(s, s', h)
    ensures s'.calls[h] == s.calls[h] && s'.docker == s.docker
  {
    s' := Step(s, Leave(h)).value;
    CanByOne(s, Leave(h));
  }

  /** A stop or cleanup inside its section goes on to its success. */
  lemma UnderwaySucceeds(s: Service, h: nat) returns (s': Service)
    requires Inv(s) && Inside(s, h) && !s.calls[h].kind.Launch? && !s.calls[h].work.Failed?
    ensures Can(s, s') && OnlyFinished(s, s', h) && s'.calls[h].work.Succeeded?
  {
    var agent := s.locks.tickets[h].agent;
    assert InStep(s.locks.tickets[h], s.calls[h]);
    var l := CanFinish(LocalOf(s, h), agent);
    var choices: seq<Choice> :| AdvanceAll(LocalOf(s, h), agent, choices) == Some(l);
    StepsAreEvents(s, h, choices, l);
    SafeRunsKeepInv(s, Works(h, choices));
    s' := Put(s, h, l);
    assert Smoothly(s, Works(h, choices)) && Final(s, Works(h, choices)) == Some(s');
  }

  lemma MarkedUnwinds(s: Service, h: nat) returns (s': Service)
    requires Inv(s) && Inside(s, h) && s.calls[h].kind.Launch? && s.calls[h].reason.Some?
    requires !Finished(s.calls[h].work) && !s.calls[h].work.Unwinding?
    ensures Can(s, s') && Inv(s') && s'.locks == s.locks && s'.docker == s.docker && s'.issued == s.issued
    ensures |s'.calls| == |s.calls| && s'.calls[h].work.Unwinding? && s'.calls[h].kind.Launch?
    ensures forall j :: 0 <= j < |s.calls| && j != h ==> s'.calls[j] == s.calls[j]
  {
    s' := Step(s, Terminate(h)).value;
    CanByOne(s, Terminate(h));
  }

  /** A launch inside its section can be ended by its deadline: it starts to unwind. */
  lemma DeadlineEnds(s: Service, h: nat) returns (s': Service)
    requires Inv(s) && Inside(s, h) && s.calls[h].kind.Launch?
    requires !Finished(s.calls[h].work) && !s.calls[h].work.Unwinding?
    ensures Can(s, s') && Inv(s') && s'.locks == s.locks && s'.docker == s.docker && s'.issued == s.issued
    ensures |s'.calls| == |s.calls| && s'.calls[h].work.Unwinding? && s'.calls[h].kind.Launch?
    ensures forall j :: 0 <= j < |s.calls| && j != h ==> s'.calls[j] == s.calls[j]
  {
    var late := Step(s, Expire(h)).value;
    CanByOne(s, Expire(h));
    s' := MarkedUnwinds(late, h);
    CanByBoth(s, late, s');
  }

  lemma UnwindingEnds(s: Service, h: nat) returns (s': Service)
    requires Inv(s) && Inside(s, h) && s.calls[h].work.Unwinding?
    ensures Can(s, s') && OnlyFinished(s, s', h)
  {
    s' := Step(s, Work(h, Go)).value;
    CanByOne(s, Work(h, Go));
  }

  lemma InsideFinishes(s: Service, h: nat) returns (s': Service)
    requires Inv(s) && Inside(s, h) && !Finished(s.calls[h].work)
    ensures Can(s, s') && OnlyFinished(s, s', h)
  {
    if s.calls[h].kind.Launch? {
      var unwinding := s;
      Stands(s);
      if !s.calls[h].work.Unwinding? {
        unwinding := DeadlineEnds(s, h);
      }
      s' := UnwindingEnds(unwinding, h);
      CanByBoth(s, unwinding, s');
    } else {
      s' := UnderwaySucceeds(s, h);
    }
  }

  lemma InsideLeaves(s: Service, h: nat) returns (s': Service)
    requires Inv(s) && Inside(s, h)
    ensures Can(s, s') && OnlyLeft(s, s', h)
  {
    if Finished(s.calls[h].work) {
      s' := FinishedLeaves(s, h);
    } else {
      var ended := InsideFinishes(s, h);
      s' := FinishedLeaves(ended, h);
      CanByBoth(s, ended, s');
    }
  }

  lemma LateGivesUp(s: Service, h: nat) returns (s': Service)
    requires Inv(s) && h < |s.calls| && s.locks.tickets[h].phase.Waiting? && s.calls[h].reason == Some(Timeout)
    requires L.AllLeftBelow(s.locks, s.locks.tickets[h].agent, h)
    ensures Can(s, s') && OnlyLeft(s, s', h)
  {
    assert InStep(s.locks.tickets[h], s.calls[h]);
    L.PredecessorSettledMeansAllLeft(s.locks, h);
    s' := Step(s, Abandon(h)).value;
    CanByOne(s, Abandon(h));
  }

  /** A launch that waits gives up at its deadline. */
  lemma LaunchGivesUp(s: Service, h: nat) returns (s': Service)
    requires Inv(s) && h < |s.calls| && s.locks.tickets[h].phase.Waiting? && s.calls[h].kind.Launch?
    requires L.AllLeftBelow(s.locks, s.locks.tickets[h].agent, h)
    ensures Can(s, s') && OnlyLeft(s, s', h)
  {
    var late := Step(s, Expire(h)).value;
    CanByOne(s, Expire(h));
    s' := LateGivesUp(late, h);
    CanByBoth(s, late, s');
  }

  /** A stop or cleanup enters its section once every earlier call of its agent has left. */
  lemma EntersNext(s: Service, h: nat) returns (s': Service)
    requires Inv(s) && h < |s.calls| && s.locks.tickets[h].phase.Waiting? && !s.calls[h].kind.Launch?
    requires L.AllLeftBelow(s.locks, s.locks.tickets[h].agent, h)
    ensures Can(s, s') && Inv(s') && |s'.calls| == |s.calls| && Inside(s', h)
    ensures s'.calls[h].kind == s.calls[h].kind && s'.calls[h].work == Start(s.calls[h].kind)
    ensures forall j :: 0 <= j < |s.calls| ==> s'.locks.tickets[j].agent == s.locks.tickets[j].agent
    ensures forall j :: 0 <= j < |s.calls| && j != h ==>
              s'.locks.tickets[j] == s.locks.tickets[j] && s'.calls[j] == s.calls[j]
  {
    assert InStep(s.locks.tickets[h], s.calls[h]);
    L.PredecessorSettledMeansAllLeft(s.locks, h);
    s' := Step(s, Enter(h)).value;
    CanByOne(s, Enter(h));
  }

  /** Whoever waits first can go: a launch by giving up at its deadline, the others by doing what they are for. */
  lemma WaitingLeaves(s: Service, h: nat) returns (s': Service)
    requires Inv(s) && h < |s.calls| && s.locks.tickets[h].phase.Waiting?
    requires L.AllLeftBelow(s.locks, s.locks.tickets[h].agent, h)
    ensures Can(s, s') && OnlyLeft(s, s', h)
  {
    if s.calls[h].kind.Launch? {
      s' := LaunchGivesUp(s, h);
    } else {
      var entered := EntersNext(s, h);
      s' := InsideLeaves(entered, h);
      CanByBoth(s, entered, s');
    }
  }

  /** The calls before call i can all leave, one after the other, without it. */
  lemma {:induction false} EarlierLeave(s: Service, i: nat, k: nat) returns (s': Service)
    requires Inv(s) && k <= i < |s.calls| && L.AllLeftBelow(s.locks, s.locks.tickets[i].agent, k)
    ensures Can(s, s') && Inv(s') && |s'.calls| == |s.calls|
    ensures s'.calls[i] == s.calls[i] && s'.locks.tickets[i] == s.locks.tickets[i]
    ensures L.AllLeftBelow(s'.locks, s.locks.tickets[i].agent, i)
    decreases i - k
  {
    var agent := s.locks.tickets[i].agent;
    if k == i {
      s' := s;
      Stands(s);
    } else {
      var s0 := s;
      Stands(s);
      if s.locks.tickets[k].agent == agent && !s.locks.tickets[k].phase.Left? {
        if s.locks.tickets[k].phase.Inside? {
          s0 := InsideLeaves(s, k);
        } else {
          s0 := WaitingLeaves(s, k);
        }
      }
      s' := EarlierLeave(s0, i, k + 1);
      CanByBoth(s, s0, s');
    }
  }

  lemma GetsIn(s: Service, i: nat) returns (s': Service)
    requires Inv(s) && i < |s.calls| && !s.calls[i].kind.Launch?
    requires !s.locks.tickets[i].phase.Left? && !s.calls[i].work.Failed?
    ensures Can(s, s') && Inv(s') && |s'.calls| == |s.calls| && Inside(s', i)
    ensures s'.calls[i].kind == s.calls[i].kind && !s'.calls[i].work.Failed?
    ensures s'.locks.tickets[i].agent == s.locks.tickets[i].agent
  {
    if s.locks.tickets[i].phase.Waiting? {
      var free := EarlierLeave(s, i, 0);
      s' := EntersNext(free, i);
      CanByBoth(s, free, s');
    } else {
      s' := s;
      Stands(s);
    }
  }

  lemma NothingIsLeftRunning(s: Service, i: nat)
    requires Inv(s) && Inside(s, i) && s.calls[i].work.Succeeded?
    ensures forall id :: id in s.docker && s.docker[id].agent == s.locks.tickets[i].agent ==>
              s.calls[i].kind.Stop? && !s.docker[id].status.Running? && !s.docker[id].status.Restarting?
  {
    var agent := s.locks.tickets[i].agent;
    assert InStep(s.locks.tickets[i], s.calls[i]) && CallInv(s, i);
    forall id | id in s.docker && s.docker[id].agent == agent
      ensures s.calls[i].kind.Stop? && !s.docker[id].status.Running? && !s.docker[id].status.Restarting?
    {
      assert id in Labelled(s.docker, agent) && !BusyIn(Labelled(s.docker, agent), id);
    }
  }

  /**
   Whatever has happened so far, a stop or cleanup that is still waiting or at work can succeed and leave: some safe
   run without a failing command ends with the call gone and successful, and with nothing of its agent running or
   restarting, or nothing of it left.
   */
  lemma CanAlwaysSucceed(s: Service, i: nat) returns (s': Service)
    requires Inv(s) && i < |s.calls| && !s.calls[i].kind.Launch?
    requires !s.locks.tickets[i].phase.Left? && !s.calls[i].work.Failed?
    ensures Can(s, s') && Inv(s') && |s'.calls| == |s.calls|
    ensures s'.calls[i].work.Succeeded? && s'.locks.tickets[i].phase.Left?
    ensures var agent, kind := s.locks.tickets[i].agent, s.calls[i].kind;
            forall id :: id in s'.docker && s'.docker[id].agent == agent ==>
              kind.Stop? && !s'.docker[id].status.Running? && !s'.docker[id].status.Restarting?
  {
    var entered := GetsIn(s, i);
    var done := UnderwaySucceeds(entered, i);
    CanByBoth(s, entered, done);
    NothingIsLeftRunning(done, i);
    s' := FinishedLeaves(done, i);
    CanByBoth(s, done, s');
  }
}
