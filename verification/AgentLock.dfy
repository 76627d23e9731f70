/**
 The per-agent lock of the runner service: a chain of promises, one link per call.

 A call reads the agent's current link (its predecessor), replaces it by a link of its own that settles once
 the predecessor has settled and the call has released, and waits for the predecessor. A launch may give up
 waiting when its deadline passes or when it is cancelled. Whoever leaves, leaves by releasing its link and by
 deleting the agent's entry if that entry is still its own link.

 A ticket is one call of the lock, numbered in call order.
 */
module AgentLock {
  import opened Options

  type AgentId = string

  /** Left(true) went through its critical section; Left(false) gave up while waiting. */
  datatype Phase = Waiting | Inside | Left(entered: bool)

  /** `mayAbandon` is true for a launch, whose wait is raced against its deadline. */
  datatype Ticket = Ticket(agent: AgentId, previous: Option<nat>, mayAbandon: bool, phase: Phase)

  /** `tail` is the map from agent to the newest link of its chain. */
  datatype Locks = Locks(tickets: seq<Ticket>, tail: map<AgentId, nat>)

  datatype Event =
    | Call(agent: AgentId, mayAbandon: bool)
    | Enter(ticket: nat)
    | Exit(ticket: nat)
    | Abandon(ticket: nat)

  const EMPTY: Locks := Locks([], map[])

  /** The link of ticket i is settled: i has released and so has everything before it in the chain. */
  predicate Settled(s: Locks, i: nat)
    requires i < |s.tickets|
  {
    var t := s.tickets[i];
    t.phase.Left? && (t.previous.Some? && t.previous.value < i ==> Settled(s, t.previous.value))
  }

  predicate PredecessorSettled(s: Locks, i: nat)
    requires i < |s.tickets|
  {
    var t := s.tickets[i];
    t.previous.Some? && t.previous.value < i ==> Settled(s, t.previous.value)
  }

  function Previous(s: Locks, agent: AgentId): Option<nat> {
    if agent in s.tail then Some(s.tail[agent]) else None
  }

  function WithPhase(s: Locks, i: nat, phase: Phase): Locks
    requires i < |s.tickets|
  {
    s.(tickets := s.tickets[i := s.tickets[i].(phase := phase)])
  }

  /** The `finally` block: release, and drop the agent's entry if it is still this ticket's own link. */
  function Release(s: Locks, i: nat, entered: bool): Locks
    requires i < |s.tickets|
  {
    var agent := s.tickets[i].agent;
    var tail' := if Previous(s, agent) == Some(i) then s.tail - {agent} else s.tail;
    WithPhase(s, i, Left(entered)).(tail := tail')
  }

  predicate Enabled(s: Locks, e: Event) {
    match e
    case Call(_, _) => true
    case Enter(i) => i < |s.tickets| && s.tickets[i].phase.Waiting? && PredecessorSettled(s, i)
    case Exit(i) => i < |s.tickets| && s.tickets[i].phase.Inside?
    case Abandon(i) => i < |s.tickets| && s.tickets[i].phase.Waiting? && s.tickets[i].mayAbandon
  }

  function Step(s: Locks, e: Event): Locks
    requires Enabled(s, e)
  {
    match e
    case Call(agent, mayAbandon) =>
      Locks(s.tickets + [Ticket(agent, Previous(s, agent), mayAbandon, Waiting)], s.tail[agent := |s.tickets|])
    case Enter(i) => WithPhase(s, i, Inside)
    case Exit(i) => Release(s, i, true)
    case Abandon(i) => Release(s, i, false)
  }

  /**
   The guard a caller can check before giving up: the waiter is not the newest link of its agent, or everything
   before it has already been released.
   */
  predicate Safe(s: Locks, e: Event) {
    e.Abandon? && e.ticket < |s.tickets| ==>
      Previous(s, s.tickets[e.ticket].agent) != Some(e.ticket) || PredecessorSettled(s, e.ticket)
  }

  predicate Entered(t: Ticket) { t.phase.Inside? || t.phase == Left(true) }

  /** Two tickets of one agent are never inside together. */
  ghost predicate Exclusion(s: Locks) {
    forall i, j | 0 <= i < j < |s.tickets| && s.tickets[i].agent == s.tickets[j].agent ::
      !(s.tickets[i].phase.Inside? && s.tickets[j].phase.Inside?)
  }

  /** Whoever was ever inside had every earlier call of its agent gone: sections are entered in call order. */
  ghost predicate InCallOrder(s: Locks) {
    forall i, j | 0 <= i < j < |s.tickets| && s.tickets[i].agent == s.tickets[j].agent ::
      Entered(s.tickets[j]) ==> s.tickets[i].phase.Left?
  }

  /** Every call of `agent` numbered below k has left. */
  ghost predicate AllLeftBelow(s: Locks, agent: AgentId, k: nat)
    requires k <= |s.tickets|
  {
    forall i :: 0 <= i < k && s.tickets[i].agent == agent ==> s.tickets[i].phase.Left?
  }

  /** A link's predecessor is the call of the agent just before it; without one, everything before has left. */
  ghost predicate LinkedAt(s: Locks, j: nat)
    requires j < |s.tickets|
  {
    match s.tickets[j].previous
    case None => AllLeftBelow(s, s.tickets[j].agent, j)
    case Some(p) =>
      p < j && s.tickets[p].agent == s.tickets[j].agent
      && forall i :: p < i < j ==> s.tickets[i].agent != s.tickets[j].agent
  }

  /** An entry of the map is the agent's newest call; without an entry every call of the agent has left. */
  ghost predicate TailCurrent(s: Locks) {
    && (forall a :: a in s.tail ==>
          s.tail[a] < |s.tickets| && s.tickets[s.tail[a]].agent == a
          && forall i :: s.tail[a] < i < |s.tickets| ==> s.tickets[i].agent != a)
    && (forall i :: 0 <= i < |s.tickets| && s.tickets[i].agent !in s.tail ==> s.tickets[i].phase.Left?)
  }

  ghost predicate Inv(s: Locks) {
    && (forall j :: 0 <= j < |s.tickets| ==> LinkedAt(s, j))
    && TailCurrent(s)
    && InCallOrder(s)
  }

  /** The recursive test along the chain says exactly that every call of the agent up to i has left. */
  lemma {:induction false} SettledMeansAllLeft(s: Locks, i: nat)
    requires i < |s.tickets|
    requires forall j :: 0 <= j < |s.tickets| ==> LinkedAt(s, j)
    ensures Settled(s, i) <==> AllLeftBelow(s, s.tickets[i].agent, i + 1)
  {
    assert LinkedAt(s, i);
    var agent := s.tickets[i].agent;
    match s.tickets[i].previous
    case None =>
    case Some(p) =>
      SettledMeansAllLeft(s, p);
      assert AllLeftBelow(s, agent, p + 1) && s.tickets[i].phase.Left? ==> AllLeftBelow(s, agent, i + 1);
      assert AllLeftBelow(s, agent, i + 1) ==> AllLeftBelow(s, agent, p + 1);
  }

  lemma PredecessorSettledMeansAllLeft(s: Locks, i: nat)
    requires i < |s.tickets|
    requires forall j :: 0 <= j < |s.tickets| ==> LinkedAt(s, j)
    ensures PredecessorSettled(s, i) <==> AllLeftBelow(s, s.tickets[i].agent, i)
  {
    assert LinkedAt(s, i);
    if s.tickets[i].previous.Some? {
      SettledMeansAllLeft(s, s.tickets[i].previous.value);
    }
  }

  lemma InvImpliesExclusion(s: Locks)
    requires InCallOrder(s)
    ensures Exclusion(s)
  {
  }

  /** Every safe step keeps the invariant, whoever takes it and in whatever order. */
  lemma StepKeepsInv(s: Locks, e: Event)
    requires Inv(s) && Enabled(s, e) && Safe(s, e)
    ensures Inv(Step(s, e))
  {
    match e
    case Call(agent, _) => CallKeepsInv(s, e);
    case Enter(i) =>
      PredecessorSettledMeansAllLeft(s, i);
      PhaseChangeKeepsInv(s, i, Inside, s.tail);
    case Exit(i) =>
      ReleaseKeepsInv(s, i, true);
    case Abandon(i) =>
      PredecessorSettledMeansAllLeft(s, i);
      ReleaseKeepsInv(s, i, false);
  }

  lemma CallKeepsInv(s: Locks, e: Event)
    requires Inv(s) && e.Call?
    ensures Inv(Step(s, e))
  {
    var s' := Step(s, e);
    var n := |s.tickets|;
    forall j | 0 <= j < n + 1 ensures LinkedAt(s', j) {
      if j < n {
        assert LinkedAt(s, j);
        assert s'.tickets[j] == s.tickets[j];
      }
    }
    assert TailCurrent(s');
    assert InCallOrder(s');
  }

  /** A phase change to Inside or Left disturbs nothing that earlier links rely on. */
  lemma PhaseChangeKeepsInv(s: Locks, i: nat, phase: Phase, tail': map<AgentId, nat>)
    requires Inv(s) && i < |s.tickets| && !s.tickets[i].phase.Left?
    requires phase.Inside? || phase.Left?
    requires phase.Inside? || phase == Left(true) ==> AllLeftBelow(s, s.tickets[i].agent, i)
    requires TailCurrent(WithPhase(s, i, phase).(tail := tail'))
    ensures Inv(WithPhase(s, i, phase).(tail := tail'))
  {
    var s' := WithPhase(s, i, phase).(tail := tail');
    forall j | 0 <= j < |s'.tickets| ensures LinkedAt(s', j) {
      assert LinkedAt(s, j);
      assert s'.tickets[j].previous == s.tickets[j].previous && s'.tickets[j].agent == s.tickets[j].agent;
      assert forall k :: 0 <= k < |s.tickets| ==> s'.tickets[k].agent == s.tickets[k].agent;
      if s.tickets[j].previous.None? {
        assert AllLeftBelow(s', s.tickets[j].agent, j) by {
          assert AllLeftBelow(s, s.tickets[j].agent, j);
        }
      }
    }
    assert InCallOrder(s') by {
      forall a, b | 0 <= a < b < |s'.tickets| && s'.tickets[a].agent == s'.tickets[b].agent && Entered(s'.tickets[b])
        ensures s'.tickets[a].phase.Left?
      {
        if b == i {
          assert s.tickets[a].phase.Left?;
        } else {
          assert Entered(s.tickets[b]);
          assert s.tickets[a].phase.Left?;
        }
      }
    }
  }

  lemma ReleaseKeepsInv(s: Locks, i: nat, entered: bool)
    requires Inv(s) && i < |s.tickets| && !s.tickets[i].phase.Left?
    requires entered ==> s.tickets[i].phase.Inside?
    requires !entered ==>
      Previous(s, s.tickets[i].agent) != Some(i) || AllLeftBelow(s, s.tickets[i].agent, i)
    ensures Inv(Release(s, i, entered))
  {
    var agent := s.tickets[i].agent;
    var s' := Release(s, i, entered);
    assert entered ==> AllLeftBelow(s, agent, i) by {
      assert entered ==> Entered(s.tickets[i]);
    }
    assert TailCurrent(s') by {
      if Previous(s, agent) == Some(i) {
        assert AllLeftBelow(s, agent, i);
        forall j | 0 <= j < |s'.tickets| && s'.tickets[j].agent !in s'.tail ensures s'.tickets[j].phase.Left? {
          if j != i && s.tickets[j].agent == agent {
            assert j < i;
          }
        }
      }
    }
    PhaseChangeKeepsInv(s, i, Left(entered), s'.tail);
  }

  // ---------------------------------------------------------------------------------------------- whole runs

  /** A run: every event is enabled where it happens. */
  predicate Legal(s: Locks, es: seq<Event>)
    decreases |es|
  {
    es == [] || (Enabled(s, es[0]) && Legal(Step(s, es[0]), es[1..]))
  }

  /** A run in which no waiter that is the newest link gives up before its predecessors are gone. */
  predicate SafeRun(s: Locks, es: seq<Event>)
    requires Legal(s, es)
    decreases |es|
  {
    es == [] || (Safe(s, es[0]) && SafeRun(Step(s, es[0]), es[1..]))
  }

  function Final(s: Locks, es: seq<Event>): Locks
    requires Legal(s, es)
    decreases |es|
  {
    if es == [] then s else Final(Step(s, es[0]), es[1..])
  }

  /** Over every safe interleaving, at most one call of an agent is inside and sections are entered in call order. */
  lemma {:induction false} SafeRunsExclude(s: Locks, es: seq<Event>)
    requires Inv(s) && Legal(s, es) && SafeRun(s, es)
    ensures Inv(Final(s, es))
    ensures Exclusion(Final(s, es)) && InCallOrder(Final(s, es))
    decreases |es|
  {
    if es == [] {
      InvImpliesExclusion(s);
    } else {
      StepKeepsInv(s, es[0]);
      SafeRunsExclude(Step(s, es[0]), es[1..]);
    }
  }

  lemma FreshLocksExclude(es: seq<Event>)
    requires Legal(EMPTY, es) && SafeRun(EMPTY, es)
    ensures Exclusion(Final(EMPTY, es)) && InCallOrder(Final(EMPTY, es))
  {
    SafeRunsExclude(EMPTY, es);
  }

  /** The first call of the agent that has not left; its predecessors are all gone. */
  lemma FirstRemaining(s: Locks, agent: AgentId, k: nat) returns (h: nat)
    requires Inv(s) && k <= |s.tickets| && !AllLeftBelow(s, agent, k)
    ensures h < k && s.tickets[h].agent == agent && !s.tickets[h].phase.Left?
    ensures AllLeftBelow(s, agent, h)
  {
    h := 0;
    while s.tickets[h].agent != agent || s.tickets[h].phase.Left?
      invariant h < k && AllLeftBelow(s, agent, h)
      invariant exists i :: h <= i < k && s.tickets[i].agent == agent && !s.tickets[i].phase.Left?
      decreases k - h
    {
      h := h + 1;
    }
  }

  /** From this state some run of safe events puts two calls of one agent inside together. */
  ghost predicate CanOverlap(s: Locks) {
    exists es: seq<Event> :: Legal(s, es) && SafeRun(s, es) && !Exclusion(Final(s, es))
  }

  /**
   Giving up the tail before its predecessor has settled deletes the entry under the holder: the next call of the
   agent finds no predecessor and walks in.
   */
  lemma UnsafeAbandonOverlaps(s: Locks, i: nat)
    requires Inv(s) && Enabled(s, Abandon(i)) && !Safe(s, Abandon(i))
    ensures CanOverlap(Step(s, Abandon(i)))
  {
    var agent := s.tickets[i].agent;
    PredecessorSettledMeansAllLeft(s, i);
    var h := FirstRemaining(s, agent, i);
    PredecessorSettledMeansAllLeft(s, h);
    var s1 := Step(s, Abandon(i));
    assert agent !in s1.tail;
    UnchangedBelow(s, s1, h);
    assert s1.tickets[h] == s.tickets[h];
    var rest := [Call(agent, false), Enter(|s.tickets|)];
    if s.tickets[h].phase.Inside? {
      OverlapAfter(s1, agent, h);
      assert Legal(s1, rest) && SafeRun(s1, rest) && !Exclusion(Final(s1, rest));
    } else {
      var s2 := Step(s1, Enter(h));
      OverlapAfter(s2, agent, h);
      var es := [Enter(h)] + rest;
      assert es[1..] == rest;
      assert Legal(s1, es) && SafeRun(s1, es) && !Exclusion(Final(s1, es));
    }
  }

  /** PredecessorSettled looks only at tickets below h. */
  lemma {:induction false} UnchangedBelow(s: Locks, t: Locks, h: nat)
    requires h < |s.tickets| == |t.tickets|
    requires forall k | 0 <= k < h ::
      s.tickets[k].previous == t.tickets[k].previous && (s.tickets[k].phase.Left? ==> t.tickets[k].phase.Left?)
    requires s.tickets[h].previous == t.tickets[h].previous
    requires PredecessorSettled(s, h)
    ensures PredecessorSettled(t, h)
  {
    var p := s.tickets[h].previous;
    if p.Some? && p.value < h {
      UnchangedBelow(s, t, p.value);
    }
  }

  lemma OverlapAfter(s: Locks, agent: AgentId, h: nat)
    requires h < |s.tickets| && s.tickets[h].agent == agent && s.tickets[h].phase.Inside? && agent !in s.tail
    ensures var es := [Call(agent, false), Enter(|s.tickets|)];
            Legal(s, es) && SafeRun(s, es) && !Exclusion(Final(s, es))
  {
    var n := |s.tickets|;
    var e0, e1 := Call(agent, false), Enter(n);
    var es := [e0, e1];
    var s1 := Step(s, e0);
    assert es[1..] == [e1];
    assert PredecessorSettled(s1, n);
    var s2 := Step(s1, e1);
    assert [e1][1..] == [];
    assert Legal(s2, []) && Final(s2, []) == s2;
    assert Legal(s1, [e1]) && SafeRun(s1, [e1]) && Final(s1, [e1]) == s2;
    assert Final(s, es) == s2;
    assert s2.tickets[h].phase.Inside? && s2.tickets[n].phase.Inside? && s2.tickets[n].agent == agent;
  }

  /** A holder, and behind it a launch that is about to run out of time. */
  function Holding(agent: AgentId): Locks {
    Locks([Ticket(agent, None, false, Inside), Ticket(agent, Some(0), true, Waiting)], map[agent := 1])
  }

  lemma {:induction false} LegalThen(s: Locks, es: seq<Event>, e: Event)
    requires Legal(s, es) && Enabled(Final(s, es), e)
    ensures Legal(s, es + [e]) && Final(s, es + [e]) == Step(Final(s, es), e)
    decreases |es|
  {
    if es == [] {
      assert [e][1..] == [] && es + [e] == [e];
    } else {
      assert (es + [e])[1..] == es[1..] + [e];
      LegalThen(Step(s, es[0]), es[1..], e);
    }
  }

  lemma HoldingReached(agent: AgentId)
    ensures var es := [Call(agent, false), Enter(0), Call(agent, true)];
            Legal(EMPTY, es) && Final(EMPTY, es) == Holding(agent) && Inv(Holding(agent))
  {
    var one := [Call(agent, false)];
    var s1 := Locks([Ticket(agent, None, false, Waiting)], map[agent := 0]);
    assert [] + one == one;
    LegalThen(EMPTY, [], one[0]);
    assert Final(EMPTY, one) == s1 && PredecessorSettled(s1, 0);
    LegalThen(EMPTY, one, Enter(0));
    var s2 := Locks([Ticket(agent, None, false, Inside)], map[agent := 0]);
    assert one + [Enter(0)] == [Call(agent, false), Enter(0)] && Step(s1, Enter(0)) == s2;
    LegalThen(EMPTY, [Call(agent, false), Enter(0)], Call(agent, true));
    assert [Call(agent, false), Enter(0)] + [Call(agent, true)] == [Call(agent, false), Enter(0), Call(agent, true)];
    assert Step(s2, Call(agent, true)) == Holding(agent);
  }

  /**
   The shortest run from a service that has just started: one call is inside, a launch waits behind it and gives up,
   and then some continuation puts two calls inside together.
   */
  lemma OverlapIsReachable(agent: AgentId)
    ensures var es := [Call(agent, false), Enter(0), Call(agent, true), Abandon(1)];
            Legal(EMPTY, es) && !Safe(Holding(agent), es[3]) && CanOverlap(Final(EMPTY, es))
  {
    var before := [Call(agent, false), Enter(0), Call(agent, true)];
    HoldingReached(agent);
    assert !Settled(Holding(agent), 0);
    assert !PredecessorSettled(Holding(agent), 1);
    LegalThen(EMPTY, before, Abandon(1));
    assert before + [Abandon(1)] == [Call(agent, false), Enter(0), Call(agent, true), Abandon(1)];
    UnsafeAbandonOverlaps(Holding(agent), 1);
  }

  /**
   The exact condition. From any state the protocol reaches safely, a waiter's giving up is harmless for every
   continuation if and only if it is not the newest link or its predecessors are already gone.
   */
  lemma AbandonSafeExactly(s: Locks, i: nat)
    requires Inv(s) && Enabled(s, Abandon(i))
    ensures Safe(s, Abandon(i)) <==> !CanOverlap(Step(s, Abandon(i)))
  {
    var s1 := Step(s, Abandon(i));
    if Safe(s, Abandon(i)) {
      StepKeepsInv(s, Abandon(i));
      forall es | Legal(s1, es) && SafeRun(s1, es) ensures Exclusion(Final(s1, es)) {
        SafeRunsExclude(s1, es);
      }
    } else {
      UnsafeAbandonOverlaps(s, i);
    }
  }

  // --------------------------------------------------------------------------------- the lock as the source keeps it

  /** `agentLocks` and the promises it holds, updated in place by the two synchronous halves of `withAgentLock`. */
  class PromiseLocks {
    var tickets: seq<Ticket>
    var agentLocks: map<AgentId, nat>

    ghost function State(): Locks
      reads this
    {
      Locks(tickets, agentLocks)
    }

    constructor ()
      ensures State() == EMPTY
    {
      tickets, agentLocks := [], map[];
    }

    /** The synchronous prefix: read the predecessor, publish the own link. */
    method Register(agent: AgentId, mayAbandon: bool) returns (ticket: nat)
      modifies this
      ensures ticket == old(|tickets|)
      ensures State() == Step(old(State()), Call(agent, mayAbandon))
    {
      ticket := |tickets|;
      var previous := if agent in agentLocks then Some(agentLocks[agent]) else None;
      tickets := tickets + [Ticket(agent, previous, mayAbandon, Waiting)];
      agentLocks := agentLocks[agent := ticket];
    }

    /** The continuation of the wait, once the predecessor has settled. */
    method Proceed(ticket: nat)
      requires Enabled(State(), Enter(ticket))
      modifies `tickets
      ensures State() == Step(old(State()), Enter(ticket))
    {
      tickets := tickets[ticket := tickets[ticket].(phase := Inside)];
    }

    /** The `finally` block, reached after the section or on giving up the wait. */
    method Leave(ticket: nat)
      requires Enabled(State(), Exit(ticket)) || Enabled(State(), Abandon(ticket))
      modifies this
      ensures var e := if old(tickets[ticket].phase.Inside?) then Exit(ticket) else Abandon(ticket);
              State() == Step(old(State()), e)
    {
      var t := tickets[ticket];
      tickets := tickets[ticket := t.(phase := Left(t.phase.Inside?))];
      if t.agent in agentLocks && agentLocks[t.agent] == ticket {
        agentLocks := agentLocks - {t.agent};
      }
    }
  }
}
