/**
 Managed launches, stops and cleanups of the runner service as interleaved calls over one Docker host.

 Every call takes the agent's lock (module AgentLock). A launch carries a token that a stop or cleanup marks as
 cancelled, or that its deadline marks as timed out; it looks at the token before and after every Docker command.
 A Docker command either succeeds, or fails with or without its effect; either way the effect is settled before
 the call goes on. Nothing else changes containers that carry an agent label.
 */
module LaunchProtocol {
  import opened Options
  import L = AgentLock

  type AgentId = L.AgentId
  type ContainerId = string

  datatype Status = Created | Running | Restarting | Paused | Exited | Dead | Removing | Unknown

  predicate IsActive(status: Status) { status.Running? || status.Restarting? }

  datatype Container = Container(agent: AgentId, status: Status)

  type Docker = map<ContainerId, Container>

  datatype Reason = Cancelled | Timeout

  datatype Kind = Launch | Stop | Cleanup

  /** A container a launch has yet to remove, and whether it was listed as running or restarting. */
  datatype Surplus = Surplus(id: ContainerId, stopFirst: bool)

  /** Where a call is. The last four are the ways a call can end. */
  datatype Work =
    | Queued
    | Projecting
    | Resolving
    | Listing
    | Clearing(surplus: seq<Surplus>, keep: Option<ContainerId>)
    | Creating
    | Inspecting(created: ContainerId)
    | Selected(selected: ContainerId)
    | Unwinding(known: Option<ContainerId>)
    | StopListing
    | Stopping(running: set<ContainerId>)
    | StopReport
    | CleanupListing
    | Deleting(doomed: set<ContainerId>)
    | Accepted(container: ContainerId)
    | Succeeded
    | Failed

  predicate Finished(w: Work) { w.Accepted? || w.Succeeded? || w.Failed? }

  predicate WorkOf(kind: Kind, w: Work) {
    match kind
    case Launch =>
      w.Queued? || w.Projecting? || w.Resolving? || w.Listing? || w.Clearing? || w.Creating? || w.Inspecting?
      || w.Selected? || w.Unwinding? || w.Accepted? || w.Failed?
    case Stop => w.Queued? || w.StopListing? || w.Stopping? || w.StopReport? || w.Succeeded? || w.Failed?
    case Cleanup => w.Queued? || w.CleanupListing? || w.Deleting? || w.Succeeded? || w.Failed?
  }

  /** `reason` is the token's terminal reason; a stop or cleanup has no token and keeps None. */
  datatype Call = Call(kind: Kind, reason: Option<Reason>, work: Work)

  /** `issued` remembers which agent every container id was ever created for: Docker never reuses an id. */
  datatype Service = Service(locks: L.Locks, calls: seq<Call>, docker: Docker, issued: map<ContainerId, AgentId>)

  /** What Docker or the scheduler decides: a listing order and the reusable container, a fresh id, an order of work. */
  datatype Choice =
    | Go
    | Found(order: seq<ContainerId>, winner: Option<ContainerId>)
    | Fresh(id: ContainerId, status: Status)
    | Pick(id: ContainerId)

  datatype Event =
    | NewCall(agent: AgentId, kind: Kind)
    | Enter(call: nat)
    | Expire(call: nat)
    | Abandon(call: nat)
    | Work(call: nat, choice: Choice)
    | Fault(call: nat, choice: Choice, took: bool)
    | Terminate(call: nat)
    | Leave(call: nat)

  // --------------------------------------------------------------------------------------------- Docker commands

  /** The containers that carry the agent's label, with their status. */
  function Labelled(d: Docker, agent: AgentId): map<ContainerId, Status> {
    map id | id in d && d[id].agent == agent :: d[id].status
  }

  ghost predicate NoneActive(d: Docker, agent: AgentId) {
    forall id :: id in d && d[id].agent == agent ==> !d[id].status.Running? && !d[id].status.Restarting?
  }

  function DockerStop(d: Docker, id: ContainerId): Docker {
    if id in d then d[id := d[id].(status := Exited)] else d
  }

  function DockerRemove(d: Docker, id: ContainerId): Docker {
    d - {id}
  }

  // ------------------------------------------------------------------------------------- one call, inside its section

  datatype Local = Local(docker: Docker, issued: map<ContainerId, AgentId>, work: Work)

  function Start(kind: Kind): Work {
    match kind
    case Launch => Projecting
    case Stop => StopListing
    case Cleanup => CleanupListing
  }

  predicate NoDuplicates(ids: seq<ContainerId>) {
    forall i, j :: 0 <= i < j < |ids| ==> ids[i] != ids[j]
  }

  function Without(ids: seq<ContainerId>, keep: Option<ContainerId>): seq<ContainerId> {
    if ids == [] then []
    else if keep == Some(ids[0]) then Without(ids[1..], keep)
    else [ids[0]] + Without(ids[1..], keep)
  }

  function SurplusOf(ids: seq<ContainerId>, d: Docker): seq<Surplus> {
    seq(|ids|, i requires 0 <= i < |ids| => Surplus(ids[i], ids[i] in d && IsActive(d[ids[i]].status)))
  }

  /** The next step of a call when its command succeeds; None when the choice does not fit. */
  function Advance(l: Local, agent: AgentId, c: Choice): Option<Local> {
    match l.work
    case Projecting => Some(l.(work := Resolving))
    case Resolving => Some(l.(work := Listing))
    case Listing =>
      var here := Labelled(l.docker, agent);
      if c.Found? && NoDuplicates(c.order) && (set id | id in c.order) == here.Keys
         && (c.winner.Some? ==> c.winner.value in here && here[c.winner.value].Running?)
      then Some(l.(work := Clearing(SurplusOf(Without(c.order, c.winner), l.docker), c.winner)))
      else None
    case Clearing(surplus, keep) =>
      if surplus == [] then
        Some(l.(work := if keep.Some? then Selected(keep.value) else Creating))
      else if surplus[0].stopFirst then
        Some(l.(docker := DockerStop(l.docker, surplus[0].id),
                work := Clearing([Surplus(surplus[0].id, false)] + surplus[1..], keep)))
      else
        Some(l.(docker := DockerRemove(l.docker, surplus[0].id), work := Clearing(surplus[1..], keep)))
    case Creating =>
      if c.Fresh? && c.id !in l.issued then
        Some(Local(l.docker[c.id := Container(agent, c.status)], l.issued[c.id := agent], Inspecting(c.id)))
      else None
    case Inspecting(id) => Some(l.(work := Selected(id)))
    case Selected(id) => Some(l.(work := Accepted(id)))
    case Unwinding(known) =>
      Some(l.(docker := if known.Some? then DockerRemove(l.docker, known.value) else l.docker, work := Failed))
    case StopListing =>
      var active := set id | id in l.docker && l.docker[id].agent == agent && IsActive(l.docker[id].status);
      Some(l.(work := Stopping(active)))
    case Stopping(running) =>
      if running == {} then Some(l.(work := StopReport))
      else if c.Pick? && c.id in running then
        Some(l.(docker := DockerStop(l.docker, c.id), work := Stopping(running - {c.id})))
      else None
    case StopReport => Some(l.(work := Succeeded))
    case CleanupListing => Some(l.(work := Deleting(Labelled(l.docker, agent).Keys)))
    case Deleting(doomed) =>
      if doomed == {} then Some(l.(work := Succeeded))
      else if c.Pick? && c.id in doomed then
        Some(l.(docker := DockerRemove(l.docker, c.id), work := Deleting(doomed - {c.id})))
      else None
    case _ => None
  }

  /** The container a launch would remove on failing here: the one it created or was about to create. */
  function KnownCreated(before: Work, after: Work): Option<ContainerId> {
    if before.Inspecting? then Some(before.created)
    else if after.Inspecting? then Some(after.created)
    else None
  }

  /** A failing command: its effect on Docker may have taken place, and the call starts to unwind. */
  function Interrupted(l: Local, agent: AgentId, kind: Kind, c: Choice, took: bool): Option<Local> {
    var next := Advance(l, agent, c);
    if next.None? then None
    else
      var reached := if took then next.value else l.(issued := next.value.issued);
      Some(reached.(work := if kind.Launch? && !l.work.Unwinding? then Unwinding(KnownCreated(l.work, next.value.work))
                            else Failed))
  }

  // ----------------------------------------------------------------------------------------------- the whole service

  /** The synchronous start of a stop or cleanup marks every launch of the agent that has not left yet. */
  function MarkCancelled(s: Service, agent: AgentId): seq<Call>
    requires |s.calls| == |s.locks.tickets|
  {
    seq(|s.calls|, i requires 0 <= i < |s.calls| =>
      if s.calls[i].kind.Launch? && s.locks.tickets[i].agent == agent && !s.locks.tickets[i].phase.Left?
      then s.calls[i].(reason := Some(Cancelled))
      else s.calls[i])
  }

  function LockEvent(s: Service, e: Event): Option<L.Event> {
    match e
    case NewCall(agent, kind) => Some(L.Call(agent, kind.Launch?))
    case Enter(i) => Some(L.Enter(i))
    case Abandon(i) => Some(L.Abandon(i))
    case Leave(i) => Some(L.Exit(i))
    case _ => None
  }

  predicate Inside(s: Service, i: nat)
    requires |s.calls| == |s.locks.tickets|
  {
    i < |s.calls| && s.locks.tickets[i].phase.Inside?
  }

  function LocalOf(s: Service, i: nat): Local
    requires i < |s.calls|
  {
    Local(s.docker, s.issued, s.calls[i].work)
  }

  function Put(s: Service, i: nat, l: Local): Service
    requires i < |s.calls|
  {
    s.(docker := l.docker, issued := l.issued, calls := s.calls[i := s.calls[i].(work := l.work)])
  }

  function SetWork(s: Service, i: nat, w: Work): Service
    requires i < |s.calls|
  {
    s.(calls := s.calls[i := s.calls[i].(work := w)])
  }

  function Step(s: Service, e: Event): (r: Option<Service>)
    requires |s.calls| == |s.locks.tickets|
    ensures r.Some? ==> |r.value.calls| == |r.value.locks.tickets|
  {
    var le := LockEvent(s, e);
    if le.Some? && !L.Enabled(s.locks, le.value) then None
    else
      var locks := if le.Some? then L.Step(s.locks, le.value) else s.locks;
      match e
      case NewCall(agent, kind) =>
        var calls := if kind.Launch? then s.calls else MarkCancelled(s, agent);
        Some(s.(locks := locks, calls := calls + [Call(kind, None, Queued)]))
      case Enter(i) =>
        if s.calls[i].reason.Some? then None
        else Some(SetWork(s.(locks := locks), i, Start(s.calls[i].kind)))
      case Expire(i) =>
        if i < |s.calls| && s.calls[i].kind.Launch? && !s.locks.tickets[i].phase.Left?
        then Some(s.(calls := s.calls[i := s.calls[i].(reason := Some(Timeout))]))
        else None
      case Abandon(i) =>
        if s.calls[i].reason == Some(Timeout) || (s.calls[i].reason.Some? && L.PredecessorSettled(s.locks, i))
        then Some(SetWork(s.(locks := locks), i, Failed))
        else None
      case Work(i, c) =>
        if Inside(s, i) && (s.calls[i].work.Unwinding? || s.calls[i].reason.None?) then
          var l := Advance(LocalOf(s, i), s.locks.tickets[i].agent, c);
          if l.Some? then Some(Put(s, i, l.value)) else None
        else None
      case Fault(i, c, took) =>
        if Inside(s, i) && !s.calls[i].work.Selected? then
          var l := Interrupted(LocalOf(s, i), s.locks.tickets[i].agent, s.calls[i].kind, c, took);
          if l.Some? then Some(Put(s, i, l.value)) else None
        else None
      case Terminate(i) =>
        if Inside(s, i) && s.calls[i].reason.Some? && !Finished(s.calls[i].work) && !s.calls[i].work.Unwinding? then
          Some(SetWork(s, i, Unwinding(KnownCreated(s.calls[i].work, s.calls[i].work))))
        else None
      case Leave(i) =>
        if Finished(s.calls[i].work) then Some(s.(locks := locks)) else None
  }

  const EMPTY: Service := Service(L.EMPTY, [], map[], map[])

  // ---------------------------------------------------------------------------------------------------- invariants

  ghost predicate Consistent(d: Docker, issued: map<ContainerId, AgentId>) {
    forall id :: id in d ==> id in issued && issued[id] == d[id].agent
  }

  function Issued(issued: map<ContainerId, AgentId>, agent: AgentId): set<ContainerId> {
    set id | id in issued && issued[id] == agent
  }

  function Ids(surplus: seq<Surplus>): seq<ContainerId> {
    seq(|surplus|, i requires 0 <= i < |surplus| => surplus[i].id)
  }

  function Kept(keep: Option<ContainerId>): set<ContainerId> {
    if keep.Some? then {keep.value} else {}
  }

  predicate BusyIn(here: map<ContainerId, Status>, id: ContainerId) {
    id in here && (here[id].Running? || here[id].Restarting?)
  }

  /**
   What a call inside its section relies on about its own agent's containers (`here`): a launch that is clearing
   still has exactly the listed surplus and the kept one before it, which runs; one that goes on has exactly its own; a
   stop knows exactly the active containers, and at its report there is none.
   */
  ghost predicate WorkInv(here: map<ContainerId, Status>, mine: set<ContainerId>, kind: Kind, w: Work) {
    match w
    case Clearing(surplus, keep) =>
      && NoDuplicates(Ids(surplus))
      && (keep.Some? ==> keep.value !in Ids(surplus))
      && here.Keys == (set id | id in Ids(surplus)) + Kept(keep)
      && (keep.Some? ==> keep.value in here && here[keep.value].Running?)
      && forall s :: s in surplus && s.stopFirst ==> BusyIn(here, s.id)
    case Creating => here == map[]
    case Inspecting(id) => here.Keys == {id}
    case Selected(id) => here.Keys == {id}
    case Accepted(id) => here.Keys == {id}
    case Unwinding(known) => Kept(known) <= mine
    case Stopping(running) => running <= mine && forall id :: id in running <==> BusyIn(here, id)
    case StopReport => forall id :: !BusyIn(here, id)
    case Deleting(doomed) => here.Keys <= doomed <= mine
    case Succeeded =>
      && (kind.Stop? ==> forall id :: !BusyIn(here, id))
      && (kind.Cleanup? ==> here == map[])
    case _ => true
  }

  /** The lock's view of a call and the call's own program counter agree. */
  ghost predicate InStep(t: L.Ticket, c: Call) {
    && WorkOf(c.kind, c.work)
    && t.mayAbandon == c.kind.Launch?
    && (t.phase.Waiting? <==> c.work.Queued?)
    && (t.phase.Left? ==> c.work.Accepted? || c.work.Succeeded? || c.work.Failed?)
    && (c.reason.Some? ==> c.kind.Launch?)
  }

  ghost predicate Inv(s: Service) {
    && |s.calls| == |s.locks.tickets|
    && L.Inv(s.locks)
    && Consistent(s.docker, s.issued)
    && (forall i :: 0 <= i < |s.calls| ==> InStep(s.locks.tickets[i], s.calls[i]))
    && (forall i :: 0 <= i < |s.calls| && s.locks.tickets[i].phase.Inside? ==> CallInv(s, i))
  }

  ghost predicate CallInv(s: Service, i: nat)
    requires i < |s.calls| == |s.locks.tickets|
  {
    var agent := s.locks.tickets[i].agent;
    WorkInv(Labelled(s.docker, agent), Issued(s.issued, agent), s.calls[i].kind, s.calls[i].work)
  }

  // -------------------------------------------------------------------------------------- one call alone: local steps

  lemma {:induction false} WithoutProperties(ids: seq<ContainerId>, keep: Option<ContainerId>)
    requires NoDuplicates(ids)
    ensures NoDuplicates(Without(ids, keep))
    ensures forall id :: id in Without(ids, keep) <==> id in ids && keep != Some(id)
  {
    if ids != [] {
      WithoutProperties(ids[1..], keep);
      assert ids == [ids[0]] + ids[1..];
      assert ids[0] !in ids[1..];
    }
  }

  /** What a local step may do to the world: only containers of its own agent, only ids of its own agent. */
  ghost predicate OwnAgentOnly(l: Local, l': Local, agent: AgentId) {
    && Consistent(l'.docker, l'.issued)
    && (forall other :: other != agent ==> Labelled(l'.docker, other) == Labelled(l.docker, other))
    && (forall other :: other != agent ==> Issued(l'.issued, other) == Issued(l.issued, other))
  }

  lemma LabelledIsIssued(l: Local, agent: AgentId)
    requires Consistent(l.docker, l.issued)
    ensures Labelled(l.docker, agent).Keys <= Issued(l.issued, agent)
  {
  }

  lemma StopOwn(l: Local, agent: AgentId, id: ContainerId)
    requires Consistent(l.docker, l.issued) && id in Issued(l.issued, agent)
    ensures var d := DockerStop(l.docker, id);
            && OwnAgentOnly(l, l.(docker := d), agent)
            && Labelled(d, agent).Keys == Labelled(l.docker, agent).Keys
            && forall k :: k in Labelled(d, agent) ==>
                 Labelled(d, agent)[k] == if k == id then Exited else Labelled(l.docker, agent)[k]
  {
    var d := DockerStop(l.docker, id);
    forall other | other != agent ensures Labelled(d, other) == Labelled(l.docker, other) {}
  }

  lemma RemoveOwn(l: Local, agent: AgentId, id: ContainerId)
    requires Consistent(l.docker, l.issued) && id in Issued(l.issued, agent)
    ensures OwnAgentOnly(l, l.(docker := DockerRemove(l.docker, id)), agent)
    ensures Labelled(DockerRemove(l.docker, id), agent) == Labelled(l.docker, agent) - {id}
  {
    var d := DockerRemove(l.docker, id);
    forall other | other != agent ensures Labelled(d, other) == Labelled(l.docker, other) {}
  }

  lemma CreateOwn(l: Local, agent: AgentId, id: ContainerId, status: Status)
    requires Consistent(l.docker, l.issued) && id !in l.issued
    ensures var l' := l.(docker := l.docker[id := Container(agent, status)], issued := l.issued[id := agent]);
            && OwnAgentOnly(l, l', agent)
            && Labelled(l'.docker, agent) == Labelled(l.docker, agent)[id := status]
            && Issued(l'.issued, agent) == Issued(l.issued, agent) + {id}
  {
    var l' := l.(docker := l.docker[id := Container(agent, status)], issued := l.issued[id := agent]);
    forall other | other != agent
      ensures Labelled(l'.docker, other) == Labelled(l.docker, other)
      ensures Issued(l'.issued, other) == Issued(l.issued, other)
    {}
  }

  ghost predicate LocalInv(l: Local, agent: AgentId, kind: Kind) {
    && Consistent(l.docker, l.issued)
    && WorkOf(kind, l.work)
    && WorkInv(Labelled(l.docker, agent), Issued(l.issued, agent), kind, l.work)
  }

  lemma ListingKeeps(l: Local, agent: AgentId, c: Choice)
    requires LocalInv(l, agent, Launch) && l.work.Listing? && Advance(l, agent, c).Some?
    ensures LocalInv(Advance(l, agent, c).value, agent, Launch)
  {
    var w := Advance(l, agent, c).value.work;
    WithoutProperties(c.order, c.winner);
    var ids := Without(c.order, c.winner);
    assert Ids(w.surplus) == ids;
    assert (set id | id in ids) + Kept(c.winner) == Labelled(l.docker, agent).Keys;
  }

  lemma LaterIdsDiffer(surplus: seq<Surplus>)
    requires surplus != [] && NoDuplicates(Ids(surplus))
    ensures forall s :: s in surplus[1..] ==> s in surplus && s.id != surplus[0].id
  {
    forall s | s in surplus[1..] ensures s in surplus && s.id != surplus[0].id {
      var k :| 1 <= k < |surplus| && surplus[k] == s;
      assert Ids(surplus)[0] != Ids(surplus)[k];
    }
  }

  lemma ClearingStops(l: Local, agent: AgentId, c: Choice)
    requires LocalInv(l, agent, Launch) && l.work.Clearing?
    requires l.work.surplus != [] && l.work.surplus[0].stopFirst
    ensures var l' := Advance(l, agent, c).value;
            LocalInv(l', agent, Launch) && OwnAgentOnly(l, l', agent)
  {
    var surplus := l.work.surplus;
    LabelledIsIssued(l, agent);
    assert Ids(surplus)[0] == surplus[0].id;
    StopOwn(l, agent, surplus[0].id);
    LaterIdsDiffer(surplus);
    assert Ids([Surplus(surplus[0].id, false)] + surplus[1..]) == Ids(surplus);
  }

  lemma ClearingRemoves(l: Local, agent: AgentId, c: Choice)
    requires LocalInv(l, agent, Launch) && l.work.Clearing?
    requires l.work.surplus != [] && !l.work.surplus[0].stopFirst
    ensures var l' := Advance(l, agent, c).value;
            LocalInv(l', agent, Launch) && OwnAgentOnly(l, l', agent)
  {
    var surplus, keep, id := l.work.surplus, l.work.keep, l.work.surplus[0].id;
    LabelledIsIssued(l, agent);
    assert Ids(surplus)[0] == id;
    RemoveOwn(l, agent, id);
    LaterIdsDiffer(surplus);
    assert Ids(surplus[1..]) == Ids(surplus)[1..];
    assert forall k :: k in Ids(surplus) <==> k == id || k in Ids(surplus)[1..];
    assert id !in Ids(surplus)[1..];
  }

  lemma ClearingKeeps(l: Local, agent: AgentId, c: Choice)
    requires LocalInv(l, agent, Launch) && l.work.Clearing?
    ensures var l' := Advance(l, agent, c).value;
            LocalInv(l', agent, Launch) && OwnAgentOnly(l, l', agent)
  {
    if l.work.surplus == [] {
      assert Ids(l.work.surplus) == [];
    } else if l.work.surplus[0].stopFirst {
      ClearingStops(l, agent, c);
    } else {
      ClearingRemoves(l, agent, c);
    }
  }

  lemma StoppingKeeps(l: Local, agent: AgentId, kind: Kind, c: Choice)
    requires LocalInv(l, agent, kind) && l.work.Stopping? && Advance(l, agent, c).Some?
    ensures var l' := Advance(l, agent, c).value;
            LocalInv(l', agent, kind) && OwnAgentOnly(l, l', agent)
  {
    if l.work.running != {} { StopOwn(l, agent, c.id); }
  }

  lemma DeletingKeeps(l: Local, agent: AgentId, kind: Kind, c: Choice)
    requires LocalInv(l, agent, kind) && l.work.Deleting? && Advance(l, agent, c).Some?
    ensures var l' := Advance(l, agent, c).value;
            LocalInv(l', agent, kind) && OwnAgentOnly(l, l', agent)
  {
    LabelledIsIssued(l, agent);
    if l.work.doomed != {} { RemoveOwn(l, agent, c.id); }
  }

  /** A call alone: its next step keeps what it relies on and touches no other agent's containers. */
  lemma AdvanceKeeps(l: Local, agent: AgentId, kind: Kind, c: Choice)
    requires LocalInv(l, agent, kind) && Advance(l, agent, c).Some?
    ensures var l' := Advance(l, agent, c).value;
            LocalInv(l', agent, kind) && OwnAgentOnly(l, l', agent)
  {
    var l' := Advance(l, agent, c).value;
    LabelledIsIssued(l, agent);
    match l.work
    case Listing => ListingKeeps(l, agent, c);
    case Clearing(_, _) => ClearingKeeps(l, agent, c);
    case Creating => CreateOwn(l, agent, c.id, c.status);
    case Unwinding(known) =>
      if known.Some? { RemoveOwn(l, agent, known.value); }
    case Stopping(_) => StoppingKeeps(l, agent, kind, c);
    case Deleting(_) => DeletingKeeps(l, agent, kind, c);
    case _ =>
  }

  lemma InterruptedKeeps(l: Local, agent: AgentId, kind: Kind, c: Choice, took: bool)
    requires LocalInv(l, agent, kind) && Interrupted(l, agent, kind, c, took).Some?
    ensures var l' := Interrupted(l, agent, kind, c, took).value;
            LocalInv(l', agent, kind) && OwnAgentOnly(l, l', agent)
  {
    AdvanceKeeps(l, agent, kind, c);
    LabelledIsIssued(l, agent);
    var next := Advance(l, agent, c).value;
    LabelledIsIssued(next, agent);
    assert l.work.Inspecting? ==> l.work.created in Labelled(l.docker, agent);
    assert next.work.Inspecting? ==> next.work.created in Labelled(next.docker, agent);
    assert Issued(l.issued, agent) <= Issued(next.issued, agent);
  }

  // ------------------------------------------------------------------------------------- every step of the service

  predicate Safe(s: Service, e: Event)
    requires |s.calls| == |s.locks.tickets|
  {
    e.Abandon? ==> L.Safe(s.locks, L.Abandon(e.call))
  }

  lemma PutKeepsInv(s: Service, i: nat, l: Local)
    requires Inv(s) && Inside(s, i)
    requires LocalInv(l, s.locks.tickets[i].agent, s.calls[i].kind) && !l.work.Queued?
    requires OwnAgentOnly(LocalOf(s, i), l, s.locks.tickets[i].agent)
    ensures Inv(Put(s, i, l))
  {
    var s' := Put(s, i, l);
    L.InvImpliesExclusion(s.locks);
    forall j | 0 <= j < |s'.calls| && s'.locks.tickets[j].phase.Inside? ensures CallInv(s', j) {
      if j != i {
        assert CallInv(s, j);
        assert s.locks.tickets[j].agent != s.locks.tickets[i].agent;
      }
    }
  }

  lemma NewCallKeepsInv(s: Service, agent: AgentId, kind: Kind)
    requires Inv(s)
    ensures Inv(Step(s, NewCall(agent, kind)).value)
  {
    var s' := Step(s, NewCall(agent, kind)).value;
    L.StepKeepsInv(s.locks, L.Call(agent, kind.Launch?));
    forall j | 0 <= j < |s'.calls| ensures InStep(s'.locks.tickets[j], s'.calls[j]) {
      if j < |s.calls| {
        assert InStep(s.locks.tickets[j], s.calls[j]);
      }
    }
    forall j | 0 <= j < |s'.calls| && s'.locks.tickets[j].phase.Inside? ensures CallInv(s', j) {
      assert CallInv(s, j);
    }
  }

  /** Entering, giving up and leaving change the lock and one program counter, never Docker. */
  lemma LockStepKeepsInv(s: Service, e: Event)
    requires Inv(s) && Safe(s, e) && Step(s, e).Some?
    requires e.Enter? || e.Abandon? || e.Leave?
    ensures Inv(Step(s, e).value)
  {
    var s' := Step(s, e).value;
    var i := e.call;
    L.StepKeepsInv(s.locks, LockEvent(s, e).value);
    forall j | 0 <= j < |s'.calls| ensures InStep(s'.locks.tickets[j], s'.calls[j]) {
      assert InStep(s.locks.tickets[j], s.calls[j]);
    }
    forall j | 0 <= j < |s'.calls| && s'.locks.tickets[j].phase.Inside? ensures CallInv(s', j) {
      if j != i {
        assert CallInv(s, j);
      }
    }
  }

  lemma ExpireKeepsInv(s: Service, e: Event)
    requires Inv(s) && e.Expire? && Step(s, e).Some?
    ensures Inv(Step(s, e).value)
  {
    var s' := Step(s, e).value;
    forall j | 0 <= j < |s'.calls| ensures InStep(s'.locks.tickets[j], s'.calls[j]) {
      assert InStep(s.locks.tickets[j], s.calls[j]);
    }
    forall j | 0 <= j < |s'.calls| && s'.locks.tickets[j].phase.Inside? ensures CallInv(s', j) {
      assert CallInv(s, j);
    }
  }

  lemma WorkKeepsInv(s: Service, e: Event)
    requires Inv(s) && e.Work? && Step(s, e).Some?
    ensures Inv(Step(s, e).value)
  {
    var i, agent := e.call, s.locks.tickets[e.call].agent;
    assert InStep(s.locks.tickets[i], s.calls[i]) && CallInv(s, i);
    AdvanceKeeps(LocalOf(s, i), agent, s.calls[i].kind, e.choice);
    PutKeepsInv(s, i, Advance(LocalOf(s, i), agent, e.choice).value);
  }

  lemma FaultKeepsInv(s: Service, e: Event)
    requires Inv(s) && e.Fault? && Step(s, e).Some?
    ensures Inv(Step(s, e).value)
  {
    var i, agent, kind := e.call, s.locks.tickets[e.call].agent, s.calls[e.call].kind;
    assert InStep(s.locks.tickets[i], s.calls[i]) && CallInv(s, i);
    InterruptedKeeps(LocalOf(s, i), agent, kind, e.choice, e.took);
    PutKeepsInv(s, i, Interrupted(LocalOf(s, i), agent, kind, e.choice, e.took).value);
  }

  lemma TerminateKeepsInv(s: Service, e: Event)
    requires Inv(s) && e.Terminate? && Step(s, e).Some?
    ensures Inv(Step(s, e).value)
  {
    var i, agent := e.call, s.locks.tickets[e.call].agent;
    assert InStep(s.locks.tickets[i], s.calls[i]) && CallInv(s, i);
    LabelledIsIssued(LocalOf(s, i), agent);
    assert s.calls[i].work.Inspecting? ==> s.calls[i].work.created in Labelled(s.docker, agent);
    PutKeepsInv(s, i, LocalOf(s, i).(work := Step(s, e).value.calls[i].work));
  }

  /** Every step of every call keeps the whole-service invariant, provided no waiter gives up unsafely. */
  lemma StepKeepsInv(s: Service, e: Event)
    requires Inv(s) && Safe(s, e) && Step(s, e).Some?
    ensures Inv(Step(s, e).value)
  {
    match e
    case NewCall(agent, kind) => NewCallKeepsInv(s, agent, kind);
    case Enter(_) => LockStepKeepsInv(s, e);
    case Abandon(_) => LockStepKeepsInv(s, e);
    case Leave(_) => LockStepKeepsInv(s, e);
    case Expire(_) => ExpireKeepsInv(s, e);
    case Work(_, _) => WorkKeepsInv(s, e);
    case Fault(_, _, _) => FaultKeepsInv(s, e);
    case Terminate(_) => TerminateKeepsInv(s, e);
  }

  // ---------------------------------------------------------------------------------------------------- whole runs

  /** The state after a run, or None when some event is not enabled where it happens. */
  function Final(s: Service, es: seq<Event>): (r: Option<Service>)
    requires |s.calls| == |s.locks.tickets|
    ensures r.Some? ==> |r.value.calls| == |r.value.locks.tickets|
    decreases |es|
  {
    if es == [] then Some(s)
    else
      var next := Step(s, es[0]);
      if next.None? then None else Final(next.value, es[1..])
  }

  /** A run in which no waiting launch gives up the newest link before its predecessors are gone. */
  predicate SafeRun(s: Service, es: seq<Event>)
    requires |s.calls| == |s.locks.tickets|
    decreases |es|
  {
    es == [] || (Safe(s, es[0]) && (Step(s, es[0]).None? || SafeRun(Step(s, es[0]).value, es[1..])))
  }

  lemma {:induction false} SafeRunsKeepInv(s: Service, es: seq<Event>)
    requires Inv(s) && Final(s, es).Some? && SafeRun(s, es)
    ensures Inv(Final(s, es).value)
    decreases |es|
  {
    if es != [] {
      StepKeepsInv(s, es[0]);
      SafeRunsKeepInv(Step(s, es[0]).value, es[1..]);
    }
  }

  /** From a fresh service, over every safe interleaving, sections exclude each other and the invariant holds. */
  lemma ReachableStates(es: seq<Event>)
    requires Final(EMPTY, es).Some? && SafeRun(EMPTY, es)
    ensures Inv(Final(EMPTY, es).value) && L.Exclusion(Final(EMPTY, es).value.locks)
  {
    SafeRunsKeepInv(EMPTY, es);
    L.InvImpliesExclusion(Final(EMPTY, es).value.locks);
  }

  // ------------------------------------------------------------------------------------------------- stop dominates

  predicate IsLaunchOf(s: Service, k: nat, agent: AgentId)
    requires |s.calls| == |s.locks.tickets|
  {
    k < |s.calls| && s.calls[k].kind.Launch? && s.locks.tickets[k].agent == agent
  }

  /** Nothing of the agent is running or restarting, and no launch of the agent is inside its section. */
  ghost predicate Quiet(s: Service, agent: AgentId)
    requires |s.calls| == |s.locks.tickets|
  {
    && NoneActive(s.docker, agent)
    && forall k: nat :: IsLaunchOf(s, k, agent) ==> !s.locks.tickets[k].phase.Inside?
  }

  predicate LaunchEnters(s: Service, e: Event, agent: AgentId)
    requires |s.calls| == |s.locks.tickets|
  {
    e.Enter? && IsLaunchOf(s, e.call, agent)
  }

  predicate NoLaunchEnters(s: Service, es: seq<Event>, agent: AgentId)
    requires |s.calls| == |s.locks.tickets|
    decreases |es|
  {
    es == [] || (!LaunchEnters(s, es[0], agent)
                 && (Step(s, es[0]).None? || NoLaunchEnters(Step(s, es[0]).value, es[1..], agent)))
  }

  /** Only a launch inside its section can create an active container. */
  lemma AdvanceStaysQuiet(l: Local, agent: AgentId, kind: Kind, c: Choice)
    requires LocalInv(l, agent, kind) && !kind.Launch? && Advance(l, agent, c).Some?
    requires NoneActive(l.docker, agent)
    ensures NoneActive(Advance(l, agent, c).value.docker, agent)
  {
  }

  lemma OtherAgentStaysQuiet(d: Docker, d': Docker, agent: AgentId)
    requires Labelled(d, agent) == Labelled(d', agent) && NoneActive(d, agent)
    ensures NoneActive(d', agent)
  {
    forall id | id in d' && d'[id].agent == agent ensures !IsActive(d'[id].status) {
      assert id in Labelled(d', agent);
      assert Labelled(d, agent)[id] == d[id].status;
    }
  }

  lemma StepStaysQuiet(s: Service, e: Event, agent: AgentId)
    requires Inv(s) && Safe(s, e) && Step(s, e).Some? && Quiet(s, agent) && !LaunchEnters(s, e, agent)
    ensures Quiet(Step(s, e).value, agent)
  {
    var s' := Step(s, e).value;
    if e.Work? || e.Fault? {
      var i, own := e.call, s.locks.tickets[e.call].agent;
      assert InStep(s.locks.tickets[i], s.calls[i]) && CallInv(s, i);
      var l := LocalOf(s, i);
      AdvanceKeeps(l, own, s.calls[i].kind, e.choice);
      if own == agent {
        assert !IsLaunchOf(s, i, agent);
        AdvanceStaysQuiet(l, own, s.calls[i].kind, e.choice);
      } else {
        if e.Fault? { InterruptedKeeps(l, own, s.calls[i].kind, e.choice, e.took); }
        OtherAgentStaysQuiet(s.docker, s'.docker, agent);
      }
    }
    forall k: nat | IsLaunchOf(s', k, agent) ensures !s'.locks.tickets[k].phase.Inside? {
      if k < |s.calls| {
        assert IsLaunchOf(s, k, agent);
      }
    }
  }

  lemma {:induction false} RunStaysQuiet(s: Service, es: seq<Event>, agent: AgentId)
    requires Inv(s) && Quiet(s, agent)
    requires Final(s, es).Some? && SafeRun(s, es) && NoLaunchEnters(s, es, agent)
    ensures Quiet(Final(s, es).value, agent)
    decreases |es|
  {
    if es != [] {
      StepKeepsInv(s, es[0]);
      StepStaysQuiet(s, es[0], agent);
      RunStaysQuiet(Step(s, es[0]).value, es[1..], agent);
    }
  }

  /**
   A stop that succeeded and leaves its section leaves nothing of its agent running or restarting. Every launch
   called before it is over for good, and however the service goes on, nothing of the agent becomes active until a
   launch called after the stop enters its section.
   */
  lemma StopDominates(s: Service, i: nat, rest: seq<Event>)
    requires Inv(s) && i < |s.calls| && s.calls[i].kind.Stop? && s.calls[i].work.Succeeded?
    requires Step(s, Leave(i)).Some?
    requires var s' := Step(s, Leave(i)).value;
             Final(s', rest).Some? && SafeRun(s', rest) && NoLaunchEnters(s', rest, s.locks.tickets[i].agent)
    ensures var agent, s' := s.locks.tickets[i].agent, Step(s, Leave(i)).value;
            && NoneActive(s'.docker, agent)
            && (forall k: nat :: k < i && IsLaunchOf(s', k, agent) ==> s'.locks.tickets[k].phase.Left?)
            && NoneActive(Final(s', rest).value.docker, agent)
  {
    var agent, s' := s.locks.tickets[i].agent, Step(s, Leave(i)).value;
    assert CallInv(s, i);
    assert NoneActive(s.docker, agent) by {
      forall id | id in s.docker && s.docker[id].agent == agent ensures !IsActive(s.docker[id].status) {
        assert id in Labelled(s.docker, agent) && !BusyIn(Labelled(s.docker, agent), id);
      }
    }
    L.InvImpliesExclusion(s.locks);
    assert Quiet(s', agent);
    StepKeepsInv(s, Leave(i));
    RunStaysQuiet(s', rest, agent);
  }

  /** A cleanup that succeeded and leaves its section leaves no container with the agent's label at all. */
  lemma CleanupLeavesNothing(s: Service, i: nat)
    requires Inv(s) && i < |s.calls| && s.calls[i].kind.Cleanup? && s.calls[i].work.Succeeded?
    requires Step(s, Leave(i)).Some?
    ensures Labelled(Step(s, Leave(i)).value.docker, s.locks.tickets[i].agent) == map[]
  {
    assert CallInv(s, i);
  }

  /** Under any interleaving, a launch that reports accepted leaves its section with exactly its own container. */
  lemma AcceptedLeavesExactlyOne(s: Service, i: nat)
    requires Inv(s) && i < |s.calls| && s.calls[i].work.Accepted? && Step(s, Leave(i)).Some?
    ensures Labelled(Step(s, Leave(i)).value.docker, s.locks.tickets[i].agent).Keys == {s.calls[i].work.container}
  {
    assert CallInv(s, i);
  }

  // ------------------------------------------------------------------------------------------- what a step may change

  /** What is there before and after is the same, or ran or restarted before and has exited. */
  ghost predicate OnlyBusyStopped(d: Docker, d': Docker) {
    forall id :: id in d && id in d' && d'[id] != d[id] ==>
      (d[id].status.Running? || d[id].status.Restarting?) && d'[id] == Container(d[id].agent, Exited)
  }

  lemma AdvanceStopsOnlyBusy(l: Local, agent: AgentId, kind: Kind, c: Choice)
    requires LocalInv(l, agent, kind) && Advance(l, agent, c).Some?
    ensures var d' := Advance(l, agent, c).value.docker;
            && OnlyBusyStopped(l.docker, d')
            && (!l.work.Creating? ==> d'.Keys <= l.docker.Keys)
  {
    if l.work.Clearing? && l.work.surplus != [] && l.work.surplus[0].stopFirst {
      assert l.work.surplus[0] in l.work.surplus;
      assert BusyIn(Labelled(l.docker, agent), l.work.surplus[0].id);
    } else if l.work.Stopping? && l.work.running != {} {
      assert BusyIn(Labelled(l.docker, agent), c.id);
    }
  }

  /**
   Under any interleaving a container keeps its status until it is removed, unless it runs or restarts and is stopped;
   and only a launch of its own agent brings one about.
   */
  lemma StepStopsOnlyBusy(s: Service, e: Event)
    requires Inv(s) && Step(s, e).Some?
    ensures var s' := Step(s, e).value;
            && OnlyBusyStopped(s.docker, s'.docker)
            && forall id :: id in s'.docker && id !in s.docker ==>
                 (e.Work? || e.Fault?) && IsLaunchOf(s, e.call, s'.docker[id].agent)
  {
    if e.Work? || e.Fault? {
      var i, agent := e.call, s.locks.tickets[e.call].agent;
      assert InStep(s.locks.tickets[i], s.calls[i]) && CallInv(s, i);
      AdvanceStopsOnlyBusy(LocalOf(s, i), agent, s.calls[i].kind, e.choice);
    }
  }

  // ---------------------------------------------------------------------------------------------------- cancellation

  /** A marked call that has not been accepted yet. */
  predicate Doomed(s: Service, i: nat) {
    i < |s.calls| && s.calls[i].reason.Some? && !s.calls[i].work.Accepted?
  }

  lemma DoomedStaysDoomed(s: Service, e: Event, i: nat)
    requires |s.calls| == |s.locks.tickets| && Doomed(s, i) && Step(s, e).Some?
    ensures Doomed(Step(s, e).value, i)
  {
  }

  /** A terminal reason is never cleared, and a launch marked before its last check never reports accepted. */
  lemma {:induction false} MarkedNeverAccepted(s: Service, es: seq<Event>, i: nat)
    requires |s.calls| == |s.locks.tickets| && Doomed(s, i) && Final(s, es).Some?
    ensures Doomed(Final(s, es).value, i)
    decreases |es|
  {
    if es != [] {
      DoomedStaysDoomed(s, es[0], i);
      MarkedNeverAccepted(Step(s, es[0]).value, es[1..], i);
    }
  }

  /** A launch is marked only by its own deadline, or by a stop or cleanup of its own agent before it has left. */
  lemma MarkedOnlyByOwn(s: Service, e: Event, i: nat)
    requires |s.calls| == |s.locks.tickets| && i < |s.calls| && Step(s, e).Some?
    requires Step(s, e).value.calls[i].reason != s.calls[i].reason
    ensures s.calls[i].kind.Launch? && !s.locks.tickets[i].phase.Left?
    ensures || (e == Expire(i) && Step(s, e).value.calls[i].reason == Some(Timeout))
            || (&& e.NewCall? && !e.kind.Launch? && e.agent == s.locks.tickets[i].agent
                && Step(s, e).value.calls[i].reason == Some(Cancelled))
  {
  }

  /** A launch that is marked while it waits never enters its section: it goes on waiting or gives up. */
  lemma {:induction false} MarkedNeverEnters(s: Service, es: seq<Event>, i: nat)
    requires |s.calls| == |s.locks.tickets| && i < |s.calls| && s.calls[i].reason.Some?
    requires s.locks.tickets[i].phase.Waiting? || s.locks.tickets[i].phase == L.Left(false)
    requires Final(s, es).Some?
    ensures var s' := Final(s, es).value;
            i < |s'.calls| && (s'.locks.tickets[i].phase.Waiting? || s'.locks.tickets[i].phase == L.Left(false))
    decreases |es|
  {
    if es != [] {
      MarkedNeverEnters(Step(s, es[0]).value, es[1..], i);
    }
  }

  /** Calling stop or cleanup dooms every launch of the agent that is registered and not accepted at that moment. */
  lemma StopCancelsRegistered(s: Service, agent: AgentId, kind: Kind, i: nat, es: seq<Event>)
    requires |s.calls| == |s.locks.tickets| && !kind.Launch?
    requires IsLaunchOf(s, i, agent) && !s.locks.tickets[i].phase.Left? && !s.calls[i].work.Accepted?
    requires Step(s, NewCall(agent, kind)).Some? && Final(Step(s, NewCall(agent, kind)).value, es).Some?
    ensures var done := Final(Step(s, NewCall(agent, kind)).value, es).value;
            i < |done.calls| && done.calls[i].reason.Some? && !done.calls[i].work.Accepted?
  {
    MarkedNeverAccepted(Step(s, NewCall(agent, kind)).value, es, i);
  }
}
