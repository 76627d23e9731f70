/**
 Accepting one managed launch: from whatever containers carry the agent's label to exactly one, whose labels say
 which operation it runs. The launch holds the agent's lock, so nothing else touches the agent's containers; every
 Docker command may fail, with or without its effect, and the launch may be cancelled or run out of time at any check.
 */
module LaunchAcceptance {
  import opened Options
  import opened Text
  import opened StringSets
  import opened Ordering
  import opened Judges

  type ContainerId = string

  datatype Record = Record(name: string, status: string, inspect: Inspect)

  type Containers = map<ContainerId, Record>

  type Decoder = map<string, string> -> Option<Operation>

  // ----------------------------------------------------------------------------------------------- the world as seen

  /**
   What stays fixed during a launch: the request, the image table, and the two judgements of an inspect record: the
   launch judge for a resolved image id, and the reader of the operation labels.
   */
  datatype Context = Context(
    agentId: string,
    spec: Spec,
    runtime: Runtime,
    projection: Projection,
    images: map<string, string>,
    extra: seq<(string, string)>,
    judge: (Inspect, string) -> bool,
    decode: Decoder,
    exactInstant: string -> bool)

  /** The judgement is the service's own: the launch judge, against the marker file. */
  ghost predicate UsesLaunchJudge(c: Context, marker: Option<Marker>, leaks: string -> bool) {
    forall i, imageId :: c.judge(i, imageId)
      == LaunchAccepts(i, c.spec, c.projection, c.runtime, imageId, marker, leaks)
  }

  ghost predicate UsesLabelReader(c: Context) {
    forall labels :: c.decode(labels) == ReadOperation(labels, c.exactInstant)
  }

  function OwnImage(c: Context): Option<string> {
    if c.spec.image in c.images then NormalImageId(Some(c.images[c.spec.image])) else None
  }

  predicate Owned(r: Record, agentId: string) { Label(r.inspect, AGENT_ID) == Some(agentId) }

  /** The containers with the agent's label, and all the others. */
  function Here(m: Containers, agentId: string): Containers {
    map id | id in m && Owned(m[id], agentId) :: m[id]
  }

  function Elsewhere(m: Containers, agentId: string): Containers {
    map id | id in m && !Owned(m[id], agentId) :: m[id]
  }

  // -------------------------------------------------------------------------------------------- choosing the winner

  datatype Detail = Detail(id: ContainerId, status: string, inspect: Inspect)

  function AcceptedAt(d: Detail, decode: Decoder): string {
    var op := decode(d.inspect.labels);
    if op.Some? then op.value.acceptedAt else ""
  }

  /** Earlier by time; at the same time, by id. */
  predicate PairBefore(at: string, a: string, bt: string, b: string) {
    Before(at, bt) || (at == bt && Before(a, b))
  }

  /** `compareOperationWinner`: by acceptance time, then by id. */
  predicate Earlier(a: Detail, b: Detail, decode: Decoder) {
    PairBefore(AcceptedAt(a, decode), a.id, AcceptedAt(b, decode), b.id)
  }

  /** A running container the launch judge accepts and whose labels decode. */
  predicate IsExact(inspect: Inspect, status: string, c: Context, imageId: string) {
    && status == "running"
    && c.judge(inspect, imageId)
    && c.decode(inspect.labels).Some?
  }

  function ExactOnes(details: seq<Detail>, c: Context, imageId: string): seq<Detail> {
    Filter(details, (d: Detail) => IsExact(d.inspect, d.status, c, imageId))
  }

  /** `findExactRunningWinner` */
  function Winner(details: seq<Detail>, c: Context, imageId: string): Option<Detail> {
    First(ExactOnes(details, c, imageId), (a, b) => Earlier(a, b, c.decode))
  }

  /** `chooseStatusContainer`: decodable operations first, then the same comparison, then the id. */
  predicate StatusEarlier(a: Detail, b: Detail, decode: Decoder) {
    var ao, bo := decode(a.inspect.labels), decode(b.inspect.labels);
    if ao.Some? && bo.Some? then Earlier(a, b, decode)
    else if ao.Some? then true
    else if bo.Some? then false
    else Before(a.id, b.id)
  }

  function ChooseStatus(details: seq<Detail>, decode: Decoder): Option<Detail> {
    First(details, (a, b) => StatusEarlier(a, b, decode))
  }

  ghost predicate DistinctIds(details: seq<Detail>) {
    Distinct(details, (d: Detail) => d.id)
  }

  lemma PairBeforeIsTransitive(at: string, a: string, bt: string, b: string, ct: string, c: string)
    requires PairBefore(at, a, bt, b) && PairBefore(bt, b, ct, c)
    ensures PairBefore(at, a, ct, c)
  {
    if Before(at, bt) && Before(bt, ct) { BeforeIsTransitive(at, bt, ct); }
    if Before(a, b) && Before(b, c) { BeforeIsTransitive(a, b, c); }
  }

  lemma EarlierIsTransitive(a: Detail, b: Detail, c: Detail, decode: Decoder)
    requires Earlier(a, b, decode) && Earlier(b, c, decode)
    ensures Earlier(a, c, decode)
  {
    PairBeforeIsTransitive(AcceptedAt(a, decode), a.id, AcceptedAt(b, decode), b.id, AcceptedAt(c, decode), c.id);
  }

  lemma EarlierIsStrict(a: Detail, b: Detail, decode: Decoder)
    ensures !(Earlier(a, b, decode) && Earlier(b, a, decode))
    ensures a.id != b.id ==> Earlier(a, b, decode) || Earlier(b, a, decode)
  {
    BeforeIsStrict(AcceptedAt(a, decode), AcceptedAt(b, decode));
    BeforeIsStrict(a.id, b.id);
  }

  lemma EarlierOrders(details: seq<Detail>, decode: Decoder)
    requires DistinctIds(details)
    ensures StrictlyOrders((a, b) => Earlier(a, b, decode), details)
  {
    var less := (a, b) => Earlier(a, b, decode);
    forall x, y | x in details && y in details
      ensures !(less(x, y) && less(y, x)) && (x != y ==> less(x, y) || less(y, x))
    {
      EarlierIsStrict(x, y, decode);
    }
    forall x, y, z | x in details && y in details && z in details && less(x, y) && less(y, z) ensures less(x, z) {
      EarlierIsTransitive(x, y, z, decode);
    }
  }

  lemma StatusOrders(details: seq<Detail>, decode: Decoder)
    requires DistinctIds(details)
    ensures StrictlyOrders((a, b) => StatusEarlier(a, b, decode), details)
  {
    var less := (a, b) => StatusEarlier(a, b, decode);
    forall x, y | x in details && y in details
      ensures !(less(x, y) && less(y, x)) && (x != y ==> less(x, y) || less(y, x))
    {
      EarlierIsStrict(x, y, decode);
      BeforeIsStrict(x.id, y.id);
    }
    forall x, y, z | x in details && y in details && z in details && less(x, y) && less(y, z) ensures less(x, z) {
      if Earlier(x, y, decode) && Earlier(y, z, decode) { EarlierIsTransitive(x, y, z, decode); }
      if Before(x.id, y.id) && Before(y.id, z.id) { BeforeIsTransitive(x.id, y.id, z.id); }
    }
  }

  lemma ExactOnesMembers(details: seq<Detail>, c: Context, imageId: string)
    requires DistinctIds(details)
    ensures forall d :: d in ExactOnes(details, c, imageId) <==>
                        d in details && IsExact(d.inspect, d.status, c, imageId)
    ensures DistinctIds(ExactOnes(details, c, imageId))
  {
    var keep := (d: Detail) => IsExact(d.inspect, d.status, c, imageId);
    FilterMembers(details, keep);
    FilterStaysDistinct(details, keep, (d: Detail) => d.id);
  }

  /** A container that may be reused runs, is what the launch judge wants, and says which operation it runs. */
  ghost predicate Reusable(d: Detail, c: Context, imageId: string) {
    d.status == "running" && c.judge(d.inspect, imageId) && c.decode(d.inspect.labels).Some?
  }

  /** One accepted earlier, or at the same time and first by its id. */
  lemma EarlierMeans(a: Detail, b: Detail, decode: Decoder)
    requires Earlier(a, b, decode) && decode(a.inspect.labels).Some? && decode(b.inspect.labels).Some?
    ensures var at, bt := decode(a.inspect.labels).value.acceptedAt, decode(b.inspect.labels).value.acceptedAt;
            !Before(bt, at) && (at == bt ==> Before(a.id, b.id))
  {
    BeforeIsStrict(AcceptedAt(a, decode), AcceptedAt(b, decode));
  }

  /**
   The reused container is the exact one accepted first, of those accepted at the same time the one whose id comes
   first, and there is one whenever some is exact.
   */
  lemma WinnerIsLeast(details: seq<Detail>, c: Context, imageId: string)
    requires DistinctIds(details)
    ensures var w := Winner(details, c, imageId);
            && (w.None? <==> forall d :: d in details ==> !Reusable(d, c, imageId))
            && (w.Some? ==>
                  && w.value in details && Reusable(w.value, c, imageId)
                  && forall d :: d in details && d != w.value && Reusable(d, c, imageId) ==>
                       var first := c.decode(w.value.inspect.labels).value.acceptedAt;
                       var other := c.decode(d.inspect.labels).value.acceptedAt;
                       !Before(other, first) && (other == first ==> Before(w.value.id, d.id)))
  {
    WinnerIsEarliest(details, c, imageId);
    var w := Winner(details, c, imageId);
    if w.Some? {
      forall d | d in details && d != w.value && Reusable(d, c, imageId)
        ensures var first := c.decode(w.value.inspect.labels).value.acceptedAt;
                var other := c.decode(d.inspect.labels).value.acceptedAt;
                !Before(other, first) && (other == first ==> Before(w.value.id, d.id))
      {
        EarlierMeans(w.value, d, c.decode);
      }
    }
  }

  /**
   A status request reports a container with a readable operation whenever there is one, of those the one accepted
   first; at the same time, or without any operation, the one whose id comes first.
   */
  lemma StatusChoice(details: seq<Detail>, decode: Decoder)
    requires DistinctIds(details)
    ensures var s := ChooseStatus(details, decode);
            && (s.None? <==> details == [])
            && (s.Some? ==>
                  && s.value in details
                  && forall d :: d in details && d != s.value ==>
                       var ours, theirs := decode(s.value.inspect.labels), decode(d.inspect.labels);
                       && (theirs.Some? ==> ours.Some?)
                       && (theirs.Some? ==> !Before(theirs.value.acceptedAt, ours.value.acceptedAt))
                       && (theirs.Some? && theirs.value.acceptedAt == ours.value.acceptedAt ==>
                             Before(s.value.id, d.id))
                       && (ours.None? ==> Before(s.value.id, d.id)))
  {
    StatusOrders(details, decode);
    FirstIsLeast(details, (a, b) => StatusEarlier(a, b, decode));
    var s := ChooseStatus(details, decode);
    if s.Some? {
      forall d | d in details && d != s.value && decode(s.value.inspect.labels).Some? && decode(d.inspect.labels).Some?
        ensures var ours, theirs := decode(s.value.inspect.labels).value, decode(d.inspect.labels).value;
                && !Before(theirs.acceptedAt, ours.acceptedAt)
                && (theirs.acceptedAt == ours.acceptedAt ==> Before(s.value.id, d.id))
      {
        EarlierMeans(s.value, d, decode);
      }
    }
  }

  lemma WinnerIsEarliest(details: seq<Detail>, c: Context, imageId: string)
    requires DistinctIds(details)
    ensures var w := Winner(details, c, imageId);
            && (w.None? <==> forall d :: d in details ==> !IsExact(d.inspect, d.status, c, imageId))
            && (w.Some? ==>
                  && w.value in details && IsExact(w.value.inspect, w.value.status, c, imageId)
                  && forall d :: d in details && d != w.value && IsExact(d.inspect, d.status, c, imageId) ==>
                       Earlier(w.value, d, c.decode))
  {
    ExactOnesMembers(details, c, imageId);
    var ones := ExactOnes(details, c, imageId);
    EarlierOrders(ones, c.decode);
    FirstIsLeast(ones, (a, b) => Earlier(a, b, c.decode));
    if ones != [] { assert ones[0] in ones; }
  }

  /** Neither the launch nor a status request depends on the order Docker lists containers in. */
  lemma ListingOrderIsIrrelevant(one: seq<Detail>, other: seq<Detail>, c: Context, imageId: string)
    requires DistinctIds(one) && multiset(one) == multiset(other)
    ensures Winner(one, c, imageId) == Winner(other, c, imageId)
    ensures ChooseStatus(one, c.decode) == ChooseStatus(other, c.decode)
  {
    StatusOrders(one, c.decode);
    FirstIgnoresListing(one, other, (a, b) => StatusEarlier(a, b, c.decode));
    var ones, others := ExactOnes(one, c, imageId), ExactOnes(other, c, imageId);
    forall d ensures multiset(ones)[d] == multiset(others)[d] {
      var keep := (d: Detail) => IsExact(d.inspect, d.status, c, imageId);
      FilterCounts(one, keep, d);
      FilterCounts(other, keep, d);
    }
    assert multiset(ones) == multiset(others);
    ExactOnesMembers(one, c, imageId);
    EarlierOrders(ones, c.decode);
    FirstIgnoresListing(ones, others, (a, b) => Earlier(a, b, c.decode));
  }

  // ------------------------------------------------------------------------------------------------ the Docker host

  /** Removing by id, or by name when no container has that id; nothing else changes. */
  ghost predicate Removal(m: Containers, m': Containers, which: string) {
    || m' == m
    || exists id :: id in m && (id == which || (which !in m && m[id].name == which)) && m' == m - {id}
  }

  function Stopped(m: Containers, id: ContainerId): Containers {
    if id in m then m[id := m[id].(status := "exited")] else m
  }

  /** What becomes of a command: it may fail, and a failing command may still have had its effect. */
  datatype Fate = Fate(ok: bool, took: bool)

  class DockerHost {
    /** What becomes of every command, in their order. */
    const fates: nat -> Fate
    var commands: nat
    var containers: Containers
    var used: set<ContainerId>

    constructor (containers: Containers, fates: nat -> Fate)
      ensures this.containers == containers && this.fates == fates && Valid()
    {
      this.containers, this.fates := containers, fates;
      used, commands := containers.Keys, 0;
    }

    /** No command fails. */
    ghost predicate Reliable() {
      forall n: nat :: fates(n).ok
    }

    method Next() returns (f: Fate)
      modifies `commands
      ensures f == fates(old(commands)) && commands == old(commands) + 1
    {
      f := fates(commands);
      commands := commands + 1;
    }

    /** Every id ever given out is remembered: Docker does not reuse one. */
    ghost predicate Valid()
      reads this
    {
      containers.Keys <= used
    }

    /** A step that changes no container: the projection, or the look at the image. */
    method Attempt() returns (ok: bool)
      modifies `commands
      ensures ok == fates(old(commands)).ok && commands == old(commands) + 1
    {
      var f := Next();
      ok := f.ok;
    }

    /** Time passes while no command is under way. */
    method Pause()
      modifies `commands
      ensures commands == old(commands) + 1
    {
      commands := commands + 1;
    }

    /** `docker ps --all` filtered by the agent's label, in any order. */
    method List(agentId: string) returns (ids: Option<seq<ContainerId>>)
      modifies `commands
      ensures commands == old(commands) + 1 && (Reliable() ==> ids.Some?)
      ensures ids.Some? ==> Distinct(ids.value, (id: ContainerId) => id)
      ensures ids.Some? ==> forall id :: id in ids.value <==> id in Here(containers, agentId)
    {
      var f := Next();
      if !f.ok { return None; }
      var left, found := Here(containers, agentId).Keys, [];
      while left != {}
        invariant Distinct(found, (id: ContainerId) => id)
        invariant forall id :: id in Here(containers, agentId) <==> id in left || id in found
        invariant forall id :: id in found ==> id !in left
        decreases left
      {
        var id :| id in left;
        left := left - {id};
        found := found + [id];
      }
      return Some(found);
    }

    method InspectOne(id: ContainerId) returns (r: Option<Record>)
      modifies `commands
      ensures commands == old(commands) + 1
      ensures r == if fates(old(commands)).ok && id in containers then Some(containers[id]) else None
    {
      var f := Next();
      r := if !f.ok || id !in containers then None else Some(containers[id]);
    }

    /** `docker stop`: a failing command may still have stopped the container. */
    method Stop(id: ContainerId) returns (ok: bool)
      modifies `containers, `commands
      ensures commands == old(commands) + 1 && ok == fates(old(commands)).ok
      ensures ok ==> containers == Stopped(old(containers), id)
      ensures containers == old(containers) || containers == Stopped(old(containers), id)
    {
      var f := Next();
      ok := f.ok;
      if f.ok || f.took { containers := Stopped(containers, id); }
    }

    /** `docker rm --force`: a failing command may still have removed the container. */
    method Remove(which: string) returns (ok: bool)
      modifies `containers, `commands
      ensures commands == old(commands) + 1 && ok == fates(old(commands)).ok
      ensures ok && which !in old(containers) ==>
                forall id :: id in old(containers) && old(containers)[id].name == which ==>
                  containers != old(containers)
      ensures ok && which in old(containers) ==> containers == old(containers) - {which}
      ensures Removal(old(containers), containers, which)
    {
      var f := Next();
      ok := f.ok;
      if f.ok || f.took {
        if which in containers {
          containers := containers - {which};
        } else if exists id :: id in containers && containers[id].name == which {
          var id :| id in containers && containers[id].name == which;
          containers := containers - {id};
          assert id in old(containers) && id !in containers;
        }
      }
    }

    /** The random suffix of a container name is one no container has as its name or id. */
    method FreshName() returns (name: string)
      ensures name !in containers && forall id :: id in containers ==> containers[id].name != name
    {
      var taken := containers.Keys + (set id | id in containers :: containers[id].name);
      name := Unused(taken);
      assert forall id :: id in containers ==> containers[id].name in taken;
    }

    /**
     `docker run --detach --name …`: the new container has a fresh id and the labels of the command line; everything
     else in its inspect record is up to Docker. A failing command may still have created it.
     */
    method Run(name: string, args: seq<string>, anInspect: Inspect, aStatus: string) returns (id: Option<ContainerId>)
      requires Valid()
      modifies this
      ensures Valid() && commands == old(commands) + 1
      ensures id.Some? <==> fates(old(commands)).ok
      ensures id.Some? ==>
                id.value !in old(used)
                && containers == old(containers)[id.value :=
                     Record(name, aStatus, anInspect.(labels := LabelsGiven(args)))]
      ensures containers == old(containers)
           || exists k :: k !in old(used)
                && containers == old(containers)[k := Record(name, aStatus, anInspect.(labels := LabelsGiven(args)))]
    {
      var f := Next();
      id := None;
      if f.ok || f.took {
        var newId := Unused(used);
        containers := containers[newId := Record(name, aStatus, anInspect.(labels := LabelsGiven(args)))];
        used := used + {newId};
        if f.ok { id := Some(newId); }
      }
    }
  }

  // ------------------------------------------------------------------------------------------------ the launch token

  datatype TerminalReason = Cancelled | Timeout

  class LaunchToken {
    const operation: Operation
    /** What has happened to the launch by the time that so many commands have been carried out. */
    const ends: nat -> Option<TerminalReason>
    var terminalReason: Option<TerminalReason>
    var createdContainerId: Option<string>

    constructor (operation: Operation, ends: nat -> Option<TerminalReason>)
      ensures this.operation == operation && this.ends == ends
      ensures terminalReason == None && createdContainerId == None
    {
      this.operation, this.ends := operation, ends;
      terminalReason, createdContainerId := None, None;
    }

    /** Nobody cancels the launch, and its deadline does not pass. */
    ghost predicate LeftAlone()
      reads `terminalReason
    {
      terminalReason.None? && forall n: nat :: ends(n).None?
    }

    /** All commands from the one to before the other were begun while the launch was neither cancelled nor late. */
    ghost predicate BegunLive(from: nat, to: int) {
      forall n: nat :: from <= n < to ==> ends(n).None?
    }

    lemma OneMoreBegun(from: nat, to: nat)
      requires BegunLive(from, to) && ends(to).None?
      ensures BegunLive(from, to + 1)
    {
    }

    lemma FewerBegun(from: nat, to: nat, less: int)
      requires BegunLive(from, to) && less <= to
      ensures BegunLive(from, less)
    {
    }

    /**
     `throwIfLaunchTerminated`: a stop may have cancelled the token since, or the deadline may have passed; a reason
     once set is never cleared.
     */
    method Live(now: nat) returns (live: bool)
      modifies `terminalReason
      ensures live <==> terminalReason.None?
      ensures terminalReason
           == if ends(now) == Some(Cancelled) || old(terminalReason).None? then ends(now) else old(terminalReason)
    {
      var end := ends(now);
      if end == Some(Cancelled) || terminalReason.None? {
        terminalReason := end;
      }
      live := terminalReason.None?;
    }
  }

  // ------------------------------------------------------------------------------------- what a launch must achieve

  datatype Disposition = Created | Reused | Replaced

  datatype Acceptance = Acceptance(
    container: ContainerId, disposition: Disposition, operation: Operation, imageId: string)

  datatype LaunchError = LaunchCancelled | AcceptanceTimeout | EvidenceMismatch | CommandFailed

  ghost predicate Exact(m: Containers, id: ContainerId, c: Context, imageId: string)
    requires id in m
  {
    m[id].status == "running" && c.judge(m[id].inspect, imageId) && c.decode(m[id].inspect.labels).Some?
  }

  ghost predicate SomeExact(m: Containers, c: Context, imageId: string) {
    exists id :: id in Here(m, c.agentId) && Exact(m, id, c, imageId)
  }

  /** The starting containers alone decide how a launch is disposed. */
  ghost function DispositionFrom(m: Containers, c: Context, imageId: string): Disposition {
    if SomeExact(m, c, imageId) then Reused else if Here(m, c.agentId) == map[] then Created else Replaced
  }

  function DetailOf(id: ContainerId, r: Record): Detail { Detail(id, r.status, r.inspect) }

  /** The agent has exactly the accepted container; the launch judge accepts it, and its labels name its operation. */
  ghost predicate Converged(m: Containers, c: Context, acc: Acceptance) {
    && Here(m, c.agentId).Keys == {acc.container}
    && acc.container in m
    && c.judge(m[acc.container].inspect, acc.imageId)
    && c.decode(m[acc.container].inspect.labels) == Some(acc.operation)
  }

  /** A reused container was there, is untouched, and is the exact one accepted first, by id at the same time. */
  ghost predicate ReusedLeast(m0: Containers, m: Containers, c: Context, acc: Acceptance) {
    && acc.container in Here(m0, c.agentId) && acc.container in m && m[acc.container] == m0[acc.container]
    && Exact(m0, acc.container, c, acc.imageId)
    && forall id :: id in Here(m0, c.agentId) && id != acc.container && Exact(m0, id, c, acc.imageId) ==>
         var first := c.decode(m0[acc.container].inspect.labels).value.acceptedAt;
         var other := c.decode(m0[id].inspect.labels).value.acceptedAt;
         !Before(other, first) && (other == first ==> Before(acc.container, id))
  }

  ghost predicate Accepts(m0: Containers, m: Containers, c: Context, own: Operation, acc: Acceptance) {
    && c.spec.image in c.images && acc.imageId == c.images[c.spec.image] && IsSha256(acc.imageId)
    && Converged(m, c, acc)
    && Elsewhere(m, c.agentId) == Elsewhere(m0, c.agentId)
    && acc.disposition == DispositionFrom(m0, c, acc.imageId)
    && (if acc.disposition.Reused? then ReusedLeast(m0, m, c, acc)
        else acc.container !in m0 && acc.operation == own)
  }

  /** A failed launch leaves at most one container that was not there, and touches no other agent's. */
  ghost predicate FailsSafely(m0: Containers, m: Containers, agentId: string) {
    && Elsewhere(m, agentId) == Elsewhere(m0, agentId)
    && exists k :: Here(m, agentId).Keys <= Here(m0, agentId).Keys + {k}
  }

  lemma FailsSafelyCounts(m0: Containers, m: Containers, agentId: string)
    requires FailsSafely(m0, m, agentId)
    ensures |Here(m, agentId).Keys - Here(m0, agentId).Keys| <= 1
  {
    var k :| Here(m, agentId).Keys <= Here(m0, agentId).Keys + {k};
    var added := Here(m, agentId).Keys - Here(m0, agentId).Keys;
    assert added == {} || added == {k};
  }

  /** While a launch clears: nothing new, nothing of another agent touched. */
  ghost predicate OnlyCleared(m0: Containers, m: Containers, agentId: string) {
    && Elsewhere(m, agentId) == Elsewhere(m0, agentId)
    && Here(m, agentId).Keys <= Here(m0, agentId).Keys
    && m.Keys <= m0.Keys
  }

  lemma StopOnlyClears(m: Containers, id: ContainerId, agentId: string)
    requires id in Here(m, agentId)
    ensures var m' := Stopped(m, id);
            && Elsewhere(m', agentId) == Elsewhere(m, agentId)
            && Here(m', agentId).Keys == Here(m, agentId).Keys && m'.Keys == m.Keys
            && forall k :: k in m && k != id ==> m'[k] == m[k]
  {
  }

  lemma RemoveOnlyClears(m: Containers, m': Containers, id: ContainerId, agentId: string)
    requires id in Here(m, agentId) && Removal(m, m', id)
    ensures m' == m || m' == m - {id}
    ensures Elsewhere(m', agentId) == Elsewhere(m, agentId)
    ensures m' != m ==> Here(m', agentId) == Here(m, agentId) - {id}
  {
  }

  predicate IsActive(status: string) { status == "running" || status == "restarting" }

  /** The agent's containers have gone or are as they were, but for one that may have been stopped only. */
  ghost predicate PartlyCleared(m0: Containers, m: Containers, agentId: string) {
    && Elsewhere(m, agentId) == Elsewhere(m0, agentId)
    && Here(m, agentId).Keys <= Here(m0, agentId).Keys
    && exists stopped: ContainerId :: UnchangedBut(m0, m, agentId, stopped)
  }

  ghost predicate UnchangedBut(m0: Containers, m: Containers, agentId: string, stopped: ContainerId) {
    forall id :: id in Here(m, agentId) ==>
      id in m0
      && (m[id] == m0[id]
          || (id == stopped && IsActive(m0[id].status) && m[id] == m0[id].(status := "exited")))
  }

  /** The agent has exactly one container, of a new id. */
  ghost predicate OneMade(m0: Containers, m: Containers, agentId: string, used: set<ContainerId>) {
    && Elsewhere(m, agentId) == Elsewhere(m0, agentId)
    && exists k :: k !in used && Here(m, agentId).Keys == {k}
  }

  /** Everything that a failed launch may leave behind. */
  ghost predicate LeftBy(m0: Containers, m: Containers, agentId: string, used: set<ContainerId>) {
    PartlyCleared(m0, m, agentId) || OneMade(m0, m, agentId, used)
  }

  ghost predicate OnlyNewIds(m0: Containers, m: Containers, used: set<ContainerId>) {
    forall id :: id in m && id !in m0 ==> id !in used
  }

  /** What one round of the clearing may do. */
  ghost predicate OneRound(m: Containers, m': Containers, d: Detail) {
    m' == m || m' == m - {d.id} || (IsActive(d.status) && m' == Stopped(m, d.id))
  }

  lemma Untouched(m: Containers, agentId: string)
    ensures PartlyCleared(m, m, agentId)
  {
    assert UnchangedBut(m, m, agentId, "");
  }

  lemma RoundLeaves(m0: Containers, m: Containers, m': Containers, gone: set<ContainerId>, d: Detail, agentId: string)
    requires m == m0 - gone && gone <= Here(m0, agentId).Keys && d.id in Here(m, agentId)
    requires d == DetailOf(d.id, m0[d.id]) && OneRound(m, m', d)
    ensures PartlyCleared(m0, m', agentId)
  {
    GoneMeans(m0, gone, agentId);
    if m' == m - {d.id} {
      RemovedOne(m, m', d.id, agentId);
    } else if m' != m {
      StopOnlyClears(m, d.id, agentId);
    }
    assert UnchangedBut(m0, m', agentId, d.id);
  }

  lemma AllCleared(m0: Containers, gone: set<ContainerId>, agentId: string)
    requires gone <= Here(m0, agentId).Keys
    ensures PartlyCleared(m0, m0 - gone, agentId)
  {
    assert Elsewhere(m0 - gone, agentId) == Elsewhere(m0, agentId);
    assert UnchangedBut(m0, m0 - gone, agentId, "");
  }

  /** A creation that failed behind a complete clearing. */
  lemma CreationLeaves(m0: Containers, cleared: Containers, m: Containers, known: Option<string>, agentId: string,
                       used: set<ContainerId>)
    requires OnlyCleared(m0, cleared, agentId) && CreationFailed(cleared, m, known, agentId)
    requires OnlyNewIds(cleared, m, used)
    ensures LeftBy(m0, m, agentId, used)
  {
    assert forall id :: id in cleared ==> id !in Here(cleared, agentId) && id in Elsewhere(cleared, agentId);
    assert forall id :: id in Here(m, agentId) ==> id !in Elsewhere(m, agentId);
    if m.Keys == cleared.Keys {
      assert Here(m, agentId).Keys == {};
      assert UnchangedBut(m0, m, agentId, "");
    } else {
      var k :| k !in cleared && m.Keys == cleared.Keys + {k};
      assert k in Here(m, agentId) || Here(m, agentId).Keys == {};
      if k in Here(m, agentId) {
        assert Here(m, agentId).Keys == {k};
      } else {
        assert UnchangedBut(m0, m, agentId, "");
      }
    }
  }

  lemma MadeLeaves(m0: Containers, cleared: Containers, m: Containers, id: ContainerId, c: Context, own: Operation,
                   used: set<ContainerId>)
    requires OnlyCleared(m0, cleared, c.agentId) && Here(cleared, c.agentId) == map[]
    requires Made(cleared, m, id, c, own) && id !in used
    ensures LeftBy(m0, m, c.agentId, used)
  {
    MadeMeansOne(cleared, m, id, c, own);
  }

  lemma RemovedOne(m: Containers, m': Containers, id: ContainerId, agentId: string)
    requires id in Here(m, agentId) && m' == m - {id}
    ensures Here(m', agentId) == Here(m, agentId) - {id} && Elsewhere(m', agentId) == Elsewhere(m, agentId)
  {
  }

  lemma FewerLeaves(m0: Containers, m: Containers, m': Containers, id: ContainerId, agentId: string,
                    used: set<ContainerId>)
    requires LeftBy(m0, m, agentId, used) && id in Here(m, agentId) && m' == m - {id}
    ensures LeftBy(m0, m', agentId, used)
  {
    RemovedOne(m, m', id, agentId);
    if PartlyCleared(m0, m, agentId) {
      var stopped: ContainerId :| UnchangedBut(m0, m, agentId, stopped);
      assert UnchangedBut(m0, m', agentId, stopped);
    } else {
      assert Here(m', agentId).Keys == {};
      assert UnchangedBut(m0, m', agentId, "");
    }
  }

  /** Removing one of the agent's own afterwards leaves one of these, too. */
  lemma RemovalLeaves(m0: Containers, m: Containers, m': Containers, known: string, agentId: string,
                      used: set<ContainerId>)
    requires LeftBy(m0, m, agentId, used) && OnlyHitsOwn(m, Some(known), agentId) && Removal(m, m', known)
    ensures LeftBy(m0, m', agentId, used)
  {
    if m' != m {
      var id :| id in m && (id == known || (known !in m && m[id].name == known)) && m' == m - {id};
      FewerLeaves(m0, m, m', id, agentId, used);
    }
  }

  /** With some of the agent's containers gone nothing else has changed. */
  lemma GoneMeans(m0: Containers, gone: set<ContainerId>, agentId: string)
    requires gone <= Here(m0, agentId).Keys
    ensures OnlyCleared(m0, m0 - gone, agentId) && Here(m0 - gone, agentId).Keys == Here(m0, agentId).Keys - gone
  {
    assert Elsewhere(m0 - gone, agentId) == Elsewhere(m0, agentId);
  }

  // --------------------------------------------------------------------------------------------------- the launch

  /** A listed container as it stands. */
  ghost predicate IsListed(d: Detail, m: Containers, agentId: string) {
    d.id in Here(m, agentId) && d == DetailOf(d.id, m[d.id])
  }

  ghost function IdsOf(details: seq<Detail>): set<ContainerId> {
    set d | d in details :: d.id
  }

  /** The containers of these ids, as they are. */
  ghost predicate ListedSoFar(found: seq<Detail>, ids: seq<ContainerId>, m: Containers, agentId: string) {
    |found| == |ids| && forall j :: 0 <= j < |found| ==> found[j].id == ids[j] && IsListed(found[j], m, agentId)
  }

  lemma AllListed(found: seq<Detail>, ids: seq<ContainerId>, m: Containers, agentId: string)
    requires ListedSoFar(found, ids, m, agentId)
    requires forall id :: id in ids <==> id in Here(m, agentId)
    requires forall i, j :: 0 <= i < j < |ids| ==> ids[i] != ids[j]
    ensures DistinctIds(found) && forall d :: d in found <==> IsListed(d, m, agentId)
  {
    forall d: Detail | IsListed(d, m, agentId) ensures d in found {
      var j :| 0 <= j < |ids| && ids[j] == d.id;
      assert found[j] == d;
    }
  }

  /** `listSelectedContainerDetails`: one inspect per listed container. */
  method ListDetails(host: DockerHost, token: LaunchToken, agentId: string) returns (details: Option<seq<Detail>>)
    modifies host`commands, token`terminalReason
    ensures old(token.terminalReason).Some? ==> token.terminalReason.Some?
    ensures old(token.LeftAlone()) ==> token.LeftAlone()
    ensures host.Reliable() && old(token.LeftAlone()) ==> details.Some?
    ensures old(host.commands) <= host.commands && token.BegunLive(old(host.commands), host.commands)
    ensures details.Some? ==> token.terminalReason.None? && token.ends(host.commands).None?
    ensures details.Some? ==> DistinctIds(details.value)
    ensures details.Some? ==> forall d :: d in details.value <==> IsListed(d, host.containers, agentId)
  {
    var live := token.Live(host.commands);
    if !live { return None; }
    var ids := host.List(agentId);
    if ids.None? { return None; }
    var found: seq<Detail> := [];
    for i := 0 to |ids.value|
      invariant ListedSoFar(found, ids.value[..i], host.containers, agentId)
      invariant old(token.terminalReason).Some? ==> token.terminalReason.Some?
      invariant old(token.LeftAlone()) ==> token.LeftAlone()
      invariant old(host.commands) <= host.commands && token.BegunLive(old(host.commands), host.commands)
    {
      live := token.Live(host.commands);
      if !live { return None; }
      assert ids.value[i] in ids.value;
      var r := host.InspectOne(ids.value[i]);
      if r.None? { return None; }
      found := found + [DetailOf(ids.value[i], r.value)];
      assert ids.value[..i + 1] == ids.value[..i] + [ids.value[i]];
    }
    assert ids.value[..|ids.value|] == ids.value;
    AllListed(found, ids.value, host.containers, agentId);
    live := token.Live(host.commands);
    if !live { return None; }
    return Some(found);
  }

  /** One surplus container: stop it if it was listed as running, then remove it, looking at the token in between. */
  method RemoveOne(host: DockerHost, token: LaunchToken, d: Detail) returns (ok: bool)
    requires d.id in host.containers
    modifies host`containers, host`commands, token`terminalReason
    ensures OneRound(old(host.containers), host.containers, d)
    ensures ok ==> host.containers == old(host.containers) - {d.id}
    ensures old(token.terminalReason).Some? ==> token.terminalReason.Some?
    ensures old(token.LeftAlone()) ==> token.LeftAlone()
    ensures old(host.commands) <= host.commands && token.BegunLive(old(host.commands), host.commands)
    ensures ok ==> token.terminalReason.None? && token.ends(host.commands).None?
    ensures host.Reliable() && old(token.LeftAlone()) ==> ok
  {
    ghost var start := host.containers;
    var live := token.Live(host.commands);
    if !live { return false; }
    if d.status == "running" || d.status == "restarting" {
      var stopped := host.Stop(d.id);
      if !stopped { return false; }
      live := token.Live(host.commands);
      if !live { return false; }
    }
    ghost var before := host.containers;
    assert before - {d.id} == start - {d.id};
    var removed := host.Remove(d.id);
    if !removed { return false; }
    live := token.Live(host.commands);
    return live;
  }

  /** A round of the clearing changes only containers of the agent, and makes none. */
  lemma RoundOnlyClears(m: Containers, m': Containers, d: Detail, agentId: string)
    requires OneRound(m, m', d) && d.id in Here(m, agentId)
    ensures OnlyCleared(m, m', agentId)
    ensures forall id :: id in m' && id != d.id ==> m'[id] == m[id]
  {
    if m' == m - {d.id} {
      RemovedOne(m, m', d.id, agentId);
    } else if m' != m {
      StopOnlyClears(m, d.id, agentId);
    }
  }

  lemma StoppedRound(m0: Containers, m: Containers, m': Containers, gone: set<ContainerId>, d: Detail, agentId: string)
    requires m == m0 - gone && gone <= Here(m0, agentId).Keys && d.id in Here(m, agentId) && OneRound(m, m', d)
    ensures OnlyCleared(m0, m', agentId)
    ensures forall id :: id in m' && id != d.id ==> m'[id] == m0[id]
    ensures IsListed(d, m0, agentId) ==> PartlyCleared(m0, m', agentId)
  {
    GoneMeans(m0, gone, agentId);
    RoundOnlyClears(m, m', d, agentId);
    OnlyClearedTransitive(m0, m, m', agentId);
    if IsListed(d, m0, agentId) { RoundLeaves(m0, m, m', gone, d, agentId); }
  }

  lemma IdsOfPrefix(details: seq<Detail>, i: nat)
    requires i < |details| && DistinctIds(details)
    ensures details[i].id in IdsOf(details) && details[i].id !in IdsOf(details[..i])
    ensures IdsOf(details[..i + 1]) == IdsOf(details[..i]) + {details[i].id}
  {
    assert details[i] in details;
    assert details[..i + 1] == details[..i] + [details[i]];
    var key := (d: Detail) => d.id;
    forall d | d in details[..i] ensures d.id != details[i].id {
      var j :| 0 <= j < i && details[j] == d;
      assert key(details[j]) != key(details[i]);
    }
  }

  lemma OnlyClearedTransitive(m0: Containers, m1: Containers, m2: Containers, agentId: string)
    requires OnlyCleared(m0, m1, agentId) && OnlyCleared(m1, m2, agentId)
    ensures OnlyCleared(m0, m2, agentId)
  {
  }

  /** `removeSurplusContainers`: one after the other, stopping the running ones first. */
  method RemoveSurplus(host: DockerHost, token: LaunchToken, agentId: string, surplus: seq<Detail>) returns (ok: bool)
    requires DistinctIds(surplus)
    requires IdsOf(surplus) <= Here(host.containers, agentId).Keys
    requires token.terminalReason.None? && token.ends(host.commands).None?
    modifies host`containers, host`commands, token`terminalReason
    ensures OnlyCleared(old(host.containers), host.containers, agentId)
    ensures ok ==> Here(host.containers, agentId).Keys == Here(old(host.containers), agentId).Keys - IdsOf(surplus)
    ensures forall id :: id in host.containers && id !in IdsOf(surplus) ==>
              host.containers[id] == old(host.containers)[id]
    ensures old(token.terminalReason).Some? ==> token.terminalReason.Some?
    ensures old(token.LeftAlone()) ==> token.LeftAlone()
    ensures old(host.commands) <= host.commands && token.BegunLive(old(host.commands), host.commands)
    ensures ok ==> token.terminalReason.None? && token.ends(host.commands).None?
    ensures host.Reliable() && old(token.LeftAlone()) ==> ok
    ensures (forall d :: d in surplus ==> IsListed(d, old(host.containers), agentId)) ==>
              PartlyCleared(old(host.containers), host.containers, agentId)
  {
    ghost var start := host.containers;
    assert start - {} == start;
    for i := 0 to |surplus|
      invariant old(host.commands) <= host.commands && token.BegunLive(old(host.commands), host.commands)
      invariant token.terminalReason.None? && token.ends(host.commands).None?
      invariant host.containers == start - IdsOf(surplus[..i]) && IdsOf(surplus[..i]) <= Here(start, agentId).Keys
      invariant old(token.terminalReason).Some? ==> token.terminalReason.Some?
      invariant old(token.LeftAlone()) ==> token.LeftAlone()
    {
      var d := surplus[i];
      ghost var before, gone := host.containers, IdsOf(surplus[..i]);
      IdsOfPrefix(surplus, i);
      GoneMeans(start, gone, agentId);
      var removed := RemoveOne(host, token, d);
      if !removed {
        StoppedRound(start, before, host.containers, gone, d, agentId);
        return false;
      }
      assert before - {d.id} == start - (gone + {d.id});
    }
    assert surplus[..|surplus|] == surplus;
    GoneMeans(start, IdsOf(surplus), agentId);
    AllCleared(start, IdsOf(surplus), agentId);
    return true;
  }

  /** Some container has this id or name. */
  ghost predicate HitBy(m: Containers, which: string) {
    which in m || exists id :: id in m && m[id].name == which
  }

  /** `cleanupKnownCreatedContainer`: remove what the token remembers, ignoring a failure. */
  method CleanupKnownCreated(host: DockerHost, token: LaunchToken)
    modifies host`containers, host`commands, token`createdContainerId
    ensures token.createdContainerId == None
    ensures host.commands == old(host.commands) + if old(token.createdContainerId).Some? then 1 else 0
    ensures host.Reliable() && old(token.createdContainerId).Some?
            && HitBy(old(host.containers), old(token.createdContainerId).value) ==>
              host.containers != old(host.containers)
    ensures old(token.createdContainerId).None? ==> host.containers == old(host.containers)
    ensures old(token.createdContainerId).Some? ==>
              Removal(old(host.containers), host.containers, old(token.createdContainerId).value)
  {
    var known := token.createdContainerId;
    if known.None? { return; }
    token.createdContainerId := None;
    var _ := host.Remove(known.value);
  }

  /**
   The request is one the service makes: a fresh operation for this spec, and extra labels that disturb nothing. The
   options reject label names with an `=`; here they also leave the bruno names alone.
   */
  ghost predicate Requestable(c: Context, own: Operation) {
    && c.spec.agentId == c.agentId
    && own.target == TargetOf(c.spec) && WellFormedOperation(own, c.exactInstant) && UsesLabelReader(c)
    && forall p :: p in c.extra ==> '=' !in p.0 && p.0 !in OPERATION_LABELS && p.0 != AGENT_ID
  }

  /** Whatever a removal by this id or name can hit carries the agent's label. */
  ghost predicate OnlyHitsOwn(m: Containers, known: Option<string>, agentId: string) {
    known.Some? ==>
      forall id :: id in m && (id == known.value || (known.value !in m && m[id].name == known.value)) ==>
        id in Here(m, agentId)
  }

  lemma RemovalOfOwn(m: Containers, m': Containers, known: string, agentId: string)
    requires OnlyHitsOwn(m, Some(known), agentId) && Removal(m, m', known)
    ensures Elsewhere(m', agentId) == Elsewhere(m, agentId)
    ensures Here(m', agentId).Keys <= Here(m, agentId).Keys
    ensures m'.Keys <= m.Keys
  {
  }

  /** The labels of a container made by the launch's own command line say whose it is and which operation it runs. */
  lemma OwnLabels(c: Context, own: Operation, name: string, imageId: string)
    requires Requestable(c, own) && IsSha256(imageId)
    ensures var labels := LabelsGiven(RunArgs(c.agentId, name, c.spec, own, c.projection, c.runtime, imageId, c.extra));
            && c.decode(labels) == Some(own)
            && AGENT_ID in labels && labels[AGENT_ID] == c.agentId
  {
    assert imageId[0] == 's' by { assert imageId[..7][0] == 's'; }
    OperationRoundTrip(c.agentId, name, c.spec, own, c.projection, c.runtime, imageId, c.extra, c.exactInstant);
    forall n | n in OPERATION_LABELS ensures LeavesAlone(c.extra, n, OperationLabel(own, n)) {
      FreshNamesLeaveAlone(c.extra, n, OperationLabel(own, n));
    }
    FreshNamesLeaveAlone(c.extra, AGENT_ID, c.agentId);
  }

  /** Adding one container with the agent's label. */
  lemma AddingOwn(m: Containers, id: ContainerId, r: Record, agentId: string)
    requires id !in m && Owned(r, agentId)
    ensures Here(m[id := r], agentId) == Here(m, agentId)[id := r]
    ensures Elsewhere(m[id := r], agentId) == Elsewhere(m, agentId)
  {
  }

  /** After a failed creation: at most one new container, and what the token remembers is the agent's own. */
  ghost predicate CreationFailed(m0: Containers, m: Containers, known: Option<string>, agentId: string) {
    && Elsewhere(m, agentId) == Elsewhere(m0, agentId)
    && (m.Keys == m0.Keys || exists k :: k !in m0 && m.Keys == m0.Keys + {k})
    && Here(m0, agentId) == map[]
    && OnlyHitsOwn(m, known, agentId)
  }

  /** One new container, made by this launch, and nothing else. */
  ghost predicate Made(m0: Containers, m: Containers, id: ContainerId, c: Context, own: Operation) {
    && id !in m0 && id in m && m == m0[id := m[id]]
    && Owned(m[id], c.agentId)
    && c.decode(m[id].inspect.labels) == Some(own)
  }

  lemma MadeMeansOne(m0: Containers, m: Containers, id: ContainerId, c: Context, own: Operation)
    requires Made(m0, m, id, c, own) && Here(m0, c.agentId) == map[]
    ensures Here(m, c.agentId).Keys == {id} && Elsewhere(m, c.agentId) == Elsewhere(m0, c.agentId)
    ensures m.Keys == m0.Keys + {id}
  {
    AddingOwn(m0, id, m[id], c.agentId);
  }

  /** A container of that name was run, or at least may have been. */
  lemma MadeThenFailed(m0: Containers, m: Containers, id: ContainerId, c: Context, own: Operation, known: string)
    requires Made(m0, m, id, c, own) && Here(m0, c.agentId) == map[]
    requires known == id || (known !in m0 && forall k :: k in m0 ==> m0[k].name != known)
    ensures CreationFailed(m0, m, Some(known), c.agentId)
  {
    MadeMeansOne(m0, m, id, c, own);
  }

  /** What is new is remembered by its id, or by a name that nothing older has. */
  ghost predicate Remembered(m0: Containers, m: Containers, known: Option<string>) {
    forall k :: k in m && k !in m0 ==>
      known == Some(k)
      || (known == Some(m[k].name) && m[k].name !in m && forall id :: id in m0 && id in m ==> m[id].name != m[k].name)
  }

  /** The record of a container made by the launch's own command line. */
  function MadeInspect(c: Context, own: Operation, imageId: string, name: string, anInspect: Inspect): Inspect
    requires own.target == TargetOf(c.spec)
  {
    var args := RunArgs(c.agentId, name, c.spec, own, c.projection, c.runtime, imageId, c.extra);
    anInspect.(labels := LabelsGiven(args))
  }

  /** The launch judge accepts what the launch makes, whatever it is called. */
  ghost predicate WouldBeAccepted(c: Context, own: Operation, imageId: string, anInspect: Inspect)
    requires own.target == TargetOf(c.spec)
  {
    forall name: string :: c.judge(MadeInspect(c, own, imageId, name, anInspect), imageId)
  }

  /** Runs the container and remembers it in the token, by name until its id is known. */
  method StartContainer(host: DockerHost, token: LaunchToken, c: Context, imageId: string, anInspect: Inspect,
                        aStatus: string)
    returns (id: Option<ContainerId>)
    requires Requestable(c, token.operation) && IsSha256(imageId)
    requires Here(host.containers, c.agentId) == map[] && token.createdContainerId == None && host.Valid()
    requires token.terminalReason.None? && token.ends(host.commands).None?
    modifies host, token
    ensures host.Valid()
    ensures id.Some? ==>
              && id.value !in old(host.used)
              && Made(old(host.containers), host.containers, id.value, c, token.operation)
              && token.createdContainerId == id
    ensures id.None? ==>
              CreationFailed(old(host.containers), host.containers, token.createdContainerId, c.agentId)
    ensures OnlyNewIds(old(host.containers), host.containers, old(host.used))
    ensures Remembered(old(host.containers), host.containers, token.createdContainerId)
    ensures old(token.LeftAlone()) ==> token.LeftAlone()
    ensures host.Reliable() && old(token.LeftAlone()) ==> id.Some?
    ensures old(host.commands) <= host.commands && token.BegunLive(old(host.commands), host.commands)
    ensures id.Some? ==> token.terminalReason.None? && token.ends(host.commands).None?
    ensures id.Some? && WouldBeAccepted(c, token.operation, imageId, anInspect) ==>
              c.judge(host.containers[id.value].inspect, imageId)
  {
    var name := host.FreshName();
    token.createdContainerId := Some(name);
    OwnLabels(c, token.operation, name, imageId);
    id := RunNamed(host, token, c, imageId, name, anInspect, aStatus);
  }

  /** A record whose labels say whose it is and which operation it runs. */
  ghost predicate OwnRecord(r: Record, c: Context, own: Operation) {
    Owned(r, c.agentId) && c.decode(r.inspect.labels) == Some(own)
  }

  /** The name is free, and remembered. */
  method RunNamed(host: DockerHost, token: LaunchToken, c: Context, imageId: string, name: string, anInspect: Inspect,
                  aStatus: string)
    returns (id: Option<ContainerId>)
    requires token.operation.target == TargetOf(c.spec) && host.Valid() && token.createdContainerId == Some(name)
    requires Here(host.containers, c.agentId) == map[]
    requires name !in host.containers && forall id :: id in host.containers ==> host.containers[id].name != name
    requires var r := Record(name, aStatus, MadeInspect(c, token.operation, imageId, name, anInspect));
             OwnRecord(r, c, token.operation)
    requires token.terminalReason.None? && token.ends(host.commands).None?
    modifies host, token
    ensures host.Valid()
    ensures id.Some? ==>
              && id.value !in old(host.used)
              && Made(old(host.containers), host.containers, id.value, c, token.operation)
              && token.createdContainerId == id
              && host.containers[id.value].inspect == MadeInspect(c, token.operation, imageId, name, anInspect)
    ensures id.None? ==>
              CreationFailed(old(host.containers), host.containers, token.createdContainerId, c.agentId)
    ensures OnlyNewIds(old(host.containers), host.containers, old(host.used))
    ensures Remembered(old(host.containers), host.containers, token.createdContainerId)
    ensures old(token.LeftAlone()) ==> token.LeftAlone()
    ensures host.Reliable() && old(token.LeftAlone()) ==> id.Some?
    ensures old(host.commands) <= host.commands && token.BegunLive(old(host.commands), host.commands)
    ensures id.Some? ==> token.terminalReason.None? && token.ends(host.commands).None?
  {
    ghost var start := host.containers;
    var args := RunArgs(c.agentId, name, c.spec, token.operation, c.projection, c.runtime, imageId, c.extra);
    var live := token.Live(host.commands);
    if !live { return None; }
    id := host.Run(name, args, anInspect, aStatus);
    if id.None? {
      if host.containers != start {
        ghost var k :| k !in old(host.used)
          && host.containers == start[k := Record(name, aStatus, anInspect.(labels := LabelsGiven(args)))];
        MadeThenFailed(start, host.containers, k, c, token.operation, name);
      }
      return None;
    }
    token.createdContainerId := id;
    live := token.Live(host.commands);
    if !live {
      MadeThenFailed(start, host.containers, id.value, c, token.operation, id.value);
      return None;
    }
  }

  lemma RemovedAgain(m0: Containers, m: Containers, m': Containers, id: ContainerId, c: Context, own: Operation)
    requires Made(m0, m, id, c, own) && Here(m0, c.agentId) == map[] && Removal(m, m', id)
    ensures CreationFailed(m0, m', None, c.agentId)
  {
    MadeMeansOne(m0, m, id, c, own);
    assert m - {id} == m0;
  }

  /** Inspects the new container against the request, and once more for its record; removes it when either fails. */
  method VerifyContainer(host: DockerHost, token: LaunchToken, c: Context, imageId: string, id: ContainerId,
                         ghost start: Containers)
    returns (failure: Option<LaunchError>)
    requires Made(start, host.containers, id, c, token.operation) && Here(start, c.agentId) == map[] && host.Valid()
    requires token.terminalReason.None? && token.ends(host.commands).None?
    modifies host`containers, host`commands, token
    ensures host.Valid()
    ensures token.createdContainerId == None
    ensures failure.None? ==>
              && host.containers == old(host.containers)
              && c.judge(host.containers[id].inspect, imageId)
    ensures failure.Some? ==> CreationFailed(start, host.containers, None, c.agentId)
    ensures host.containers.Keys <= old(host.containers).Keys
    ensures failure.Some? ==> failure.value == EvidenceMismatch || failure.value == CommandFailed
    ensures failure == Some(EvidenceMismatch) <==>
              && host.fates(old(host.commands)).ok && token.ends(old(host.commands) + 1).None?
              && !c.judge(old(host.containers)[id].inspect, imageId)
    ensures failure.None? ==>
              && host.commands == old(host.commands) + 2 && token.BegunLive(old(host.commands), host.commands + 1)
              && host.fates(old(host.commands)).ok && host.fates(old(host.commands) + 1).ok
              && token.terminalReason.None?
    ensures failure.Some? ==>
              && old(host.commands) + 2 <= host.commands && token.BegunLive(old(host.commands), host.commands - 1)
              && (host.Reliable() ==> host.containers == start)
    ensures old(token.LeftAlone()) ==> token.LeftAlone()
    ensures host.Reliable() && old(token.LeftAlone()) && c.judge(old(host.containers)[id].inspect, imageId) ==>
              failure.None?
  {
    ghost var before := host.containers;
    var accepted, mismatch := LookTwice(host, token, c, imageId, id);
    token.createdContainerId := None;
    if accepted { return None; }
    var _ := host.Remove(id);
    RemovedAgain(start, before, host.containers, id, c, token.operation);
    assert before - {id} == start;
    return Some(if mismatch then EvidenceMismatch else CommandFailed);
  }

  /** The two inspections: the first one is judged, the second one is for the record. */
  method LookTwice(host: DockerHost, token: LaunchToken, c: Context, imageId: string, id: ContainerId)
    returns (accepted: bool, mismatch: bool)
    requires id in host.containers && token.terminalReason.None? && token.ends(host.commands).None?
    modifies host`commands, token`terminalReason
    ensures mismatch <==>
              && host.fates(old(host.commands)).ok && token.ends(old(host.commands) + 1).None?
              && !c.judge(host.containers[id].inspect, imageId)
    ensures accepted ==>
              && host.commands == old(host.commands) + 2 && token.BegunLive(old(host.commands), host.commands + 1)
              && host.fates(old(host.commands)).ok && host.fates(old(host.commands) + 1).ok
              && token.terminalReason.None? && c.judge(host.containers[id].inspect, imageId)
    ensures old(host.commands) + 1 <= host.commands && token.BegunLive(old(host.commands), host.commands)
    ensures old(token.LeftAlone()) ==> token.LeftAlone()
    ensures host.Reliable() && old(token.LeftAlone()) && c.judge(host.containers[id].inspect, imageId) ==> accepted
  {
    var first := host.InspectOne(id);
    var live := token.Live(host.commands);
    accepted := live && first.Some? && c.judge(first.value.inspect, imageId);
    mismatch := live && first.Some? && !accepted;
    if accepted {
      var again := host.InspectOne(id);
      live := token.Live(host.commands);
      accepted := again.Some? && live;
    }
  }

  /** What the starting containers hold when no exact one was found: a launch that creates is not a reuse. */
  lemma CreatedAccepts(m0: Containers, cleared: Containers, m: Containers, c: Context, own: Operation, acc: Acceptance)
    requires !SomeExact(m0, c, acc.imageId) && OwnImage(c) == Some(acc.imageId)
    requires OnlyCleared(m0, cleared, c.agentId) && Here(cleared, c.agentId) == map[]
    requires Made(cleared, m, acc.container, c, own) && acc.container !in m0
    requires c.judge(m[acc.container].inspect, acc.imageId)
    requires acc.operation == own
    requires acc.disposition == if Here(m0, c.agentId) == map[] then Created else Replaced
    ensures Accepts(m0, m, c, own, acc)
  {
    MadeMeansOne(cleared, m, acc.container, c, own);
  }

  /** The image is there under its reference. */
  ghost predicate ImageIsThere(c: Context) {
    c.spec.image in c.images && IsSha256(c.images[c.spec.image])
  }

  /** There is a container to reuse, or else the judge would accept the one made. */
  ghost predicate CanAccept(m: Containers, c: Context, own: Operation, anInspect: Inspect)
    requires own.target == TargetOf(c.spec)
  {
    && ImageIsThere(c)
    && (SomeExact(m, c, c.images[c.spec.image]) || WouldBeAccepted(c, own, c.images[c.spec.image], anInspect))
  }

  /** A new container still there is remembered, or else the judge accepted it and the launch was ended later. */
  ghost predicate NewIsAccounted(m0: Containers, m: Containers, c: Context, known: Option<string>,
                                 reason: Option<TerminalReason>) {
    || Remembered(m0, m, known)
    || (known.None? && reason.Some? && ImageIsThere(c)
        && forall k :: k in m && k !in m0 ==> c.judge(m[k].inspect, c.images[c.spec.image]))
  }

  /** What a failure may leave behind, and what of it the token remembers. */
  ghost predicate FailsWith(m0: Containers, m: Containers, c: Context, used: set<ContainerId>, known: Option<string>,
                            reason: Option<TerminalReason>, error: LaunchError, reliable: bool) {
    && FailsSafely(m0, m, c.agentId) && LeftBy(m0, m, c.agentId, used) && OnlyHitsOwn(m, known, c.agentId)
    && (error == EvidenceMismatch || error == CommandFailed)
    && (reliable ==> NewIsAccounted(m0, m, c, known, reason))
  }

  /** Nothing has been remembered yet and nothing is new. */
  lemma FailsBeforeMaking(m0: Containers, m: Containers, c: Context, used: set<ContainerId>,
                          reason: Option<TerminalReason>, error: LaunchError, reliable: bool)
    requires FailsSafely(m0, m, c.agentId) && LeftBy(m0, m, c.agentId, used) && m.Keys <= m0.Keys
    requires error == EvidenceMismatch || error == CommandFailed
    ensures FailsWith(m0, m, c, used, None, reason, error, reliable)
  {
    assert Remembered(m0, m, None);
  }

  /**
   `acceptHermesLaunch`: project, resolve the image, list, reuse the winner or clear everything and create. Every
   command is begun while the launch is neither cancelled nor late, but for one that takes back the container made.
   */
  method AcceptHermesLaunch(host: DockerHost, token: LaunchToken, c: Context, anInspect: Inspect, aStatus: string)
    returns (r: Result<Acceptance, LaunchError>)
    requires Requestable(c, token.operation) && host.Valid() && token.createdContainerId == None
    modifies host, token
    ensures host.Valid() && old(host.commands) <= host.commands
    ensures r.Ok? ==> Accepts(old(host.containers), host.containers, c, token.operation, r.value)
    ensures r.Ok? && !r.value.disposition.Reused? ==> r.value.container !in old(host.used)
    ensures r.Ok? ==> token.terminalReason == None && token.BegunLive(old(host.commands), host.commands + 1)
    ensures r.Err? ==>
              FailsWith(old(host.containers), host.containers, c, old(host.used), token.createdContainerId,
                        token.terminalReason, r.error, host.Reliable())
    ensures r.Err? ==> token.BegunLive(old(host.commands), host.commands - 1)
    ensures r.Err? && token.createdContainerId.Some? ==> token.BegunLive(old(host.commands), host.commands)
    ensures host.Reliable() && old(token.LeftAlone()) ==>
              CanAccept(old(host.containers), c, token.operation, anInspect) ==> r.Ok?
    ensures host.Reliable() && old(token.LeftAlone()) && !ImageIsThere(c) ==>
              r == Err(EvidenceMismatch) && host.containers == old(host.containers)
  {
    ghost var start := host.containers;
    var details := Prepare(host, token, c);
    if details.Err? {
      FailsUnchanged(start, c, host.used, token.terminalReason, details.error, host.Reliable());
      return Err(details.error);
    }
    r := Settle(host, token, c, OwnImage(c).value, details.value, anInspect, aStatus);
  }

  /** Behind the listing: reuse the winner or replace everything. */
  method Settle(host: DockerHost, token: LaunchToken, c: Context, imageId: string, details: seq<Detail>,
                anInspect: Inspect, aStatus: string)
    returns (r: Result<Acceptance, LaunchError>)
    requires Requestable(c, token.operation) && host.Valid() && token.createdContainerId == None
    requires OwnImage(c) == Some(imageId) && DistinctIds(details)
    requires forall d :: d in details <==> IsListed(d, host.containers, c.agentId)
    requires token.terminalReason.None? && token.ends(host.commands).None?
    modifies host, token
    ensures host.Valid() && old(host.commands) <= host.commands
    ensures r.Ok? ==> Accepts(old(host.containers), host.containers, c, token.operation, r.value)
    ensures r.Ok? && !r.value.disposition.Reused? ==> r.value.container !in old(host.used)
    ensures r.Ok? ==> token.terminalReason == None && token.BegunLive(old(host.commands), host.commands + 1)
    ensures r.Err? ==>
              FailsWith(old(host.containers), host.containers, c, old(host.used), token.createdContainerId,
                        token.terminalReason, r.error, host.Reliable())
    ensures r.Err? ==> token.BegunLive(old(host.commands), host.commands - 1)
    ensures r.Err? && token.createdContainerId.Some? ==> token.BegunLive(old(host.commands), host.commands)
    ensures host.Reliable() && old(token.LeftAlone()) && SomeExact(old(host.containers), c, imageId) ==> r.Ok?
    ensures host.Reliable() && old(token.LeftAlone()) ==>
              WouldBeAccepted(c, token.operation, imageId, anInspect) ==> r.Ok?
  {
    var winner := Choose(host, c, imageId, details);
    if winner.Some? {
      r := Reuse(host, token, c, imageId, details, winner.value);
    } else {
      r := Replace(host, token, c, imageId, details, anInspect, aStatus);
    }
  }

  /** `findExactRunningWinner` on the listing. */
  method Choose(host: DockerHost, c: Context, imageId: string, details: seq<Detail>) returns (winner: Option<Detail>)
    requires DistinctIds(details)
    requires forall d :: d in details <==> IsListed(d, host.containers, c.agentId)
    ensures winner.Some? ==> IsWinner(winner.value, details, c, imageId)
    ensures winner.None? ==> !SomeExact(host.containers, c, imageId)
  {
    winner := Winner(details, c, imageId);
    WinnerIsEarliest(details, c, imageId);
    if winner.None? { NoneIsExact(host.containers, c, imageId, details); }
  }

  ghost predicate IsWinner(winner: Detail, details: seq<Detail>, c: Context, imageId: string) {
    && winner in details && IsExact(winner.inspect, winner.status, c, imageId)
    && forall d :: d in details && d != winner && IsExact(d.inspect, d.status, c, imageId) ==>
         Earlier(winner, d, c.decode)
  }

  lemma NoneIsExact(m: Containers, c: Context, imageId: string, details: seq<Detail>)
    requires forall d :: d in details <==> IsListed(d, m, c.agentId)
    requires forall d :: d in details ==> !IsExact(d.inspect, d.status, c, imageId)
    ensures !SomeExact(m, c, imageId)
  {
    forall id | id in Here(m, c.agentId) ensures !Exact(m, id, c, imageId) {
      assert IsListed(DetailOf(id, m[id]), m, c.agentId);
    }
  }

  lemma FailsUnchanged(m: Containers, c: Context, used: set<ContainerId>, reason: Option<TerminalReason>,
                       error: LaunchError, reliable: bool)
    requires error == EvidenceMismatch || error == CommandFailed
    ensures FailsWith(m, m, c, used, None, reason, error, reliable)
  {
    Untouched(m, c.agentId);
    assert Here(m, c.agentId).Keys <= Here(m, c.agentId).Keys + {""};
    FailsBeforeMaking(m, m, c, used, reason, error, reliable);
  }

  /** Everything up to the listing: nothing is changed yet. */
  method Prepare(host: DockerHost, token: LaunchToken, c: Context) returns (details: Result<seq<Detail>, LaunchError>)
    modifies host`commands, token`terminalReason
    ensures old(host.commands) <= host.commands && token.BegunLive(old(host.commands), host.commands)
    ensures old(token.LeftAlone()) ==> token.LeftAlone()
    ensures details.Err? ==> details.error == EvidenceMismatch || details.error == CommandFailed
    ensures host.Reliable() && old(token.LeftAlone()) ==>
              if ImageIsThere(c) then details.Ok? else details == Err(EvidenceMismatch)
    ensures details.Ok? ==>
              && ImageIsThere(c) && token.terminalReason.None? && token.ends(host.commands).None?
              && DistinctIds(details.value)
              && forall d :: d in details.value <==> IsListed(d, host.containers, c.agentId)
  {
    var live := token.Live(host.commands);
    if !live { return Err(CommandFailed); }
    var projected := host.Attempt();
    live := token.Live(host.commands);
    if !live || !projected { return Err(CommandFailed); }
    var resolved := host.Attempt();
    live := token.Live(host.commands);
    if !live || !resolved { return Err(CommandFailed); }
    if OwnImage(c).None? { return Err(EvidenceMismatch); }
    var listed := ListDetails(host, token, c.agentId);
    if listed.None? { return Err(CommandFailed); }
    return Ok(listed.value);
  }

  /** The reusing half: everything but the winner goes. */
  method Reuse(host: DockerHost, token: LaunchToken, c: Context, imageId: string, details: seq<Detail>, winner: Detail)
    returns (r: Result<Acceptance, LaunchError>)
    requires host.Valid() && OwnImage(c) == Some(imageId) && token.createdContainerId == None
    requires DistinctIds(details)
    requires forall d :: d in details <==> IsListed(d, host.containers, c.agentId)
    requires IsWinner(winner, details, c, imageId)
    requires token.terminalReason.None? && token.ends(host.commands).None?
    modifies host`containers, host`commands, token`terminalReason
    ensures host.Valid()
    ensures r.Ok? ==> Accepts(old(host.containers), host.containers, c, token.operation, r.value)
    ensures r.Ok? ==> token.terminalReason == None && token.BegunLive(old(host.commands), host.commands + 1)
    ensures old(host.commands) <= host.commands
    ensures r.Err? ==> token.BegunLive(old(host.commands), host.commands - 1)
    ensures host.containers.Keys <= old(host.containers).Keys
    ensures r.Err? ==>
              FailsWith(old(host.containers), host.containers, c, old(host.used), None, token.terminalReason, r.error,
                        host.Reliable())
    ensures host.Reliable() && old(token.LeftAlone()) ==> r.Ok?
  {
    ghost var start := host.containers;
    var surplus := Filter(details, (d: Detail) => d.id != winner.id);
    SurplusIds(details, start, c.agentId, winner);
    FilterMembers(details, (d: Detail) => d.id != winner.id);
    var cleared := RemoveSurplus(host, token, c.agentId, surplus);
    assert FailsSafely(start, host.containers, c.agentId) by {
      assert Here(host.containers, c.agentId).Keys <= Here(start, c.agentId).Keys + {winner.id};
    }
    if !cleared {
      token.FewerBegun(old(host.commands), host.commands, host.commands - 1);
      FailsBeforeMaking(start, host.containers, c, host.used, token.terminalReason, CommandFailed, host.Reliable());
      return Err(CommandFailed);
    }
    token.OneMoreBegun(old(host.commands), host.commands);
    r := Ok(Acceptance(winner.id, Reused, c.decode(winner.inspect.labels).value, imageId));
    assert IsListed(winner, start, c.agentId);
    ReuseAccepts(start, host.containers, c, token.operation, r.value, details, winner);
  }

  lemma SurplusIds(details: seq<Detail>, m: Containers, agentId: string, winner: Detail)
    requires DistinctIds(details) && forall d :: d in details <==> IsListed(d, m, agentId)
    requires winner in details
    ensures var surplus := Filter(details, (d: Detail) => d.id != winner.id);
            DistinctIds(surplus) && IdsOf(surplus) == Here(m, agentId).Keys - {winner.id}
  {
    var surplus := Filter(details, (d: Detail) => d.id != winner.id);
    FilterMembers(details, (d: Detail) => d.id != winner.id);
    FilterStaysDistinct(details, (d: Detail) => d.id != winner.id, (d: Detail) => d.id);
    forall id | id in IdsOf(surplus) ensures id in Here(m, agentId).Keys - {winner.id} {
      var d :| d in surplus && d.id == id;
      assert IsListed(d, m, agentId);
    }
    forall id | id in Here(m, agentId) && id != winner.id ensures id in IdsOf(surplus) {
      assert IsListed(DetailOf(id, m[id]), m, agentId);
      assert DetailOf(id, m[id]) in surplus;
    }
  }

  lemma ReuseIsLeast(m0: Containers, m: Containers, c: Context, acc: Acceptance, details: seq<Detail>, winner: Detail)
    requires forall d :: d in details <==> IsListed(d, m0, c.agentId)
    requires winner in details && IsListed(winner, m0, c.agentId)
    requires IsWinner(winner, details, c, acc.imageId)
    requires acc.container == winner.id && winner.id in m && m[winner.id] == m0[winner.id]
    ensures ReusedLeast(m0, m, c, acc) && SomeExact(m0, c, acc.imageId)
  {
    assert Exact(m0, winner.id, c, acc.imageId);
    forall id | id in Here(m0, c.agentId) && id != acc.container && Exact(m0, id, c, acc.imageId)
      ensures var first := c.decode(m0[acc.container].inspect.labels).value.acceptedAt;
              var other := c.decode(m0[id].inspect.labels).value.acceptedAt;
              !Before(other, first) && (other == first ==> Before(acc.container, id))
    {
      assert IsListed(DetailOf(id, m0[id]), m0, c.agentId);
      EarlierMeans(winner, DetailOf(id, m0[id]), c.decode);
    }
  }

  lemma ReuseAccepts(m0: Containers, m: Containers, c: Context, own: Operation, acc: Acceptance, details: seq<Detail>,
                     winner: Detail)
    requires forall d :: d in details <==> IsListed(d, m0, c.agentId)
    requires winner in details && IsListed(winner, m0, c.agentId)
    requires IsWinner(winner, details, c, acc.imageId)
    requires OwnImage(c) == Some(acc.imageId)
    requires OnlyCleared(m0, m, c.agentId)
    requires Here(m, c.agentId).Keys == Here(m0, c.agentId).Keys - (Here(m0, c.agentId).Keys - {winner.id})
    requires winner.id in m ==> m[winner.id] == m0[winner.id]
    requires acc.container == winner.id && acc.disposition == Reused
    requires c.decode(winner.inspect.labels) == Some(acc.operation)
    ensures Accepts(m0, m, c, own, acc)
  {
    assert Here(m, c.agentId).Keys == {winner.id};
    assert winner.id in Here(m, c.agentId);
    ReuseIsLeast(m0, m, c, acc, details, winner);
  }

  /** The creating half: every listed container goes, then one is made. */
  method Replace(host: DockerHost, token: LaunchToken, c: Context, imageId: string, details: seq<Detail>,
                 anInspect: Inspect, aStatus: string)
    returns (r: Result<Acceptance, LaunchError>)
    requires Requestable(c, token.operation) && host.Valid() && token.createdContainerId == None
    requires OwnImage(c) == Some(imageId) && !SomeExact(host.containers, c, imageId)
    requires DistinctIds(details)
    requires forall d :: d in details <==> IsListed(d, host.containers, c.agentId)
    requires token.terminalReason.None? && token.ends(host.commands).None?
    modifies host, token
    ensures host.Valid()
    ensures r.Ok? ==> Accepts(old(host.containers), host.containers, c, token.operation, r.value)
    ensures r.Ok? && !r.value.disposition.Reused? ==> r.value.container !in old(host.used)
    ensures r.Ok? ==> token.terminalReason == None
    ensures r.Err? ==>
              FailsWith(old(host.containers), host.containers, c, old(host.used), token.createdContainerId,
                        token.terminalReason, r.error, host.Reliable())
    ensures old(host.commands) <= host.commands
    ensures r.Ok? ==> token.BegunLive(old(host.commands), host.commands + 1)
    ensures r.Err? ==> token.BegunLive(old(host.commands), host.commands - 1)
    ensures r.Err? && token.createdContainerId.Some? ==> token.BegunLive(old(host.commands), host.commands)
    ensures host.Reliable() && old(token.LeftAlone()) ==>
              WouldBeAccepted(c, token.operation, imageId, anInspect) ==> r.Ok?
  {
    ghost var start := host.containers;
    var disposition := if details == [] then Created else Replaced;
    ListedIds(details, start, c.agentId);
    var cleared := RemoveSurplus(host, token, c.agentId, details);
    ClearingIsSafe(start, host.containers, c.agentId);
    if !cleared {
      FailsBeforeMaking(start, host.containers, c, host.used, token.terminalReason, CommandFailed, host.Reliable());
      return Err(CommandFailed);
    }
    EmptiedMap(Here(host.containers, c.agentId));
    r := CreateAndVerify(host, token, c, imageId, anInspect, aStatus, disposition, start);
  }

  lemma EmptiedMap(m: Containers)
    requires m.Keys == {}
    ensures m == map[]
  {
  }

  lemma ClearingIsSafe(m0: Containers, m: Containers, agentId: string)
    requires OnlyCleared(m0, m, agentId)
    ensures FailsSafely(m0, m, agentId)
  {
    assert Here(m, agentId).Keys <= Here(m0, agentId).Keys + {""};
  }

  lemma MadeIsSafe(m0: Containers, cleared: Containers, m: Containers, id: ContainerId, c: Context, own: Operation)
    requires OnlyCleared(m0, cleared, c.agentId) && Here(cleared, c.agentId) == map[]
    requires Made(cleared, m, id, c, own)
    ensures FailsSafely(m0, m, c.agentId)
  {
    MadeMeansOne(cleared, m, id, c, own);
    assert Here(m, c.agentId).Keys <= Here(m0, c.agentId).Keys + {id};
  }

  /** With the agent's containers gone: run one, verify it, and look at the token a last time. */
  method CreateAndVerify(host: DockerHost, token: LaunchToken, c: Context, imageId: string, anInspect: Inspect,
                         aStatus: string, disposition: Disposition, ghost start: Containers)
    returns (r: Result<Acceptance, LaunchError>)
    requires Requestable(c, token.operation) && host.Valid() && token.createdContainerId == None
    requires OwnImage(c) == Some(imageId) && !SomeExact(start, c, imageId) && start.Keys <= host.used
    requires OnlyCleared(start, host.containers, c.agentId) && Here(host.containers, c.agentId) == map[]
    requires disposition == if Here(start, c.agentId) == map[] then Created else Replaced
    requires token.terminalReason.None? && token.ends(host.commands).None?
    modifies host, token
    ensures host.Valid()
    ensures r.Ok? ==> Accepts(start, host.containers, c, token.operation, r.value)
    ensures r.Ok? && !r.value.disposition.Reused? ==> r.value.container !in old(host.used)
    ensures r.Ok? ==> token.terminalReason == None
    ensures r.Err? ==>
              FailsWith(start, host.containers, c, old(host.used), token.createdContainerId, token.terminalReason,
                        r.error, host.Reliable())
    ensures old(host.commands) <= host.commands
    ensures r.Ok? ==> token.BegunLive(old(host.commands), host.commands + 1)
    ensures r.Err? ==> token.BegunLive(old(host.commands), host.commands - 1)
    ensures r.Err? && token.createdContainerId.Some? ==> token.BegunLive(old(host.commands), host.commands)
    ensures host.Reliable() && old(token.LeftAlone()) ==>
              WouldBeAccepted(c, token.operation, imageId, anInspect) ==> r.Ok?
  {
    ghost var empty := host.containers;
    var id := StartContainer(host, token, c, imageId, anInspect, aStatus);
    if id.None? {
      NotStarted(start, empty, host.containers, c, old(host.used), token.createdContainerId, token.terminalReason,
                 host.Reliable());
      return Err(CommandFailed);
    }
    r := VerifyMade(host, token, c, imageId, id.value, disposition, start, empty, old(host.used));
  }

  /** With the container made: verify it, and look at the token a last time. */
  method VerifyMade(host: DockerHost, token: LaunchToken, c: Context, imageId: string, id: ContainerId,
                    disposition: Disposition, ghost start: Containers, ghost empty: Containers,
                    ghost used: set<ContainerId>)
    returns (r: Result<Acceptance, LaunchError>)
    requires host.Valid() && OwnImage(c) == Some(imageId) && !SomeExact(start, c, imageId) && start.Keys <= used
    requires OnlyCleared(start, empty, c.agentId) && Here(empty, c.agentId) == map[]
    requires Made(empty, host.containers, id, c, token.operation) && id !in used
    requires disposition == if Here(start, c.agentId) == map[] then Created else Replaced
    requires token.terminalReason.None? && token.ends(host.commands).None?
    modifies host`containers, host`commands, token
    ensures host.Valid()
    ensures r.Ok? ==> Accepts(start, host.containers, c, token.operation, r.value) && r.value.container == id
    ensures r.Ok? ==> token.terminalReason == None
    ensures token.createdContainerId == None
    ensures r.Err? ==>
              FailsWith(start, host.containers, c, used, None, token.terminalReason, r.error, host.Reliable())
    ensures old(host.commands) <= host.commands
    ensures r.Ok? ==> token.BegunLive(old(host.commands), host.commands + 1)
    ensures r.Err? ==> token.BegunLive(old(host.commands), host.commands - 1)
    ensures r.Err? && token.createdContainerId.Some? ==> token.BegunLive(old(host.commands), host.commands)
    ensures host.Reliable() && old(token.LeftAlone()) && c.judge(old(host.containers)[id].inspect, imageId) ==> r.Ok?
  {
    ghost var made := host.containers;
    var failure := VerifyContainer(host, token, c, imageId, id, empty);
    if failure.Some? {
      NotVerified(start, empty, made, host.containers, id, c, used, token.terminalReason, failure.value,
                  host.Reliable());
      return Err(failure.value);
    }
    r := LookOnce(host, token, c, imageId, id, disposition, start, empty, used);
    if r.Ok? { token.OneMoreBegun(old(host.commands), host.commands); }
  }

  /** The last look at the token, when the container has been verified. */
  method LookOnce(host: DockerHost, token: LaunchToken, c: Context, imageId: string, id: ContainerId,
                  disposition: Disposition, ghost start: Containers, ghost empty: Containers,
                  ghost used: set<ContainerId>)
    returns (r: Result<Acceptance, LaunchError>)
    requires OwnImage(c) == Some(imageId) && !SomeExact(start, c, imageId) && start.Keys <= used
    requires OnlyCleared(start, empty, c.agentId) && Here(empty, c.agentId) == map[]
    requires Made(empty, host.containers, id, c, token.operation) && id !in used
    requires disposition == if Here(start, c.agentId) == map[] then Created else Replaced
    requires c.judge(host.containers[id].inspect, imageId)
    requires token.terminalReason.None? && token.ends(host.commands).None?
    modifies host`commands, token`terminalReason
    ensures r.Ok? ==> Accepts(start, host.containers, c, token.operation, r.value) && r.value.container == id
    ensures r.Ok? ==> token.terminalReason == None && token.ends(host.commands).None?
    ensures r.Err? ==>
              FailsWith(start, host.containers, c, used, None, token.terminalReason, r.error, host.Reliable())
    ensures host.commands == old(host.commands) + 1
    ensures old(token.LeftAlone()) ==> r.Ok?
  {
    host.Pause();
    var live := token.Live(host.commands);
    if !live {
      EndedLate(start, empty, host.containers, id, c, token.operation, used, token.terminalReason, host.Reliable());
      return Err(CommandFailed);
    }
    r := Ok(Acceptance(id, disposition, token.operation, imageId));
    CreatedAccepts(start, empty, host.containers, c, token.operation, r.value);
  }

  /** The container was not started, or at least the launch does not know its id. */
  lemma NotStarted(start: Containers, empty: Containers, m: Containers, c: Context, used: set<ContainerId>,
                   known: Option<string>, reason: Option<TerminalReason>, reliable: bool)
    requires OnlyCleared(start, empty, c.agentId) && CreationFailed(empty, m, known, c.agentId)
    requires OnlyNewIds(empty, m, used) && Remembered(empty, m, known) && start.Keys <= used
    ensures FailsWith(start, m, c, used, known, reason, CommandFailed, reliable)
  {
    CreationFailureIsSafe(start, empty, m, known, c.agentId);
    CreationLeaves(start, empty, m, known, c.agentId, used);
    StillRemembered(start, empty, m, known, c.agentId, used);
  }

  lemma StillRemembered(start: Containers, empty: Containers, m: Containers, known: Option<string>, agentId: string,
                        used: set<ContainerId>)
    requires empty.Keys <= start.Keys <= used && Remembered(empty, m, known) && OnlyNewIds(empty, m, used)
    ensures Remembered(start, m, known)
  {
  }

  /** The container was not verified: it has been removed again, or at least it was tried. */
  lemma NotVerified(start: Containers, empty: Containers, made: Containers, m: Containers, id: ContainerId, c: Context,
                    used: set<ContainerId>, reason: Option<TerminalReason>, error: LaunchError, reliable: bool)
    requires OnlyCleared(start, empty, c.agentId) && CreationFailed(empty, m, None, c.agentId)
    requires made.Keys == empty.Keys + {id} && m.Keys <= made.Keys && id !in used && start.Keys <= used
    requires reliable ==> m == empty
    requires error == EvidenceMismatch || error == CommandFailed
    ensures FailsWith(start, m, c, used, None, reason, error, reliable)
  {
    OnlyNewIsMade(empty, made, m, id, used);
    CreationFailureIsSafe(start, empty, m, None, c.agentId);
    CreationLeaves(start, empty, m, None, c.agentId, used);
    if reliable { assert Remembered(start, m, None); }
  }

  /** The container was verified, and the launch was ended then. */
  lemma EndedLate(start: Containers, empty: Containers, m: Containers, id: ContainerId, c: Context, own: Operation,
                  used: set<ContainerId>, reason: Option<TerminalReason>, reliable: bool)
    requires OnlyCleared(start, empty, c.agentId) && Here(empty, c.agentId) == map[]
    requires Made(empty, m, id, c, own) && id !in used && reason.Some?
    requires ImageIsThere(c) && c.judge(m[id].inspect, c.images[c.spec.image])
    ensures FailsWith(start, m, c, used, None, reason, CommandFailed, reliable)
  {
    MadeIsSafe(start, empty, m, id, c, own);
    MadeLeaves(start, empty, m, id, c, own, used);
    MadeMeansOne(empty, m, id, c, own);
    assert forall k :: k in m && k !in start ==> k == id;
  }

  lemma OnlyNewIsMade(m0: Containers, made: Containers, m: Containers, id: ContainerId, used: set<ContainerId>)
    requires made.Keys == m0.Keys + {id} && m.Keys <= made.Keys && id !in used
    ensures OnlyNewIds(m0, m, used)
  {
  }

  lemma ListedIds(details: seq<Detail>, m: Containers, agentId: string)
    requires forall d :: d in details <==> IsListed(d, m, agentId)
    ensures IdsOf(details) == Here(m, agentId).Keys
    ensures details == [] <==> Here(m, agentId) == map[]
  {
    forall id | id in Here(m, agentId) ensures id in IdsOf(details) {
      assert IsListed(DetailOf(id, m[id]), m, agentId);
      assert DetailOf(id, m[id]) in details;
    }
    forall id | id in IdsOf(details) ensures id in Here(m, agentId) {
      var d :| d in details && d.id == id;
      assert IsListed(d, m, agentId);
    }
    if details != [] {
      assert details[0] in details && IsListed(details[0], m, agentId);
    }
    if Here(m, agentId) != map[] {
      var id :| id in Here(m, agentId);
      assert DetailOf(id, m[id]) in details;
    }
  }

  lemma CreationFailureIsSafe(m0: Containers, cleared: Containers, m: Containers, known: Option<string>,
                              agentId: string)
    requires OnlyCleared(m0, cleared, agentId) && CreationFailed(cleared, m, known, agentId)
    ensures FailsSafely(m0, m, agentId)
  {
    var k := if m.Keys == cleared.Keys then "" else var k :| k !in cleared && m.Keys == cleared.Keys + {k}; k;
    forall id | id in Here(m, agentId) ensures id == k {
      assert id in cleared ==> id !in Here(cleared, agentId) && id in Elsewhere(cleared, agentId);
      assert id !in Elsewhere(m, agentId);
    }
    assert Here(m, agentId).Keys <= Here(m0, agentId).Keys + {k};
  }

  /**
   `launchManaged` inside the lock: whatever fails, remove the container the token remembers; the error the caller
   sees is the token's terminal reason when it has one.
   */
  method LaunchManaged(host: DockerHost, token: LaunchToken, c: Context, anInspect: Inspect, aStatus: string)
    returns (r: Result<Acceptance, LaunchError>)
    requires Requestable(c, token.operation) && host.Valid() && token.createdContainerId == None
    modifies host, token
    ensures host.Valid()
    ensures r.Ok? ==> Accepts(old(host.containers), host.containers, c, token.operation, r.value)
    ensures r.Ok? && !r.value.disposition.Reused? ==> r.value.container !in old(host.used)
    ensures r.Err? ==> FailsSafely(old(host.containers), host.containers, c.agentId)
    ensures r.Err? ==> LeftBy(old(host.containers), host.containers, c.agentId, old(host.used))
    ensures r.Ok? ==> token.terminalReason == None
    ensures r.Err? ==> (r.error == LaunchCancelled <==> token.terminalReason == Some(Cancelled))
    ensures r.Err? && token.terminalReason == Some(Timeout) ==> r.error == AcceptanceTimeout
    ensures token.createdContainerId == None || r.Ok?
    ensures r.Err? && token.terminalReason.None? ==> r.error == EvidenceMismatch || r.error == CommandFailed
    ensures host.Reliable() && r.Err? ==> NewIsVerified(old(host.containers), host.containers, c, token.terminalReason)
    ensures token.BegunLive(old(host.commands), if r.Ok? then host.commands + 1 else host.commands - 1)
    ensures host.Reliable() && old(token.LeftAlone()) ==>
              CanAccept(old(host.containers), c, token.operation, anInspect) ==> r.Ok?
  {
    r := AcceptHermesLaunch(host, token, c, anInspect, aStatus);
    if r.Err? {
      ghost var before := host.containers;
      ghost var known := token.createdContainerId;
      CleanupKnownCreated(host, token);
      CleanedUp(old(host.containers), before, host.containers, c, old(host.used), known, token.terminalReason, r.error,
                host.Reliable());
      if token.terminalReason == Some(Cancelled) {
        return Err(LaunchCancelled);
      } else if token.terminalReason == Some(Timeout) {
        return Err(AcceptanceTimeout);
      }
    }
  }

  /** A new container is there only if the judge has accepted it and the launch was cancelled or late after that. */
  ghost predicate NewIsVerified(m0: Containers, m: Containers, c: Context, reason: Option<TerminalReason>) {
    forall k :: k in m && k !in m0 ==>
      reason.Some? && ImageIsThere(c) && c.judge(m[k].inspect, c.images[c.spec.image])
  }

  /** After a failure what the token remembers is removed. */
  lemma CleanedUp(m0: Containers, before: Containers, m: Containers, c: Context, used: set<ContainerId>,
                  known: Option<string>, reason: Option<TerminalReason>, error: LaunchError, reliable: bool)
    requires FailsWith(m0, before, c, used, known, reason, error, reliable)
    requires known.None? ==> m == before
    requires known.Some? ==> Removal(before, m, known.value)
    requires reliable && known.Some? && HitBy(before, known.value) ==> m != before
    requires reliable && known.Some? && known.value in before ==> m == before - {known.value}
    ensures FailsSafely(m0, m, c.agentId) && LeftBy(m0, m, c.agentId, used)
    ensures reliable ==> NewIsVerified(m0, m, c, reason)
  {
    if known.Some? {
      RemovalOfOwn(before, m, known.value, c.agentId);
      FewerIsSafe(m0, before, m, c.agentId);
      RemovalLeaves(m0, before, m, known.value, c.agentId, used);
      if reliable {
        OneIsNew(m0, before, c.agentId);
        RememberedGoes(m0, before, m, known.value);
      }
    } else if reliable {
      AccountedIsVerified(m0, m, c, reason);
    }
  }

  lemma AccountedIsVerified(m0: Containers, m: Containers, c: Context, reason: Option<TerminalReason>)
    requires NewIsAccounted(m0, m, c, None, reason)
    ensures NewIsVerified(m0, m, c, reason)
  {
  }

  lemma OneIsNew(m0: Containers, m: Containers, agentId: string)
    requires FailsSafely(m0, m, agentId)
    ensures forall a, b :: a in m && b in m && a !in m0 && b !in m0 ==> a == b
  {
    var k :| Here(m, agentId).Keys <= Here(m0, agentId).Keys + {k};
    forall a | a in m && a !in m0 ensures a == k {
      assert a !in Elsewhere(m0, agentId);
      assert a in Here(m, agentId);
    }
  }

  lemma RememberedGoes(m0: Containers, before: Containers, m: Containers, known: string)
    requires Remembered(m0, before, Some(known)) && Removal(before, m, known)
    requires HitBy(before, known) ==> m != before
    requires known in before ==> m == before - {known}
    requires forall a, b :: a in before && b in before && a !in m0 && b !in m0 ==> a == b
    ensures m.Keys <= m0.Keys
  {
  }

  lemma FewerIsSafe(m0: Containers, m: Containers, m': Containers, agentId: string)
    requires FailsSafely(m0, m, agentId)
    requires Elsewhere(m', agentId) == Elsewhere(m, agentId) && Here(m', agentId).Keys <= Here(m, agentId).Keys
    ensures FailsSafely(m0, m', agentId)
  {
    var k :| Here(m, agentId).Keys <= Here(m0, agentId).Keys + {k};
    assert Here(m', agentId).Keys <= Here(m0, agentId).Keys + {k};
  }

  // ----------------------------------------------------------------------------------- acceptance and later status

  lemma TheOnlyOneIsChosen(m: Containers, id: ContainerId, agentId: string, decode: Decoder, details: seq<Detail>)
    requires Here(m, agentId).Keys == {id}
    requires DistinctIds(details) && forall d :: d in details <==> IsListed(d, m, agentId)
    ensures id in m && Owned(m[id], agentId) && ChooseStatus(details, decode) == Some(DetailOf(id, m[id]))
  {
    assert id in Here(m, agentId);
    var only := DetailOf(id, m[id]);
    assert IsListed(only, m, agentId);
    assert forall d :: d in details ==> d == only;
    StatusOrders(details, decode);
    FirstIsLeast(details, (a, b) => StatusEarlier(a, b, decode));
  }

  lemma JudgedIsEvident(c: Context, i: Inspect, op: Operation, imageId: string, marker: Option<Marker>,
                        leaks: string -> bool, seen: Observation)
    requires c.judge(i, imageId) && c.decode(i.labels) == Some(op)
    requires UsesLaunchJudge(c, marker, leaks) && UsesLabelReader(c)
    requires SameWorld(c.spec, c.projection, imageId, marker, seen) && Label(i, AGENT_ID) == Some(c.spec.agentId)
    ensures StatusVerdict(i, c.spec.agentId, c.runtime, seen, c.exactInstant) == Evident(op)
  {
    LaunchAcceptsThenStatusAccepts(i, c.spec, c.projection, c.runtime, imageId, marker, leaks, seen, c.exactInstant);
  }

  /**
   What a status request sees after an accepted launch: while marker and image stay as they were, the one container of
   the agent is the one it chooses, and the status judge finds it evident for exactly the operation the launch reported.
   */
  lemma AcceptedIsEvident(m0: Containers, m: Containers, c: Context, own: Operation, acc: Acceptance,
                          marker: Option<Marker>, leaks: string -> bool, seen: Observation, details: seq<Detail>)
    requires Accepts(m0, m, c, own, acc) && c.spec.agentId == c.agentId
    requires UsesLaunchJudge(c, marker, leaks) && UsesLabelReader(c)
    requires SameWorld(c.spec, c.projection, acc.imageId, marker, seen)
    requires DistinctIds(details) && forall d :: d in details <==> IsListed(d, m, c.agentId)
    ensures var chosen := ChooseStatus(details, c.decode);
            && chosen == Some(DetailOf(acc.container, m[acc.container]))
            && StatusVerdict(chosen.value.inspect, c.agentId, c.runtime, seen, c.exactInstant) == Evident(acc.operation)
  {
    TheOnlyOneIsChosen(m, acc.container, c.agentId, c.decode, details);
    JudgedIsEvident(c, m[acc.container].inspect, acc.operation, acc.imageId, marker, leaks, seen);
  }

  // ------------------------------------------------------------------------------------------ cancelling launches

  /** The registered tokens of every agent, in the order of their registration. */
  class LaunchRegistry {
    var tokens: map<string, seq<LaunchToken>>

    function Of(agentId: string): seq<LaunchToken>
      reads this
    {
      if agentId in tokens then tokens[agentId] else []
    }

    /**
     `cancelActiveLaunches`: every registered launch of the agent is marked, whatever it was marked with before, and the
     one accepted first is named.
     */
    method CancelActiveLaunches(agentId: string) returns (operationId: Option<string>)
      modifies Of(agentId)
      ensures forall t :: t in Of(agentId) ==> t.terminalReason == Some(Cancelled)
      ensures forall t :: t in Of(agentId) ==> t.createdContainerId == old(t.createdContainerId)
      ensures operationId.None? <==> Of(agentId) == []
      ensures operationId.Some? ==>
                exists t :: t in Of(agentId) && t.operation.id == operationId.value
                  && forall other :: other in Of(agentId) ==>
                       !Before(other.operation.acceptedAt, t.operation.acceptedAt)
    {
      var active := Of(agentId);
      var operations: seq<Operation> := [];
      for i := 0 to |active|
        invariant forall j :: 0 <= j < i ==> active[j].terminalReason == Some(Cancelled)
        invariant forall t :: t in active ==> t.createdContainerId == old(t.createdContainerId)
        invariant |operations| == i && forall j :: 0 <= j < i ==> operations[j] == active[j].operation
      {
        active[i].terminalReason := Some(Cancelled);
        operations := operations + [active[i].operation];
      }
      var less := (a: Operation, b: Operation) => Before(a.acceptedAt, b.acceptedAt);
      AcceptanceRanks();
      FirstIsMinimal(operations, less);
      var first := First(operations, less);
      if first.None? { return None; }
      ghost var k :| 0 <= k < |operations| && operations[k] == first.value;
      assert active[k] in active;
      forall other | other in active ensures !Before(other.operation.acceptedAt, active[k].operation.acceptedAt) {
        var j :| 0 <= j < |active| && active[j] == other;
        assert operations[j] in operations;
      }
      return Some(first.value.id);
    }
  }

  lemma AcceptanceRanks()
    ensures OrdersByRank((a: Operation, b: Operation) => Before(a.acceptedAt, b.acceptedAt))
  {
    forall x: Operation, y: Operation
      ensures !(Before(x.acceptedAt, y.acceptedAt) && Before(y.acceptedAt, x.acceptedAt))
    {
      BeforeIsStrict(x.acceptedAt, y.acceptedAt);
    }
    forall x: Operation, y: Operation, z: Operation | Before(x.acceptedAt, z.acceptedAt)
      ensures Before(x.acceptedAt, y.acceptedAt) || Before(y.acceptedAt, z.acceptedAt)
    {
      BeforeIsStrict(x.acceptedAt, y.acceptedAt);
      if Before(y.acceptedAt, x.acceptedAt) { BeforeIsTransitive(y.acceptedAt, x.acceptedAt, z.acceptedAt); }
    }
  }
}
