/**
 The Docker fixtures of the runner's boot self-test. A descriptor naming everything a fixture will consist of is written
 before the first of it is created, so that a later boot can find and remove what a crash left behind.
 */
module BootFixtures {
  import opened Options
  import opened StringSets

  type Dir = string
  type Id = string

  datatype Fixture = Fixture(agentId: string, container: string, network: string)

  /** `fixture.json` of a directory: not there yet, torn or of another shape, or complete. */
  datatype Descriptor = Missing | Broken | Whole(fixture: Fixture)

  datatype Resource =
    | Container(labelled: bool, agentId: Option<string>, name: string)
    | Network(labelled: bool, name: string)

  datatype World = World(dirs: map<Dir, Descriptor>, docker: map<Id, Resource>)

  /** The three listings of `removeExactFixtureResources`, in order. */
  datatype Stage = Agents | Model | Net

  /** What a listing of this stage shows: always the fixture label as well. */
  predicate Listed(f: Fixture, stage: Stage, r: Resource) {
    && r.labelled
    && match stage
       case Agents => r.Container? && r.agentId == Some(f.agentId)
       case Model => r.Container? && r.name == f.container
       case Net => r.Network? && r.name == f.network
  }

  predicate Names(f: Fixture, r: Resource) {
    match r
    case Container(_, agentId, name) => agentId == Some(f.agentId) || name == f.container
    case Network(_, name) => name == f.network
  }

  ghost predicate NamedIn(dirs: map<Dir, Descriptor>, r: Resource) {
    exists d :: d in dirs && dirs[d].Whole? && Names(dirs[d].fixture, r)
  }

  /** Every resource with the fixture label is named by a complete descriptor on disk. */
  ghost predicate Covered(w: World) {
    forall id :: id in w.docker && w.docker[id].labelled ==> NamedIn(w.dirs, w.docker[id])
  }

  // ---------------------------------------------------------------------------------------------- the state machine

  /** `launchDockerFixture` under way in this directory; it creates things only once its descriptor is complete. */
  datatype Launch = Launch(dir: Dir, fixture: Fixture, creating: bool)

  /** `removeExactFixtureResources` under way: `pending` is the listing of the stage, once it was taken. */
  datatype Sweep = Sweep(dir: Dir, fixture: Fixture, stage: Option<Stage>, pending: Option<set<Id>>)

  /**
   The disk and Docker survive a crash; what the process is doing does not. `attached` says which containers run in
   which network: a container is created first and attached when it starts.
   */
  datatype State = State(world: World, launch: Option<Launch>, sweep: Option<Sweep>, attached: map<Id, string>)

  datatype Event =
    | BeginLaunch(dir: Dir, fixture: Fixture)
    | TearDescriptor
    | WriteDescriptor
    | Create(id: Id, resource: Resource)
    | Discard(id: Id)
    | Attach(id: Id, network: string)
    | Exit(id: Id)
    | EndLaunch
    | BeginSweep(dir: Dir)
    | List
    | Remove(id: Id)
    | NextStage
    | RemoveDir
    | TearDir
    | EndSweep
    | Foreign(docker: map<Id, Resource>)
    | Crash

  function Listing(w: World, f: Fixture, stage: Stage): set<Id> {
    set id | id in w.docker && Listed(f, stage, w.docker[id])
  }

  function After(stage: Stage): Option<Stage> {
    match stage
    case Agents => Some(Model)
    case Model => Some(Net)
    case Net => None
  }

  /** Docker refuses to remove a network while a container runs in it. */
  predicate Blocked(docker: map<Id, Resource>, attached: map<Id, string>, id: Id) {
    && id in docker && docker[id].Network?
    && exists c :: c in attached && c in docker && docker[c].Container? && attached[c] == docker[id].name
  }

  predicate Creates(f: Fixture, r: Resource) { r.labelled && Names(f, r) }

  /** Everything that is not labelled as a fixture belongs to others, who may do with it what they like. */
  predicate OnlyOthersChanged(before: map<Id, Resource>, after: map<Id, Resource>) {
    && (forall id :: id in before && before[id].labelled ==> id in after && after[id] == before[id])
    && (forall id :: id in after && after[id].labelled ==> id in before && before[id] == after[id])
  }

  predicate Enabled(s: State, e: Event) {
    match e
    case BeginLaunch(dir, _) => s.launch.None? && dir !in s.world.dirs
    case TearDescriptor => s.launch.Some? && !s.launch.value.creating
    case WriteDescriptor => s.launch.Some? && !s.launch.value.creating
    case Create(id, r) =>
      s.launch.Some? && s.launch.value.creating && id !in s.world.docker && Creates(s.launch.value.fixture, r)
    case Discard(id) => id in s.world.docker && s.world.docker[id].labelled && s.world.docker[id].Container?
    case Attach(id, network) =>
      && id in s.world.docker && s.world.docker[id].Container?
      && exists n :: n in s.world.docker && s.world.docker[n].Network? && s.world.docker[n].name == network
    case Exit(id) => id in s.attached
    case EndLaunch => s.launch.Some?
    case BeginSweep(dir) => s.sweep.None? && dir in s.world.dirs && s.world.dirs[dir].Whole?
    case List => s.sweep.Some? && s.sweep.value.stage.Some? && s.sweep.value.pending.None?
    case Remove(id) =>
      && s.sweep.Some? && s.sweep.value.pending.Some? && id in s.sweep.value.pending.value
      && !Blocked(s.world.docker, s.attached, id)
    case NextStage =>
      && s.sweep.Some? && s.sweep.value.stage.Some? && s.sweep.value.pending.Some?
      && forall id :: id in s.sweep.value.pending.value ==> id !in s.world.docker
    case RemoveDir => s.sweep.Some? && s.sweep.value.stage.None?
    case TearDir => s.sweep.Some? && s.sweep.value.stage.None?
    case EndSweep => s.sweep.Some?
    case Foreign(docker) => OnlyOthersChanged(s.world.docker, docker)
    case Crash => true
  }

  function WithDir(s: State, dir: Dir, d: Descriptor): State {
    s.(world := s.world.(dirs := s.world.dirs[dir := d]))
  }

  function WithDocker(s: State, docker: map<Id, Resource>): State {
    s.(world := s.world.(docker := docker))
  }

  function Step(s: State, e: Event): State
    requires Enabled(s, e)
  {
    match e
    case BeginLaunch(dir, f) => WithDir(s, dir, Missing).(launch := Some(Launch(dir, f, false)))
    case TearDescriptor => WithDir(s, s.launch.value.dir, Broken)
    case WriteDescriptor =>
      var l := s.launch.value;
      WithDir(s, l.dir, Whole(l.fixture)).(launch := Some(l.(creating := true)))
    case Create(id, r) => WithDocker(s, s.world.docker[id := r])
    case Discard(id) => WithDocker(s, s.world.docker - {id})
    case Attach(id, network) => s.(attached := s.attached[id := network])
    case Exit(id) => s.(attached := s.attached - {id})
    case EndLaunch => s.(launch := None)
    case BeginSweep(dir) => s.(sweep := Some(Sweep(dir, s.world.dirs[dir].fixture, Some(Agents), None)))
    case List =>
      var w := s.sweep.value;
      s.(sweep := Some(w.(pending := Some(Listing(s.world, w.fixture, w.stage.value)))))
    case Remove(id) => WithDocker(s, s.world.docker - {id})
    case NextStage =>
      var w := s.sweep.value;
      s.(sweep := Some(w.(stage := After(w.stage.value), pending := None)))
    case RemoveDir => s.(world := s.world.(dirs := s.world.dirs - {s.sweep.value.dir}), sweep := None)
    case TearDir => WithDir(s, s.sweep.value.dir, Missing).(sweep := None)
    case EndSweep => s.(sweep := None)
    case Foreign(docker) => WithDocker(s, docker)
    case Crash => s.(launch := None, sweep := None)
  }

  /** All that is asked of the order of events: nobody sweeps a directory that a launch is still at work for. */
  predicate Orderly(s: State, e: Event) {
    e.BeginSweep? && s.launch.Some? ==> s.launch.value.dir != e.dir
  }

  /** The launch and the sweep under way, if there are both, are not of one directory. */
  predicate Apart(s: State) {
    s.launch.Some? && s.sweep.Some? ==> s.launch.value.dir != s.sweep.value.dir
  }

  predicate Done(current: Option<Stage>, stage: Stage) {
    match current
    case None => true
    case Some(now) => (stage.Agents? && !now.Agents?) || (stage.Model? && now.Net?)
  }

  ghost predicate LaunchInv(s: State) {
    s.launch.Some? ==>
      var l := s.launch.value;
      && l.dir in s.world.dirs
      && s.world.dirs[l.dir].Whole? == l.creating
      && (l.creating ==> s.world.dirs[l.dir] == Whole(l.fixture))
  }

  ghost predicate SweptDirIsWhole(s: State) {
    s.sweep.Some? ==>
      var w := s.sweep.value;
      w.dir in s.world.dirs && s.world.dirs[w.dir] == Whole(w.fixture)
  }

  /** Some complete descriptor other than the one of this directory names the resource too. */
  ghost predicate NamedBeside(dirs: map<Dir, Descriptor>, dir: Dir, r: Resource) {
    NamedIn(dirs - {dir}, r)
  }

  /** What the finished stages list has gone, but for what a launch elsewhere owns. */
  ghost predicate DoneIsGone(w: Sweep, world: World) {
    forall stage, id :: Done(w.stage, stage) && id in world.docker && Listed(w.fixture, stage, world.docker[id]) ==>
      NamedBeside(world.dirs, w.dir, world.docker[id])
  }

  /** What the stage under way lists is pending, with the same exception. */
  ghost predicate ListedIsPending(w: Sweep, world: World) {
    w.stage.Some? && w.pending.Some? ==>
      forall id :: id in world.docker && Listed(w.fixture, w.stage.value, world.docker[id]) ==>
        id in w.pending.value || NamedBeside(world.dirs, w.dir, world.docker[id])
  }

  ghost predicate SweepInv(s: State) {
    s.sweep.Some? ==> DoneIsGone(s.sweep.value, s.world) && ListedIsPending(s.sweep.value, s.world)
  }

  /** What every event keeps, in order or not, until something is left uncovered. */
  ghost predicate Shape(s: State) {
    Covered(s.world) && LaunchInv(s) && SweptDirIsWhole(s)
  }

  ghost predicate Inv(s: State) {
    Shape(s) && Apart(s) && SweepInv(s)
  }

  // ------------------------------------------------------------------------------------- what the events may do

  function LabelledPart(docker: map<Id, Resource>): map<Id, Resource> {
    map id | id in docker && docker[id].labelled :: docker[id]
  }

  /** Others may do anything at all, as long as the labelled resources stay what they are. */
  lemma OthersExactly(s: State, docker: map<Id, Resource>)
    ensures Enabled(s, Foreign(docker)) <==> LabelledPart(docker) == LabelledPart(s.world.docker)
  {
    if LabelledPart(docker) == LabelledPart(s.world.docker) {
      forall id | id in s.world.docker && s.world.docker[id].labelled
        ensures id in docker && docker[id] == s.world.docker[id]
      {
        assert id in LabelledPart(docker) && LabelledPart(docker)[id] == docker[id];
      }
      forall id | id in docker && docker[id].labelled
        ensures id in s.world.docker && s.world.docker[id] == docker[id]
      {
        assert id in LabelledPart(s.world.docker) && LabelledPart(s.world.docker)[id] == s.world.docker[id];
      }
    }
  }

  /**
   A sweep takes what it has listed, and no network in which something still runs; it goes on to the next stage only
   when all that it has listed is gone, and lists the fixture's own: by agent, by container name, by network name.
   */
  lemma SweepTakesListed(s: State, e: Event)
    requires Enabled(s, e) && (e.List? || e.Remove? || e.NextStage?)
    ensures s.sweep.Some? && (!e.Remove? ==> s.sweep.value.stage.Some?)
    ensures e.Remove? ==> s.sweep.value.pending.Some? && e.id in s.sweep.value.pending.value
    ensures e.Remove? && e.id in s.world.docker && s.world.docker[e.id].Network? ==>
              forall c :: c in s.attached && c in s.world.docker && s.world.docker[c].Container? ==>
                s.attached[c] != s.world.docker[e.id].name
    ensures e.NextStage? ==>
              s.sweep.value.pending.Some? && forall id :: id in s.sweep.value.pending.value ==> id !in s.world.docker
    ensures e.List? ==>
              var f, listed := s.sweep.value.fixture, Step(s, e).sweep.value.pending;
              && listed.Some?
              && forall id :: id in listed.value <==>
                   && id in s.world.docker && s.world.docker[id].labelled
                   && var r := s.world.docker[id];
                      match s.sweep.value.stage.value
                      case Agents => r.Container? && r.agentId == Some(f.agentId)
                      case Model => r.Container? && r.name == f.container
                      case Net => r.Network? && r.name == f.network
  {
  }

  // ------------------------------------------------------------------------------------------------ whole runs

  lemma NamedInMore(dirs: map<Dir, Descriptor>, dirs': map<Dir, Descriptor>, r: Resource)
    requires NamedIn(dirs, r)
    requires forall d :: d in dirs && dirs[d].Whole? ==> d in dirs' && dirs'[d] == dirs[d]
    ensures NamedIn(dirs', r)
  {
    var d :| d in dirs && dirs[d].Whole? && Names(dirs[d].fixture, r);
    assert d in dirs' && dirs'[d] == dirs[d];
  }

  lemma DiskGrows(w: World, dirs': map<Dir, Descriptor>)
    requires Covered(w) && forall d :: d in w.dirs && w.dirs[d].Whole? ==> d in dirs' && dirs'[d] == w.dirs[d]
    ensures Covered(w.(dirs := dirs'))
  {
    forall id | id in w.docker && w.docker[id].labelled ensures NamedIn(dirs', w.docker[id]) {
      NamedInMore(w.dirs, dirs', w.docker[id]);
    }
  }

  ghost predicate NothingNamed(docker: map<Id, Resource>, f: Fixture) {
    forall id :: id in docker && docker[id].labelled ==> !Names(f, docker[id])
  }

  /** A descriptor may go once all that it names and that carries the label is named by another one. */
  lemma RemovingKeepsCovered(w: World, dir: Dir)
    requires Covered(w) && dir in w.dirs && w.dirs[dir].Whole?
    requires forall id :: id in w.docker && w.docker[id].labelled && Names(w.dirs[dir].fixture, w.docker[id]) ==>
               NamedBeside(w.dirs, dir, w.docker[id])
    ensures Covered(w.(dirs := w.dirs - {dir})) && Covered(w.(dirs := w.dirs[dir := Missing]))
  {
    forall id | id in w.docker && w.docker[id].labelled
      ensures NamedIn(w.dirs - {dir}, w.docker[id]) && NamedIn(w.dirs[dir := Missing], w.docker[id])
    {
      var d :| d in w.dirs && w.dirs[d].Whole? && Names(w.dirs[d].fixture, w.docker[id]);
      if d == dir {
        assert NamedBeside(w.dirs, dir, w.docker[id]);
      } else {
        assert d in w.dirs - {dir};
      }
      NamedInMore(w.dirs - {dir}, w.dirs[dir := Missing], w.docker[id]);
    }
  }

  /** A new or completed descriptor takes nothing away from the sweep of another directory. */
  lemma SweepSeesMore(w: Sweep, world: World, dirs': map<Dir, Descriptor>)
    requires DoneIsGone(w, world) && ListedIsPending(w, world)
    requires forall d :: d in world.dirs && world.dirs[d].Whole? ==> d in dirs' && dirs'[d] == world.dirs[d]
    ensures DoneIsGone(w, world.(dirs := dirs')) && ListedIsPending(w, world.(dirs := dirs'))
  {
    forall id | id in world.docker && NamedBeside(world.dirs, w.dir, world.docker[id])
      ensures NamedBeside(dirs', w.dir, world.docker[id])
    {
      NamedInMore(world.dirs - {w.dir}, dirs' - {w.dir}, world.docker[id]);
    }
  }

  lemma DiskStepKeepsInv(s: State, e: Event)
    requires Inv(s) && Enabled(s, e)
    requires e.BeginLaunch? || e.TearDescriptor? || e.WriteDescriptor?
    ensures Inv(Step(s, e))
  {
    DiskGrows(s.world, Step(s, e).world.dirs);
    if s.sweep.Some? { SweepSeesMore(s.sweep.value, s.world, Step(s, e).world.dirs); }
  }

  lemma RemoveDirKeepsInv(s: State)
    requires Inv(s) && Enabled(s, RemoveDir)
    ensures Inv(Step(s, RemoveDir)) && Inv(Step(s, TearDir))
  {
    var w := s.sweep.value;
    forall id | id in s.world.docker && s.world.docker[id].labelled && Names(w.fixture, s.world.docker[id])
      ensures NamedBeside(s.world.dirs, w.dir, s.world.docker[id])
    {
      assert Done(w.stage, Agents) && Done(w.stage, Model) && Done(w.stage, Net);
      var r := s.world.docker[id];
      assert Listed(w.fixture, Agents, r) || Listed(w.fixture, Model, r) || Listed(w.fixture, Net, r);
    }
    RemovingKeepsCovered(s.world, w.dir);
  }

  lemma CreateKeepsInv(s: State, id: Id, r: Resource)
    requires Inv(s) && Enabled(s, Create(id, r))
    ensures Inv(Step(s, Create(id, r)))
  {
    var l := s.launch.value;
    assert NamedIn(s.world.dirs, r);
    if s.sweep.Some? {
      assert l.dir in s.world.dirs - {s.sweep.value.dir};
      assert NamedBeside(s.world.dirs, s.sweep.value.dir, r);
    }
  }

  lemma SweepStepKeepsInv(s: State, e: Event)
    requires Inv(s) && Enabled(s, e) && Orderly(s, e)
    requires e.BeginSweep? || e.List? || e.NextStage?
    ensures Inv(Step(s, e))
  {
    if e.NextStage? {
      var w, w' := s.sweep.value, Step(s, e).sweep.value;
      assert DoneIsGone(w', s.world) by {
        assert forall stage :: Done(w'.stage, stage) ==> stage == w.stage.value || Done(w.stage, stage);
      }
    }
  }

  lemma StepKeepsInv(s: State, e: Event)
    requires Inv(s) && Enabled(s, e) && Orderly(s, e)
    ensures Inv(Step(s, e))
  {
    match e
    case RemoveDir | TearDir => RemoveDirKeepsInv(s);
    case Create(id, r) => CreateKeepsInv(s, id, r);
    case BeginLaunch(_, _) | TearDescriptor | WriteDescriptor => DiskStepKeepsInv(s, e);
    case BeginSweep(_) | List | NextStage => SweepStepKeepsInv(s, e);
    case _ =>
  }

  /** A run from one state to another; `orderly` asks every event to keep the boot order. */
  ghost predicate Run(from: State, events: seq<Event>, to: State, orderly: bool)
    decreases |events|
  {
    if events == [] then from == to
    else
      && Enabled(from, events[0]) && (orderly ==> Orderly(from, events[0]))
      && Run(Step(from, events[0]), events[1..], to, orderly)
  }

  /**
   Write-ahead: over every orderly run, with crashes wherever they fall, every resource with the fixture label stays
   named by a complete descriptor on disk.
   */
  lemma {:induction false} RunStaysCovered(from: State, events: seq<Event>, to: State)
    requires Run(from, events, to, true) && Inv(from)
    ensures Inv(to) && Covered(to.world)
    decreases |events|
  {
    if events != [] {
      StepKeepsInv(from, events[0]);
      RunStaysCovered(Step(from, events[0]), events[1..], to);
    }
  }

  const IDLE: State := State(World(map[], map[]), None, None, map[])

  /** In particular from the first boot on a machine that knows nothing of fixtures yet. */
  lemma FirstBootStaysCovered(events: seq<Event>, to: State)
    requires Run(IDLE, events, to, true)
    ensures Covered(to.world)
  {
    RunStaysCovered(IDLE, events, to);
  }

  // ------------------------------------------------------------------------------ a launch outliving its deadline

  /** Whatever happens from here on in an orderly way, every resource with the label stays named. */
  ghost predicate StaysCovered(s: State) {
    forall events: seq<Event>, to: State :: Run(s, events, to, true) ==> Covered(to.world)
  }

  ghost predicate Reaches(from: State, to: State, orderly: bool) {
    exists events: seq<Event> :: Run(from, events, to, orderly)
  }

  lemma {:induction false} RunThen(from: State, events: seq<Event>, mid: State, e: Event, orderly: bool)
    requires Run(from, events, mid, orderly) && Enabled(mid, e) && (orderly ==> Orderly(mid, e))
    ensures Run(from, events + [e], Step(mid, e), orderly)
    decreases |events|
  {
    if events == [] {
      assert [e][1..] == [] && events + [e] == [e];
    } else {
      RunThen(Step(from, events[0]), events[1..], mid, e, orderly);
      assert (events + [e])[1..] == events[1..] + [e];
    }
  }

  lemma ReachesThen(from: State, mid: State, e: Event, orderly: bool)
    requires Reaches(from, mid, orderly) && Enabled(mid, e) && (orderly ==> Orderly(mid, e))
    ensures Reaches(from, Step(mid, e), orderly)
  {
    var events: seq<Event> :| Run(from, events, mid, orderly);
    RunThen(from, events, mid, e, orderly);
  }

  /** The commands of one stage, one after the other. */
  lemma {:induction false} RemovesReach(from: State, mid: State, ids: set<Id>, orderly: bool)
    requires Reaches(from, mid, orderly) && mid.sweep.Some? && mid.sweep.value.pending.Some? && mid.attached == map[]
    requires ids <= mid.sweep.value.pending.value
    ensures Reaches(from, WithDocker(mid, mid.world.docker - ids), orderly)
    decreases ids
  {
    if ids == {} {
      assert WithDocker(mid, mid.world.docker - ids) == mid;
    } else {
      var id :| id in ids;
      ReachesThen(from, mid, Remove(id), orderly);
      RemovesReach(from, Step(mid, Remove(id)), ids - {id}, orderly);
      assert mid.world.docker - {id} - (ids - {id}) == mid.world.docker - ids;
    }
  }

  /** The state after the stage whose listing is pending. */
  function Cleared(s: State): State
    requires s.sweep.Some? && s.sweep.value.stage.Some? && s.sweep.value.pending.Some?
  {
    var w := s.sweep.value;
    WithDocker(s, s.world.docker - w.pending.value).(sweep := Some(w.(stage := After(w.stage.value), pending := None)))
  }

  lemma ClearedReached(from: State, s: State, orderly: bool)
    requires Reaches(from, s, orderly)
    requires s.sweep.Some? && s.sweep.value.stage.Some? && s.sweep.value.pending.Some? && s.attached == map[]
    ensures Reaches(from, Cleared(s), orderly)
  {
    var pending := s.sweep.value.pending.value;
    RemovesReach(from, s, pending, orderly);
    ReachesThen(from, WithDocker(s, s.world.docker - pending), NextStage, orderly);
  }

  /** Every running container may stop at any time. */
  lemma {:induction false} AllExit(from: State, s: State)
    requires Reaches(from, s, true)
    ensures Reaches(from, s.(attached := map[]), true)
    decreases |s.attached|
  {
    if s.attached == map[] {
      assert s.(attached := map[]) == s;
    } else {
      var id :| id in s.attached;
      ReachesThen(from, s, Exit(id), true);
      AllExit(from, Step(s, Exit(id)));
    }
  }

  /** A sweep under way can be brought to its end. */
  lemma {:induction false} SweepEnds(from: State, s: State) returns (end: State)
    requires Reaches(from, s, true) && s.sweep.Some? && s.attached == map[]
    ensures Reaches(from, end, true)
    ensures end.launch == s.launch && end.world.dirs == s.world.dirs
    ensures end.sweep.Some? && end.sweep.value.stage.None? && end.sweep.value.dir == s.sweep.value.dir
    decreases match s.sweep.value.stage case None => 0 case Some(Net) => 1 case Some(Model) => 2 case Some(Agents) => 3
  {
    if s.sweep.value.stage.None? { return s; }
    var listed := s;
    if s.sweep.value.pending.None? {
      ReachesThen(from, s, List, true);
      listed := Step(s, List);
    }
    ClearedReached(from, listed, true);
    end := SweepEnds(from, Cleared(listed));
  }

  /** No other descriptor has the agent id of this one: agent ids are drawn at random. */
  ghost predicate OwnAgent(dirs: map<Dir, Descriptor>, dir: Dir, agentId: string) {
    forall d :: d in dirs && dirs[d].Whole? && d != dir ==> dirs[d].fixture.agentId != agentId
  }

  /** The agent's container appears after the last listing, and then the directory goes. */
  lemma OwnSweepLeaks(s: State) returns (to: State)
    requires Shape(s) && !Apart(s) && s.launch.value.creating
    requires OwnAgent(s.world.dirs, s.launch.value.dir, s.launch.value.fixture.agentId)
    ensures Reaches(s, to, true) && !Covered(to.world)
  {
    assert Run(s, [], s, true);
    AllExit(s, s);
    var end := SweepEnds(s, s.(attached := map[]));
    var dirs, l := end.world.dirs, s.launch.value;
    var names := set d | d in dirs && dirs[d].Whole? :: dirs[d].fixture.container;
    SomeUnused(end.world.docker.Keys);
    SomeUnused(names);
    var id: Id :| id !in end.world.docker.Keys;
    var name: string :| name !in names;
    assert forall d :: d in dirs && dirs[d].Whole? ==> dirs[d].fixture.container != name;
    var r := Container(true, Some(l.fixture.agentId), name);
    ReachesThen(s, end, Create(id, r), true);
    var created := Step(end, Create(id, r));
    ReachesThen(s, created, RemoveDir, true);
    to := Step(created, RemoveDir);
    assert to.world.docker[id] == r && !NamedIn(to.world.dirs, r);
  }

  /**
   The deadline rejects the launch's promise but does not stop the launch. While it goes on creating things, they stay
   named in every continuation exactly when the sweep under way, if there is one, is not of its own directory.
   */
  lemma SweepSafeExactly(s: State)
    requires Shape(s) && (Apart(s) ==> SweepInv(s))
    requires s.launch.Some? && s.launch.value.creating
    requires OwnAgent(s.world.dirs, s.launch.value.dir, s.launch.value.fixture.agentId)
    ensures StaysCovered(s) <==> Apart(s)
  {
    if Apart(s) {
      InvStaysCovered(s);
    } else {
      var to := OwnSweepLeaks(s);
      var events: seq<Event> :| Run(s, events, to, true);
    }
  }

  lemma InvStaysCovered(s: State)
    requires Inv(s)
    ensures StaysCovered(s)
  {
    forall events: seq<Event>, to: State | Run(s, events, to, true) ensures Covered(to.world) {
      RunStaysCovered(s, events, to);
    }
  }

  /** So no event may be allowed that the order forbids, and none need be forbidden that it allows. */
  lemma OrderIsExact(s: State, e: Event)
    requires Inv(s) && Enabled(s, e)
    requires s.launch.Some? ==> OwnAgent(s.world.dirs, s.launch.value.dir, s.launch.value.fixture.agentId)
    ensures StaysCovered(Step(s, e)) <==> Orderly(s, e)
  {
    if Orderly(s, e) {
      StepKeepsInv(s, e);
      InvStaysCovered(Step(s, e));
    } else {
      SweepSafeExactly(Step(s, e));
    }
  }

  /** Nothing is under way, something labelled is left and no descriptor is: no later recovery will find it. */
  ghost predicate Leaked(s: State) {
    s.launch.None? && s.sweep.None? && !Covered(s.world) && s.world.dirs == map[]
  }

  function Described(dir: Dir, f: Fixture, docker: map<Id, Resource>): State {
    State(World(map[dir := Whole(f)], docker), Some(Launch(dir, f, true)), None, map[])
  }

  /** The launch has made its network and its model container when the recovery begins and finds no agent. */
  function Overtaken(dir: Dir, f: Fixture, docker: map<Id, Resource>): State {
    Described(dir, f, docker).(sweep := Some(Sweep(dir, f, Some(Agents), Some({}))))
  }

  lemma DescribedReached(dir: Dir, f: Fixture)
    ensures Reaches(IDLE, Described(dir, f, map[]), false)
  {
    assert Run(IDLE, [], IDLE, false);
    ReachesThen(IDLE, IDLE, BeginLaunch(dir, f), false);
    ReachesThen(IDLE, Step(IDLE, BeginLaunch(dir, f)), WriteDescriptor, false);
    assert Step(Step(IDLE, BeginLaunch(dir, f)), WriteDescriptor) == Described(dir, f, map[]);
  }

  lemma OvertakenReached(dir: Dir, f: Fixture, network: Id, model: Id, docker: map<Id, Resource>)
    requires network != model
    requires docker == map[network := Network(true, f.network), model := Container(true, None, f.container)]
    ensures Reaches(IDLE, Overtaken(dir, f, docker), false)
  {
    var first: map<Id, Resource> := map[network := Network(true, f.network)];
    DescribedReached(dir, f);
    ReachesThen(IDLE, Described(dir, f, map[]), Create(network, Network(true, f.network)), false);
    assert Step(Described(dir, f, map[]), Create(network, Network(true, f.network))) == Described(dir, f, first);
    ReachesThen(IDLE, Described(dir, f, first), Create(model, Container(true, None, f.container)), false);
    assert Step(Described(dir, f, first), Create(model, Container(true, None, f.container)))
        == Described(dir, f, docker);
    AgentsNotFound(dir, f, docker);
  }

  lemma AgentsNotFound(dir: Dir, f: Fixture, docker: map<Id, Resource>)
    requires Reaches(IDLE, Described(dir, f, docker), false)
    requires forall id :: id in docker ==> !Listed(f, Agents, docker[id])
    ensures Reaches(IDLE, Overtaken(dir, f, docker), false)
  {
    var s := Described(dir, f, docker);
    ReachesThen(IDLE, s, BeginSweep(dir), false);
    assert Listing(s.world, f, Agents) == {};
    ReachesThen(IDLE, Step(s, BeginSweep(dir)), List, false);
  }

  /** The stages that are left see nothing of a container of another name, and the directory goes. */
  lemma RestOfSweep(s: State, f: Fixture, id: Id) returns (to: State)
    requires Reaches(IDLE, s, false) && s.sweep.Some? && s.sweep.value.fixture == f && s.attached == map[]
    requires s.sweep.value.stage == Some(Model) && s.sweep.value.pending.None?
    requires id in s.world.docker && s.world.docker[id].Container? && s.world.docker[id].name != f.container
    ensures Reaches(IDLE, to, false) && to.sweep.None? && to.launch == s.launch
    ensures to.world.dirs == s.world.dirs - {s.sweep.value.dir}
    ensures id in to.world.docker && to.world.docker[id] == s.world.docker[id]
  {
    ReachesThen(IDLE, s, List, false);
    ClearedReached(IDLE, Step(s, List), false);
    to := Cleared(Step(s, List));
    ReachesThen(IDLE, to, List, false);
    ClearedReached(IDLE, Step(to, List), false);
    to := Cleared(Step(to, List));
    ReachesThen(IDLE, to, RemoveDir, false);
    to := Step(to, RemoveDir);
  }

  /**
   A whole run from the first boot in which it happens: the recovery has looked for agents when the agent's container
   is created; it removes the model container, the network, which the new container is not attached to yet, and the
   directory; and then the machine goes down.
   */
  lemma DeadlineLeaks(dir: Dir, f: Fixture, network: Id, model: Id, agent: Id, name: string)
    requires network != model && agent !in {network, model} && name != f.container
    ensures exists events: seq<Event>, to: State ::
              Run(IDLE, events, to, false) && Leaked(to) && agent in to.world.docker
  {
    var docker := map[network := Network(true, f.network), model := Container(true, None, f.container)];
    var s := Overtaken(dir, f, docker);
    OvertakenReached(dir, f, network, model, docker);
    ClearedReached(IDLE, s, false);
    s := Cleared(s);
    var r := Container(true, Some(f.agentId), name);
    ReachesThen(IDLE, s, Create(agent, r), false);
    var to := RestOfSweep(Step(s, Create(agent, r)), f, agent);
    ReachesThen(IDLE, to, Crash, false);
    to := Step(to, Crash);
    assert to.world.docker[agent] == r && !NamedIn(to.world.dirs, r);
    var events: seq<Event> :| Run(IDLE, events, to, false);
  }

  // -------------------------------------------------------------------------------------------------- the recovery

  /** Only resources with the fixture label may have gone; nothing is new and nothing is changed. */
  ghost predicate OnlyLabelledGone(before: map<Id, Resource>, after: map<Id, Resource>) {
    && (forall id :: id in after ==> id in before && after[id] == before[id])
    && (forall id :: id in before && !before[id].labelled ==> id in after)
  }

  /** Only complete descriptors may have gone, with their directories or without them. */
  ghost predicate OnlyWholeGone(before: map<Dir, Descriptor>, after: map<Dir, Descriptor>) {
    && (forall d :: d in after ==> d in before && (after[d] == before[d] || (before[d].Whole? && after[d].Missing?)))
    && (forall d :: d in before && !before[d].Whole? ==> d in after)
  }

  lemma NoStageListsAnything(docker: map<Id, Resource>, dirs: map<Dir, Descriptor>, f: Fixture)
    requires forall stage :: Listing(World(dirs, docker), f, stage) == {}
    ensures NothingNamed(docker, f)
  {
    forall id | id in docker && docker[id].labelled ensures !Names(f, docker[id]) {
      assert id !in Listing(World(dirs, docker), f, Agents);
      assert id !in Listing(World(dirs, docker), f, Model);
      assert id !in Listing(World(dirs, docker), f, Net);
    }
  }

  /** Whatever runs in a network of the fixture's name carries the label and is named by the fixture. */
  ghost predicate OnlyOwnInside(docker: map<Id, Resource>, attached: map<Id, string>, f: Fixture) {
    forall c :: c in attached && c in docker && docker[c].Container? && attached[c] == f.network ==>
      docker[c].labelled && Names(f, docker[c])
  }

  lemma FewerStayOwn(before: map<Id, Resource>, after: map<Id, Resource>, attached: map<Id, string>, f: Fixture)
    requires OnlyLabelledGone(before, after) && OnlyOwnInside(before, attached, f)
    ensures OnlyOwnInside(after, attached, f)
  {
  }

  ghost predicate NobodyInside(docker: map<Id, Resource>, attached: map<Id, string>, network: string) {
    forall c :: c in attached && c in docker && docker[c].Container? ==> attached[c] != network
  }

  /** With the fixture's containers gone its network is empty. */
  lemma EmptiedNetwork(dirs: map<Dir, Descriptor>, docker: map<Id, Resource>, attached: map<Id, string>, f: Fixture)
    requires OnlyOwnInside(docker, attached, f)
    requires Listing(World(dirs, docker), f, Agents) == {} && Listing(World(dirs, docker), f, Model) == {}
    ensures NobodyInside(docker, attached, f.network)
  {
    forall c | c in attached && c in docker && docker[c].Container? ensures attached[c] != f.network {
      assert c !in Listing(World(dirs, docker), f, Agents) && c !in Listing(World(dirs, docker), f, Model);
    }
  }

  /** What becomes of an operation: it may fail, and a failing one may still have had an effect. */
  datatype Fate = Fate(ok: bool, took: bool)

  /** What has gone carried the label and was named by the fixture. */
  ghost predicate OnlyNamedGone(before: map<Id, Resource>, after: map<Id, Resource>, f: Fixture) {
    forall id :: id in before && id !in after ==> before[id].labelled && Names(f, before[id])
  }

  /** What has gone carried the label and was named by some complete descriptor. */
  ghost predicate OnlyKnownGone(before: World, after: map<Id, Resource>) {
    forall id :: id in before.docker && id !in after ==>
      before.docker[id].labelled && NamedIn(before.dirs, before.docker[id])
  }

  class BootHost {
    /** What becomes of every operation, in their order. */
    const fates: nat -> Fate
    var steps: nat
    var dirs: map<Dir, Descriptor>
    var docker: map<Id, Resource>
    /** What runs in which network, as far as it matters here: nothing starts or stops while a recovery looks. */
    const attached: map<Id, string>

    constructor (w: World, attached: map<Id, string>, fates: nat -> Fate)
      ensures Now() == w && this.attached == attached && this.fates == fates
    {
      dirs, docker, this.attached, this.fates, steps := w.dirs, w.docker, attached, fates, 0;
    }

    /** No operation fails of itself. */
    ghost predicate Reliable() {
      forall n: nat :: fates(n).ok
    }

    method Next() returns (f: Fate)
      modifies `steps
      ensures f == fates(old(steps)) && steps == old(steps) + 1
    {
      f := fates(steps);
      steps := steps + 1;
    }

    ghost function Now(): World
      reads this
    {
      World(dirs, docker)
    }

    /** The state machine is where this host is. */
    ghost predicate Matches(s: State)
      reads this
    {
      s.world == Now() && s.attached == attached
    }

    /** `docker ps` or `docker network ls` with the filters of this stage. */
    method List(f: Fixture, stage: Stage) returns (ids: Option<set<Id>>)
      modifies `steps
      ensures Reliable() ==> ids.Some?
      ensures ids.Some? ==> ids.value == Listing(Now(), f, stage)
    {
      var fate := Next();
      ids := if !fate.ok then None else Some(Listing(World(dirs, docker), f, stage));
    }

    /** `docker rm` or `docker network rm`; a failing command may still have removed it. */
    method Remove(id: Id) returns (ok: bool)
      modifies `docker, `steps
      ensures Reliable() && !Blocked(old(docker), attached, id) ==> ok
      ensures ok ==> docker == old(docker) - {id}
      ensures (&& id in old(docker) && old(docker)[id].Network?
               && exists c :: c in attached && c in old(docker) && old(docker)[c].Container?
                    && attached[c] == old(docker)[id].name)
              ==> !ok && docker == old(docker)
      ensures docker == old(docker) || docker == old(docker) - {id}
    {
      if Blocked(docker, attached, id) { return false; }
      var fate := Next();
      ok := fate.ok;
      if fate.ok || fate.took { docker := docker - {id}; }
    }

    /**
     Lists one stage and removes all that was listed, going on after a failure as the parallel commands do. `at` is
     where a run of the state machine from `start` has got to.
     */
    method ClearStage(f: Fixture, stage: Stage, ghost start: State, ghost at: State)
      returns (ok: bool, ghost now: State)
      requires Reaches(start, at, true) && Matches(at) && at.sweep.Some? && at.sweep.value.fixture == f
      requires at.sweep.value.stage == Some(stage) && at.sweep.value.pending.None?
      modifies `docker, `steps
      ensures OnlyLabelledGone(old(docker), docker) && OnlyNamedGone(old(docker), docker, f)
      ensures ok ==> Listing(Now(), f, stage) == {}
      ensures Reliable() && (stage.Net? ==> NobodyInside(old(docker), attached, f.network)) ==> ok
      ensures Reaches(start, now, true) && Matches(now) && now.launch == at.launch
      ensures now.sweep.Some? && now.sweep.value.dir == at.sweep.value.dir
      ensures ok ==> now.sweep == Some(at.sweep.value.(stage := After(stage)))
    {
      now := at;
      var ids := List(f, stage);
      if ids.None? { return false, now; }
      var left := ids.value;
      ok := true;
      ReachesThen(start, now, Event.List, true);
      now := Step(now, Event.List);
      while left != {}
        invariant left <= ids.value == Listing(World(dirs, old(docker)), f, stage)
        invariant OnlyLabelledGone(old(docker), docker) && OnlyNamedGone(old(docker), docker, f)
        invariant Reliable() && (stage.Net? ==> NobodyInside(old(docker), attached, f.network)) ==> ok
        invariant ok ==> forall id :: id in docker && id in ids.value ==> id in left
        invariant Reaches(start, now, true) && Matches(now) && now.launch == at.launch
        invariant now.sweep == Some(at.sweep.value.(pending := ids))
        decreases left
      {
        var id :| id in left;
        left := left - {id};
        ghost var before := docker;
        var removed := Remove(id);
        ok := ok && removed;
        if docker != before {
          ReachesThen(start, now, Event.Remove(id), true);
          now := Step(now, Event.Remove(id));
        }
      }
      if ok {
        ReachesThen(start, now, NextStage, true);
        now := Step(now, NextStage);
      }
    }

    /** `removeExactFixtureResources`: the three stages in order; the model container is looked for once more. */
    method RemoveExact(f: Fixture, ghost start: State, ghost at: State) returns (ok: bool, ghost now: State)
      requires Reaches(start, at, true) && Matches(at)
      requires at.sweep.Some? && at.sweep == Some(Sweep(at.sweep.value.dir, f, Some(Agents), None))
      modifies `docker, `steps
      ensures OnlyLabelledGone(old(docker), docker) && OnlyNamedGone(old(docker), docker, f)
      ensures ok ==> NothingNamed(docker, f)
      ensures Reliable() && OnlyOwnInside(old(docker), attached, f) ==> ok
      ensures Reaches(start, now, true) && Matches(now) && now.launch == at.launch
      ensures now.sweep.Some? && now.sweep.value.dir == at.sweep.value.dir
      ensures ok ==> now.sweep.value.stage.None?
    {
      ok, now := ClearStage(f, Agents, start, at);
      if !ok { return; }
      ghost var first := docker;
      ok, now := ClearStage(f, Model, start, now);
      if !ok { return; }
      var remaining := List(f, Model);
      if remaining.None? || remaining.value != {} { return false, now; }
      ghost var second := docker;
      if OnlyOwnInside(old(docker), attached, f) {
        FewerAreListed(first, docker, dirs, f, Agents);
        EmptiedNetwork(dirs, docker, attached, f);
      }
      ok, now := ClearStage(f, Net, start, now);
      if ok {
        forall stage ensures Listing(Now(), f, stage) == {} {
          if stage.Agents? { FewerAreListed(first, docker, dirs, f, stage); }
          if stage.Model? { FewerAreListed(second, docker, dirs, f, stage); }
        }
        NoStageListsAnything(docker, dirs, f);
      }
    }

    /** One directory: its resources, and the directory after them, which may get half removed. */
    method RecoverOne(d: Dir, ghost start: State) returns (ok: bool)
      requires d in dirs && dirs[d].Whole? && Reaches(start, Idle(Now(), attached), true)
      modifies this
      ensures OnlyLabelledGone(old(docker), docker)
      ensures OnlyNamedGone(old(docker), docker, old(dirs)[d].fixture)
      ensures dirs == old(dirs) || dirs == old(dirs) - {d} || dirs == old(dirs)[d := Missing]
      ensures ok ==> dirs == old(dirs) - {d}
      ensures Reliable() && OnlyOwnInside(old(docker), attached, old(dirs)[d].fixture) ==> ok
      ensures Reaches(start, Idle(Now(), attached), true)
    {
      ReachesThen(start, Idle(Now(), attached), BeginSweep(d), true);
      ghost var now := Step(Idle(Now(), attached), BeginSweep(d));
      ok, now := RemoveExact(dirs[d].fixture, start, now);
      if !ok {
        ReachesThen(start, now, EndSweep, true);
        return;
      }
      var fate := Next();
      ok := fate.ok;
      if fate.ok {
        ReachesThen(start, now, RemoveDir, true);
        dirs := dirs - {d};
      } else if fate.took {
        ReachesThen(start, now, TearDir, true);
        dirs := dirs[d := Missing];
      } else {
        ReachesThen(start, now, EndSweep, true);
      }
    }

    /**
     `recoverFixtures`: one complete descriptor after the other, until something fails. Whatever happens, it is an
     orderly run of the state machine.
     */
    method RecoverFixtures() returns (complete: bool)
      modifies this
      ensures OnlyLabelledGone(old(docker), docker) && OnlyWholeGone(old(dirs), dirs)
      ensures OnlyKnownGone(old(Now()), docker)
      ensures Reaches(Idle(old(Now()), attached), Idle(Now(), attached), true)
      ensures Covered(old(Now())) ==> Covered(Now())
      ensures complete ==> forall d :: d in dirs ==> !dirs[d].Whole?
      ensures (&& Reliable()
               && forall d :: d in old(dirs) && old(dirs)[d].Whole? ==>
                    OnlyOwnInside(old(docker), attached, old(dirs)[d].fixture))
              ==> complete
      ensures complete && Covered(old(Now())) ==> forall id :: id in docker ==> !docker[id].labelled
    {
      ghost var start := Idle(Now(), attached);
      assert Run(start, [], start, true);
      var left := dirs.Keys;
      complete := true;
      while left != {} && complete
        invariant OnlyLabelledGone(old(docker), docker) && OnlyWholeGone(old(dirs), dirs)
        invariant OnlyKnownGone(old(Now()), docker)
        invariant Reaches(start, Idle(Now(), attached), true)
        invariant complete ==> forall d :: d in dirs && dirs[d].Whole? ==> d in left
        invariant (&& Reliable()
                   && forall d :: d in old(dirs) && old(dirs)[d].Whole? ==>
                        OnlyOwnInside(old(docker), attached, old(dirs)[d].fixture))
                  ==> complete
        decreases left
      {
        var d :| d in left;
        left := left - {d};
        if d in dirs && dirs[d].Whole? { complete := RecoverOne(d, start); }
      }
      if Covered(start.world) { ReachedIsCovered(start, Idle(Now(), attached)); }
    }
  }

  /** Nothing is under way. */
  function Idle(w: World, attached: map<Id, string>): State { State(w, None, None, attached) }

  lemma ReachedIsCovered(start: State, to: State)
    requires Inv(start) && Reaches(start, to, true)
    ensures Covered(to.world)
  {
    var events: seq<Event> :| Run(start, events, to, true);
    RunStaysCovered(start, events, to);
  }

  lemma FewerAreListed(before: map<Id, Resource>, after: map<Id, Resource>, dirs: map<Dir, Descriptor>, f: Fixture,
                       stage: Stage)
    requires OnlyLabelledGone(before, after) && Listing(World(dirs, before), f, stage) == {}
    ensures Listing(World(dirs, after), f, stage) == {}
  {
    forall id | id in after ensures !Listed(f, stage, after[id]) {
      assert id !in Listing(World(dirs, before), f, stage);
    }
  }
}
