/**
 Hermes setup sessions: one-time tokens with an expiry, one terminal process per session, and a cleanup that is reached
 from many sides. Between two awaits a method runs alone, so that every event below is atomic; `create` waits after it
 pruned the expired sessions, and again between its check and the registration of its session: three events.
 */
module SetupSessions {
  import opened Options

  type Id = string
  type Hasher = string -> string

  datatype Session = Session(tokenHash: string, expiresAt: int, used: bool, taken: bool, running: bool)

  /** What a session was created with. */
  datatype Birth = Birth(token: string, expiresAt: int)

  datatype Grant = Grant(id: Id, token: string, at: int)

  /** Everything that ever happened: sessions, upgrades, sockets taken, processes, containers and signals. */
  datatype History = History(
    created: map<Id, Birth>,
    grants: seq<Grant>,
    sockets: seq<Id>,
    spawns: seq<Id>,
    removed: multiset<Id>,
    killed: multiset<Id>)

  /** `creating` counts the calls of `create` that have passed their check and not yet registered a session. */
  datatype State = State(sessions: map<Id, Session>, creating: nat, clock: int, past: History)

  const START: State := State(map[], 0, 0, History(map[], [], [], [], multiset{}, multiset{}))

  /**
   `open` after it took the socket: its first message throws and nothing is started, the spawn throws, the message
   after the spawn throws, or the process runs.
   */
  datatype Start = Silent | SpawnThrows | SpawnedThenThrows | Runs

  datatype Event =
    | CreatePrune(now: int)
    | CreateCheck(now: int)
    | CreateCommit(id: Id, token: string, now: int, ttl: nat)
    | CreateFails
    | Authorize(path: Option<Id>, protocol: Option<string>, now: int)
    | Open(id: Id, now: int, start: Start)
    | Message(id: Id, now: int)
    | Close(id: Id)
    | Finish(id: Id)
    | Expire(id: Id)

  function Expired(s: State, now: int): set<Id> {
    set id | id in s.sessions && now >= s.sessions[id].expiresAt
  }

  function Unexpired(s: State, now: int): set<Id> {
    set id | id in s.sessions && now < s.sessions[id].expiresAt
  }

  function Running(s: State, ids: set<Id>): set<Id> {
    set id | id in ids && id in s.sessions && s.sessions[id].running
  }

  /** `#cleanup` of these sessions: forget them, stop their processes, and remove their containers. */
  function CleanupAll(s: State, ids: set<Id>, kill: bool): State
    requires ids <= s.sessions.Keys
  {
    s.(sessions := s.sessions - ids,
       past := s.past.(removed := s.past.removed + multiset(ids),
                       killed := if kill then s.past.killed + multiset(Running(s, ids)) else s.past.killed))
  }

  function CleanupOne(s: State, id: Id, kill: bool): State {
    if id in s.sessions then CleanupAll(s, {id}, kill) else s
  }

  function Prune(s: State, now: int): State { CleanupAll(s, Expired(s, now), true) }

  /** The tests of `authorizeUpgrade`. */
  predicate Grants(s: State, id: Option<Id>, token: Option<string>, now: int, hash: Hasher) {
    && id.Some? && id.value in s.sessions && token.Some?
    && var session := s.sessions[id.value];
       !session.used && now < session.expiresAt && hash(token.value) == session.tokenHash
  }

  /** `open` takes the socket of a session that has none and has not expired. */
  predicate Accepts(s: State, id: Id, now: int) {
    id in s.sessions && !s.sessions[id].taken && now < s.sessions[id].expiresAt
  }

  predicate Enabled(s: State, e: Event) {
    match e
    case CreateCommit(id, _, now, _) => s.creating > 0 && id !in s.past.created && now >= s.clock
    case CreateFails => s.creating > 0
    case CreatePrune(now) => now >= s.clock
    case CreateCheck(now) => now >= s.clock
    case Authorize(_, _, now) => now >= s.clock
    case Open(_, now, _) => now >= s.clock
    case Message(_, now) => now >= s.clock
    case _ => true
  }

  function Granted(s: State, id: Id, token: string, now: int): State
    requires id in s.sessions
  {
    s.(sessions := s.sessions[id := s.sessions[id].(used := true)],
       past := s.past.(grants := s.past.grants + [Grant(id, token, now)]))
  }

  function Taken(s: State, id: Id, start: Start): State
    requires id in s.sessions
  {
    var spawned := start.Runs? || start.SpawnedThenThrows?;
    s.(sessions := s.sessions[id := s.sessions[id].(taken := true, running := spawned)],
       past := s.past.(sockets := s.past.sockets + [id],
                       spawns := if spawned then s.past.spawns + [id] else s.past.spawns))
  }

  function Opened(s: State, id: Id, start: Start): State
    requires id in s.sessions
  {
    if start.Runs? || start.Silent? then Taken(s, id, start) else CleanupOne(Taken(s, id, start), id, true)
  }

  function Step(s: State, e: Event, hash: Hasher): State
    requires Enabled(s, e)
  {
    match e
    case CreatePrune(now) => Prune(s, now).(clock := now)
    case CreateCheck(now) =>
      var s1 := s.(clock := now);
      if Unexpired(s1, now) == {} then s1.(creating := s.creating + 1) else s1
    case CreateCommit(id, token, now, ttl) =>
      s.(sessions := s.sessions[id := Session(hash(token), now + ttl, false, false, false)],
         creating := s.creating - 1,
         clock := now,
         past := s.past.(created := s.past.created[id := Birth(token, now + ttl)]))
    case CreateFails => s.(creating := s.creating - 1)
    case Authorize(id, token, now) =>
      var pruned := Prune(s, now).(clock := now);
      if Grants(pruned, id, token, now, hash) then Granted(pruned, id.value, token.value, now) else pruned
    case Open(id, now, start) =>
      var s1 := s.(clock := now);
      if Accepts(s1, id, now) then Opened(s1, id, start)
      else if id in s1.sessions && now >= s1.sessions[id].expiresAt then CleanupOne(s1, id, true)
      else s1
    case Message(id, now) =>
      var s1 := s.(clock := now);
      if id in s1.sessions && now >= s1.sessions[id].expiresAt then CleanupOne(s1, id, true) else s1
    case Close(id) => CleanupOne(s, id, true)
    case Finish(id) => CleanupOne(s, id, false)
    case Expire(id) => CleanupOne(s, id, true)
  }

  // ----------------------------------------------------------------------------------------------- the invariant

  ghost predicate BirthsMatch(s: State, hash: Hasher) {
    forall id :: id in s.sessions ==>
      id in s.past.created
      && s.sessions[id].tokenHash == hash(s.past.created[id].token)
      && s.sessions[id].expiresAt == s.past.created[id].expiresAt
  }

  /** A container was removed exactly once for every session that is gone, and never for one that is there. */
  ghost predicate RemovedOnce(s: State) {
    forall id :: s.past.removed[id] == if id in s.past.created && id !in s.sessions then 1 else 0
  }

  /** No two grants for one session; each for its own token, before its expiry; one still there knows it is used. */
  ghost predicate GrantedOnce(s: State, hash: Hasher) {
    && (forall i, j :: 0 <= i < j < |s.past.grants| ==> s.past.grants[i].id != s.past.grants[j].id)
    && forall i :: 0 <= i < |s.past.grants| ==>
         var g := s.past.grants[i];
         && g.id in s.past.created
         && hash(g.token) == hash(s.past.created[g.id].token) && g.at < s.past.created[g.id].expiresAt
         && (g.id in s.sessions ==> s.sessions[g.id].used)
  }

  /** Some upgrade was granted for the session. */
  ghost predicate HasGrant(past: History, id: Id) {
    exists g :: g in past.grants && g.id == id
  }

  /** What a session that is there knows of its own history. */
  ghost predicate Remembers(s: State) {
    forall id :: id in s.sessions ==>
      && (s.sessions[id].used ==> HasGrant(s.past, id))
      && (s.sessions[id].taken <==> id in s.past.sockets)
      && (s.sessions[id].running <==> id in s.past.spawns)
  }

  ghost predicate OpenedOnlyCreated(s: State) {
    forall id :: id in s.past.sockets ==> id in s.past.created
  }

  ghost predicate SpawnedOnce(s: State) {
    && (forall i, j :: 0 <= i < j < |s.past.spawns| ==> s.past.spawns[i] != s.past.spawns[j])
    && forall i :: 0 <= i < |s.past.spawns| ==>
         s.past.spawns[i] in s.past.created
         && (s.past.spawns[i] in s.sessions ==> s.sessions[s.past.spawns[i]].taken)
  }

  ghost predicate Inv(s: State, hash: Hasher) {
    && BirthsMatch(s, hash) && RemovedOnce(s) && GrantedOnce(s, hash) && SpawnedOnce(s)
    && Remembers(s) && OpenedOnlyCreated(s)
  }

  // ------------------------------------------------------------------------------- what the history alone says

  /** The session was created and its container has not been removed. */
  predicate Live(past: History, id: Id) { id in past.created && past.removed[id] == 0 }

  /** It is live and its time is not over. */
  predicate LiveAt(past: History, id: Id, now: int) { Live(past, id) && now < past.created[id].expiresAt }

  lemma ThereMeansLive(s: State, hash: Hasher)
    requires Inv(s, hash)
    ensures forall id :: id in s.sessions <==> Live(s.past, id)
  {
  }

  /** An upgrade is granted exactly for the token of a live session before its expiry, and for the first time. */
  ghost predicate MayUpgrade(past: History, path: Option<Id>, token: Option<string>, now: int, hash: Hasher) {
    && path.Some? && token.Some? && LiveAt(past, path.value, now)
    && (forall g :: g in past.grants ==> g.id != path.value)
    && hash(token.value) == hash(past.created[path.value].token)
  }

  lemma GrantsMeans(s: State, path: Option<Id>, token: Option<string>, now: int, hash: Hasher)
    requires Inv(s, hash)
    ensures Grants(s, path, token, now, hash) <==> MayUpgrade(s.past, path, token, now, hash)
  {
    if path.Some? && path.value in s.sessions && s.sessions[path.value].used {
      assert HasGrant(s.past, path.value);
    }
    if g :| path.Some? && path.value in s.sessions && g in s.past.grants && g.id == path.value {
      var i :| 0 <= i < |s.past.grants| && s.past.grants[i] == g;
    }
  }

  /** The pruning that comes first changes nothing about that. */
  lemma UpgradeMeans(s: State, path: Option<Id>, token: Option<string>, now: int, hash: Hasher)
    requires Inv(s, hash)
    ensures var pruned := Prune(s, now).(clock := now);
            && (Grants(pruned, path, token, now, hash) <==> MayUpgrade(s.past, path, token, now, hash))
            && forall id :: Live(pruned.past, id) <==> LiveAt(s.past, id, now)
  {
    CleanupKeepsInv(s, Expired(s, now), true, hash);
    GrantsMeans(Prune(s, now).(clock := now), path, token, now, hash);
  }

  /** A socket is taken exactly for a live session before its expiry, and for the first time. */
  lemma AcceptsMeans(s: State, id: Id, now: int, hash: Hasher)
    requires Inv(s, hash)
    ensures Accepts(s, id, now) <==> LiveAt(s.past, id, now) && id !in s.past.sockets
  {
  }

  lemma CleanupKeepsInv(s: State, ids: set<Id>, kill: bool, hash: Hasher)
    requires Inv(s, hash) && ids <= s.sessions.Keys
    ensures Inv(CleanupAll(s, ids, kill), hash)
  {
  }

  lemma GrantKeepsInv(s: State, id: Id, token: string, now: int, hash: Hasher)
    requires Inv(s, hash) && Grants(s, Some(id), Some(token), now, hash)
    ensures Inv(Granted(s, id, token, now), hash)
  {
  }

  lemma OpenKeepsInv(s: State, id: Id, start: Start, now: int, hash: Hasher)
    requires Inv(s, hash) && Accepts(s, id, now)
    ensures Inv(Opened(s, id, start), hash)
  {
    assert Inv(Taken(s, id, start), hash);
    CleanupKeepsInv(Taken(s, id, start), {id}, true, hash);
  }

  lemma CommitKeepsInv(s: State, e: Event, hash: Hasher)
    requires Inv(s, hash) && Enabled(s, e) && e.CreateCommit?
    ensures Inv(Step(s, e, hash), hash)
  {
  }

  lemma StepKeepsInv(s: State, e: Event, hash: Hasher)
    requires Inv(s, hash) && Enabled(s, e)
    ensures Inv(Step(s, e, hash), hash)
  {
    match e {
      case CreatePrune(now) => CleanupKeepsInv(s, Expired(s, now), true, hash);
      case CreateCheck(_) =>
      case CreateCommit(_, _, _, _) => CommitKeepsInv(s, e, hash);
      case CreateFails =>
      case Authorize(id, token, now) =>
        CleanupKeepsInv(s, Expired(s, now), true, hash);
        var pruned := Prune(s, now).(clock := now);
        assert Inv(pruned, hash);
        if Grants(pruned, id, token, now, hash) { GrantKeepsInv(pruned, id.value, token.value, now, hash); }
      case Open(id, now, start) =>
        var s1 := s.(clock := now);
        assert Inv(s1, hash);
        if Accepts(s1, id, now) {
          OpenKeepsInv(s1, id, start, now, hash);
        } else if id in s1.sessions {
          CleanupKeepsInv(s1, {id}, true, hash);
        }
      case Message(id, now) =>
        var s1 := s.(clock := now);
        assert Inv(s1, hash);
        if id in s1.sessions { CleanupKeepsInv(s1, {id}, true, hash); }
      case Close(id) => if id in s.sessions { CleanupKeepsInv(s, {id}, true, hash); }
      case Finish(id) => if id in s.sessions { CleanupKeepsInv(s, {id}, false, hash); }
      case Expire(id) => if id in s.sessions { CleanupKeepsInv(s, {id}, true, hash); }
    }
  }

  // ------------------------------------------------------------------------------------------------- whole runs

  ghost predicate Run(from: State, events: seq<Event>, to: State, hash: Hasher)
    decreases |events|
  {
    if events == [] then from == to
    else Enabled(from, events[0]) && Run(Step(from, events[0], hash), events[1..], to, hash)
  }

  lemma {:induction false} RunKeepsInv(from: State, events: seq<Event>, to: State, hash: Hasher)
    requires Run(from, events, to, hash) && Inv(from, hash)
    ensures Inv(to, hash)
    decreases |events|
  {
    if events != [] {
      StepKeepsInv(from, events[0], hash);
      RunKeepsInv(Step(from, events[0], hash), events[1..], to, hash);
    }
  }

  /** Different tokens have different hashes. */
  ghost predicate Injective(hash: Hasher) {
    forall a, b :: hash(a) == hash(b) ==> a == b
  }

  /**
   Over any run: a session authorizes at most one upgrade, only with its own token and before its expiry; it spawns at
   most one process; and its container is removed exactly once when the session is gone, however it went.
   */
  lemma EverySessionOnce(events: seq<Event>, to: State, id: Id, hash: Hasher)
    requires Run(START, events, to, hash) && Injective(hash)
    ensures forall i, j ::
              0 <= i < j < |to.past.grants| ==> !(to.past.grants[i].id == id && to.past.grants[j].id == id)
    ensures forall i :: 0 <= i < |to.past.grants| && to.past.grants[i].id == id ==>
              id in to.past.created && to.past.grants[i].token == to.past.created[id].token
              && to.past.grants[i].at < to.past.created[id].expiresAt
    ensures multiset(to.past.spawns)[id] <= 1
    ensures to.past.removed[id] == if id in to.past.created && id !in to.sessions then 1 else 0
  {
    RunKeepsInv(START, events, to, hash);
    CountDistinct(to.past.spawns, id);
  }

  lemma {:induction false} CountDistinct(s: seq<Id>, id: Id)
    requires forall i, j :: 0 <= i < j < |s| ==> s[i] != s[j]
    ensures multiset(s)[id] <= 1
  {
    if s != [] {
      CountDistinct(s[1..], id);
      assert s == [s[0]] + s[1..];
      assert forall i :: 0 <= i < |s[1..]| ==> s[1..][i] == s[i + 1];
      assert s[0] !in s[1..];
    }
  }

  // --------------------------------------------------------------------------------------------- one session at a time

  /** `create` calls do not overlap: none passes its check while another is between its check and its end. */
  predicate Separate(s: State, e: Event) { e.CreateCheck? ==> s.creating == 0 }

  ghost predicate SeparateRun(from: State, events: seq<Event>, to: State, hash: Hasher)
    decreases |events|
  {
    if events == [] then from == to
    else
      && Enabled(from, events[0]) && Separate(from, events[0])
      && SeparateRun(Step(from, events[0], hash), events[1..], to, hash)
  }

  /** At most one session is unexpired, and none while a create is about to register one. */
  ghost predicate OneUnexpired(s: State) {
    && s.creating <= 1
    && (s.creating == 1 ==> Unexpired(s, s.clock) == {})
    && forall a, b :: a in Unexpired(s, s.clock) && b in Unexpired(s, s.clock) ==> a == b
  }

  /** Everything but registering a session only takes away or lets time pass. */
  lemma OthersOnlyShrink(s: State, e: Event, hash: Hasher)
    requires Enabled(s, e) && !e.CreateCommit?
    ensures Step(s, e, hash).clock >= s.clock
    ensures Unexpired(Step(s, e, hash), Step(s, e, hash).clock) <= Unexpired(s, s.clock)
  {
  }

  lemma StepKeepsOne(s: State, e: Event, hash: Hasher)
    requires OneUnexpired(s) && Enabled(s, e) && Separate(s, e)
    ensures OneUnexpired(Step(s, e, hash))
  {
    var t := Step(s, e, hash);
    if e.CreateCommit? {
      assert forall id :: id in Unexpired(t, t.clock) ==> id == e.id || id in Unexpired(s, s.clock);
    } else {
      OthersOnlyShrink(s, e, hash);
    }
  }

  /** While creates do not overlap, at most one session is unexpired at any time. */
  lemma {:induction false} RunKeepsOne(from: State, events: seq<Event>, to: State, hash: Hasher)
    requires SeparateRun(from, events, to, hash) && OneUnexpired(from)
    ensures OneUnexpired(to)
    decreases |events|
  {
    if events != [] {
      StepKeepsOne(from, events[0], hash);
      RunKeepsOne(Step(from, events[0], hash), events[1..], to, hash);
    }
  }

  lemma NeverTwoUnexpired(events: seq<Event>, to: State, a: Id, b: Id, hash: Hasher)
    requires SeparateRun(START, events, to, hash)
    requires a in Unexpired(to, to.clock) && b in Unexpired(to, to.clock)
    ensures a == b
  {
    RunKeepsOne(START, events, to, hash);
  }

  /**
   Registering a session that lives for a while keeps at most one unexpired exactly when none is unexpired then; the
   check was made earlier, before two awaits.
   */
  lemma CommitSafeExactly(s: State, id: Id, token: string, now: int, ttl: nat, hash: Hasher)
    requires Enabled(s, CreateCommit(id, token, now, ttl)) && ttl > 0 && BirthsMatch(s, hash)
    ensures var t := Step(s, CreateCommit(id, token, now, ttl), hash);
            (forall a, b :: a in Unexpired(t, now) && b in Unexpired(t, now) ==> a == b) <==> Unexpired(s, now) == {}
  {
    var t := Step(s, CreateCommit(id, token, now, ttl), hash);
    assert id in Unexpired(t, now) && forall k :: k in Unexpired(t, now) ==> k == id || k in Unexpired(s, now);
    if Unexpired(s, now) != {} {
      var other :| other in Unexpired(s, now);
      assert other in Unexpired(t, now) && other != id;
    }
  }

  /** Two creates that overlap both register a session. */
  lemma OverlappingCreates(a: Id, b: Id, ttl: nat, hash: Hasher)
    requires a != b && ttl > 0
    ensures exists events: seq<Event>, to: State :: Run(START, events, to, hash) && {a, b} <= Unexpired(to, to.clock)
  {
    var s1 := Step(START, CreateCheck(0), hash);
    assert Unexpired(START, 0) == {};
    var s2 := Step(s1, CreateCheck(0), hash);
    assert s2.creating == 2;
    var s3 := Step(s2, CreateCommit(a, "", 0, ttl), hash);
    var s4 := Step(s3, CreateCommit(b, "", 0, ttl), hash);
    RunFrom(s3, CreateCommit(b, "", 0, ttl), [], s4, hash);
    RunFrom(s2, CreateCommit(a, "", 0, ttl), [CreateCommit(b, "", 0, ttl)] + [], s4, hash);
    var last := [CreateCommit(a, "", 0, ttl)] + ([CreateCommit(b, "", 0, ttl)] + []);
    RunFrom(s1, CreateCheck(0), last, s4, hash);
    RunFrom(START, CreateCheck(0), [CreateCheck(0)] + last, s4, hash);
    assert {a, b} <= Unexpired(s4, s4.clock);
  }

  lemma RunFrom(from: State, e: Event, events: seq<Event>, to: State, hash: Hasher)
    requires Enabled(from, e) && Run(Step(from, e, hash), events, to, hash)
    ensures Run(from, [e] + events, to, hash)
  {
    assert ([e] + events)[1..] == events;
  }

  // ------------------------------------------------------------------------------------------------- the manager

  /** The manager's map, with a record of everything that happened beside it. */
  class SetupSessionManager {
    const hash: Hasher
    const ttl: nat
    var sessions: map<Id, Session>
    ghost var creating: nat
    ghost var clock: int
    ghost var past: History

    constructor (hash: Hasher, ttl: nat)
      ensures this.hash == hash && this.ttl == ttl && Now() == START && Valid()
    {
      this.hash, this.ttl := hash, ttl;
      sessions, creating, clock, past := map[], 0, 0, START.past;
    }

    ghost function Now(): State
      reads this
    {
      State(sessions, creating, clock, past)
    }

    ghost predicate Valid()
      reads this
    {
      Inv(Now(), hash)
    }

    /** `#cleanup`: the entry goes before anything else happens, so that no second cleanup finds it. */
    method Cleanup(id: Id, kill: bool)
      modifies this
      ensures Now() == CleanupOne(old(Now()), id, kill)
    {
      if id !in sessions { return; }
      var session := sessions[id];
      assert Running(Now(), {id}) == if session.running then {id} else {};
      sessions := sessions - {id};
      if kill && session.running {
        past := past.(killed := past.killed + multiset{id});
      }
      past := past.(removed := past.removed + multiset{id});
      assert multiset({id}) == multiset{id};
    }

    /** `#pruneExpired` */
    method PruneExpired(now: int)
      modifies this
      ensures Now() == Prune(old(Now()), now)
    {
      ghost var before, all := Now(), Expired(Now(), now);
      var left := set id | id in sessions && now >= sessions[id].expiresAt;
      ghost var done: set<Id> := {};
      PrunedNone(before);
      while left != {}
        invariant left + done == all && left !! done
        invariant Now() == CleanupAll(before, done, true)
        decreases left
      {
        var id :| id in left;
        left := left - {id};
        PrunedOneMore(before, done, id);
        Cleanup(id, true);
        done := done + {id};
      }
      assert done == all;
    }

    /** The first part of `create`: the expired sessions go, and their containers after them. */
    method CreatePrune(now: int)
      requires Valid() && now >= clock
      modifies this
      ensures Now() == Step(old(Now()), Event.CreatePrune(now), hash) && Valid()
      ensures forall id :: Live(past, id) <==> LiveAt(old(past), id, now)
    {
      StepKeepsInv(Now(), Event.CreatePrune(now), hash);
      PruneExpired(now);
      clock := now;
    }

    /** The second part: refuse when a session is active. */
    method CreateCheck(now: int) returns (ok: bool)
      requires Valid() && now >= clock
      modifies this
      ensures Now() == Step(old(Now()), Event.CreateCheck(now), hash) && Valid()
      ensures ok <==> creating == old(creating) + 1
      ensures ok <==> forall id :: !LiveAt(past, id, now)
    {
      StepKeepsInv(Now(), Event.CreateCheck(now), hash);
      clock := now;
      var active := set id | id in sessions && now < sessions[id].expiresAt;
      assert active == Unexpired(Now(), now);
      ok := active == {};
      forall id ensures id in active <==> LiveAt(past, id, now) { assert Live(past, id) <==> id in sessions; }
      if ok { creating := creating + 1; }
    }

    /** The last part: with a new id and token the session is registered. */
    method CreateCommit(id: Id, token: string, now: int)
      requires Valid() && Enabled(Now(), Event.CreateCommit(id, token, now, ttl))
      modifies this
      ensures Now() == Step(old(Now()), Event.CreateCommit(id, token, now, ttl), hash) && Valid()
      ensures past.created == old(past).created[id := Birth(token, now + ttl)] && past.grants == old(past).grants
      ensures forall k :: Live(past, k) <==> k == id || Live(old(past), k)
    {
      StepKeepsInv(Now(), Event.CreateCommit(id, token, now, ttl), hash);
      sessions := sessions[id := Session(hash(token), now + ttl, false, false, false)];
      creating, clock := creating - 1, now;
      past := past.(created := past.created[id := Birth(token, now + ttl)]);
    }

    method AuthorizeUpgrade(path: Option<Id>, protocol: Option<string>, now: int) returns (ok: bool)
      requires Valid() && now >= clock
      modifies this
      ensures Now() == Step(old(Now()), Authorize(path, protocol, now), hash) && Valid()
      ensures ok <==>
                && path.Some? && path.value in old(past.created) && old(past.removed)[path.value] == 0
                && (forall g :: g in old(past.grants) ==> g.id != path.value)
                && now < old(past.created)[path.value].expiresAt
                && protocol.Some? && hash(protocol.value) == hash(old(past.created)[path.value].token)
      ensures past.grants == old(past.grants) + if ok then [Grant(path.value, protocol.value, now)] else []
      ensures forall id :: Live(past, id) <==> LiveAt(old(past), id, now)
    {
      UpgradeMeans(Now(), path, protocol, now, hash);
      StepKeepsInv(Now(), Authorize(path, protocol, now), hash);
      PruneExpired(now);
      clock := now;
      ok := path.Some? && path.value in sessions && !sessions[path.value].used && now < sessions[path.value].expiresAt
        && protocol.Some? && hash(protocol.value) == sessions[path.value].tokenHash;
      if ok {
        sessions := sessions[path.value := sessions[path.value].(used := true)];
        past := past.(grants := past.grants + [Grant(path.value, protocol.value, now)]);
      }
    }

    method Open(id: Id, now: int, start: Start)
      requires Valid() && now >= clock
      modifies this
      ensures Now() == Step(old(Now()), Event.Open(id, now, start), hash) && Valid()
      ensures var takes := LiveAt(old(past), id, now) && id !in old(past.sockets);
              && past.sockets == old(past.sockets) + (if takes then [id] else [])
              && past.spawns == old(past.spawns)
                                + (if takes && (start.Runs? || start.SpawnedThenThrows?) then [id] else [])
              && (Live(past, id) <==>
                    LiveAt(old(past), id, now) && !(takes && (start.SpawnThrows? || start.SpawnedThenThrows?)))
      ensures forall k :: k != id ==> (Live(past, k) <==> Live(old(past), k))
    {
      AcceptsMeans(Now(), id, now, hash);
      StepKeepsInv(Now(), Event.Open(id, now, start), hash);
      clock := now;
      if id !in sessions || sessions[id].taken || now >= sessions[id].expiresAt {
        if id in sessions && now >= sessions[id].expiresAt { Cleanup(id, true); }
        return;
      }
      var spawned := start.Runs? || start.SpawnedThenThrows?;
      sessions := sessions[id := sessions[id].(taken := true, running := spawned)];
      past := past.(sockets := past.sockets + [id], spawns := if spawned then past.spawns + [id] else past.spawns);
      if start.SpawnThrows? || start.SpawnedThenThrows? { Cleanup(id, true); }
    }

    /** A message is passed on only to a running process of an unexpired session. */
    method Message(id: Id, now: int, readable: bool) returns (passed: bool)
      requires Valid() && now >= clock
      modifies this
      ensures Now() == Step(old(Now()), Event.Message(id, now), hash) && Valid()
      ensures passed <==> readable && LiveAt(old(past), id, now) && id in old(past.spawns)
      ensures Live(past, id) <==> LiveAt(old(past), id, now)
    {
      StepKeepsInv(Now(), Event.Message(id, now), hash);
      clock := now;
      if id !in sessions || !sessions[id].running || now >= sessions[id].expiresAt || !readable {
        if id in sessions && now >= sessions[id].expiresAt { Cleanup(id, true); }
        return false;
      }
      return true;
    }

    method Close(id: Id)
      requires Valid()
      modifies this
      ensures Now() == Step(old(Now()), Event.Close(id), hash) && Valid()
      ensures !Live(past, id) && past.removed[id] <= 1
      ensures past == if !Live(old(past), id) then old(past)
                      else
                        old(past).(removed := old(past.removed) + multiset{id},
                                   killed := old(past.killed)
                                             + if id in old(past.spawns) then multiset{id} else multiset{})
    {
      OneRemoved(Now(), id, true, hash);
      StepKeepsInv(Now(), Event.Close(id), hash);
      Cleanup(id, true);
    }

    method Finish(id: Id)
      requires Valid()
      modifies this
      ensures Now() == Step(old(Now()), Event.Finish(id), hash) && Valid()
      ensures !Live(past, id) && past.removed[id] <= 1
      ensures past == if !Live(old(past), id) then old(past)
                      else old(past).(removed := old(past.removed) + multiset{id})
    {
      OneRemoved(Now(), id, false, hash);
      StepKeepsInv(Now(), Event.Finish(id), hash);
      Cleanup(id, false);
    }

    method Expire(id: Id)
      requires Valid()
      modifies this
      ensures Now() == Step(old(Now()), Event.Expire(id), hash) && Valid()
      ensures !Live(past, id) && past.removed[id] <= 1
      ensures past == if !Live(old(past), id) then old(past)
                      else
                        old(past).(removed := old(past.removed) + multiset{id},
                                   killed := old(past.killed)
                                             + if id in old(past.spawns) then multiset{id} else multiset{})
    {
      OneRemoved(Now(), id, true, hash);
      StepKeepsInv(Now(), Event.Expire(id), hash);
      Cleanup(id, true);
    }
  }

  /** What a cleanup adds to the history: one removal, and a signal if a process was started. */
  lemma OneRemoved(s: State, id: Id, kill: bool, hash: Hasher)
    requires Inv(s, hash)
    ensures CleanupOne(s, id, kill).past
         == if !Live(s.past, id) then s.past
            else s.past.(removed := s.past.removed + multiset{id},
                         killed := s.past.killed
                                   + if kill && id in s.past.spawns then multiset{id} else multiset{})
  {
    if id in s.sessions {
      assert multiset({id}) == multiset{id};
      assert Running(s, {id}) == if id in s.past.spawns then {id} else {};
    }
  }

  lemma PrunedNone(s: State)
    ensures CleanupAll(s, {}, true) == s
  {
    var none: set<Id> := {};
    assert Running(s, none) == none;
    assert multiset(none) == multiset{};
  }

  lemma PrunedOneMore(s: State, done: set<Id>, id: Id)
    requires done <= s.sessions.Keys && id in s.sessions && id !in done
    ensures CleanupOne(CleanupAll(s, done, true), id, true) == CleanupAll(s, done + {id}, true)
  {
    var once := CleanupAll(s, done, true);
    assert Running(once, {id}) + Running(s, done) == Running(s, done + {id});
    assert multiset(Running(s, done + {id})) == multiset(Running(s, done)) + multiset(Running(once, {id}));
    assert multiset(done + {id}) == multiset(done) + multiset({id});
  }
}
