/**
 The release gate's scan of a candidate's history: every check suite of a commit, every check run of every suite, and
 the workflow run behind every run that belongs to the exact candidate, with at most a thousand requests.
 */
module HistoryScan {
  import opened Options
  import opened Ordering
  import opened Text

  const MAX_PAGES := 100
  const PER_PAGE := 100
  const MAX_REQUESTS := 1000

  datatype Control = Control(
    id: int,
    externalId: Option<string>,
    name: string,
    appSlug: string,
    detailsUrl: Option<string>,
    status: string,
    conclusion: Option<string>)

  datatype Origin = Origin(
    id: int, headSha: string, path: string, event: string, status: string, conclusion: Option<string>)

  datatype Query = SuitesPage(page: nat) | RunsPage(suite: int, page: nat) | OriginOf(run: int)

  /** What a request can bring: nothing usable, or a body that parsed. */
  datatype Reply =
    | Unusable
    | Suites(total: nat, ids: seq<int>)
    | Runs(total: nat, controls: seq<Control>)
    | Run(origin: Origin)

  /** Any server at all: its answer may depend on the query and on how many requests it has seen. */
  type Server = (nat, Query) -> Reply

  /** The candidate, and the parts of the source that depend on its repository. */
  datatype Candidate = Candidate(
    sourceRevision: string,
    controlKey: string,
    namePrefix: string,
    controlName: int -> string,
    runIdOf: Option<string> -> Option<int>,
    isWorkflowPath: string -> bool)

  datatype ScanError = BadInput | BadResponse | ScanExceeded | PriorUnsuccessful

  predicate IsExact(c: Candidate, control: Control) {
    && control.externalId == Some(c.controlKey)
    && StartsWith(control.name, c.namePrefix)
    && control.appSlug == "github-actions"
  }

  function ExactOnes(c: Candidate, controls: seq<Control>): seq<Control> {
    Filter(controls, (control: Control) => IsExact(c, control))
  }

  predicate Succeeded(control: Control) { control.status == "completed" && control.conclusion == Some("success") }

  predicate OriginFits(c: Candidate, runId: int, origin: Origin) {
    && origin.id == runId && origin.headSha == c.sourceRevision && c.isWorkflowPath(origin.path)
    && origin.event == "workflow_dispatch" && origin.status == "completed" && origin.conclusion == Some("success")
  }

  predicate GoodSuites(reply: Reply) {
    reply.Suites? && |reply.ids| <= PER_PAGE && forall id :: id in reply.ids ==> id >= 1
  }

  predicate GoodRuns(reply: Reply) {
    reply.Runs? && |reply.controls| <= PER_PAGE && forall control :: control in reply.controls ==> control.id >= 1
  }

  // --------------------------------------------------------------------------------------------- the honest server

  /** What there really is. */
  datatype World = World(suites: seq<int>, runs: map<int, seq<Control>>, origins: map<int, Origin>)

  function RunsOf(w: World, suite: int): seq<Control> { if suite in w.runs then w.runs[suite] else [] }

  function Least(a: nat, b: nat): nat { if a <= b then a else b }

  /** Page k of a list, counted from one. */
  function Slice<T>(s: seq<T>, page: nat): seq<T>
    requires page >= 1
  {
    s[Least((page - 1) * PER_PAGE, |s|)..Least(page * PER_PAGE, |s|)]
  }

  /** A server that serves slices of fixed lists with true totals, whenever it is asked. */
  ghost predicate Honest(server: Server, w: World) {
    && (forall n, page | page >= 1 :: server(n, SuitesPage(page)) == Suites(|w.suites|, Slice(w.suites, page)))
    && (forall n, suite, page | page >= 1 ::
          server(n, RunsPage(suite, page)) == Runs(|RunsOf(w, suite)|, Slice(RunsOf(w, suite), page)))
    && (forall n, run ::
          server(n, OriginOf(run)) == if run in w.origins then Run(w.origins[run]) else Unusable)
  }

  /** How many pages it takes to see a list of n: an empty list takes one as well. */
  function Pages(n: nat): nat { if n == 0 then 1 else (n + PER_PAGE - 1) / PER_PAGE }

  function PagesOf(w: World, suites: seq<int>): nat {
    if suites == [] then 0 else PagesOf(w, suites[..|suites| - 1]) + Pages(|RunsOf(w, suites[|suites| - 1])|)
  }

  function AllRuns(w: World, suites: seq<int>): seq<Control> {
    if suites == [] then [] else AllRuns(w, suites[..|suites| - 1]) + RunsOf(w, suites[|suites| - 1])
  }

  ghost predicate NoRepeats(ids: seq<int>) {
    forall i, j :: 0 <= i < j < |ids| ==> ids[i] != ids[j]
  }

  ghost predicate Positive(ids: seq<int>) { forall id :: id in ids ==> id >= 1 }

  ghost predicate ValidIds(ids: seq<int>) { Positive(ids) && NoRepeats(ids) }

  function Ids(controls: seq<Control>): seq<int> {
    seq(|controls|, i requires 0 <= i < |controls| => controls[i].id)
  }

  /** Whatever kind of server it is, this request asked for the run behind the control, and its answer fits. */
  ghost predicate AnsweredFor(c: Candidate, server: Server, n: nat, control: Control) {
    var runId := c.runIdOf(control.detailsUrl);
    && runId.Some? && control.name == c.controlName(runId.value)
    && var reply := server(n, OriginOf(runId.value));
       reply.Run? && RunsCandidate(c, runId.value, reply.origin)
  }

  /** A finished, successful run of the release workflow for the candidate's revision. */
  predicate RunsCandidate(c: Candidate, runId: int, origin: Origin) {
    && origin.id == runId && origin.headSha == c.sourceRevision && c.isWorkflowPath(origin.path)
    && origin.event == "workflow_dispatch" && origin.status == "completed" && origin.conclusion == Some("success")
  }

  ghost predicate OriginOk(c: Candidate, w: World, control: Control) {
    var runId := c.runIdOf(control.detailsUrl);
    && runId.Some? && control.name == c.controlName(runId.value)
    && runId.value in w.origins && OriginFits(c, runId.value, w.origins[runId.value])
  }

  // ------------------------------------------------------------------------------------------------------- the scan

  lemma SliceGrows<T>(s: seq<T>, page: nat)
    requires page >= 1
    ensures s[..Least((page - 1) * PER_PAGE, |s|)] + Slice(s, page) == s[..Least(page * PER_PAGE, |s|)]
    ensures |Slice(s, page)| <= PER_PAGE
    ensures (page - 1) * PER_PAGE < |s| ==> |Slice(s, page)| > 0
  {
  }

  /** Page k has still to be read: it is the first, or the pages before it do not hold the whole list. */
  predicate Needed(n: nat, page: nat) { page >= 1 && (page == 1 || (page - 1) * PER_PAGE < n) }

  lemma NeededPages(n: nat, page: nat)
    requires Needed(n, page)
    ensures page <= Pages(n)
    ensures n <= page * PER_PAGE ==> Pages(n) == page
    ensures n > page * PER_PAGE ==> Needed(n, page + 1)
  {
  }

  lemma PrefixIsValid(ids: seq<int>, k: nat)
    requires k <= |ids|
    ensures NoRepeats(ids) ==> NoRepeats(ids[..k])
    ensures Positive(ids) ==> Positive(ids[..k])
  {
    assert forall id :: id in ids[..k] ==> id in ids;
  }

  lemma SliceIsPart(ids: seq<int>, page: nat)
    requires page >= 1
    ensures Positive(ids) ==> Positive(Slice(ids, page))
    ensures Positive(ids[..Least((page - 1) * PER_PAGE, |ids|)]) && Positive(Slice(ids, page)) ==>
              Positive(ids[..Least(page * PER_PAGE, |ids|)])
  {
    SliceGrows(ids, page);
    assert forall id :: id in Slice(ids, page) ==> id in ids;
  }

  ghost predicate Holds(seen: set<int>, ids: seq<int>) { forall id :: id in seen <==> id in ids }

  /** The inner loop over one page's ids: stops at the first that was seen before. */
  method AddUnseen(seen: set<int>, ids: seq<int>, ghost before: seq<int>) returns (r: Option<set<int>>)
    requires NoRepeats(before) && Holds(seen, before)
    ensures r.Some? <==> NoRepeats(before + ids)
    ensures r.Some? ==> Holds(r.value, before + ids)
  {
    var now := seen;
    ghost var done := before;
    for i := 0 to |ids|
      invariant done == before + ids[..i] && NoRepeats(done) && Holds(now, done)
    {
      var id := ids[i];
      assert (before + ids)[..|done|] == done && (before + ids)[|done|] == id;
      if id in now {
        Repeats(before + ids, |done|);
        return None;
      }
      Unseen(done, id);
      now := now + {id};
      done := done + [id];
    }
    assert before + ids[..|ids|] == before + ids;
    return Some(now);
  }

  lemma Repeats(ids: seq<int>, k: nat)
    requires k < |ids| && ids[k] in ids[..k]
    ensures !NoRepeats(ids)
  {
  }

  lemma Unseen(ids: seq<int>, id: int)
    requires NoRepeats(ids) && id !in ids
    ensures NoRepeats(ids + [id])
  {
  }

  class Scan {
    const server: Server
    var sent: nat

    constructor (server: Server)
      ensures this.server == server && sent == 0
    {
      this.server := server;
      sent := 0;
    }

    /** `requestHistoryPage`: refuses to send one request too many. */
    method Request(q: Query) returns (r: Result<Reply, ScanError>)
      modifies this
      ensures r.Ok? <==> old(sent) < MAX_REQUESTS && server(old(sent), q) != Unusable
      ensures r.Ok? ==> r.value == server(old(sent), q) && sent == old(sent) + 1
      ensures old(sent) <= MAX_REQUESTS ==> sent <= MAX_REQUESTS
    {
      if sent >= MAX_REQUESTS { return Err(ScanExceeded); }
      var reply := server(sent, q);
      sent := sent + 1;
      r := if reply.Unusable? then Err(BadResponse) else Ok(reply);
    }

    /** One round of the first loop: the page is requested, parsed, compared with the announced total, and added. */
    method SuitesAt(page: nat, suites: seq<int>, seen: set<int>, expected: Option<nat>, ghost w: World)
      returns (r: Result<(seq<int>, set<int>, nat), ScanError>)
      requires page >= 1 && sent <= MAX_REQUESTS && NoRepeats(suites) && Holds(seen, suites)
      modifies this
      ensures sent <= MAX_REQUESTS
      ensures r.Ok? ==> NoRepeats(r.value.0) && Holds(r.value.1, r.value.0)
      ensures Honest(server, w) && (expected.None? || expected == Some(|w.suites|)) ==>
                (r.Ok? <==> old(sent) < MAX_REQUESTS && Positive(Slice(w.suites, page))
                            && NoRepeats(suites + Slice(w.suites, page)))
      ensures Honest(server, w) && r.Ok? ==>
                r.value.0 == suites + Slice(w.suites, page) && r.value.2 == |w.suites| && sent == old(sent) + 1
      ensures r.Ok? ==> |suites| <= |r.value.0|
    {
      SliceGrows(w.suites, page);
      var reply := Request(SuitesPage(page));
      if reply.Err? { return Err(reply.error); }
      if !GoodSuites(reply.value) { return Err(BadResponse); }
      var found := reply.value;
      if expected.Some? && found.total != expected.value { return Err(BadResponse); }
      var now := AddUnseen(seen, found.ids, suites);
      if now.None? { return Err(BadResponse); }
      return Ok((suites + found.ids, now.value, found.total));
    }

    /** The first loop: the suites, page by page, until there are as many as the first page announced. */
    method ScanSuites(ghost w: World) returns (r: Result<seq<int>, ScanError>)
      requires sent <= MAX_REQUESTS
      modifies this
      ensures sent <= MAX_REQUESTS
      ensures Honest(server, w) ==>
                (r.Ok? <==> ValidIds(w.suites) && Pages(|w.suites|) <= MAX_PAGES
                            && old(sent) + Pages(|w.suites|) <= MAX_REQUESTS)
      ensures Honest(server, w) && r.Ok? ==> r.value == w.suites && sent == old(sent) + Pages(|w.suites|)
    {
      var suites: seq<int>, seen: set<int> := [], {};
      var expected: Option<nat> := None;
      ghost var n := |w.suites|;
      for page := 1 to MAX_PAGES + 1
        invariant sent <= MAX_REQUESTS && NoRepeats(suites) && Holds(seen, suites)
        invariant Honest(server, w) ==>
                    && suites == w.suites[..Least((page - 1) * PER_PAGE, n)] && Positive(suites)
                    && sent == old(sent) + page - 1 && Needed(n, page)
                    && (expected.None? || expected == Some(n))
      {
        SliceGrows(w.suites, page);
        SliceIsPart(w.suites, page);
        PrefixIsValid(w.suites, Least(page * PER_PAGE, n));
        if Needed(n, page) { NeededPages(n, page); }
        var before := |suites|;
        var next := SuitesAt(page, suites, seen, expected, w);
        if next.Err? { return Err(next.error); }
        suites, seen, expected := next.value.0, next.value.1, Some(next.value.2);
        if |suites| == expected.value {
          assert w.suites[..n] == w.suites;
          return Ok(suites);
        }
        if |suites| > expected.value || |suites| == before { return Err(BadResponse); }
        if page == MAX_PAGES { return Err(ScanExceeded); }
      }
      return Err(ScanExceeded);
    }

    /** One round of the inner loop over a suite's runs. */
    method RunsAt(suite: int, page: nat, seen: set<int>, expected: Option<nat>, ghost before: seq<int>, ghost w: World)
      returns (r: Result<(seq<Control>, set<int>, nat), ScanError>)
      requires page >= 1 && sent <= MAX_REQUESTS && NoRepeats(before) && Holds(seen, before)
      modifies this
      ensures sent <= MAX_REQUESTS
      ensures r.Ok? ==> NoRepeats(before + Ids(r.value.0)) && Holds(r.value.1, before + Ids(r.value.0))
      ensures Honest(server, w) && (expected.None? || expected == Some(|RunsOf(w, suite)|)) ==>
                (r.Ok? <==> old(sent) < MAX_REQUESTS && Positive(Ids(Slice(RunsOf(w, suite), page)))
                            && NoRepeats(before + Ids(Slice(RunsOf(w, suite), page))))
      ensures Honest(server, w) && r.Ok? ==>
                r.value.0 == Slice(RunsOf(w, suite), page) && r.value.2 == |RunsOf(w, suite)| && sent == old(sent) + 1
    {
      SliceGrows(RunsOf(w, suite), page);
      var reply := Request(RunsPage(suite, page));
      if reply.Err? { return Err(reply.error); }
      if reply.value.Runs? { IdsOfControls(reply.value.controls); }
      if !GoodRuns(reply.value) { return Err(BadResponse); }
      var found := reply.value;
      if expected.Some? && found.total != expected.value { return Err(BadResponse); }
      var now := AddUnseen(seen, Ids(found.controls), before);
      if now.None? { return Err(BadResponse); }
      return Ok((found.controls, now.value, found.total));
    }

    /** The inner loop: the runs of one suite; those of the exact candidate are kept. */
    method ScanRuns(c: Candidate, suite: int, seen: set<int>, kept: seq<Control>, ghost before: seq<int>,
                    ghost w: World)
      returns (r: Result<(seq<Control>, set<int>), ScanError>, ghost read: seq<int>)
      requires sent <= MAX_REQUESTS && NoRepeats(before) && Holds(seen, before)
      modifies this
      ensures sent <= MAX_REQUESTS
      ensures r.Ok? ==> NoRepeats(read) && Holds(r.value.1, read)
      ensures Honest(server, w) ==>
                (r.Ok? <==> Positive(Ids(RunsOf(w, suite))) && NoRepeats(before + Ids(RunsOf(w, suite)))
                            && Pages(|RunsOf(w, suite)|) <= MAX_PAGES
                            && old(sent) + Pages(|RunsOf(w, suite)|) <= MAX_REQUESTS)
      ensures Honest(server, w) && r.Ok? ==>
                && r.value.0 == kept + ExactOnes(c, RunsOf(w, suite))
                && read == before + Ids(RunsOf(w, suite))
                && sent == old(sent) + Pages(|RunsOf(w, suite)|)
    {
      var controls, now := kept, seen;
      var expected: Option<nat>, scanned: nat := None, 0;
      ghost var runs := RunsOf(w, suite);
      read := before;
      for page := 1 to MAX_PAGES + 1
        invariant sent <= MAX_REQUESTS && NoRepeats(read) && Holds(now, read)
        invariant Honest(server, w) ==>
                    && RunsRead(c, runs, kept, before, page, scanned, read, controls)
                    && sent == old(sent) + page - 1 && (expected.None? || expected == Some(|runs|))
      {
        if Honest(server, w) { RunsToRead(c, runs, kept, before, page, scanned, read, controls); }
        var next := RunsAt(suite, page, now, expected, read, w);
        if next.Err? { return Err(next.error), read; }
        read := read + Ids(next.value.0);
        now, expected := next.value.1, Some(next.value.2);
        controls := controls + ExactOnes(c, next.value.0);
        scanned := scanned + |next.value.0|;
        if scanned == expected.value { return Ok((controls, now)), read; }
        if scanned > expected.value || |next.value.0| == 0 { return Err(BadResponse), read; }
        assert Honest(server, w) ==> RunsRead(c, runs, kept, before, page + 1, scanned, read, controls);
        if page == MAX_PAGES { return Err(ScanExceeded), read; }
      }
      return Err(ScanExceeded), read;
    }

    /** The second loop: the runs of every suite. */
    method ScanAllRuns(c: Candidate, suites: seq<int>, ghost w: World) returns (r: Result<seq<Control>, ScanError>)
      requires sent <= MAX_REQUESTS
      modifies this
      ensures sent <= MAX_REQUESTS
      ensures Honest(server, w) ==>
                (r.Ok? <==> Scannable(w, suites) && old(sent) + PagesOf(w, suites) <= MAX_REQUESTS)
      ensures Honest(server, w) && r.Ok? ==>
                r.value == ExactOnes(c, AllRuns(w, suites)) && sent == old(sent) + PagesOf(w, suites)
    {
      var controls: seq<Control>, seen: set<int> := [], {};
      ghost var read: seq<int> := [];
      for k := 0 to |suites|
        invariant sent <= MAX_REQUESTS && NoRepeats(read) && Holds(seen, read)
        invariant Honest(server, w) ==>
                    && read == Ids(AllRuns(w, suites[..k])) && Scannable(w, suites[..k])
                    && controls == ExactOnes(c, AllRuns(w, suites[..k]))
                    && sent == old(sent) + PagesOf(w, suites[..k])
      {
        OneMoreSuite(c, w, suites, k);
        OneMoreScannable(c, w, suites, k);
        var next;
        next, read := ScanRuns(c, suites[k], seen, controls, read, w);
        if next.Err? { return Err(next.error); }
        controls, seen := next.value.0, next.value.1;
      }
      assert suites[..|suites|] == suites;
      return Ok(controls);
    }

    /** The last loop: behind every run that counts stands a workflow run of the right name, commit and outcome. */
    method CheckOrigins(c: Candidate, exact: seq<Control>, ghost w: World) returns (failure: Option<ScanError>)
      requires sent <= MAX_REQUESTS
      modifies this
      ensures sent <= MAX_REQUESTS
      ensures Honest(server, w) ==>
                (failure.None? <==> (forall control :: control in exact ==> OriginOk(c, w, control))
                                    && old(sent) + |exact| <= MAX_REQUESTS)
      ensures failure.None? ==> forall j :: 0 <= j < |exact| ==> AnsweredFor(c, server, old(sent) + j, exact[j])
    {
      for i := 0 to |exact|
        invariant sent <= MAX_REQUESTS
        invariant sent == old(sent) + i && forall j :: 0 <= j < i ==> AnsweredFor(c, server, old(sent) + j, exact[j])
        invariant Honest(server, w) ==>
                    sent == old(sent) + i && forall j :: 0 <= j < i ==> OriginOk(c, w, exact[j])
      {
        assert exact[i] in exact;
        var runId := c.runIdOf(exact[i].detailsUrl);
        if runId.None? || exact[i].name != c.controlName(runId.value) { return Some(BadResponse); }
        var reply := Request(OriginOf(runId.value));
        if reply.Err? { return Some(reply.error); }
        if !reply.value.Run? { return Some(BadResponse); }
        if !OriginFits(c, runId.value, reply.value.origin) { return Some(PriorUnsuccessful); }
      }
      return None;
    }

    /**
     `verifyFounderProductContractCandidateHistory`. For any server it sends at most a thousand requests. For an honest
     one it succeeds exactly when the whole history can be read within them and is clean, and returns how many runs of
     the exact candidate there are.
     */
    method Verify(c: Candidate, inputOk: bool, release: bool, ghost w: World) returns (r: Result<nat, ScanError>)
      requires sent == 0
      modifies this
      ensures sent <= MAX_REQUESTS
      ensures !release ==> (r.Ok? <==> inputOk) && (r.Ok? ==> r.value == 0) && sent == 0
      ensures release && Honest(server, w) ==> (r.Ok? <==> inputOk && CleanHistory(c, w))
      ensures release && Honest(server, w) && r.Ok? ==> r.value == |ExactOnes(c, AllRuns(w, w.suites))|
    {
      if !inputOk { return Err(BadInput); }
      if !release { return Ok(0); }
      var suites := ScanSuites(w);
      if suites.Err? { return Err(suites.error); }
      var exact := ScanAllRuns(c, suites.value, w);
      if exact.Err? { return Err(exact.error); }
      if exists control :: control in exact.value && !Succeeded(control) { return Err(PriorUnsuccessful); }
      var failure := CheckOrigins(c, exact.value, w);
      r := if failure.Some? then Err(failure.value) else Ok(|exact.value|);
    }
  }

  /** Before a page is read: everything on the pages before it has been counted, checked and sifted. */
  ghost predicate RunsRead(c: Candidate, runs: seq<Control>, kept: seq<Control>, before: seq<int>, page: nat,
                           scanned: nat, done: seq<int>, controls: seq<Control>) {
    && Needed(|runs|, page)
    && scanned == Least((page - 1) * PER_PAGE, |runs|)
    && done == before + Ids(runs)[..scanned] && Positive(Ids(runs)[..scanned])
    && controls == kept + ExactOnes(c, runs[..scanned])
  }

  /** What the next page of an honest server brings: the loop goes on, or everything has been read. */
  lemma RunsToRead(c: Candidate, runs: seq<Control>, kept: seq<Control>, before: seq<int>, page: nat, scanned: nat,
                   done: seq<int>, controls: seq<Control>)
    requires RunsRead(c, runs, kept, before, page, scanned, done, controls)
    ensures var now := Slice(runs, page);
            var scanned', done', controls' := scanned + |now|, done + Ids(now), controls + ExactOnes(c, now);
            && page <= Pages(|runs|) && scanned' <= |runs| && (|now| == 0 ==> scanned' == |runs|)
            && (Positive(Ids(runs)) ==> Positive(Ids(now)))
            && (NoRepeats(before + Ids(runs)) ==> NoRepeats(done'))
            && (scanned' == |runs| && Positive(Ids(now)) ==>
                  && done' == before + Ids(runs) && controls' == kept + ExactOnes(c, runs)
                  && Positive(Ids(runs)) && Pages(|runs|) == page)
            && (scanned' < |runs| && Positive(Ids(now)) ==>
                  RunsRead(c, runs, kept, before, page + 1, scanned', done', controls'))
  {
    NeededPages(|runs|, page);
    PageOfIds(runs, before, page);
    ExactOfPage(c, runs, kept, page);
    SliceGrows(runs, page);
    var l := Least(page * PER_PAGE, |runs|);
    if l == |runs| { assert Ids(runs)[..l] == Ids(runs); }
  }

  lemma ExactOfPage(c: Candidate, runs: seq<Control>, kept: seq<Control>, page: nat)
    requires page >= 1
    ensures var k, l := Least((page - 1) * PER_PAGE, |runs|), Least(page * PER_PAGE, |runs|);
            && kept + ExactOnes(c, runs[..k]) + ExactOnes(c, Slice(runs, page)) == kept + ExactOnes(c, runs[..l])
            && (l == |runs| ==> ExactOnes(c, runs[..l]) == ExactOnes(c, runs))
  {
    var k, l := Least((page - 1) * PER_PAGE, |runs|), Least(page * PER_PAGE, |runs|);
    SliceGrows(runs, page);
    ExactConcat(c, runs[..k], Slice(runs, page));
    if l == |runs| { assert runs[..l] == runs; }
  }

  lemma IdsOfControls(controls: seq<Control>)
    ensures Positive(Ids(controls)) <==> forall control :: control in controls ==> control.id >= 1
  {
    forall control | control in controls ensures control.id in Ids(controls) {
      var i :| 0 <= i < |controls| && controls[i] == control;
      assert Ids(controls)[i] == control.id;
    }
    forall id | id in Ids(controls) ensures exists control :: control in controls && control.id == id {
      var i :| 0 <= i < |controls| && Ids(controls)[i] == id;
      assert controls[i] in controls;
    }
  }

  /** How one more page extends what was read before. */
  lemma PageOfIds(runs: seq<Control>, before: seq<int>, page: nat)
    requires page >= 1
    ensures var ids := Ids(runs);
            var k, l := Least((page - 1) * PER_PAGE, |runs|), Least(page * PER_PAGE, |runs|);
            && l == k + |Slice(runs, page)| && ids[..k] + Ids(Slice(runs, page)) == ids[..l]
            && (before + ids[..k]) + Ids(Slice(runs, page)) == before + ids[..l]
            && (NoRepeats(before + ids) ==> NoRepeats(before + ids[..l]))
            && (Positive(ids) ==> Positive(Ids(Slice(runs, page))))
            && (Positive(ids[..k]) && Positive(Ids(Slice(runs, page))) ==> Positive(ids[..l]))
  {
    var ids := Ids(runs);
    var l := Least(page * PER_PAGE, |runs|);
    assert (before + ids)[..|before| + l] == before + ids[..l];
    PrefixIsValid(before + ids, |before| + l);
    assert Ids(Slice(runs, page)) == Slice(ids, page);
    SliceIsPart(ids, page);
  }

  lemma ExactConcat(c: Candidate, a: seq<Control>, b: seq<Control>)
    ensures ExactOnes(c, a + b) == ExactOnes(c, a) + ExactOnes(c, b)
  {
    FilterConcat(a, b, (control: Control) => IsExact(c, control));
  }

  /** The runs of these suites: positive ids, none twice, and no suite with more runs than can be paged through. */
  ghost predicate Scannable(w: World, suites: seq<int>) {
    && ValidIds(Ids(AllRuns(w, suites)))
    && forall suite :: suite in suites ==> Pages(|RunsOf(w, suite)|) <= MAX_PAGES
  }

  /** A history that can be read completely, in which every run of the candidate succeeded and is accounted for. */
  ghost predicate CleanHistory(c: Candidate, w: World) {
    var exact := ExactOnes(c, AllRuns(w, w.suites));
    && ValidIds(w.suites) && Pages(|w.suites|) <= MAX_PAGES && Scannable(w, w.suites)
    && Pages(|w.suites|) + PagesOf(w, w.suites) + |exact| <= MAX_REQUESTS
    && forall control :: control in exact ==> Succeeded(control) && OriginOk(c, w, control)
  }

  lemma IdsConcat(a: seq<Control>, b: seq<Control>)
    ensures Ids(a + b) == Ids(a) + Ids(b)
  {
  }

  lemma {:induction false} AllRunsOfPrefix(w: World, suites: seq<int>, k: nat)
    requires k <= |suites|
    ensures AllRuns(w, suites[..k]) <= AllRuns(w, suites) && PagesOf(w, suites[..k]) <= PagesOf(w, suites)
  {
    if k < |suites| {
      var n := |suites| - 1;
      assert suites[..n][..k] == suites[..k];
      AllRunsOfPrefix(w, suites[..n], k);
    } else {
      assert suites[..k] == suites;
    }
  }

  lemma ScannablePrefix(w: World, suites: seq<int>, k: nat)
    requires k <= |suites| && Scannable(w, suites)
    ensures Scannable(w, suites[..k])
  {
    AllRunsOfPrefix(w, suites, k);
    var all, part := AllRuns(w, suites), AllRuns(w, suites[..k]);
    assert Ids(part) == Ids(all)[..|part|];
    PrefixIsValid(Ids(all), |part|);
  }

  /** Reading one more suite. */
  lemma OneMoreSuite(c: Candidate, w: World, suites: seq<int>, k: nat)
    requires k < |suites|
    ensures var runs, before := RunsOf(w, suites[k]), AllRuns(w, suites[..k]);
            && AllRuns(w, suites[..k + 1]) == before + runs
            && Ids(AllRuns(w, suites[..k + 1])) == Ids(before) + Ids(runs)
            && ExactOnes(c, AllRuns(w, suites[..k + 1])) == ExactOnes(c, before) + ExactOnes(c, runs)
            && PagesOf(w, suites[..k + 1]) == PagesOf(w, suites[..k]) + Pages(|runs|)
            && PagesOf(w, suites[..k + 1]) <= PagesOf(w, suites)
  {
    var runs, before := RunsOf(w, suites[k]), AllRuns(w, suites[..k]);
    assert suites[..k + 1][..k] == suites[..k] && suites[..k + 1][k] == suites[k];
    IdsConcat(before, runs);
    ExactConcat(c, before, runs);
    AllRunsOfPrefix(w, suites, k + 1);
  }

  lemma OneMoreScannable(c: Candidate, w: World, suites: seq<int>, k: nat)
    requires k < |suites|
    ensures var runs, before := RunsOf(w, suites[k]), AllRuns(w, suites[..k]);
            && (Scannable(w, suites) ==> Scannable(w, suites[..k + 1]))
            && (Scannable(w, suites[..k]) ==>
                  (Scannable(w, suites[..k + 1])
                   <==> Positive(Ids(runs)) && NoRepeats(Ids(before) + Ids(runs)) && Pages(|runs|) <= MAX_PAGES))
  {
    OneMoreSuite(c, w, suites, k);
    if Scannable(w, suites) { ScannablePrefix(w, suites, k + 1); }
    ScannableStep(w, suites[..k], suites[k], suites[..k + 1]);
  }

  lemma ScannableStep(w: World, before: seq<int>, suite: int, more: seq<int>)
    requires Scannable(w, before) ==> ValidIds(Ids(AllRuns(w, before)))
    requires more == before + [suite] && Ids(AllRuns(w, more)) == Ids(AllRuns(w, before)) + Ids(RunsOf(w, suite))
    ensures Scannable(w, before) ==>
              (Scannable(w, more)
               <==> Positive(Ids(RunsOf(w, suite))) && NoRepeats(Ids(AllRuns(w, before)) + Ids(RunsOf(w, suite)))
                    && Pages(|RunsOf(w, suite)|) <= MAX_PAGES)
  {
    PositiveConcat(Ids(AllRuns(w, before)), Ids(RunsOf(w, suite)));
    assert suite in more && forall s :: s in more <==> s in before || s == suite;
  }

  lemma PositiveConcat(a: seq<int>, b: seq<int>)
    ensures Positive(a + b) <==> Positive(a) && Positive(b)
  {
    assert forall id :: id in a || id in b <==> id in a + b;
  }

  lemma {:induction false} RunsAreAmongAll(w: World, suites: seq<int>, suite: int, control: Control)
    requires suite in suites && control in RunsOf(w, suite)
    ensures control in AllRuns(w, suites)
  {
    var n := |suites| - 1;
    if suite != suites[n] {
      assert suites == suites[..n] + [suites[n]];
      RunsAreAmongAll(w, suites[..n], suite, control);
    }
  }

  lemma {:induction false} AmongSome(w: World, suites: seq<int>, control: Control) returns (suite: int)
    requires control in AllRuns(w, suites)
    ensures suite in suites && control in RunsOf(w, suite)
  {
    var n := |suites| - 1;
    if control in RunsOf(w, suites[n]) {
      suite := suites[n];
    } else {
      suite := AmongSome(w, suites[..n], control);
      assert suites == suites[..n] + [suites[n]];
    }
  }

  /** A run of exactly this candidate, by its key, its name and the app that made it. */
  predicate Belongs(c: Candidate, control: Control) {
    && control.externalId == Some(c.controlKey) && c.namePrefix <= control.name
    && control.appSlug == "github-actions"
  }

  /** It succeeded, and so did the workflow run that its link names, which was one for this candidate. */
  ghost predicate Accounted(c: Candidate, w: World, control: Control) {
    && control.status == "completed" && control.conclusion == Some("success")
    && exists runId :: c.runIdOf(control.detailsUrl) == Some(runId) && control.name == c.controlName(runId)
         && runId in w.origins && RunsCandidate(c, runId, w.origins[runId])
  }

  /** A scan can read the history to its end within its pages and requests. */
  ghost predicate WithinReach(c: Candidate, w: World) {
    && ValidIds(w.suites) && Pages(|w.suites|) <= MAX_PAGES && Scannable(w, w.suites)
    && Pages(|w.suites|) + PagesOf(w, w.suites) + |CandidateRuns(c, w)| <= MAX_REQUESTS
  }

  /** All runs of the candidate, in all suites. */
  function CandidateRuns(c: Candidate, w: World): seq<Control> {
    Filter(AllRuns(w, w.suites), (control: Control) => Belongs(c, control))
  }

  lemma {:induction false} SameFilter(controls: seq<Control>, c: Candidate)
    ensures ExactOnes(c, controls) == Filter(controls, (control: Control) => Belongs(c, control))
  {
    if controls != [] { SameFilter(controls[1..], c); }
  }

  /**
   What success says of every single check run of every single suite, and failure too: a history within reach is clean
   exactly when each run of the candidate is accounted for.
   */
  lemma CleanMeansEveryRun(c: Candidate, w: World)
    ensures CleanHistory(c, w)
       <==> (&& WithinReach(c, w)
             && forall suite, control ::
                  suite in w.suites && control in RunsOf(w, suite) && Belongs(c, control) ==> Accounted(c, w, control))
    ensures |ExactOnes(c, AllRuns(w, w.suites))| == |CandidateRuns(c, w)|
  {
    var all := AllRuns(w, w.suites);
    SameFilter(all, c);
    FilterMembers(all, (control: Control) => Belongs(c, control));
    if CleanHistory(c, w) {
      forall suite, control | suite in w.suites && control in RunsOf(w, suite) && Belongs(c, control)
        ensures Accounted(c, w, control)
      {
        RunsAreAmongAll(w, w.suites, suite, control);
        assert control in ExactOnes(c, all);
      }
    }
    if forall suite, control ::
         suite in w.suites && control in RunsOf(w, suite) && Belongs(c, control) ==> Accounted(c, w, control)
    {
      forall control | control in ExactOnes(c, all) ensures Succeeded(control) && OriginOk(c, w, control) {
        var suite := AmongSome(w, w.suites, control);
        assert Accounted(c, w, control);
      }
    }
  }

  /** How large a history the request limit lets through: at least one request for every suite. */
  lemma {:induction false} EverySuiteCostsARequest(w: World, suites: seq<int>)
    ensures |suites| <= PagesOf(w, suites)
  {
    if suites != [] { EverySuiteCostsARequest(w, suites[..|suites| - 1]); }
  }

  lemma LargeHistoriesAreRefused(c: Candidate, w: World)
    requires |w.suites| >= MAX_REQUESTS
    ensures !CleanHistory(c, w)
  {
    EverySuiteCostsARequest(w, w.suites);
  }
}
