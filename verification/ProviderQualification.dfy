/** The evidence that production providers were qualified, and the reasons for which a release decision refuses it. */
module ProviderQualification {
  import opened Options
  import opened StringSets

  /** Instants as the evidence writes them: their reading in milliseconds, if any, their writing, and the exact form. */
  datatype Clock = Clock(ms: string -> Option<int>, iso: int -> string, exact: string -> bool)

  /** Comparisons of instants, which are false when one of them could not be read. */
  predicate Above(a: Option<int>, b: Option<int>) { a.Some? && b.Some? && a.value > b.value }

  predicate AtMost(a: Option<int>, b: Option<int>) { a.Some? && b.Some? && a.value <= b.value }

  function Minus(a: Option<int>, b: Option<int>): Option<int> {
    if a.Some? && b.Some? then Some(a.value - b.value) else None
  }

  const MAX_AGE_MS := 8 * 24 * 60 * 60 * 1000

  datatype Qualification = Qualification(
    kind: string,
    applicationRevision: string,
    runtimeRevision: string,
    passed: bool,
    attempts: int,
    failures: int,
    flakes: int,
    skips: int,
    checks: map<string, bool>,
    observedAt: string,
    expiresAt: string,
    evidenceDigest: string)

  datatype LiveTargets = LiveTargets(
    intendedStore: string, observedStore: string, intendedProduct: string, observedProduct: string)

  datatype Summary = Summary(
    applicationRevision: string,
    runtimeRevision: string,
    evidenceDigest: string,
    clerk: Qualification,
    testMode: Qualification,
    liveCanary: Qualification,
    targets: LiveTargets)

  datatype TargetAuthority = TargetAuthority(store: string, product: string)

  /** What the decision is about, and when it is made. */
  datatype Moment = Moment(revision: string, runtime: string, now: int, clock: Clock)

  function All(s: Summary): seq<Qualification> { [s.clerk, s.testMode, s.liveCanary] }

  function Digests(s: Summary): seq<string> {
    [s.clerk.evidenceDigest, s.testMode.evidenceDigest, s.liveCanary.evidenceDigest]
  }

  /** Nothing in the comparisons objects: an instant that cannot be read passes them all. */
  predicate Current(observedAt: string, expiresAt: string, m: Moment) {
    var now, observed, expires := Some(m.now), m.clock.ms(observedAt), m.clock.ms(expiresAt);
    && !Above(observed, now) && !AtMost(expires, now)
    && !Above(Minus(now, observed), Some(MAX_AGE_MS)) && !Above(Minus(expires, observed), Some(MAX_AGE_MS))
  }

  /** Eight days in milliseconds. */
  const EIGHT_DAYS := 691200000

  /** An instant that cannot be read objects to nothing; one that can is at most this. */
  predicate AtMostAt(at: string, limit: int, m: Moment) { m.clock.ms(at).Some? ==> m.clock.ms(at).value <= limit }

  predicate AfterAt(at: string, limit: int, m: Moment) { m.clock.ms(at).Some? ==> m.clock.ms(at).value > limit }

  predicate NotOld(at: string, m: Moment) { m.clock.ms(at).Some? ==> m.now - m.clock.ms(at).value <= EIGHT_DAYS }

  /** Not after the other one, as far as both can be read. */
  predicate InOrder(earlier: string, later: string, m: Moment) {
    m.clock.ms(earlier).Some? && m.clock.ms(later).Some? ==> m.clock.ms(earlier).value <= m.clock.ms(later).value
  }

  /** Observed by now, less than eight days ago, still valid, and valid for no more than eight days. */
  predicate Valid(observedAt: string, expiresAt: string, m: Moment) {
    && AtMostAt(observedAt, m.now, m) && NotOld(observedAt, m) && AfterAt(expiresAt, m.now, m)
    && (m.clock.ms(observedAt).Some? && m.clock.ms(expiresAt).Some? ==>
          m.clock.ms(expiresAt).value - m.clock.ms(observedAt).value <= EIGHT_DAYS)
  }

  lemma ValidMeans(observedAt: string, expiresAt: string, m: Moment)
    ensures Current(observedAt, expiresAt, m) <==> Valid(observedAt, expiresAt, m)
  {
  }

  // ------------------------------------------------------------------------------------------------- objections

  /** Something that may be wrong, whether it is, and the reason given for it. */
  datatype Objection = Objection(holds: bool, reason: string)

  /** Of these objections exactly those that hold are given as reasons. */
  ghost predicate GivenExactly(reasons: seq<string>, table: seq<Objection>) {
    forall r :: r in reasons <==> exists k :: 0 <= k < |table| && table[k].holds && table[k].reason == r
  }

  function When(failed: bool, reason: string): (reasons: seq<string>)
    ensures reasons == [] <==> !failed
    ensures GivenExactly(reasons, [Objection(failed, reason)])
  {
    if failed then
      assert [Objection(failed, reason)][0].holds;
      [reason]
    else []
  }

  lemma GivenTogether(a: seq<string>, s: seq<Objection>, b: seq<string>, t: seq<Objection>)
    requires GivenExactly(a, s) && GivenExactly(b, t)
    ensures GivenExactly(a + b, s + t)
  {
    forall r ensures r in a + b <==> exists k :: 0 <= k < |s + t| && (s + t)[k].holds && (s + t)[k].reason == r {
      if r in a {
        var k :| 0 <= k < |s| && s[k].holds && s[k].reason == r;
        assert (s + t)[k] == s[k];
      } else if r in b {
        var k :| 0 <= k < |t| && t[k].holds && t[k].reason == r;
        assert (s + t)[|s| + k] == t[k];
      }
      if k :| 0 <= k < |s + t| && (s + t)[k].holds && (s + t)[k].reason == r {
        assert if k < |s| then s[k] == (s + t)[k] else t[k - |s|] == (s + t)[k];
      }
    }
  }

  predicate Readable(at: string, m: Moment) { m.clock.ms(at).Some? }

  /** What they are for: observed by now, not expired, and neither older nor valid for longer than eight days. */
  predicate WithinTime(observedAt: string, expiresAt: string, m: Moment) {
    && Readable(observedAt, m) && Readable(expiresAt, m)
    && var observed, expires := m.clock.ms(observedAt).value, m.clock.ms(expiresAt).value;
       observed <= m.now < expires && m.now - observed <= MAX_AGE_MS && expires - observed <= MAX_AGE_MS
  }

  /** Of the three objections to a piece of evidence's times at most one holds. */
  function TimeTable(name: string, observedAt: string, expiresAt: string, m: Moment): seq<Objection> {
    var early, expired := !AtMostAt(observedAt, m.now, m), !AfterAt(expiresAt, m.now, m);
    [
      Objection(early, name + "_evidence_time_invalid"),
      Objection(!early && expired, name + "_evidence_expired"),
      Objection(!early && !expired && !Valid(observedAt, expiresAt, m), name + "_evidence_stale")
    ]
  }

  /** The chain of time reasons: at most one is given. */
  function TimeReasons(name: string, observedAt: string, expiresAt: string, m: Moment): (reasons: seq<string>)
    ensures reasons == [] <==> Current(observedAt, expiresAt, m)
    ensures |reasons| <= 1
    ensures GivenExactly(reasons, TimeTable(name, observedAt, expiresAt, m))
  {
    var now, observed, expires := Some(m.now), m.clock.ms(observedAt), m.clock.ms(expiresAt);
    var table := TimeTable(name, observedAt, expiresAt, m);
    assert Current(observedAt, expiresAt, m) <==> Valid(observedAt, expiresAt, m) by {
      ValidMeans(observedAt, expiresAt, m);
    }
    if Above(observed, now) then
      assert table[0].holds && !table[1].holds && !table[2].holds;
      [name + "_evidence_time_invalid"]
    else if AtMost(expires, now) then
      assert !table[0].holds && table[1].holds && !table[2].holds;
      [name + "_evidence_expired"]
    else if Above(Minus(now, observed), Some(MAX_AGE_MS)) || Above(Minus(expires, observed), Some(MAX_AGE_MS)) then
      assert !table[0].holds && !table[1].holds && table[2].holds;
      [name + "_evidence_stale"]
    else []
  }

  function QualificationTable(q: Qualification, m: Moment): seq<Objection> {
    ResultTable(q, m) + TimeTable(q.kind, q.observedAt, q.expiresAt, m)
  }

  function ResultTable(q: Qualification, m: Moment): seq<Objection> {
    [
      Objection(q.applicationRevision != m.revision, q.kind + "_revision_mismatch"),
      Objection(q.runtimeRevision != m.runtime, q.kind + "_runtime_mismatch"),
      Objection(!q.passed, q.kind + "_failed"),
      Objection(q.attempts != 1 || q.failures != 0 || q.flakes != 0 || q.skips != 0, q.kind + "_attempts_unclean"),
      Objection(exists check :: check in q.checks && !q.checks[check], q.kind + "_incomplete")
    ]
  }

  function QualificationTables(qs: seq<Qualification>, m: Moment): seq<Objection> {
    if qs == [] then []
    else QualificationTables(qs[..|qs| - 1], m) + QualificationTable(qs[|qs| - 1], m)
  }

  function TargetTable(t: LiveTargets, authority: Option<TargetAuthority>): seq<Objection> {
    [
      Objection(authority.None?, "lemon_squeezy_live_target_authority_missing"),
      Objection(authority.Some? && !(t.intendedStore == t.observedStore == authority.value.store),
                "lemon_squeezy_live_store_mismatch"),
      Objection(authority.Some? && !(t.intendedProduct == t.observedProduct == authority.value.product),
                "lemon_squeezy_live_product_mismatch"),
      Objection(t.intendedStore == t.intendedProduct, "lemon_squeezy_live_store_product_alias")
    ]
  }

  function CandidateTable(s: Summary, m: Moment): seq<Objection> {
    [
      Objection(s.applicationRevision != m.revision, "production_provider_qualification_revision_mismatch"),
      Objection(s.runtimeRevision != m.runtime, "production_provider_qualification_runtime_mismatch")
    ]
  }

  function IndependenceTable(s: Summary): seq<Objection> {
    var a, b, c := s.clerk.evidenceDigest, s.testMode.evidenceDigest, s.liveCanary.evidenceDigest;
    [
      Objection(a == b || a == c || b == c, "production_provider_qualification_evidence_not_independent"),
      Objection(s.evidenceDigest == a || s.evidenceDigest == b || s.evidenceDigest == c,
                "production_provider_qualification_summary_digest_reused")
    ]
  }

  /** Everything that can be wrong with the qualifications. */
  function SummaryTable(summary: Option<Summary>, authority: Option<TargetAuthority>, m: Moment): seq<Objection> {
    if summary.None? then [Objection(true, "production_provider_qualification_evidence_missing")]
    else
      CandidateTable(summary.value, m) + QualificationTables(All(summary.value), m)
      + TargetTable(summary.value.targets, authority) + IndependenceTable(summary.value)
  }

  predicate Qualified(q: Qualification, m: Moment) {
    && q.applicationRevision == m.revision && q.runtimeRevision == m.runtime
    && q.passed && q.attempts == 1 && q.failures == q.flakes == q.skips == 0
    && (forall check :: check in q.checks ==> q.checks[check])
    && Current(q.observedAt, q.expiresAt, m)
  }

  predicate TargetsMatch(t: LiveTargets, authority: TargetAuthority) {
    && t.intendedStore == t.observedStore == authority.store
    && t.intendedProduct == t.observedProduct == authority.product
    && t.intendedStore != t.intendedProduct
  }

  /** All three qualifications hold for this candidate, for the authorized live targets, each on its own evidence. */
  predicate SummaryHolds(s: Summary, authority: Option<TargetAuthority>, m: Moment) {
    && s.applicationRevision == m.revision && s.runtimeRevision == m.runtime
    && Qualified(s.clerk, m) && Qualified(s.testMode, m) && Qualified(s.liveCanary, m)
    && authority.Some? && TargetsMatch(s.targets, authority.value)
    && NoneTwice(Digests(s)) && s.evidenceDigest !in Digests(s)
  }

  /** The reasons of one round of the loop. */
  method QualificationReasons(q: Qualification, m: Moment) returns (reasons: seq<string>)
    ensures reasons == [] <==> Qualified(q, m)
    ensures GivenExactly(reasons, QualificationTable(q, m))
  {
    reasons := ResultReasons(q, m);
    GivenTogether(reasons, ResultTable(q, m), TimeReasons(q.kind, q.observedAt, q.expiresAt, m),
                  TimeTable(q.kind, q.observedAt, q.expiresAt, m));
    reasons := reasons + TimeReasons(q.kind, q.observedAt, q.expiresAt, m);
  }

  method ResultReasons(q: Qualification, m: Moment) returns (reasons: seq<string>)
    ensures reasons == [] <==>
            && q.applicationRevision == m.revision && q.runtimeRevision == m.runtime && q.passed
            && q.attempts == 1 && q.failures == q.flakes == q.skips == 0
            && forall check :: check in q.checks ==> q.checks[check]
    ensures GivenExactly(reasons, ResultTable(q, m))
  {
    var unclean := q.attempts != 1 || q.failures != 0 || q.flakes != 0 || q.skips != 0;
    var incomplete := exists check :: check in q.checks && !q.checks[check];
    var revision := When(q.applicationRevision != m.revision, q.kind + "_revision_mismatch");
    var runtime := When(q.runtimeRevision != m.runtime, q.kind + "_runtime_mismatch");
    var failed := When(!q.passed, q.kind + "_failed");
    var attempts := When(unclean, q.kind + "_attempts_unclean");
    reasons := revision + runtime + failed + attempts + When(incomplete, q.kind + "_incomplete");
    FiveGiven(reasons, ResultTable(q, m));
  }

  /** Five objections in a row, each given when it holds. */
  lemma FiveGiven(reasons: seq<string>, table: seq<Objection>)
    requires |table| == 5
    requires reasons == (if table[0].holds then [table[0].reason] else [])
                        + (if table[1].holds then [table[1].reason] else [])
                        + (if table[2].holds then [table[2].reason] else [])
                        + (if table[3].holds then [table[3].reason] else [])
                        + (if table[4].holds then [table[4].reason] else [])
    ensures GivenExactly(reasons, table)
  {
    assert forall r :: r in reasons <==>
        || (table[0].holds && table[0].reason == r) || (table[1].holds && table[1].reason == r)
        || (table[2].holds && table[2].reason == r) || (table[3].holds && table[3].reason == r)
        || (table[4].holds && table[4].reason == r);
  }

  method EachReasons(qs: seq<Qualification>, m: Moment) returns (reasons: seq<string>)
    ensures reasons == [] <==> forall j :: 0 <= j < |qs| ==> Qualified(qs[j], m)
    ensures GivenExactly(reasons, QualificationTables(qs, m))
  {
    reasons := [];
    for i := 0 to |qs|
      invariant reasons == [] <==> forall j :: 0 <= j < i ==> Qualified(qs[j], m)
      invariant GivenExactly(reasons, QualificationTables(qs[..i], m))
    {
      var more := QualificationReasons(qs[i], m);
      assert qs[..i + 1][..i] == qs[..i];
      GivenTogether(reasons, QualificationTables(qs[..i], m), more, QualificationTable(qs[i], m));
      reasons := reasons + more;
    }
    assert qs[..|qs|] == qs;
  }

  method AllReasons(s: Summary, m: Moment) returns (reasons: seq<string>)
    ensures reasons == [] <==> Qualified(s.clerk, m) && Qualified(s.testMode, m) && Qualified(s.liveCanary, m)
    ensures GivenExactly(reasons, QualificationTables(All(s), m))
  {
    reasons := EachReasons(All(s), m);
    assert All(s)[0] == s.clerk && All(s)[1] == s.testMode && All(s)[2] == s.liveCanary;
  }

  /**
   `evaluateFounderProductionProviderQualification`: exactly the reasons for what is wrong, and so none exactly when the
   summary holds.
   */
  method Evaluate(summary: Option<Summary>, authority: Option<TargetAuthority>, m: Moment)
    returns (reasons: seq<string>)
    ensures reasons == [] <==> summary.Some? && SummaryHolds(summary.value, authority, m)
    ensures GivenExactly(reasons, SummaryTable(summary, authority, m))
  {
    if summary.None? { return When(true, "production_provider_qualification_evidence_missing"); }
    var s := summary.value;
    var candidate := CandidateReasons(s, m);
    var rounds := AllReasons(s, m);
    var targets := TargetReasons(s.targets, authority);
    var digests := IndependenceReasons(s);
    GivenTogether(candidate, CandidateTable(s, m), rounds, QualificationTables(All(s), m));
    GivenTogether(candidate + rounds, CandidateTable(s, m) + QualificationTables(All(s), m),
                  targets, TargetTable(s.targets, authority));
    GivenTogether(candidate + rounds + targets,
                  CandidateTable(s, m) + QualificationTables(All(s), m) + TargetTable(s.targets, authority),
                  digests, IndependenceTable(s));
    reasons := candidate + rounds + targets + digests;
  }

  method CandidateReasons(s: Summary, m: Moment) returns (reasons: seq<string>)
    ensures reasons == [] <==> s.applicationRevision == m.revision && s.runtimeRevision == m.runtime
    ensures GivenExactly(reasons, CandidateTable(s, m))
  {
    var revision := When(s.applicationRevision != m.revision, "production_provider_qualification_revision_mismatch");
    var runtime := When(s.runtimeRevision != m.runtime, "production_provider_qualification_runtime_mismatch");
    GivenTogether(revision, [CandidateTable(s, m)[0]], runtime, [CandidateTable(s, m)[1]]);
    assert CandidateTable(s, m) == [CandidateTable(s, m)[0]] + [CandidateTable(s, m)[1]];
    reasons := revision + runtime;
  }

  method IndependenceReasons(s: Summary) returns (reasons: seq<string>)
    ensures reasons == [] <==> NoneTwice(Digests(s)) && s.evidenceDigest !in Digests(s)
    ensures GivenExactly(reasons, IndependenceTable(s))
  {
    SizeMeansNoneTwice(Digests(s));
    var same := When(|SetOf(Digests(s))| != |Digests(s)|,
                     "production_provider_qualification_evidence_not_independent");
    var reused := When(s.evidenceDigest in Digests(s), "production_provider_qualification_summary_digest_reused");
    assert IndependenceTable(s)[0].holds <==> !NoneTwice(Digests(s)) by { ThreeApart(Digests(s)); }
    GivenTogether(same, [IndependenceTable(s)[0]], reused, [IndependenceTable(s)[1]]);
    assert IndependenceTable(s) == [IndependenceTable(s)[0]] + [IndependenceTable(s)[1]];
    reasons := same + reused;
  }

  lemma ThreeApart(d: seq<string>)
    requires |d| == 3
    ensures NoneTwice(d) <==> d[0] != d[1] && d[0] != d[2] && d[1] != d[2]
  {
  }

  method TargetReasons(t: LiveTargets, authority: Option<TargetAuthority>) returns (reasons: seq<string>)
    ensures reasons == [] <==> authority.Some? && TargetsMatch(t, authority.value)
    ensures GivenExactly(reasons, TargetTable(t, authority))
  {
    reasons := [];
    if authority.None? {
      reasons := reasons + ["lemon_squeezy_live_target_authority_missing"];
    } else if t.intendedStore != authority.value.store || t.observedStore != authority.value.store {
      reasons := reasons + ["lemon_squeezy_live_store_mismatch"];
    }
    if authority.Some?
       && (t.intendedProduct != authority.value.product || t.observedProduct != authority.value.product)
    {
      reasons := reasons + ["lemon_squeezy_live_product_mismatch"];
    }
    if t.intendedStore == t.intendedProduct { reasons := reasons + ["lemon_squeezy_live_store_product_alias"]; }
    FourGiven(reasons, TargetTable(t, authority));
  }

  /** Four objections in a row. */
  lemma FourGiven(reasons: seq<string>, table: seq<Objection>)
    requires |table| == 4
    requires reasons == (if table[0].holds then [table[0].reason] else [])
                        + (if table[1].holds then [table[1].reason] else [])
                        + (if table[2].holds then [table[2].reason] else [])
                        + (if table[3].holds then [table[3].reason] else [])
    ensures GivenExactly(reasons, table)
  {
    assert forall r :: r in reasons <==>
        || (table[0].holds && table[0].reason == r) || (table[1].holds && table[1].reason == r)
        || (table[2].holds && table[2].reason == r) || (table[3].holds && table[3].reason == r);
  }
}
