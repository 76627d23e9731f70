/**
 The decision whether a candidate may be generally released: every gate that fails leaves a reason, and the candidate is
 approved when there is none.
 */
module ReleaseDecision {
  import opened Options
  import opened ProviderQualification
  import opened StringSets

  // ---------------------------------------------------------------------------------------------------- the evidence

  datatype AttendedReview = AttendedReview(
    digest: string,
    appSourceRevision: string,
    appRuntimeRevision: string,
    observedAt: string,
    attempts: int,
    failures: int,
    flakes: int,
    skips: int,
    evidenceClass: string,
    boundary: map<string, int>)

  /** The evidence records of one invariant of the product contract, in order. */
  datatype Invariant = Invariant(id: string, evidence: seq<AttendedReview>)

  datatype Contract = Contract(
    passed: bool,
    releaseMode: bool,
    eligible: bool,
    sourceRevision: string,
    runtimeRevision: string,
    runId: string,
    summaryDigest: string,
    invariants: seq<Invariant>)

  datatype Participants = Participants(
    total: nat, desktopFirst: nat, phoneFirst: nat, crossDeviceDayTwo: nat, activationRecovery: nat,
    firstBrief: nat, fullComprehension: nat)

  datatype Study = Study(
    applicationRevision: string,
    runtimeRevision: string,
    evidenceDigest: string,
    observedAt: string,
    participants: Participants,
    criticalFailures: map<string, nat>)

  datatype KindEvidence = KindEvidence(passed: bool, evidenceDigest: string)

  datatype Operations = Operations(
    applicationRevision: string,
    runtimeRevision: string,
    evidenceDigest: string,
    observedAt: string,
    expiresAt: string,
    frozenAt: string,
    operational: KindEvidence,
    privacy: KindEvidence,
    billing: KindEvidence,
    recovery: KindEvidence,
    retirement: KindEvidence)

  datatype ProviderDecision = ProviderDecision(
    released: bool, sourceRevision: string, qualifiedAt: string, expiresAt: string, evidenceDigest: string)

  datatype Providers = Providers(
    sourceRevision: string,
    evidenceDigest: string,
    openai: ProviderDecision,
    anthropic: ProviderDecision,
    calendarReading: ProviderDecision,
    gmailReading: ProviderDecision,
    gmailSending: ProviderDecision)

  datatype Input = Input(
    contract: Contract,
    study: Option<Study>,
    providers: Option<Providers>,
    qualifications: Option<Summary>,
    targets: Option<TargetAuthority>,
    operations: Option<Operations>)

  function At(input: Input, now: int, clock: Clock): Moment {
    Moment(input.contract.sourceRevision, input.contract.runtimeRevision, now, clock)
  }

  /** Not observed later than now, nor more than eight days ago, as far as it can be read. */
  predicate Recent(observedAt: string, m: Moment) {
    var now, observed := Some(m.now), m.clock.ms(observedAt);
    !Above(observed, now) && !Above(Minus(now, observed), Some(MAX_AGE_MS))
  }

  /** Not observed before the candidate was frozen, as far as both can be read. */
  predicate AfterFreeze(observedAt: string, frozenAt: string, m: Moment) {
    !Above(m.clock.ms(frozenAt), m.clock.ms(observedAt))
  }

  // -------------------------------------------------------------------------------------------- the attended reviews

  const NO_ONE_INSIDE: set<string> := {
    "automatedRuns", "ownerParticipants", "selfTests", "friendOrFamilyParticipants", "supportInterventions",
    "externalBetaParticipants", "coachedParticipants", "facilitatorRescues", "trustedPreviewParticipants",
    "buildTeamParticipants"
  }

  predicate Independent(r: AttendedReview) {
    && r.attempts == 1 && r.failures == 0 && r.flakes == 0 && r.skips == 0
    && r.evidenceClass == "independent_attended_human_accessibility_review"
    && "independentHumanReviewers" in r.boundary && r.boundary["independentHumanReviewers"] == 1
    && forall key :: key in NO_ONE_INSIDE ==> key in r.boundary && r.boundary[key] == 0
  }

  /** The first evidence record of the first invariant with this id, if it is a clean independent review. */
  function ReviewFor(invariants: seq<Invariant>, id: string): Option<AttendedReview> {
    if invariants == [] then None
    else if invariants[0].id == id then
      if invariants[0].evidence != [] && Independent(invariants[0].evidence[0]) then Some(invariants[0].evidence[0])
      else None
    else ReviewFor(invariants[1..], id)
  }

  datatype Reviews = Reviews(voiceOver: AttendedReview, talkBack: AttendedReview)

  /** `attendedAccessibilityEvidence` */
  function ReviewsOf(c: Contract): Option<Reviews> {
    var voiceOver, talkBack := ReviewFor(c.invariants, "voiceover_safari"), ReviewFor(c.invariants, "talkback_chrome");
    if voiceOver.Some? && talkBack.Some? then Some(Reviews(voiceOver.value, talkBack.value)) else None
  }

  // ---------------------------------------------------------------------------------------------------- the gates

  predicate ContractHolds(c: Contract) { c.passed && c.releaseMode && c.eligible }

  predicate StudyHolds(s: Study, m: Moment) {
    && s.applicationRevision == m.revision && s.runtimeRevision == m.runtime
    && Recent(s.observedAt, m)
    && CohortHolds(s.participants)
    && forall kind :: kind in s.criticalFailures ==> s.criticalFailures[kind] == 0
  }

  function Kinds(o: Operations): seq<(string, KindEvidence)> {
    [("operational", o.operational), ("privacy", o.privacy), ("billing", o.billing), ("recovery", o.recovery),
     ("retirement", o.retirement)]
  }

  predicate OperationsHold(o: Operations, study: Option<Study>, m: Moment) {
    && o.applicationRevision == m.revision && o.runtimeRevision == m.runtime
    && Current(o.observedAt, o.expiresAt, m)
    && o.operational.passed && o.privacy.passed && o.billing.passed && o.recovery.passed && o.retirement.passed
    && (study.Some? ==> AfterFreeze(study.value.observedAt, o.frozenAt, m))
  }

  predicate ReviewHolds(r: AttendedReview, operations: Option<Operations>, m: Moment) {
    && r.appSourceRevision == m.revision && r.appRuntimeRevision == m.runtime
    && Recent(r.observedAt, m)
    && (operations.Some? ==> AfterFreeze(r.observedAt, operations.value.frozenAt, m))
  }

  function Named(p: Providers): seq<(string, ProviderDecision)> {
    [("openai", p.openai), ("anthropic", p.anthropic), ("calendarReading", p.calendarReading),
     ("gmailReading", p.gmailReading), ("gmailSending", p.gmailSending)]
  }

  predicate Released(d: ProviderDecision, m: Moment) {
    d.released && d.sourceRevision == m.revision && Current(d.qualifiedAt, d.expiresAt, m)
  }

  function ProviderDigests(p: Providers): seq<string> {
    [p.openai.evidenceDigest, p.anthropic.evidenceDigest, p.calendarReading.evidenceDigest,
     p.gmailReading.evidenceDigest, p.gmailSending.evidenceDigest]
  }

  predicate ProvidersHold(p: Providers, m: Moment) {
    && p.sourceRevision == m.revision
    && Released(p.openai, m) && Released(p.anthropic, m) && Released(p.calendarReading, m)
    && Released(p.gmailReading, m) && Released(p.gmailSending, m)
  }

  function OwnDigests(input: Input): seq<string> {
    var reviews := ReviewsOf(input.contract);
    [input.contract.summaryDigest]
    + (if reviews.Some? then [reviews.value.voiceOver.digest, reviews.value.talkBack.digest] else [])
    + (if input.study.Some? then [input.study.value.evidenceDigest] else [])
  }

  function ProviderPart(providers: Option<Providers>): seq<string> {
    if providers.None? then [] else [providers.value.evidenceDigest] + ProviderDigests(providers.value)
  }

  function QualificationPart(q: Option<Summary>): seq<string> {
    if q.None? then [] else [q.value.evidenceDigest] + Digests(q.value)
  }

  function OperationsPart(o: Option<Operations>): seq<string> {
    if o.None? then [] else [o.value.evidenceDigest] + KindDigests(o.value)
  }

  /** Every digest of every piece of evidence that is there. */
  function AllDigests(input: Input): seq<string> {
    OwnDigests(input) + ProviderPart(input.providers) + QualificationPart(input.qualifications)
    + OperationsPart(input.operations)
  }

  function KindDigests(o: Operations): seq<string> {
    [o.operational.evidenceDigest, o.privacy.evidenceDigest, o.billing.evidenceDigest, o.recovery.evidenceDigest,
     o.retirement.evidenceDigest]
  }

  function ExternalDigests(p: Providers, q: Summary): seq<string> {
    ProviderPart(Some(p)) + QualificationPart(Some(q))
  }

  /** All that has to be true for a release: all evidence is there, holds for this candidate, and stands alone. */
  predicate AllGates(input: Input, m: Moment) {
    var reviews := ReviewsOf(input.contract);
    && ContractHolds(input.contract)
    && input.study.Some? && StudyHolds(input.study.value, m)
    && input.operations.Some? && OperationsHold(input.operations.value, input.study, m)
    && reviews.Some? && ReviewHolds(reviews.value.voiceOver, input.operations, m)
    && ReviewHolds(reviews.value.talkBack, input.operations, m)
    && input.providers.Some? && ProvidersHold(input.providers.value, m)
    && input.qualifications.Some? && SummaryHolds(input.qualifications.value, input.targets, m)
    && NoneTwice(AllDigests(input))
  }

  // ------------------------------------------------------------------------------------------- what the gates mean

  /** Every instant of the evidence can be read. */
  predicate Dated(input: Input, m: Moment)
    requires Complete(input)
  {
    DatedBesidesReviews(input, m) && ReviewsDated(input, m)
  }

  predicate ReviewsDated(input: Input, m: Moment)
    requires Complete(input)
  {
    var reviews := ReviewsOf(input.contract).value;
    Readable(reviews.voiceOver.observedAt, m) && Readable(reviews.talkBack.observedAt, m)
  }

  predicate DatedBesidesReviews(input: Input, m: Moment)
    requires Complete(input)
  {
    var o, p, q := input.operations.value, input.providers.value, input.qualifications.value;
    && Readable(input.study.value.observedAt, m)
    && Readable(o.observedAt, m) && Readable(o.expiresAt, m) && Readable(o.frozenAt, m)
    && (forall i :: 0 <= i < |Named(p)| ==>
          Readable(Named(p)[i].1.qualifiedAt, m) && Readable(Named(p)[i].1.expiresAt, m))
    && (forall i :: 0 <= i < |All(q)| ==> Readable(All(q)[i].observedAt, m) && Readable(All(q)[i].expiresAt, m))
  }

  predicate Complete(input: Input) {
    && ReviewsOf(input.contract).Some? && input.study.Some? && input.providers.Some?
    && input.qualifications.Some? && input.operations.Some?
  }

  /** Observed between the freeze of the candidate and now, and not more than eight days ago. */
  predicate ObservedInTime(at: string, frozenAt: string, m: Moment) {
    && Readable(at, m) && Readable(frozenAt, m)
    && m.clock.ms(frozenAt).value <= m.clock.ms(at).value <= m.now
    && m.now - m.clock.ms(at).value <= MAX_AGE_MS
  }

  /** What a release asks of the times of its evidence. */
  predicate Timely(input: Input, m: Moment)
    requires Complete(input)
  {
    var reviews, o := ReviewsOf(input.contract).value, input.operations.value;
    var p, q := input.providers.value, input.qualifications.value;
    && ObservedInTime(input.study.value.observedAt, o.frozenAt, m)
    && ObservedInTime(reviews.voiceOver.observedAt, o.frozenAt, m)
    && ObservedInTime(reviews.talkBack.observedAt, o.frozenAt, m)
    && WithinTime(o.observedAt, o.expiresAt, m)
    && (forall i :: 0 <= i < |Named(p)| ==> WithinTime(Named(p)[i].1.qualifiedAt, Named(p)[i].1.expiresAt, m))
    && (forall i :: 0 <= i < |All(q)| ==> WithinTime(All(q)[i].observedAt, All(q)[i].expiresAt, m))
  }

  lemma GatesHoldEach(input: Input, m: Moment)
    requires AllGates(input, m)
    ensures Complete(input)
    ensures forall i :: 0 <= i < |Named(input.providers.value)| ==> Released(Named(input.providers.value)[i].1, m)
    ensures forall i :: 0 <= i < |All(input.qualifications.value)| ==> Qualified(All(input.qualifications.value)[i], m)
  {
  }

  /** An approval says of the evidence's times what it should, exactly when all of them could be read. */
  lemma ApprovalIsTimely(input: Input, m: Moment)
    requires AllGates(input, m)
    ensures Complete(input) && (Timely(input, m) <==> Dated(input, m))
  {
    GatesHoldEach(input, m);
    var p, q := input.providers.value, input.qualifications.value;
    if Dated(input, m) {
      forall i | 0 <= i < |Named(p)| ensures WithinTime(Named(p)[i].1.qualifiedAt, Named(p)[i].1.expiresAt, m) {
        assert Released(Named(p)[i].1, m);
      }
      forall i | 0 <= i < |All(q)| ensures WithinTime(All(q)[i].observedAt, All(q)[i].expiresAt, m) {
        assert Qualified(All(q)[i], m);
      }
    }
  }

  // ---------------------------------------------------------------------------------------------------- the builder

  function ContractTable(c: Contract): seq<Objection> {
    [Objection(!(c.passed && c.releaseMode && c.eligible), "product_contract_not_release_eligible")]
  }

  function CohortTable(p: Participants): seq<Objection> {
    [
      Objection(!(p.total == 8 && p.desktopFirst == 4 && p.phoneFirst == 4 && p.crossDeviceDayTwo == 8),
                "representative_cohort_incomplete"),
      Objection(p.activationRecovery < 7, "activation_action_recovery_threshold_failed"),
      Objection(p.firstBrief < 7, "first_brief_time_threshold_failed"),
      Objection(p.fullComprehension != 8, "founder_comprehension_threshold_failed")
    ]
  }

  function StudyTable(study: Option<Study>, m: Moment): seq<Objection> {
    if study.None? then [Objection(true, "moderated_founder_evidence_missing")]
    else
      var s := study.value;
      [Objection(s.applicationRevision != m.revision || s.runtimeRevision != m.runtime,
                 "founder_usability_candidate_mismatch")]
      + [Objection(!(AtMostAt(s.observedAt, m.now, m) && NotOld(s.observedAt, m)), "founder_usability_evidence_stale")]
      + CohortTable(s.participants)
      + [Objection(exists kind :: kind in s.criticalFailures && s.criticalFailures[kind] != 0,
                   "critical_failure_present")]
  }

  function KindTable(kinds: seq<(string, KindEvidence)>): seq<Objection> {
    if kinds == [] then []
    else
      var last := kinds[|kinds| - 1];
      KindTable(kinds[..|kinds| - 1]) + [KindObjection(last.0, last.1)]
  }

  function KindObjection(kind: string, evidence: KindEvidence): Objection {
    Objection(!evidence.passed, kind + "_evidence_failed")
  }

  function OperationsTable(operations: Option<Operations>, study: Option<Study>, m: Moment): seq<Objection> {
    if operations.None? then [Objection(true, "operational_release_evidence_missing")]
    else
      var o := operations.value;
      [Objection(o.applicationRevision != m.revision || o.runtimeRevision != m.runtime,
                 "operational_release_candidate_mismatch")]
      + [Objection(!Valid(o.observedAt, o.expiresAt, m), "operational_release_evidence_stale")]
      + KindTable(Kinds(o))
      + [Objection(study.Some? && !InOrder(o.frozenAt, study.value.observedAt, m),
                   "founder_usability_evidence_before_candidate_freeze")]
  }

  function ReviewTable(r: AttendedReview, operations: Option<Operations>, m: Moment): seq<Objection> {
    [
      Objection(r.appSourceRevision != m.revision || r.appRuntimeRevision != m.runtime,
                "accessibility_candidate_mismatch"),
      Objection(!(AtMostAt(r.observedAt, m.now, m) && NotOld(r.observedAt, m)), "accessibility_evidence_stale"),
      Objection(operations.Some? && !InOrder(operations.value.frozenAt, r.observedAt, m),
                "accessibility_evidence_before_candidate_freeze")
    ]
  }

  function ReviewsTable(reviews: Option<Reviews>, operations: Option<Operations>, m: Moment): seq<Objection> {
    if reviews.None? then [Objection(true, "accessibility_evidence_missing_or_unclean")]
    else ReviewTable(reviews.value.voiceOver, operations, m) + ReviewTable(reviews.value.talkBack, operations, m)
  }

  /** Of a provider that is not released nothing else is said. */
  function DecisionTable(name: string, d: ProviderDecision, m: Moment): seq<Objection> {
    if !d.released then [Objection(true, name + "_not_released")]
    else
      [Objection(d.sourceRevision != m.revision, name + "_revision_mismatch")]
      + TimeTable(name, d.qualifiedAt, d.expiresAt, m)
  }

  function DecisionTables(named: seq<(string, ProviderDecision)>, m: Moment): seq<Objection> {
    if named == [] then []
    else
      var last := named[|named| - 1];
      DecisionTables(named[..|named| - 1], m) + DecisionTable(last.0, last.1, m)
  }

  function ProviderTable(providers: Option<Providers>, m: Moment): seq<Objection> {
    if providers.None? then [Objection(true, "provider_decision_evidence_missing")]
    else
      var p := providers.value;
      [Objection(p.sourceRevision != m.revision, "provider_revision_mismatch")] + DecisionTables(Named(p), m)
      + [Objection(!NoneTwice(ProviderDigests(p)), "provider_evidence_not_independent")]
  }

  function DigestTable(input: Input): seq<Objection> {
    [Objection(input.providers.Some? && input.qualifications.Some?
               && !NoneTwice(ExternalDigests(input.providers.value, input.qualifications.value)),
               "external_provider_evidence_digest_reused")]
    + [Objection(!NoneTwice(AllDigests(input)), "release_evidence_digest_reused")]
  }

  /** Everything that can be wrong with a candidate's evidence, and what is then said. */
  function ReleaseTable(input: Input, m: Moment): seq<Objection> {
    FirstTable(input, m) + ExternalTable(input, m)
  }

  function FirstTable(input: Input, m: Moment): seq<Objection> {
    ContractTable(input.contract) + StudyTable(input.study, m) + OperationsTable(input.operations, input.study, m)
    + ReviewsTable(ReviewsOf(input.contract), input.operations, m)
  }

  function ExternalTable(input: Input, m: Moment): seq<Objection> {
    ProviderTable(input.providers, m) + SummaryTable(input.qualifications, input.targets, m) + DigestTable(input)
  }

  method ContractReasons(c: Contract) returns (reasons: seq<string>)
    ensures reasons == [] <==> ContractHolds(c)
    ensures GivenExactly(reasons, ContractTable(c))
  {
    reasons := When(!c.passed || !c.releaseMode || !c.eligible, "product_contract_not_release_eligible");
  }

  method StudyReasons(study: Option<Study>, m: Moment) returns (reasons: seq<string>)
    ensures reasons == [] <==> study.Some? && StudyHolds(study.value, m)
    ensures GivenExactly(reasons, StudyTable(study, m))
  {
    if study.None? { return When(true, "moderated_founder_evidence_missing"); }
    var s := study.value;
    var now, observed := Some(m.now), m.clock.ms(s.observedAt);
    var critical := exists kind :: kind in s.criticalFailures && s.criticalFailures[kind] != 0;
    var other := s.applicationRevision != m.revision || s.runtimeRevision != m.runtime;
    var candidate := When(other, "founder_usability_candidate_mismatch");
    var stale := Above(observed, now) || Above(Minus(now, observed), Some(MAX_AGE_MS));
    var age := When(stale, "founder_usability_evidence_stale");
    var cohort := CohortReasons(s.participants);
    reasons := candidate + age + cohort + When(critical, "critical_failure_present");
    FourTogether(candidate, [Objection(other, "founder_usability_candidate_mismatch")],
                 age, [Objection(stale, "founder_usability_evidence_stale")], cohort, CohortTable(s.participants),
                 When(critical, "critical_failure_present"), [Objection(critical, "critical_failure_present")]);
  }

  lemma FourTogether(a: seq<string>, s: seq<Objection>, b: seq<string>, t: seq<Objection>,
                     c: seq<string>, u: seq<Objection>, d: seq<string>, v: seq<Objection>)
    requires GivenExactly(a, s) && GivenExactly(b, t) && GivenExactly(c, u) && GivenExactly(d, v)
    ensures GivenExactly(a + b + c + d, s + t + u + v)
  {
    GivenTogether(a, s, b, t);
    GivenTogether(a + b, s + t, c, u);
    GivenTogether(a + b + c, s + t + u, d, v);
  }

  predicate CohortHolds(p: Participants) {
    && p.total == 8 && p.desktopFirst == 4 && p.phoneFirst == 4 && p.crossDeviceDayTwo == 8
    && p.activationRecovery >= 7 && p.firstBrief >= 7 && p.fullComprehension == 8
  }

  method CohortReasons(p: Participants) returns (reasons: seq<string>)
    ensures reasons == [] <==> CohortHolds(p)
    ensures GivenExactly(reasons, CohortTable(p))
  {
    reasons := When(p.total != 8 || p.desktopFirst != 4 || p.phoneFirst != 4 || p.crossDeviceDayTwo != 8,
                    "representative_cohort_incomplete");
    reasons := reasons + When(p.activationRecovery < 7, "activation_action_recovery_threshold_failed");
    reasons := reasons + When(p.firstBrief < 7, "first_brief_time_threshold_failed");
    reasons := reasons + When(p.fullComprehension != 8, "founder_comprehension_threshold_failed");
    FourGiven(reasons, CohortTable(p));
  }

  method OperationsReasons(operations: Option<Operations>, study: Option<Study>, m: Moment)
    returns (reasons: seq<string>)
    ensures reasons == [] <==> operations.Some? && OperationsHold(operations.value, study, m)
    ensures GivenExactly(reasons, OperationsTable(operations, study, m))
  {
    if operations.None? { return When(true, "operational_release_evidence_missing"); }
    var o := operations.value;
    var now, observed, expires := Some(m.now), m.clock.ms(o.observedAt), m.clock.ms(o.expiresAt);
    var stale := Above(observed, now) || AtMost(expires, now) || Above(Minus(now, observed), Some(MAX_AGE_MS))
                 || Above(Minus(expires, observed), Some(MAX_AGE_MS));
    var early := study.Some? && Above(m.clock.ms(o.frozenAt), m.clock.ms(study.value.observedAt));
    var other := o.applicationRevision != m.revision || o.runtimeRevision != m.runtime;
    var candidate := When(other, "operational_release_candidate_mismatch");
    var age := When(stale, "operational_release_evidence_stale");
    var failed := KindReasons(o);
    var freeze := When(early, "founder_usability_evidence_before_candidate_freeze");
    reasons := candidate + age + failed + freeze;
    ValidMeans(o.observedAt, o.expiresAt, m);
    FourTogether(candidate, [Objection(other, "operational_release_candidate_mismatch")],
                 age, [Objection(stale, "operational_release_evidence_stale")], failed, KindTable(Kinds(o)),
                 freeze, [Objection(early, "founder_usability_evidence_before_candidate_freeze")]);
  }

  method KindReasons(o: Operations) returns (reasons: seq<string>)
    ensures reasons == [] <==>
            o.operational.passed && o.privacy.passed && o.billing.passed && o.recovery.passed && o.retirement.passed
    ensures GivenExactly(reasons, KindTable(Kinds(o)))
  {
    var kinds := Kinds(o);
    reasons := EachKind(kinds);
    assert kinds[0].1 == o.operational && kinds[1].1 == o.privacy && kinds[2].1 == o.billing;
    assert kinds[3].1 == o.recovery && kinds[4].1 == o.retirement;
  }

  method EachKind(kinds: seq<(string, KindEvidence)>) returns (reasons: seq<string>)
    ensures reasons == [] <==> forall j :: 0 <= j < |kinds| ==> kinds[j].1.passed
    ensures GivenExactly(reasons, KindTable(kinds))
  {
    reasons := [];
    for i := 0 to |kinds|
      invariant reasons == [] <==> forall j :: 0 <= j < i ==> kinds[j].1.passed
      invariant GivenExactly(reasons, KindTable(kinds[..i]))
    {
      var failed := When(!kinds[i].1.passed, kinds[i].0 + "_evidence_failed");
      assert kinds[..i + 1][..i] == kinds[..i];
      GivenTogether(reasons, KindTable(kinds[..i]), failed, [KindObjection(kinds[i].0, kinds[i].1)]);
      reasons := reasons + failed;
    }
    assert kinds[..|kinds|] == kinds;
  }

  /** Two reviews, each reason given once however many of them fail. */
  method ReviewReasons(reviews: Option<Reviews>, operations: Option<Operations>, m: Moment)
    returns (reasons: seq<string>)
    ensures reasons == [] <==>
            reviews.Some? && ReviewHolds(reviews.value.voiceOver, operations, m)
            && ReviewHolds(reviews.value.talkBack, operations, m)
    ensures NoneTwice(reasons)
    ensures GivenExactly(reasons, ReviewsTable(reviews, operations, m))
  {
    if reviews.None? { return When(true, "accessibility_evidence_missing_or_unclean"); }
    var both := [reviews.value.voiceOver, reviews.value.talkBack];
    reasons := [];
    for i := 0 to 2
      invariant reasons == [] <==> forall j :: 0 <= j < i ==> ReviewHolds(both[j], operations, m)
      invariant NoneTwice(reasons)
      invariant GivenExactly(reasons, if i == 0 then [] else if i == 1 then ReviewTable(both[0], operations, m)
                                      else ReviewTable(both[0], operations, m) + ReviewTable(both[1], operations, m))
    {
      ghost var table := if i == 0 then [] else ReviewTable(both[0], operations, m);
      reasons := MoreReasons(reasons, table, both[i], operations, m);
      assert [] + ReviewTable(both[0], operations, m) == ReviewTable(both[0], operations, m);
    }
    assert both[0] == reviews.value.voiceOver && both[1] == reviews.value.talkBack;
  }

  /** One round of the loop over the reviews. */
  method MoreReasons(before: seq<string>, ghost table: seq<Objection>, r: AttendedReview,
                     operations: Option<Operations>, m: Moment)
    returns (reasons: seq<string>)
    requires NoneTwice(before) && GivenExactly(before, table)
    ensures reasons == [] <==> before == [] && ReviewHolds(r, operations, m)
    ensures NoneTwice(reasons) && GivenExactly(reasons, table + ReviewTable(r, operations, m))
  {
    var now, observed := Some(m.now), m.clock.ms(r.observedAt);
    var rows := ReviewTable(r, operations, m);
    reasons := before;
    if r.appSourceRevision != m.revision || r.appRuntimeRevision != m.runtime {
      reasons := Once(reasons, "accessibility_candidate_mismatch");
    }
    RowAdded(before, table, reasons, rows[0]);
    ghost var first := reasons;
    if Above(observed, now) || Above(Minus(now, observed), Some(MAX_AGE_MS)) {
      reasons := Once(reasons, "accessibility_evidence_stale");
    }
    RowAdded(first, table + [rows[0]], reasons, rows[1]);
    ghost var second := reasons;
    if operations.Some? && Above(m.clock.ms(operations.value.frozenAt), observed) {
      reasons := Once(reasons, "accessibility_evidence_before_candidate_freeze");
    }
    RowAdded(second, table + [rows[0]] + [rows[1]], reasons, rows[2]);
    assert table + [rows[0]] + [rows[1]] + [rows[2]] == table + rows;
  }

  /** A reason that is given once when its objection holds. */
  lemma RowAdded(before: seq<string>, table: seq<Objection>, after: seq<string>, row: Objection)
    requires GivenExactly(before, table)
    requires after == if row.holds then Once(before, row.reason) else before
    ensures GivenExactly(after, table + [row])
  {
    GivenTogether(before, table, When(row.holds, row.reason), [row]);
    assert forall r :: r in after <==> r in before + When(row.holds, row.reason);
  }

  function Once(reasons: seq<string>, reason: string): (r: seq<string>)
    ensures reason in r && reasons <= r
    ensures forall other :: other in r <==> other == reason || other in reasons
    ensures NoneTwice(reasons) ==> NoneTwice(r)
  {
    if reason in reasons then reasons else reasons + [reason]
  }

  method ProviderReasons(providers: Option<Providers>, m: Moment) returns (reasons: seq<string>)
    ensures reasons == [] <==>
            providers.Some? && ProvidersHold(providers.value, m) && NoneTwice(ProviderDigests(providers.value))
    ensures GivenExactly(reasons, ProviderTable(providers, m))
  {
    if providers.None? { return When(true, "provider_decision_evidence_missing"); }
    var p := providers.value;
    var other := p.sourceRevision != m.revision;
    var candidate := When(other, "provider_revision_mismatch");
    var more := DecisionReasons(p, m);
    SizeMeansNoneTwice(ProviderDigests(p));
    var reused := |SetOf(ProviderDigests(p))| != |ProviderDigests(p)|;
    var digests := When(reused, "provider_evidence_not_independent");
    reasons := candidate + more + digests;
    GivenTogether(candidate, [Objection(other, "provider_revision_mismatch")], more, DecisionTables(Named(p), m));
    GivenTogether(candidate + more, [Objection(other, "provider_revision_mismatch")] + DecisionTables(Named(p), m),
                  digests, [Objection(reused, "provider_evidence_not_independent")]);
  }

  method DecisionReasons(p: Providers, m: Moment) returns (reasons: seq<string>)
    ensures reasons == [] <==>
            Released(p.openai, m) && Released(p.anthropic, m) && Released(p.calendarReading, m)
            && Released(p.gmailReading, m) && Released(p.gmailSending, m)
    ensures GivenExactly(reasons, DecisionTables(Named(p), m))
  {
    var named := Named(p);
    reasons := EachDecision(named, m);
    FiveReleased(named, m);
    assert named[0].1 == p.openai && named[1].1 == p.anthropic && named[2].1 == p.calendarReading;
    assert named[3].1 == p.gmailReading && named[4].1 == p.gmailSending;
  }

  /** The first of these decisions release their providers. */
  predicate ReleasedBefore(named: seq<(string, ProviderDecision)>, i: nat, m: Moment)
    requires i <= |named|
  {
    i == 0 || (ReleasedBefore(named, i - 1, m) && Released(named[i - 1].1, m))
  }

  lemma FiveReleased(named: seq<(string, ProviderDecision)>, m: Moment)
    requires |named| == 5
    ensures ReleasedBefore(named, 5, m) <==>
            && Released(named[0].1, m) && Released(named[1].1, m) && Released(named[2].1, m)
            && Released(named[3].1, m) && Released(named[4].1, m)
  {
    assert ReleasedBefore(named, 1, m) <==> Released(named[0].1, m);
    assert ReleasedBefore(named, 2, m) <==> ReleasedBefore(named, 1, m) && Released(named[1].1, m);
    assert ReleasedBefore(named, 3, m) <==> ReleasedBefore(named, 2, m) && Released(named[2].1, m);
    assert ReleasedBefore(named, 4, m) <==> ReleasedBefore(named, 3, m) && Released(named[3].1, m);
  }

  method EachDecision(named: seq<(string, ProviderDecision)>, m: Moment) returns (reasons: seq<string>)
    ensures reasons == [] <==> ReleasedBefore(named, |named|, m)
    ensures GivenExactly(reasons, DecisionTables(named, m))
  {
    reasons := [];
    for i := 0 to |named|
      invariant reasons == [] <==> ReleasedBefore(named, i, m)
      invariant GivenExactly(reasons, DecisionTables(named[..i], m))
    {
      reasons := NextDecision(named, i, m, reasons);
    }
    assert named[..|named|] == named;
  }

  /** One round of the loop over the providers. */
  method NextDecision(named: seq<(string, ProviderDecision)>, i: nat, m: Moment, reasons: seq<string>)
    returns (more: seq<string>)
    requires i < |named| && GivenExactly(reasons, DecisionTables(named[..i], m))
    ensures more == [] <==> reasons == [] && Released(named[i].1, m)
    ensures GivenExactly(more, DecisionTables(named[..i + 1], m))
  {
    var own := OneDecision(named[i].0, named[i].1, m);
    more := reasons + own;
    assert named[..i + 1][..i] == named[..i];
    GivenTogether(reasons, DecisionTables(named[..i], m), own, DecisionTable(named[i].0, named[i].1, m));
  }

  method OneDecision(name: string, d: ProviderDecision, m: Moment) returns (reasons: seq<string>)
    ensures reasons == [] <==> Released(d, m)
    ensures GivenExactly(reasons, DecisionTable(name, d, m))
  {
    if !d.released { return When(true, name + "_not_released"); }
    var other := d.sourceRevision != m.revision;
    reasons := When(other, name + "_revision_mismatch");
    GivenTogether(reasons, [Objection(other, name + "_revision_mismatch")],
                  TimeReasons(name, d.qualifiedAt, d.expiresAt, m), TimeTable(name, d.qualifiedAt, d.expiresAt, m));
    reasons := reasons + TimeReasons(name, d.qualifiedAt, d.expiresAt, m);
  }

  method DigestReasons(input: Input) returns (reasons: seq<string>)
    ensures reasons == [] ==> NoneTwice(AllDigests(input))
    ensures NoneTwice(AllDigests(input))
            && (input.providers.Some? && input.qualifications.Some? ==>
                  NoneTwice(ExternalDigests(input.providers.value, input.qualifications.value)))
            ==> reasons == []
    ensures GivenExactly(reasons, DigestTable(input))
  {
    var again := false;
    if input.providers.Some? && input.qualifications.Some? {
      var external := ExternalDigests(input.providers.value, input.qualifications.value);
      SizeMeansNoneTwice(external);
      again := |SetOf(external)| != |external|;
    }
    reasons := When(again, "external_provider_evidence_digest_reused");
    SizeMeansNoneTwice(AllDigests(input));
    var reused := |SetOf(AllDigests(input))| != |AllDigests(input)|;
    GivenTogether(reasons, [Objection(again, "external_provider_evidence_digest_reused")],
                  When(reused, "release_evidence_digest_reused"),
                  [Objection(reused, "release_evidence_digest_reused")]);
    reasons := reasons + When(reused, "release_evidence_digest_reused");
  }

  lemma PartNoneTwice(before: seq<string>, part: seq<string>, after: seq<string>)
    requires NoneTwice(before + part + after)
    ensures NoneTwice(part)
  {
    var all := before + part + after;
    forall i, j | 0 <= i < j < |part| ensures part[i] != part[j] {
      assert all[|before| + i] == part[i] && all[|before| + j] == part[j];
    }
  }

  /** The smaller groups of digests lie within the list of all, so that its independence is theirs. */
  lemma GroupsAreIndependent(input: Input)
    requires NoneTwice(AllDigests(input))
    ensures input.providers.Some? ==> NoneTwice(ProviderDigests(input.providers.value))
    ensures input.providers.Some? && input.qualifications.Some? ==>
              NoneTwice(ExternalDigests(input.providers.value, input.qualifications.value))
  {
    if input.providers.Some? {
      MiddleNoneTwice(OwnDigests(input), input.providers.value.evidenceDigest, ProviderDigests(input.providers.value),
                      QualificationPart(input.qualifications), OperationsPart(input.operations));
    }
  }

  lemma MiddleNoneTwice(own: seq<string>, first: string, providers: seq<string>, quals: seq<string>, rest: seq<string>)
    requires NoneTwice(own + ([first] + providers) + quals + rest)
    ensures NoneTwice(providers) && NoneTwice(([first] + providers) + quals)
  {
    var all := own + ([first] + providers) + quals + rest;
    assert all == (own + [first]) + providers + (quals + rest);
    PartNoneTwice(own + [first], providers, quals + rest);
    assert all == own + (([first] + providers) + quals) + rest;
    PartNoneTwice(own, ([first] + providers) + quals, rest);
  }

  // ---------------------------------------------------------------------------------------------------- the artifact

  const SCHEMA := "bruno.founder-initial-general-release-decision.v1"
  const STAGE := "initial_general_release"
  const MANIFEST: seq<string> := ["openai", "anthropic", "calendar_reading", "gmail_reading", "gmail_sending"]

  /** The fields the authority reads; `details` stands for the rest of the artifact, which it does not. */
  datatype Payload = Payload(
    schemaVersion: string,
    stage: string,
    outcome: string,
    reasons: seq<string>,
    manifest: seq<string>,
    sourceRevision: string,
    runtimeRevision: string,
    decidedAt: string,
    evidence: map<string, Option<string>>,
    authorityExpiresAt: Option<string>,
    details: Input)

  datatype Artifact = Artifact(payload: Payload, summaryDigest: string)

  const EVIDENCE_KEYS: seq<string> := [
    "productContractDigest", "voiceOverDigest", "talkBackDigest", "moderatedFounderDigest", "providerDecisionDigest",
    "productionProviderQualificationDigest", "operationalDigest", "privacyDigest", "billingDigest", "recoveryDigest",
    "retirementDigest"
  ]

  /** The digests the artifact retains, in the order of their keys; what is missing is null. */
  function Retained(input: Input): seq<Option<string>> {
    var reviews, o := ReviewsOf(input.contract), input.operations;
    [
      Some(input.contract.summaryDigest),
      if reviews.Some? then Some(reviews.value.voiceOver.digest) else None,
      if reviews.Some? then Some(reviews.value.talkBack.digest) else None,
      if input.study.Some? then Some(input.study.value.evidenceDigest) else None,
      if input.providers.Some? then Some(input.providers.value.evidenceDigest) else None,
      if input.qualifications.Some? then Some(input.qualifications.value.evidenceDigest) else None,
      if o.Some? then Some(o.value.operational.evidenceDigest) else None,
      if o.Some? then Some(o.value.privacy.evidenceDigest) else None,
      if o.Some? then Some(o.value.billing.evidenceDigest) else None,
      if o.Some? then Some(o.value.recovery.evidenceDigest) else None,
      if o.Some? then Some(o.value.retirement.evidenceDigest) else None
    ]
  }

  function RecordOf<V>(keys: seq<string>, values: seq<V>): map<string, V>
    requires |keys| == |values|
  {
    if keys == [] then map[]
    else RecordOf(keys[..|keys| - 1], values[..|keys| - 1])[keys[|keys| - 1] := values[|keys| - 1]]
  }

  lemma {:induction false} RecordKeys<V>(keys: seq<string>, values: seq<V>)
    requires |keys| == |values|
    ensures RecordOf(keys, values).Keys == SetOf(keys)
  {
    if keys != [] {
      var n := |keys| - 1;
      RecordKeys(keys[..n], values[..n]);
      assert keys == keys[..n] + [keys[n]];
    }
  }

  lemma {:induction false} RecordAt<V>(keys: seq<string>, values: seq<V>, i: nat)
    requires |keys| == |values| && NoneTwice(keys) && i < |keys|
    ensures keys[i] in RecordOf(keys, values) && RecordOf(keys, values)[keys[i]] == values[i]
  {
    var n := |keys| - 1;
    if i < n {
      RecordAt(keys[..n], values[..n], i);
      assert keys[i] != keys[n];
    }
  }

  /** A record has one entry for every key, with the value given for it, and no other. */
  lemma RecordHolds<V>(keys: seq<string>, values: seq<V>)
    requires |keys| == |values| && NoneTwice(keys)
    ensures |RecordOf(keys, values)| == |keys|
    ensures forall i :: 0 <= i < |keys| ==>
              keys[i] in RecordOf(keys, values) && RecordOf(keys, values)[keys[i]] == values[i]
  {
    RecordKeys(keys, values);
    SizeMeansNoneTwice(keys);
    assert |RecordOf(keys, values)| == |RecordOf(keys, values).Keys|;
    forall i | 0 <= i < |keys|
      ensures keys[i] in RecordOf(keys, values) && RecordOf(keys, values)[keys[i]] == values[i]
    {
      RecordAt(keys, values, i);
    }
  }

  function PayloadOf(input: Input, reasons: seq<string>, m: Moment): Payload {
    Payload(SCHEMA, STAGE, if reasons == [] then "approved" else "denied", reasons, MANIFEST, m.revision, m.runtime,
            m.clock.iso(m.now), RecordOf(EVIDENCE_KEYS, Retained(input)),
            if input.operations.Some? then Some(input.operations.value.expiresAt) else None, input)
  }

  /** The reasons of all the gates, in their order. */
  method GateReasons(input: Input, m: Moment) returns (reasons: seq<string>)
    ensures reasons == [] <==> AllGates(input, m)
    ensures GivenExactly(reasons, ReleaseTable(input, m))
  {
    var reviews := ReviewsOf(input.contract);
    var contract := ContractReasons(input.contract);
    var study := StudyReasons(input.study, m);
    var operations := OperationsReasons(input.operations, input.study, m);
    var accessibility := ReviewReasons(reviews, input.operations, m);
    FourTogether(contract, ContractTable(input.contract), study, StudyTable(input.study, m),
                 operations, OperationsTable(input.operations, input.study, m),
                 accessibility, ReviewsTable(reviews, input.operations, m));
    reasons := contract + study + operations + accessibility;
    var external := ExternalReasons(input, m);
    GivenTogether(reasons, FirstTable(input, m), external, ExternalTable(input, m));
    reasons := reasons + external;
  }

  /** Those of the providers, their qualifications and the digests; the last are given as none only if all are apart. */
  method ExternalReasons(input: Input, m: Moment) returns (reasons: seq<string>)
    ensures reasons == [] <==>
            && input.providers.Some? && ProvidersHold(input.providers.value, m)
            && input.qualifications.Some? && SummaryHolds(input.qualifications.value, input.targets, m)
            && NoneTwice(AllDigests(input))
    ensures GivenExactly(reasons, ExternalTable(input, m))
  {
    var providers := ProviderReasons(input.providers, m);
    var qualifications := Evaluate(input.qualifications, input.targets, m);
    var digests := DigestReasons(input);
    if NoneTwice(AllDigests(input)) { GroupsAreIndependent(input); }
    GivenTogether(providers, ProviderTable(input.providers, m),
                  qualifications, SummaryTable(input.qualifications, input.targets, m));
    GivenTogether(providers + qualifications,
                  ProviderTable(input.providers, m) + SummaryTable(input.qualifications, input.targets, m),
                  digests, DigestTable(input));
    reasons := providers + qualifications + digests;
  }

  /**
   `buildFounderInitialGeneralReleaseDecision`: approved exactly when every gate holds, and otherwise denied for exactly
   what is wrong.
   */
  method Build(input: Input, now: int, clock: Clock, hash: Payload -> string) returns (artifact: Artifact)
    ensures artifact.payload == PayloadOf(input, artifact.payload.reasons, At(input, now, clock))
    ensures artifact.summaryDigest == hash(artifact.payload)
    ensures artifact.payload.reasons == [] <==> AllGates(input, At(input, now, clock))
    ensures artifact.payload.outcome == "approved" <==> AllGates(input, At(input, now, clock))
    ensures GivenExactly(artifact.payload.reasons, ReleaseTable(input, At(input, now, clock)))
  {
    var m := At(input, now, clock);
    var reasons := GateReasons(input, m);
    artifact := Artifact(PayloadOf(input, reasons, m), hash(PayloadOf(input, reasons, m)));
  }
}
