/**
 What a release decision asks of its evidence, field by field: said without the gates that the builder tests, so that an
 approval can be read off the evidence itself.
 */
module ReleaseMeaning {
  import opened Options
  import opened ProviderQualification
  import opened ReleaseDecision
  import opened StringSets

  // -------------------------------------------------------------------------------------------------- the study

  /** Eight founders, half of them on each device first, and what they could do. */
  predicate StudyConvinces(s: Study, m: Moment) {
    && s.applicationRevision == m.revision && s.runtimeRevision == m.runtime
    && AtMostAt(s.observedAt, m.now, m) && NotOld(s.observedAt, m)
    && s.participants.total == 8 && s.participants.desktopFirst == 4 && s.participants.phoneFirst == 4
    && s.participants.crossDeviceDayTwo == 8 && s.participants.activationRecovery >= 7
    && s.participants.firstBrief >= 7 && s.participants.fullComprehension == 8
    && forall kind :: kind in s.criticalFailures ==> s.criticalFailures[kind] == 0
  }

  lemma StudyExactly(s: Study, m: Moment)
    ensures StudyHolds(s, m) <==> StudyConvinces(s, m)
  {
  }

  // ----------------------------------------------------------------------------------------------- the operations

  predicate OperationsConvince(o: Operations, study: Option<Study>, m: Moment) {
    && o.applicationRevision == m.revision && o.runtimeRevision == m.runtime
    && Valid(o.observedAt, o.expiresAt, m)
    && o.operational.passed && o.privacy.passed && o.billing.passed && o.recovery.passed && o.retirement.passed
    && (study.Some? ==> InOrder(o.frozenAt, study.value.observedAt, m))
  }

  lemma OperationsExactly(o: Operations, study: Option<Study>, m: Moment)
    ensures OperationsHold(o, study, m) <==> OperationsConvince(o, study, m)
  {
    ValidMeans(o.observedAt, o.expiresAt, m);
  }

  // -------------------------------------------------------------------------------------------------- the reviews

  predicate Nobody(r: AttendedReview, key: string) { key in r.boundary && r.boundary[key] == 0 }

  /** One attempt without a flaw, by one independent human, and nobody from inside took part. */
  predicate Clean(r: AttendedReview) {
    && r.attempts == 1 && r.failures == 0 && r.flakes == 0 && r.skips == 0
    && r.evidenceClass == "independent_attended_human_accessibility_review"
    && "independentHumanReviewers" in r.boundary && r.boundary["independentHumanReviewers"] == 1
    && Nobody(r, "automatedRuns") && Nobody(r, "ownerParticipants") && Nobody(r, "selfTests")
    && Nobody(r, "friendOrFamilyParticipants") && Nobody(r, "supportInterventions")
    && Nobody(r, "externalBetaParticipants") && Nobody(r, "coachedParticipants") && Nobody(r, "facilitatorRescues")
    && Nobody(r, "trustedPreviewParticipants") && Nobody(r, "buildTeamParticipants")
  }

  lemma CleanMeans(r: AttendedReview)
    ensures Independent(r) <==> Clean(r)
  {
  }

  /** This invariant is the first with the id, and this review is its first record. */
  predicate FirstAt(invariants: seq<Invariant>, id: string, r: AttendedReview, i: nat) {
    && i < |invariants| && invariants[i].id == id && (forall j :: 0 <= j < i ==> invariants[j].id != id)
    && invariants[i].evidence != [] && invariants[i].evidence[0] == r
  }

  lemma {:induction false} FoundIsFirst(invariants: seq<Invariant>, id: string) returns (i: nat)
    requires ReviewFor(invariants, id).Some?
    ensures FirstAt(invariants, id, ReviewFor(invariants, id).value, i) && Clean(ReviewFor(invariants, id).value)
  {
    if invariants[0].id == id {
      i := 0;
      CleanMeans(invariants[0].evidence[0]);
    } else {
      i := FoundIsFirst(invariants[1..], id);
      i := i + 1;
    }
  }

  lemma {:induction false} FirstIsFound(invariants: seq<Invariant>, id: string, r: AttendedReview, i: nat)
    requires FirstAt(invariants, id, r, i) && Clean(r)
    ensures ReviewFor(invariants, id) == Some(r)
    decreases i
  {
    if i == 0 {
      CleanMeans(r);
    } else {
      assert invariants[0].id != id;
      assert forall j :: 0 <= j < i - 1 ==> invariants[1..][j] == invariants[j + 1];
      FirstIsFound(invariants[1..], id, r, i - 1);
    }
  }

  /** The review under an id is the first record of the first invariant with that id, if it is clean. */
  lemma ReviewFound(invariants: seq<Invariant>, id: string, r: AttendedReview)
    ensures ReviewFor(invariants, id) == Some(r) <==> Clean(r) && exists i: nat :: FirstAt(invariants, id, r, i)
  {
    if ReviewFor(invariants, id) == Some(r) { var i := FoundIsFirst(invariants, id); }
    if i: nat :| FirstAt(invariants, id, r, i) && Clean(r) { FirstIsFound(invariants, id, r, i); }
  }

  predicate ReviewConvinces(r: AttendedReview, operations: Option<Operations>, m: Moment) {
    && r.appSourceRevision == m.revision && r.appRuntimeRevision == m.runtime
    && AtMostAt(r.observedAt, m.now, m) && NotOld(r.observedAt, m)
    && (operations.Some? ==> InOrder(operations.value.frozenAt, r.observedAt, m))
  }

  lemma ReviewExactly(r: AttendedReview, operations: Option<Operations>, m: Moment)
    ensures ReviewHolds(r, operations, m) <==> ReviewConvinces(r, operations, m)
  {
  }

  // ------------------------------------------------------------------------------------------------ the providers

  predicate ProviderConvinces(d: ProviderDecision, m: Moment) {
    d.released && d.sourceRevision == m.revision && Valid(d.qualifiedAt, d.expiresAt, m)
  }

  predicate ProvidersConvince(p: Providers, m: Moment) {
    && p.sourceRevision == m.revision
    && ProviderConvinces(p.openai, m) && ProviderConvinces(p.anthropic, m) && ProviderConvinces(p.calendarReading, m)
    && ProviderConvinces(p.gmailReading, m) && ProviderConvinces(p.gmailSending, m)
  }

  lemma ProvidersExactly(p: Providers, m: Moment)
    ensures ProvidersHold(p, m) <==> ProvidersConvince(p, m)
  {
    ValidMeans(p.openai.qualifiedAt, p.openai.expiresAt, m);
    ValidMeans(p.anthropic.qualifiedAt, p.anthropic.expiresAt, m);
    ValidMeans(p.calendarReading.qualifiedAt, p.calendarReading.expiresAt, m);
    ValidMeans(p.gmailReading.qualifiedAt, p.gmailReading.expiresAt, m);
    ValidMeans(p.gmailSending.qualifiedAt, p.gmailSending.expiresAt, m);
  }

  /** Each provider is spoken of under its own name. */
  lemma EachProviderIsNamed(p: Providers, m: Moment)
    ensures DecisionTables(Named(p), m)
         == DecisionTable("openai", p.openai, m) + DecisionTable("anthropic", p.anthropic, m)
            + DecisionTable("calendarReading", p.calendarReading, m) + DecisionTable("gmailReading", p.gmailReading, m)
            + DecisionTable("gmailSending", p.gmailSending, m)
  {
    FiveTables(Named(p), m);
  }

  lemma FiveTables(named: seq<(string, ProviderDecision)>, m: Moment)
    requires |named| == 5
    ensures DecisionTables(named, m)
         == DecisionTable(named[0].0, named[0].1, m) + DecisionTable(named[1].0, named[1].1, m)
            + DecisionTable(named[2].0, named[2].1, m) + DecisionTable(named[3].0, named[3].1, m)
            + DecisionTable(named[4].0, named[4].1, m)
  {
    assert named[..5] == named && DecisionTables(named[..0], m) == [];
    forall i | 0 <= i < 5
      ensures DecisionTables(named[..i + 1], m)
           == DecisionTables(named[..i], m) + DecisionTable(named[i].0, named[i].1, m)
    {
      assert named[..i + 1][..i] == named[..i];
    }
    assert DecisionTables(named[..1], m) == DecisionTable(named[0].0, named[0].1, m);
    assert DecisionTables(named[..2], m) == DecisionTables(named[..1], m) + DecisionTable(named[1].0, named[1].1, m);
    assert DecisionTables(named[..3], m) == DecisionTables(named[..2], m) + DecisionTable(named[2].0, named[2].1, m);
    assert DecisionTables(named[..4], m) == DecisionTables(named[..3], m) + DecisionTable(named[3].0, named[3].1, m);
    assert DecisionTables(named[..5], m) == DecisionTables(named[..4], m) + DecisionTable(named[4].0, named[4].1, m);
  }

  /** Each kind of operational evidence is spoken of under its own name. */
  lemma EachKindIsNamed(o: Operations)
    ensures KindTable(Kinds(o))
         == [
              KindObjection("operational", o.operational),
              KindObjection("privacy", o.privacy),
              KindObjection("billing", o.billing),
              KindObjection("recovery", o.recovery),
              KindObjection("retirement", o.retirement)
            ]
  {
    FiveKinds(Kinds(o));
  }

  lemma FiveKinds(kinds: seq<(string, KindEvidence)>)
    requires |kinds| == 5
    ensures KindTable(kinds)
         == [Spoken(kinds, 0), Spoken(kinds, 1), Spoken(kinds, 2), Spoken(kinds, 3), Spoken(kinds, 4)]
  {
    assert kinds[..5] == kinds;
    forall i | 0 <= i < 5 ensures KindTable(kinds[..i + 1]) == KindTable(kinds[..i]) + [Spoken(kinds, i)] {
      assert kinds[..i + 1][..i] == kinds[..i];
    }
    assert KindTable(kinds[..1]) == [Spoken(kinds, 0)];
    assert KindTable(kinds[..2]) == [Spoken(kinds, 0), Spoken(kinds, 1)];
    assert KindTable(kinds[..3]) == [Spoken(kinds, 0), Spoken(kinds, 1), Spoken(kinds, 2)];
    assert KindTable(kinds) == KindTable(kinds[..3]) + [Spoken(kinds, 3), Spoken(kinds, 4)];
  }

  function Spoken(kinds: seq<(string, KindEvidence)>, i: nat): Objection
    requires i < |kinds|
  {
    KindObjection(kinds[i].0, kinds[i].1)
  }

  // ------------------------------------------------------------------------------------------- the qualifications

  predicate QualificationConvinces(q: Qualification, m: Moment) {
    && q.applicationRevision == m.revision && q.runtimeRevision == m.runtime
    && q.passed && q.attempts == 1 && q.failures == 0 && q.flakes == 0 && q.skips == 0
    && (forall check :: check in q.checks ==> q.checks[check])
    && Valid(q.observedAt, q.expiresAt, m)
  }

  /** Three qualifications, on live targets that are the authorized ones, on four pieces of evidence. */
  predicate SummaryConvinces(s: Summary, authority: Option<TargetAuthority>, m: Moment) {
    && s.applicationRevision == m.revision && s.runtimeRevision == m.runtime
    && QualificationConvinces(s.clerk, m) && QualificationConvinces(s.testMode, m)
    && QualificationConvinces(s.liveCanary, m)
    && authority.Some?
    && s.targets.intendedStore == authority.value.store && s.targets.observedStore == authority.value.store
    && s.targets.intendedProduct == authority.value.product && s.targets.observedProduct == authority.value.product
    && authority.value.store != authority.value.product
  }

  lemma SummaryExactly(s: Summary, authority: Option<TargetAuthority>, m: Moment)
    ensures SummaryHolds(s, authority, m)
       <==> (&& SummaryConvinces(s, authority, m) && NoneTwice(Digests(s)) && s.evidenceDigest !in Digests(s))
  {
    ValidMeans(s.clerk.observedAt, s.clerk.expiresAt, m);
    ValidMeans(s.testMode.observedAt, s.testMode.expiresAt, m);
    ValidMeans(s.liveCanary.observedAt, s.liveCanary.expiresAt, m);
  }

  // ------------------------------------------------------------------------------------------------- the approval

  /** The digests of twenty pieces of evidence. */
  function EveryDigest(c: Contract, voiceOver: AttendedReview, talkBack: AttendedReview, s: Study, p: Providers,
                       q: Summary, o: Operations): seq<string> {
    [
      c.summaryDigest, voiceOver.digest, talkBack.digest, s.evidenceDigest,
      p.evidenceDigest, p.openai.evidenceDigest, p.anthropic.evidenceDigest, p.calendarReading.evidenceDigest,
      p.gmailReading.evidenceDigest, p.gmailSending.evidenceDigest,
      q.evidenceDigest, q.clerk.evidenceDigest, q.testMode.evidenceDigest, q.liveCanary.evidenceDigest,
      o.evidenceDigest, o.operational.evidenceDigest, o.privacy.evidenceDigest, o.billing.evidenceDigest,
      o.recovery.evidenceDigest, o.retirement.evidenceDigest
    ]
  }

  lemma DigestsAreAll(input: Input)
    requires Complete(input)
    ensures AllDigests(input)
         == EveryDigest(input.contract, ReviewsOf(input.contract).value.voiceOver,
                        ReviewsOf(input.contract).value.talkBack, input.study.value, input.providers.value,
                        input.qualifications.value, input.operations.value)
  {
  }

  /** Two clean reviews of the candidate. */
  ghost predicate ReviewsConvince(input: Input, voiceOver: AttendedReview, talkBack: AttendedReview, m: Moment) {
    && Clean(voiceOver) && (exists i: nat :: FirstAt(input.contract.invariants, "voiceover_safari", voiceOver, i))
    && Clean(talkBack) && (exists i: nat :: FirstAt(input.contract.invariants, "talkback_chrome", talkBack, i))
    && ReviewConvinces(voiceOver, input.operations, m) && ReviewConvinces(talkBack, input.operations, m)
  }

  /** All the evidence there has to be, and it convinces, each piece by itself and none of them counted twice. */
  ghost predicate Convincing(input: Input, voiceOver: AttendedReview, talkBack: AttendedReview, m: Moment) {
    && input.contract.passed && input.contract.releaseMode && input.contract.eligible
    && input.study.Some? && StudyConvinces(input.study.value, m)
    && input.operations.Some? && OperationsConvince(input.operations.value, input.study, m)
    && ReviewsConvince(input, voiceOver, talkBack, m)
    && input.providers.Some? && ProvidersConvince(input.providers.value, m)
    && input.qualifications.Some? && SummaryConvinces(input.qualifications.value, input.targets, m)
    && NoneTwice(EveryDigest(input.contract, voiceOver, talkBack, input.study.value, input.providers.value,
                             input.qualifications.value, input.operations.value))
  }

  lemma GatesAreConvincing(input: Input, m: Moment)
    requires AllGates(input, m)
    ensures var reviews := ReviewsOf(input.contract);
            reviews.Some? && Convincing(input, reviews.value.voiceOver, reviews.value.talkBack, m)
  {
    var reviews := ReviewsOf(input.contract).value;
    DigestsAreAll(input);
    PartsConvince(input, reviews, m);
    ReviewFound(input.contract.invariants, "voiceover_safari", reviews.voiceOver);
    ReviewFound(input.contract.invariants, "talkback_chrome", reviews.talkBack);
  }

  lemma PartsConvince(input: Input, reviews: Reviews, m: Moment)
    ensures input.study.Some? ==> (StudyHolds(input.study.value, m) <==> StudyConvinces(input.study.value, m))
    ensures input.operations.Some? ==>
              (OperationsHold(input.operations.value, input.study, m)
               <==> OperationsConvince(input.operations.value, input.study, m))
    ensures ReviewHolds(reviews.voiceOver, input.operations, m)
       <==> ReviewConvinces(reviews.voiceOver, input.operations, m)
    ensures ReviewHolds(reviews.talkBack, input.operations, m)
       <==> ReviewConvinces(reviews.talkBack, input.operations, m)
    ensures input.providers.Some? ==>
              (ProvidersHold(input.providers.value, m) <==> ProvidersConvince(input.providers.value, m))
    ensures input.qualifications.Some? ==>
              (SummaryHolds(input.qualifications.value, input.targets, m)
               <==> (&& SummaryConvinces(input.qualifications.value, input.targets, m)
                     && NoneTwice(Digests(input.qualifications.value))
                     && input.qualifications.value.evidenceDigest !in Digests(input.qualifications.value)))
  {
    if input.study.Some? { StudyExactly(input.study.value, m); }
    if input.operations.Some? { OperationsExactly(input.operations.value, input.study, m); }
    ReviewExactly(reviews.voiceOver, input.operations, m);
    ReviewExactly(reviews.talkBack, input.operations, m);
    if input.providers.Some? { ProvidersExactly(input.providers.value, m); }
    if input.qualifications.Some? { SummaryExactly(input.qualifications.value, input.targets, m); }
  }

  lemma ConvincingPassesGates(input: Input, voiceOver: AttendedReview, talkBack: AttendedReview, m: Moment)
    requires Convincing(input, voiceOver, talkBack, m)
    ensures AllGates(input, m)
  {
    ReviewFound(input.contract.invariants, "voiceover_safari", voiceOver);
    ReviewFound(input.contract.invariants, "talkback_chrome", talkBack);
    DigestsAreAll(input);
    PartsConvince(input, Reviews(voiceOver, talkBack), m);
    QualificationsAreApart(input, voiceOver, talkBack);
  }

  /** The qualifications' own digests are among all of them. */
  lemma QualificationsAreApart(input: Input, voiceOver: AttendedReview, talkBack: AttendedReview)
    requires input.study.Some? && input.providers.Some? && input.qualifications.Some? && input.operations.Some?
    requires NoneTwice(EveryDigest(input.contract, voiceOver, talkBack, input.study.value, input.providers.value,
                                   input.qualifications.value, input.operations.value))
    ensures var q := input.qualifications.value; NoneTwice(Digests(q)) && q.evidenceDigest !in Digests(q)
  {
    var all := EveryDigest(input.contract, voiceOver, talkBack, input.study.value, input.providers.value,
                           input.qualifications.value, input.operations.value);
    assert all[10] != all[11] && all[10] != all[12] && all[10] != all[13];
    assert all[11] != all[12] && all[11] != all[13] && all[12] != all[13];
  }

  /** The candidate is approved exactly when its evidence convinces. */
  lemma ApprovedExactly(input: Input, m: Moment)
    ensures AllGates(input, m) <==> exists voiceOver, talkBack :: Convincing(input, voiceOver, talkBack, m)
  {
    if AllGates(input, m) { GatesAreConvincing(input, m); }
    if voiceOver, talkBack :| Convincing(input, voiceOver, talkBack, m) {
      ConvincingPassesGates(input, voiceOver, talkBack, m);
    }
  }
}
