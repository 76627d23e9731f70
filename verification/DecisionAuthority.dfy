/** The authority that a deployment reads back from a release decision. */
module DecisionAuthority {
  import opened Options
  import opened ProviderQualification
  import opened ReleaseDecision
  import opened StringSets
  import opened Text

  datatype Environment = Environment(decision: Option<string>, deployed: Option<string>, runtime: Option<string>)

  /** What parsing the variable gives: a record with the fields the authority reads, or something else. */
  datatype Reading = Unreadable | Record(artifact: Artifact)

  datatype Library = Library(read: string -> Reading, hash: Payload -> string, clock: Clock)

  datatype Refusal =
    | DecisionMissing | DecisionInvalid | DecisionDenied | ApplicationMismatch | RuntimeMismatch | DecisionStale

  datatype Verdict =
    | Approved(sourceRevision: string, runtimeRevision: string, digests: seq<string>)
    | Refused(why: Refusal)

  function Value(variable: Option<string>): string { if variable.Some? then Trim(variable.value) else "" }

  /** `sameCapabilityManifest` */
  predicate SameManifest(manifest: seq<string>) {
    |manifest| == |MANIFEST| && forall capability :: capability in MANIFEST ==> capability in manifest
  }

  predicate IsDigest(v: Option<string>) { v.Some? && IsSha256(v.value) }

  /** `requiredEvidenceDigestsPresent`: the required keys, all of them digests, and no other key. */
  predicate EvidencePresent(evidence: map<string, Option<string>>) {
    |evidence| == |EVIDENCE_KEYS| && forall key :: key in EVIDENCE_KEYS ==> key in evidence && IsDigest(evidence[key])
  }

  predicate WellFormed(a: Artifact, clock: Clock) {
    var p := a.payload;
    && p.schemaVersion == SCHEMA && p.stage == STAGE && SameManifest(p.manifest)
    && IsGitRevision(p.sourceRevision) && IsRuntimeRevision(p.runtimeRevision)
    && clock.exact(p.decidedAt) && p.authorityExpiresAt.Some? && clock.exact(p.authorityExpiresAt.value)
    && IsSha256(a.summaryDigest) && EvidencePresent(p.evidence)
  }

  function DigestsOf(evidence: map<string, Option<string>>, keys: seq<string>): seq<string> {
    seq(|keys|, i requires 0 <= i < |keys| =>
      if keys[i] in evidence && evidence[keys[i]].Some? then evidence[keys[i]].value else "")
  }

  /** `readFounderGeneralReleaseDecisionAuthority` */
  function ReadAuthority(env: Environment, now: int, lib: Library): Verdict {
    var raw := Value(env.decision);
    if raw == "" then Refused(DecisionMissing)
    else if lib.read(raw).Unreadable? then Refused(DecisionInvalid)
    else
      var a := lib.read(raw).artifact;
      if !WellFormed(a, lib.clock) then Refused(DecisionInvalid)
      else Judge(a, env, now, lib)
  }

  function Judge(a: Artifact, env: Environment, now: int, lib: Library): Verdict
    requires WellFormed(a, lib.clock)
  {
    var p := a.payload;
    var digests := DigestsOf(p.evidence, EVIDENCE_KEYS);
    if a.summaryDigest != lib.hash(p) then Refused(DecisionInvalid)
    else if p.outcome != "approved" || p.reasons != [] then Refused(DecisionDenied)
    else if !IsGitRevision(Value(env.deployed)) || Value(env.deployed) != p.sourceRevision then
      Refused(ApplicationMismatch)
    else if !IsRuntimeRevision(Value(env.runtime)) || Value(env.runtime) != p.runtimeRevision then
      Refused(RuntimeMismatch)
    else if Above(lib.clock.ms(p.decidedAt), Some(now)) then Refused(DecisionStale)
    else if AtMost(lib.clock.ms(p.authorityExpiresAt.value), Some(now)) then Refused(DecisionStale)
    else if |SetOf([a.summaryDigest] + digests)| != |digests| + 1 then Refused(DecisionInvalid)
    else Approved(p.sourceRevision, p.runtimeRevision, digests)
  }

  lemma ManifestIsPlain()
    ensures NoneTwice(MANIFEST)
  {
  }

  /** The manifest test accepts exactly the reorderings of the manifest. */
  lemma SameManifestIsReordering(manifest: seq<string>)
    ensures SameManifest(manifest) <==> multiset(manifest) == multiset(MANIFEST)
  {
    ManifestIsPlain();
    SameLengthAndMembers(manifest, MANIFEST);
  }

  lemma EvidenceKeysArePlain()
    ensures NoneTwice(EVIDENCE_KEYS)
  {
  }

  // ------------------------------------------------------------------------------------ what the parsers guarantee

  /** The shapes that the parsers of the single pieces of evidence check before the builder sees them. */
  predicate Parsed(input: Input, clock: Clock) {
    && (input.study.Some? ==> StudyParsed(input.study.value, clock))
    && (input.providers.Some? ==> ProvidersParsed(input.providers.value, clock))
    && (input.qualifications.Some? ==> QualificationsParsed(input.qualifications.value, clock))
    && (input.operations.Some? ==> OperationsParsed(input.operations.value, clock))
  }

  predicate StudyParsed(s: Study, clock: Clock) {
    IsGitRevision(s.applicationRevision) && IsSha256(s.evidenceDigest) && clock.exact(s.observedAt)
  }

  predicate ProvidersParsed(p: Providers, clock: Clock) {
    IsSha256(p.evidenceDigest) && forall i :: 0 <= i < |Named(p)| ==> ExactDecision(Named(p)[i].1, clock)
  }

  predicate QualificationsParsed(s: Summary, clock: Clock) {
    && IsRuntimeRevision(s.runtimeRevision) && IsSha256(s.evidenceDigest)
    && forall i :: 0 <= i < |All(s)| ==> ExactQualification(All(s)[i], clock)
  }

  predicate OperationsParsed(o: Operations, clock: Clock) {
    && clock.exact(o.observedAt) && clock.exact(o.expiresAt) && clock.exact(o.frozenAt)
    && IsSha256(o.operational.evidenceDigest) && IsSha256(o.privacy.evidenceDigest)
    && IsSha256(o.billing.evidenceDigest) && IsSha256(o.recovery.evidenceDigest)
    && IsSha256(o.retirement.evidenceDigest)
  }

  predicate ExactDecision(d: ProviderDecision, clock: Clock) { clock.exact(d.qualifiedAt) && clock.exact(d.expiresAt) }

  predicate ExactQualification(q: Qualification, clock: Clock) { clock.exact(q.observedAt) && clock.exact(q.expiresAt) }

  /** What the builder of the product contract checks, or makes itself: the contract goes through no parser here. */
  predicate ContractBuilt(c: Contract, clock: Clock) {
    var reviews := ReviewsOf(c);
    && IsSha256(c.summaryDigest)
    && (reviews.Some? ==>
          && IsSha256(reviews.value.voiceOver.digest) && clock.exact(reviews.value.voiceOver.observedAt)
          && IsSha256(reviews.value.talkBack.digest) && clock.exact(reviews.value.talkBack.observedAt))
  }

  /** The three digests that come with the product contract are digests. */
  predicate ContractDigestsShaped(c: Contract) {
    var reviews := ReviewsOf(c);
    && IsSha256(c.summaryDigest)
    && reviews.Some? && IsSha256(reviews.value.voiceOver.digest) && IsSha256(reviews.value.talkBack.digest)
  }

  /** This instant is written in the exact form and read back, and whatever is in that form can be read. */
  ghost predicate TellsTime(clock: Clock, t: int) {
    && clock.exact(clock.iso(t)) && clock.ms(clock.iso(t)) == Some(t)
    && forall s :: clock.exact(s) ==> clock.ms(s).Some?
  }

  /** The artifact of this input, as the environment holds it; its hash is a digest that is nowhere in the evidence. */
  ghost predicate Deployed(a: Artifact, input: Input, decidedAt: int, env: Environment, lib: Library) {
    && a.payload == PayloadOf(input, a.payload.reasons, At(input, decidedAt, lib.clock))
    && a.summaryDigest == lib.hash(a.payload)
    && (a.payload.reasons == [] <==> AllGates(input, At(input, decidedAt, lib.clock)))
    && Value(env.decision) != "" && lib.read(Value(env.decision)) == Record(a)
    && IsSha256(a.summaryDigest) && a.summaryDigest !in AllDigests(input)
  }

  predicate Matches(env: Environment, input: Input) {
    Value(env.deployed) == input.contract.sourceRevision && Value(env.runtime) == input.contract.runtimeRevision
  }

  // ------------------------------------------------------------------------------------------ builder and authority

  /** Where each retained digest stands among all digests. */
  const PLACES: seq<nat> := [0, 1, 2, 3, 4, 10, 15, 16, 17, 18, 19]

  lemma CompleteDigests(input: Input)
    requires ReviewsOf(input.contract).Some? && input.study.Some? && input.providers.Some?
    requires input.qualifications.Some? && input.operations.Some?
    ensures |AllDigests(input)| == 20
    ensures forall i :: 0 <= i < 11 ==> Retained(input)[i] == Some(AllDigests(input)[PLACES[i]])
  {
    var own, providers := OwnDigests(input), ProviderPart(input.providers);
    var quals, operations := QualificationPart(input.qualifications), OperationsPart(input.operations);
    assert |own| == 4 && |providers| == 6 && |quals| == 4 && |operations| == 6;
    var all := AllDigests(input);
    assert all[..4] == own && all[4..10] == providers && all[10..14] == quals && all[14..] == operations;
  }

  lemma PlacesIncrease(i: nat, j: nat)
    requires i < j < 11
    ensures PLACES[i] < PLACES[j] < 20
  {
  }

  /** The digest list of a complete artifact, and its independence from the summary digest. */
  lemma RetainedDigests(input: Input, summary: string)
    requires Complete(input) && NoneTwice(AllDigests(input)) && summary !in AllDigests(input)
    ensures var digests := DigestsOf(RecordOf(EVIDENCE_KEYS, Retained(input)), EVIDENCE_KEYS);
            |digests| == 11 && NoneTwice([summary] + digests)
  {
    var record := RecordOf(EVIDENCE_KEYS, Retained(input));
    var digests, all := DigestsOf(record, EVIDENCE_KEYS), AllDigests(input);
    CompleteDigests(input);
    EvidenceKeysArePlain();
    RecordHolds(EVIDENCE_KEYS, Retained(input));
    PickedApart(all, digests, summary);
  }

  lemma PickedApart(all: seq<string>, digests: seq<string>, summary: string)
    requires NoneTwice(all) && |all| == 20 && summary !in all && |digests| == 11
    requires forall i :: 0 <= i < 11 ==> PLACES[i] < 20 && digests[i] == all[PLACES[i]]
    ensures NoneTwice([summary] + digests)
  {
    var list := [summary] + digests;
    forall i, j | 0 <= i < j < 12 ensures list[i] != list[j] {
      assert list[j] == digests[j - 1] && digests[j - 1] in all;
      if i > 0 { PlacesIncrease(i - 1, j - 1); }
    }
  }

  lemma RetainedShapes(input: Input, clock: Clock)
    requires Complete(input) && Parsed(input, clock)
    ensures (forall i :: 0 <= i < 11 ==> IsDigest(Retained(input)[i])) <==> ContractDigestsShaped(input.contract)
  {
    var r := Retained(input);
    if forall i :: 0 <= i < 11 ==> IsDigest(r[i]) {
      assert IsDigest(r[0]) && IsDigest(r[1]) && IsDigest(r[2]);
    }
  }

  lemma EvidenceIsPresent(input: Input, clock: Clock)
    requires Complete(input) && Parsed(input, clock)
    ensures EvidencePresent(RecordOf(EVIDENCE_KEYS, Retained(input))) <==> ContractDigestsShaped(input.contract)
  {
    var record := RecordOf(EVIDENCE_KEYS, Retained(input));
    EvidenceKeysArePlain();
    RecordHolds(EVIDENCE_KEYS, Retained(input));
    RetainedShapes(input, clock);
    if EvidencePresent(record) {
      forall i | 0 <= i < 11 ensures IsDigest(Retained(input)[i]) {
        assert EVIDENCE_KEYS[i] in EVIDENCE_KEYS;
      }
    }
  }

  lemma GatesAreComplete(input: Input, m: Moment)
    requires AllGates(input, m)
    ensures Complete(input) && NoneTwice(AllDigests(input))
    ensures input.study.value.applicationRevision == m.revision
    ensures input.qualifications.value.runtimeRevision == m.runtime
    ensures Current(input.operations.value.observedAt, input.operations.value.expiresAt, m)
  {
  }

  lemma WellFormedExactly(a: Artifact, input: Input, decidedAt: int, env: Environment, lib: Library)
    requires Deployed(a, input, decidedAt, env, lib) && Parsed(input, lib.clock) && TellsTime(lib.clock, decidedAt)
    requires AllGates(input, At(input, decidedAt, lib.clock))
    ensures WellFormed(a, lib.clock) <==> ContractDigestsShaped(input.contract)
  {
    var m := At(input, decidedAt, lib.clock);
    GatesAreComplete(input, m);
    EvidenceIsPresent(input, lib.clock);
    assert lib.clock.exact(lib.clock.iso(decidedAt));
  }

  /** Before this moment the artifact has expired or not. */
  predicate Unexpired(input: Input, now: int, clock: Clock) {
    input.operations.Some? && Above(clock.ms(input.operations.value.expiresAt), Some(now))
  }

  lemma DigestsCountApart(input: Input, summary: string)
    requires Complete(input) && NoneTwice(AllDigests(input)) && summary !in AllDigests(input)
    ensures var digests := DigestsOf(RecordOf(EVIDENCE_KEYS, Retained(input)), EVIDENCE_KEYS);
            |SetOf([summary] + digests)| == |digests| + 1
  {
    RetainedDigests(input, summary);
    SizeMeansNoneTwice([summary] + DigestsOf(RecordOf(EVIDENCE_KEYS, Retained(input)), EVIDENCE_KEYS));
  }

  /**
   The builder's approval, read back. An approved artifact is approved by the authority at exactly the times from its
   decision up to but excluding the expiry of its operational evidence, in exactly the environments whose revisions it
   names, provided the digests that came with the product contract are digests; otherwise it is never approved.
   */
  lemma ApprovedExactlyInWindow(a: Artifact, input: Input, decidedAt: int, env: Environment, now: int, lib: Library)
    requires Deployed(a, input, decidedAt, env, lib) && Parsed(input, lib.clock) && TellsTime(lib.clock, decidedAt)
    requires AllGates(input, At(input, decidedAt, lib.clock))
    ensures ReadAuthority(env, now, lib).Approved? <==>
            && ContractDigestsShaped(input.contract) && Matches(env, input)
            && decidedAt <= now && Unexpired(input, now, lib.clock)
  {
    WellFormedExactly(a, input, decidedAt, env, lib);
    if WellFormed(a, lib.clock) { JudgedExactly(a, input, decidedAt, env, now, lib); }
  }

  /** What an approved artifact says. */
  lemma ApprovedPayload(a: Artifact, input: Input, decidedAt: int, env: Environment, lib: Library)
    requires Deployed(a, input, decidedAt, env, lib) && AllGates(input, At(input, decidedAt, lib.clock))
    ensures var p := a.payload;
            && p.outcome == "approved" && p.reasons == [] && a.summaryDigest == lib.hash(p)
            && p.sourceRevision == input.contract.sourceRevision && p.runtimeRevision == input.contract.runtimeRevision
            && p.decidedAt == lib.clock.iso(decidedAt) && p.evidence == RecordOf(EVIDENCE_KEYS, Retained(input))
            && input.operations.Some? && p.authorityExpiresAt == Some(input.operations.value.expiresAt)
  {
  }

  lemma JudgedByPayload(a: Artifact, decidedAt: int, env: Environment, now: int, lib: Library)
    requires WellFormed(a, lib.clock) && TellsTime(lib.clock, decidedAt) && a.summaryDigest == lib.hash(a.payload)
    requires a.payload.outcome == "approved" && a.payload.reasons == []
    requires a.payload.decidedAt == lib.clock.iso(decidedAt)
    requires var digests := DigestsOf(a.payload.evidence, EVIDENCE_KEYS);
             |SetOf([a.summaryDigest] + digests)| == |digests| + 1
    ensures Judge(a, env, now, lib).Approved? <==>
            && Value(env.deployed) == a.payload.sourceRevision && Value(env.runtime) == a.payload.runtimeRevision
            && decidedAt <= now && Above(lib.clock.ms(a.payload.authorityExpiresAt.value), Some(now))
  {
  }

  lemma JudgedExactly(a: Artifact, input: Input, decidedAt: int, env: Environment, now: int, lib: Library)
    requires Deployed(a, input, decidedAt, env, lib) && Parsed(input, lib.clock) && TellsTime(lib.clock, decidedAt)
    requires AllGates(input, At(input, decidedAt, lib.clock)) && WellFormed(a, lib.clock)
    ensures Judge(a, env, now, lib).Approved? <==>
            Matches(env, input) && decidedAt <= now && Unexpired(input, now, lib.clock)
  {
    GatesAreComplete(input, At(input, decidedAt, lib.clock));
    ApprovedPayload(a, input, decidedAt, env, lib);
    DigestsCountApart(input, a.summaryDigest);
    JudgedByPayload(a, decidedAt, env, now, lib);
  }

  /**
   For a contract made by its own builder nothing more is asked: the approval holds exactly in its window and in its
   environments, and the times of all its evidence are what a release asks for.
   */
  lemma BuiltApprovalHolds(a: Artifact, input: Input, decidedAt: int, env: Environment, now: int, lib: Library)
    requires Deployed(a, input, decidedAt, env, lib) && Parsed(input, lib.clock) && TellsTime(lib.clock, decidedAt)
    requires ContractBuilt(input.contract, lib.clock) && AllGates(input, At(input, decidedAt, lib.clock))
    ensures ReadAuthority(env, now, lib).Approved? <==>
            Matches(env, input) && decidedAt <= now && Unexpired(input, now, lib.clock)
    ensures Complete(input) && Timely(input, At(input, decidedAt, lib.clock))
  {
    var m := At(input, decidedAt, lib.clock);
    GatesAreComplete(input, m);
    ApprovedExactlyInWindow(a, input, decidedAt, env, now, lib);
    ApprovalIsTimely(input, m);
    ParsedIsDated(input, m);
  }

  lemma ParsedIsDated(input: Input, m: Moment)
    requires Complete(input) && Parsed(input, m.clock) && TellsTime(m.clock, m.now)
    ensures DatedBesidesReviews(input, m)
    ensures ContractBuilt(input.contract, m.clock) ==> ReviewsDated(input, m)
  {
    var p, q := input.providers.value, input.qualifications.value;
    forall i | 0 <= i < |Named(p)|
      ensures Readable(Named(p)[i].1.qualifiedAt, m) && Readable(Named(p)[i].1.expiresAt, m)
    {
      assert ExactDecision(Named(p)[i].1, m.clock);
    }
    forall i | 0 <= i < |All(q)| ensures Readable(All(q)[i].observedAt, m) && Readable(All(q)[i].expiresAt, m) {
      assert ExactQualification(All(q)[i], m.clock);
    }
  }

  /**
   For any other contract the builder may approve a review of no readable date: its approval says of the times what it
   should exactly when the dates of both reviews can be read.
   */
  lemma TimelyExactlyWhenReviewsDated(input: Input, m: Moment)
    requires AllGates(input, m) && Parsed(input, m.clock) && TellsTime(m.clock, m.now)
    ensures Complete(input) && (Timely(input, m) <==> ReviewsDated(input, m))
  {
    ApprovalIsTimely(input, m);
    ParsedIsDated(input, m);
  }

  /** That window is never empty and never longer than eight days. */
  lemma WindowIsShort(input: Input, decidedAt: int, clock: Clock)
    requires AllGates(input, At(input, decidedAt, clock)) && Parsed(input, clock) && TellsTime(clock, decidedAt)
    ensures Unexpired(input, decidedAt, clock) && !Unexpired(input, decidedAt + MAX_AGE_MS, clock)
  {
    GatesAreComplete(input, At(input, decidedAt, clock));
    var o := input.operations.value;
    assert clock.ms(o.observedAt).Some? && clock.ms(o.expiresAt).Some?;
  }

  /** A decision with any failed gate is approved nowhere and never. */
  lemma DeniedNeverApproved(a: Artifact, input: Input, decidedAt: int, env: Environment, now: int, lib: Library)
    requires Deployed(a, input, decidedAt, env, lib)
    requires !AllGates(input, At(input, decidedAt, lib.clock))
    ensures !ReadAuthority(env, now, lib).Approved?
  {
    assert a.payload.reasons != [];
  }

  /** When different payloads have different hashes, a payload changed after its digest was taken is refused. */
  lemma ChangedIsRefused(a: Artifact, original: Payload, env: Environment, now: int, lib: Library)
    requires Value(env.decision) != "" && lib.read(Value(env.decision)) == Record(a)
    requires a.summaryDigest == lib.hash(original) && a.payload != original
    requires forall p, q :: lib.hash(p) == lib.hash(q) ==> p == q
    ensures ReadAuthority(env, now, lib) == Refused(DecisionInvalid)
  {
    assert lib.hash(a.payload) != lib.hash(original);
  }
}
