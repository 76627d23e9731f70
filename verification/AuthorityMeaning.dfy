/** What the authority asks of any artifact at all, wherever it comes from, and what each of its refusals says. */
module AuthorityMeaning {
  import opened Options
  import opened ProviderQualification
  import opened ReleaseDecision
  import opened DecisionAuthority
  import opened StringSets
  import opened Text

  /** Its evidence is one digest for each of the keys, all of them different, and different from its own. */
  ghost predicate EvidenceApart(evidence: map<string, Option<string>>, own: string) {
    && evidence.Keys == SetOf(EVIDENCE_KEYS)
    && (forall key :: key in evidence ==> IsDigest(evidence[key]) && evidence[key] != Some(own))
    && forall a, b :: a in evidence && b in evidence && a != b ==> evidence[a] != evidence[b]
  }

  /** An approval of that schema for exactly that manifest, sealed by its own digest. */
  predicate Sealed(a: Artifact, lib: Library) {
    && a.payload.schemaVersion == SCHEMA && a.payload.stage == STAGE
    && multiset(a.payload.manifest) == multiset(MANIFEST)
    && IsSha256(a.summaryDigest) && a.summaryDigest == lib.hash(a.payload)
    && a.payload.outcome == "approved" && a.payload.reasons == []
  }

  /** It names the revisions that run here, and they are revisions. */
  predicate RunsHere(p: Payload, env: Environment) {
    && IsGitRevision(p.sourceRevision) && Value(env.deployed) == p.sourceRevision
    && IsRuntimeRevision(p.runtimeRevision) && Value(env.runtime) == p.runtimeRevision
  }

  /** Decided by now and not expired, as far as the instants can be read, and both of them in the exact form. */
  predicate InForce(p: Payload, now: int, clock: Clock) {
    && clock.exact(p.decidedAt) && p.authorityExpiresAt.Some? && clock.exact(p.authorityExpiresAt.value)
    && (clock.ms(p.decidedAt).Some? ==> clock.ms(p.decidedAt).value <= now)
    && (clock.ms(p.authorityExpiresAt.value).Some? ==> now < clock.ms(p.authorityExpiresAt.value).value)
  }

  lemma PresentMeans(evidence: map<string, Option<string>>)
    ensures EvidencePresent(evidence)
       <==> (&& evidence.Keys == SetOf(EVIDENCE_KEYS) && forall key :: key in evidence ==> IsDigest(evidence[key]))
  {
    EvidenceKeysArePlain();
    SizeMeansNoneTwice(EVIDENCE_KEYS);
    assert |evidence| == |evidence.Keys|;
    if EvidencePresent(evidence) {
      assert SetOf(EVIDENCE_KEYS) <= evidence.Keys;
      SubsetOfSameSize(SetOf(EVIDENCE_KEYS), evidence.Keys);
    }
    if evidence.Keys == SetOf(EVIDENCE_KEYS) && forall key :: key in evidence ==> IsDigest(evidence[key]) {
      forall key | key in EVIDENCE_KEYS ensures key in evidence && IsDigest(evidence[key]) {
        assert key in SetOf(EVIDENCE_KEYS);
      }
    }
  }

  lemma DigestAt(evidence: map<string, Option<string>>, i: nat)
    requires EvidencePresent(evidence) && i < |EVIDENCE_KEYS|
    ensures EVIDENCE_KEYS[i] in evidence
    ensures evidence[EVIDENCE_KEYS[i]] == Some(DigestsOf(evidence, EVIDENCE_KEYS)[i])
  {
    assert EVIDENCE_KEYS[i] in EVIDENCE_KEYS;
  }

  lemma PlaceOf(evidence: map<string, Option<string>>, key: string) returns (i: nat)
    requires EvidencePresent(evidence) && key in evidence
    ensures i < |EVIDENCE_KEYS| && EVIDENCE_KEYS[i] == key
  {
    PresentMeans(evidence);
    assert key in SetOf(EVIDENCE_KEYS);
    i :| 0 <= i < |EVIDENCE_KEYS| && EVIDENCE_KEYS[i] == key;
  }

  /** Counting the digests together with the artifact's own finds no two alike exactly when they are apart. */
  lemma CountedApart(evidence: map<string, Option<string>>, own: string)
    requires EvidencePresent(evidence)
    ensures var digests := DigestsOf(evidence, EVIDENCE_KEYS);
            |SetOf([own] + digests)| == |digests| + 1 <==> EvidenceApart(evidence, own)
  {
    var digests := DigestsOf(evidence, EVIDENCE_KEYS);
    SizeMeansNoneTwice([own] + digests);
    PresentMeans(evidence);
    if NoneTwice([own] + digests) { ApartByPlace(evidence, own); }
    if EvidenceApart(evidence, own) { PlacesApart(evidence, own); }
  }

  lemma ApartByPlace(evidence: map<string, Option<string>>, own: string)
    requires EvidencePresent(evidence) && NoneTwice([own] + DigestsOf(evidence, EVIDENCE_KEYS))
    ensures EvidenceApart(evidence, own)
  {
    var list := [own] + DigestsOf(evidence, EVIDENCE_KEYS);
    PresentMeans(evidence);
    forall key | key in evidence ensures evidence[key] != Some(own) {
      var i := PlaceOf(evidence, key);
      DigestAt(evidence, i);
      assert list[0] != list[i + 1];
    }
    forall a, b | a in evidence && b in evidence && a != b ensures evidence[a] != evidence[b] {
      var i := PlaceOf(evidence, a);
      var j := PlaceOf(evidence, b);
      DigestAt(evidence, i);
      DigestAt(evidence, j);
      assert list[i + 1] != list[j + 1];
    }
  }

  lemma PlacesApart(evidence: map<string, Option<string>>, own: string)
    requires EvidencePresent(evidence) && EvidenceApart(evidence, own)
    ensures NoneTwice([own] + DigestsOf(evidence, EVIDENCE_KEYS))
  {
    var digests := DigestsOf(evidence, EVIDENCE_KEYS);
    EvidenceKeysArePlain();
    forall i: nat | i < |EVIDENCE_KEYS| ensures FoundAt(evidence, EVIDENCE_KEYS, digests, i) { DigestAt(evidence, i); }
    FoundApart(evidence, own, EVIDENCE_KEYS, digests);
  }

  ghost predicate FoundAt(evidence: map<string, Option<string>>, keys: seq<string>, digests: seq<string>, i: nat)
    requires i < |keys| == |digests|
  {
    keys[i] in evidence && evidence[keys[i]] == Some(digests[i])
  }

  lemma FoundApart(evidence: map<string, Option<string>>, own: string, keys: seq<string>, digests: seq<string>)
    requires EvidenceApart(evidence, own) && NoneTwice(keys) && |keys| == |digests|
    requires forall i: nat :: i < |keys| ==> FoundAt(evidence, keys, digests, i)
    ensures NoneTwice([own] + digests)
  {
    var list := [own] + digests;
    forall i, j | 0 <= i < j < |list| ensures list[i] != list[j] {
      assert FoundAt(evidence, keys, digests, j - 1);
      if i > 0 { assert FoundAt(evidence, keys, digests, i - 1); }
    }
  }

  /** The shape that the authority asks for before it judges. */
  predicate Shaped(a: Artifact, clock: Clock) {
    && a.payload.schemaVersion == SCHEMA && a.payload.stage == STAGE
    && multiset(a.payload.manifest) == multiset(MANIFEST) && IsSha256(a.summaryDigest)
    && IsGitRevision(a.payload.sourceRevision) && IsRuntimeRevision(a.payload.runtimeRevision)
    && clock.exact(a.payload.decidedAt)
    && a.payload.authorityExpiresAt.Some? && clock.exact(a.payload.authorityExpiresAt.value)
  }

  lemma ShapeMeans(a: Artifact, clock: Clock)
    ensures WellFormed(a, clock) <==> Shaped(a, clock) && EvidencePresent(a.payload.evidence)
  {
    SameManifestIsReordering(a.payload.manifest);
  }

  lemma JudgesExactly(a: Artifact, env: Environment, now: int, lib: Library)
    requires WellFormed(a, lib.clock) && Shaped(a, lib.clock)
    ensures Judge(a, env, now, lib).Approved? <==>
            && a.summaryDigest == lib.hash(a.payload) && a.payload.outcome == "approved" && a.payload.reasons == []
            && RunsHere(a.payload, env) && InForce(a.payload, now, lib.clock)
            && EvidenceApart(a.payload.evidence, a.summaryDigest)
  {
    CountedApart(a.payload.evidence, a.summaryDigest);
  }

  /** It approves an artifact exactly when it is sealed, runs here, is in force, and its digests are apart. */
  lemma ApprovesExactly(a: Artifact, env: Environment, now: int, lib: Library)
    requires Value(env.decision) != "" && lib.read(Value(env.decision)) == Record(a)
    ensures ReadAuthority(env, now, lib).Approved? <==>
            && Sealed(a, lib) && RunsHere(a.payload, env) && InForce(a.payload, now, lib.clock)
            && EvidenceApart(a.payload.evidence, a.summaryDigest)
  {
    ShapeMeans(a, lib.clock);
    PresentMeans(a.payload.evidence);
    if WellFormed(a, lib.clock) { JudgesExactly(a, env, now, lib); }
  }

  /** What it then gives back are the revisions that run here, and the digests in the order of their keys. */
  lemma ApprovalSays(a: Artifact, env: Environment, now: int, lib: Library)
    requires Value(env.decision) != "" && lib.read(Value(env.decision)) == Record(a)
    requires ReadAuthority(env, now, lib).Approved?
    ensures var verdict := ReadAuthority(env, now, lib);
            && verdict.sourceRevision == Value(env.deployed) && verdict.runtimeRevision == Value(env.runtime)
            && |verdict.digests| == |EVIDENCE_KEYS|
            && forall i :: 0 <= i < |EVIDENCE_KEYS| ==>
                 EVIDENCE_KEYS[i] in a.payload.evidence
                 && a.payload.evidence[EVIDENCE_KEYS[i]] == Some(verdict.digests[i])
  {
    forall i | 0 <= i < |EVIDENCE_KEYS|
      ensures EVIDENCE_KEYS[i] in a.payload.evidence
      ensures a.payload.evidence[EVIDENCE_KEYS[i]] == Some(DigestsOf(a.payload.evidence, EVIDENCE_KEYS)[i])
    {
      DigestAt(a.payload.evidence, i);
    }
  }

  predicate Refuses(env: Environment, now: int, lib: Library, why: Refusal) {
    ReadAuthority(env, now, lib) == Refused(why)
  }

  /**
   A refusal says what is wrong: nothing was given; it is no approval; it is one for something else than what runs here;
   or it is one for what runs here but not in force.
   */
  lemma RefusalsMean(env: Environment, now: int, lib: Library)
    ensures Refuses(env, now, lib, DecisionMissing) <==> Value(env.decision) == ""
    ensures Value(env.decision) != "" && lib.read(Value(env.decision)).Unreadable? ==>
              Refuses(env, now, lib, DecisionInvalid)
    ensures var reading := lib.read(Value(env.decision));
            Value(env.decision) != "" && reading.Record? ==>
              var p := reading.artifact.payload;
              && (Refuses(env, now, lib, DecisionDenied) ==> p.outcome != "approved" || p.reasons != [])
              && (Refuses(env, now, lib, ApplicationMismatch) ==>
                    p.outcome == "approved" && p.reasons == [] && Value(env.deployed) != p.sourceRevision)
              && (Refuses(env, now, lib, RuntimeMismatch) ==>
                    Value(env.deployed) == p.sourceRevision && Value(env.runtime) != p.runtimeRevision)
              && (Refuses(env, now, lib, DecisionStale) ==> RunsHere(p, env) && !InForce(p, now, lib.clock))
  {
  }
}
