/**
 A candidate for which every gate holds, with two fields left open that come with its product contract: the contract's
 digest and the date of a review.
 */
module DecisionExample {
  import opened Options
  import opened ProviderQualification
  import opened ReleaseDecision
  import opened DecisionAuthority
  import opened StringSets
  import opened Text

  /** The digests and instants of the sample: frozen at 8, observed at 9, decided at 10, expired at 11. */
  datatype Parts = Parts(digests: seq<string>, frozen: string, observed: string, expires: string, revision: string)

  const NOW := 10

  ghost predicate Good(p: Parts, clock: Clock) {
    && |p.digests| == 20 && NoneTwice(p.digests)
    && (forall i :: 1 <= i < 20 ==> IsSha256(p.digests[i]))
    && clock.ms(p.frozen) == Some(8) && clock.ms(p.observed) == Some(9) && clock.ms(p.expires) == Some(11)
    && clock.exact(p.frozen) && clock.exact(p.observed) && clock.exact(p.expires)
    && IsGitRevision(p.revision)
  }

  // -------------------------------------------------------------------------------------------------------- the sample

  const RUNTIME := "r"

  function Review(p: Parts, digest: string, at: string, boundary: map<string, int>): AttendedReview {
    AttendedReview(digest, p.revision, RUNTIME, at, 1, 0, 0, 0, "independent_attended_human_accessibility_review",
                   boundary)
  }

  const ALONE := "independentHumanReviewers"

  const BOUNDARY: map<string, int> := map key | key in NO_ONE_INSIDE + {ALONE} :: if key == ALONE then 1 else 0

  const VOICEOVER := "voiceover_safari"
  const TALKBACK := "talkback_chrome"

  function ContractOf(p: Parts, at: string): Contract
    requires |p.digests| == 20
  {
    Contract(true, true, true, p.revision, RUNTIME, "run", p.digests[0],
             [Invariant(VOICEOVER, [Review(p, p.digests[1], at, BOUNDARY)]),
              Invariant(TALKBACK, [Review(p, p.digests[2], p.observed, BOUNDARY)])])
  }

  function StudyOf(p: Parts): Study
    requires |p.digests| == 20
  {
    Study(p.revision, RUNTIME, p.digests[3], p.observed, Participants(8, 4, 4, 8, 8, 8, 8), map[])
  }

  function Decision(p: Parts, digest: string): ProviderDecision {
    ProviderDecision(true, p.revision, p.observed, p.expires, digest)
  }

  function ProvidersOf(p: Parts): Providers
    requires |p.digests| == 20
  {
    var d := p.digests;
    Providers(p.revision, d[4], Decision(p, d[5]), Decision(p, d[6]), Decision(p, d[7]), Decision(p, d[8]),
              Decision(p, d[9]))
  }

  function Passed(p: Parts, kind: string, digest: string): Qualification {
    Qualification(kind, p.revision, RUNTIME, true, 1, 0, 0, 0, map[], p.observed, p.expires, digest)
  }

  const TARGETS := LiveTargets("s", "s", "pp", "pp")

  function SummaryOf(p: Parts): Summary
    requires |p.digests| == 20
  {
    var d := p.digests;
    Summary(p.revision, RUNTIME, d[10], Passed(p, "clerk", d[11]), Passed(p, "test", d[12]), Passed(p, "live", d[13]),
            TARGETS)
  }

  function OperationsOf(p: Parts): Operations
    requires |p.digests| == 20
  {
    var d := p.digests;
    Operations(p.revision, RUNTIME, d[14], p.observed, p.expires, p.frozen, KindEvidence(true, d[15]),
               KindEvidence(true, d[16]), KindEvidence(true, d[17]), KindEvidence(true, d[18]),
               KindEvidence(true, d[19]))
  }

  function Sample(p: Parts, at: string): Input
    requires |p.digests| == 20
  {
    Input(ContractOf(p, at), Some(StudyOf(p)), Some(ProvidersOf(p)), Some(SummaryOf(p)),
          Some(TargetAuthority("s", "pp")), Some(OperationsOf(p)))
  }

  lemma BoundaryIsClean()
    ensures ALONE in BOUNDARY && BOUNDARY[ALONE] == 1
    ensures forall key :: key in NO_ONE_INSIDE ==> key in BOUNDARY && BOUNDARY[key] == 0
  {
    forall key | key in NO_ONE_INSIDE ensures key != ALONE {
      assert ALONE[0] == 'i';
      assert key[0] != 'i';
    }
  }

  lemma ReviewIsClean(p: Parts, digest: string, at: string)
    ensures Independent(Review(p, digest, at, BOUNDARY))
  {
    BoundaryIsClean();
  }

  lemma ReviewsFound(p: Parts, at: string)
    requires |p.digests| == 20
    ensures ReviewsOf(ContractOf(p, at))
         == Some(Reviews(Review(p, p.digests[1], at, BOUNDARY), Review(p, p.digests[2], p.observed, BOUNDARY)))
  {
    var invariants := ContractOf(p, at).invariants;
    ReviewIsClean(p, p.digests[1], at);
    ReviewIsClean(p, p.digests[2], p.observed);
    assert VOICEOVER[0] != TALKBACK[0];
    assert ReviewFor(invariants, TALKBACK) == ReviewFor(invariants[1..], TALKBACK);
  }

  lemma DigestsAreItsOwn(p: Parts, at: string)
    requires |p.digests| == 20
    ensures AllDigests(Sample(p, at)) == p.digests
  {
    var d := p.digests;
    ReviewsFound(p, at);
    OwnPart(p, at);
    assert ProviderPart(Some(ProvidersOf(p))) == [d[4], d[5], d[6], d[7], d[8], d[9]];
    assert QualificationPart(Some(SummaryOf(p))) == [d[10], d[11], d[12], d[13]];
    assert OperationsPart(Some(OperationsOf(p))) == [d[14], d[15], d[16], d[17], d[18], d[19]];
    Regrouped(d);
  }

  lemma OwnPart(p: Parts, at: string)
    requires |p.digests| == 20
    ensures OwnDigests(Sample(p, at)) == [p.digests[0], p.digests[1], p.digests[2], p.digests[3]]
  {
    ReviewsFound(p, at);
  }

  lemma Regrouped(d: seq<string>)
    requires |d| == 20
    ensures [d[0], d[1], d[2], d[3]] + [d[4], d[5], d[6], d[7], d[8], d[9]] + [d[10], d[11], d[12], d[13]]
          + [d[14], d[15], d[16], d[17], d[18], d[19]] == d
  {
    assert [d[0], d[1], d[2], d[3]] == d[..4];
    assert [d[4], d[5], d[6], d[7], d[8], d[9]] == d[4..10];
    assert [d[10], d[11], d[12], d[13]] == d[10..14];
    assert [d[14], d[15], d[16], d[17], d[18], d[19]] == d[14..];
  }

  ghost predicate Fits(p: Parts, m: Moment) {
    Good(p, m.clock) && m.revision == p.revision && m.runtime == RUNTIME && m.now == NOW
  }

  lemma SummaryFits(p: Parts, m: Moment)
    requires Fits(p, m)
    ensures SummaryHolds(SummaryOf(p), Some(TargetAuthority("s", "pp")), m)
  {
    var d := p.digests;
    assert Current(p.observed, p.expires, m);
    assert Digests(SummaryOf(p)) == [d[11], d[12], d[13]];
    assert |"s"| != |"pp"|;
  }

  lemma EvidenceFits(p: Parts, m: Moment)
    requires Fits(p, m)
    ensures StudyHolds(StudyOf(p), m) && OperationsHold(OperationsOf(p), Some(StudyOf(p)), m)
    ensures ProvidersHold(ProvidersOf(p), m)
  {
    assert Current(p.observed, p.expires, m);
  }

  lemma ReviewsFit(p: Parts, at: string, m: Moment)
    requires Fits(p, m) && (m.clock.ms(at).None? || at == p.observed)
    ensures ReviewHolds(Review(p, p.digests[1], at, BOUNDARY), Some(OperationsOf(p)), m)
    ensures ReviewHolds(Review(p, p.digests[2], p.observed, BOUNDARY), Some(OperationsOf(p)), m)
  {
  }

  /** Every gate holds, also when the date of the review cannot be read. */
  lemma SampleHolds(p: Parts, at: string, m: Moment)
    requires Fits(p, m) && (m.clock.ms(at).None? || at == p.observed)
    ensures AllGates(Sample(p, at), m)
  {
    ReviewsFound(p, at);
    ReviewsFit(p, at, m);
    DigestsAreItsOwn(p, at);
    SummaryFits(p, m);
    EvidenceFits(p, m);
  }

  lemma ProvidersAreParsed(p: Parts, clock: Clock)
    requires Good(p, clock)
    ensures ProvidersParsed(ProvidersOf(p), clock)
  {
    var named := Named(ProvidersOf(p));
    forall i | 0 <= i < |named| ensures ExactDecision(named[i].1, clock) {
      assert named[i].1 == Decision(p, named[i].1.evidenceDigest);
    }
  }

  lemma SummaryIsParsed(p: Parts, clock: Clock)
    requires Good(p, clock)
    ensures QualificationsParsed(SummaryOf(p), clock)
  {
    var all := All(SummaryOf(p));
    assert IsRuntimeRevision(RUNTIME);
    forall i | 0 <= i < |all| ensures ExactQualification(all[i], clock) {
      assert all[i] == Passed(p, all[i].kind, all[i].evidenceDigest);
    }
  }

  lemma SampleIsParsed(p: Parts, at: string, clock: Clock)
    requires Good(p, clock)
    ensures Parsed(Sample(p, at), clock)
  {
    ProvidersAreParsed(p, clock);
    SummaryIsParsed(p, clock);
  }

  /** The builder alone approves a review whose date cannot be read, and so an approval that is not timely. */
  lemma UndatedIsApproved(p: Parts, at: string, clock: Clock)
    requires Good(p, clock) && clock.ms(at).None?
    ensures var input, m := Sample(p, at), At(Sample(p, at), NOW, clock);
            && Parsed(input, clock) && AllGates(input, m)
            && Complete(input) && !ReviewsDated(input, m) && !Timely(input, m)
  {
    SampleHolds(p, at, At(Sample(p, at), NOW, clock));
    SampleIsParsed(p, at, clock);
    ReviewsFound(p, at);
  }

  // ---------------------------------------------------------------------------------------- such parts, and a clock

  /** Instants in unary. */
  function Write(t: int): string { if t >= 0 then Strokes(t, '+') else Strokes(-t, '-') }

  function Read(s: string): Option<int> {
    if s == Strokes(|s|, '+') then Some(|s|) else if s == Strokes(|s|, '-') then Some(-|s|) else None
  }

  const CLOCK: Clock := Clock(Read, Write, s => Read(s).Some?)

  lemma ReadsBack(t: int)
    ensures Read(Write(t)) == Some(t)
  {
    if t < 0 { assert Write(t)[0] == '-' && Strokes(-t, '+')[0] == '+'; }
  }

  lemma ClockTellsTime()
    ensures TellsTime(CLOCK, NOW)
  {
    ReadsBack(NOW);
  }

  function Zeros(n: nat): string { Strokes(n, '0') }

  function Digit(i: nat): char
    requires i < 10
  {
    "0123456789"[i]
  }

  /** A digest of its own for every number below 20. */
  function Sha(i: nat): string
    requires i < 20
  {
    "sha256:" + Zeros(62) + [Digit(i / 10), Digit(i % 10)]
  }

  lemma Digits(i: nat, j: nat)
    requires i < 10 && j < 10
    ensures '0' <= Digit(i) <= '9' && (Digit(i) == Digit(j) ==> i == j)
  {
  }

  lemma ShaIsDigest(i: nat)
    requires i < 20
    ensures IsSha256(Sha(i)) && Sha(i)[69] == Digit(i / 10) && Sha(i)[70] == Digit(i % 10)
  {
    Digits(i / 10, 0);
    Digits(i % 10, 0);
    var s := Sha(i);
    assert s[..7] == "sha256:";
  }

  lemma ShasDiffer(i: nat, j: nat)
    requires i < j < 20
    ensures Sha(i) != Sha(j)
  {
    ShaIsDigest(i);
    ShaIsDigest(j);
    Digits(i / 10, j / 10);
    Digits(i % 10, j % 10);
  }

  function SampleParts(): Parts {
    Parts(seq(20, i requires 0 <= i < 20 => Sha(i)), Write(8), Write(9), Write(11), Zeros(40))
  }

  lemma PartsAreGood()
    ensures Good(SampleParts(), CLOCK)
  {
    var p := SampleParts();
    ReadsBack(8);
    ReadsBack(9);
    ReadsBack(11);
    forall i | 1 <= i < 20 ensures IsSha256(p.digests[i]) { ShaIsDigest(i); }
    forall i, j | 0 <= i < j < 20 ensures p.digests[i] != p.digests[j] { ShasDiffer(i, j); }
  }

  /** An input whose every piece of evidence has passed its parser, and which is approved with an undated review. */
  lemma UndatedReviewIsApproved() returns (input: Input)
    ensures TellsTime(CLOCK, NOW) && Parsed(input, CLOCK) && AllGates(input, At(input, NOW, CLOCK))
    ensures Complete(input) && !Timely(input, At(input, NOW, CLOCK))
  {
    ClockTellsTime();
    PartsAreGood();
    Undated("?");
    input := UndatedSample(SampleParts(), "?", CLOCK);
  }

  lemma Undated(at: string)
    requires |at| == 1 && at[0] == '?'
    ensures Read(at) == None
  {
    assert Strokes(1, '+')[0] == '+' && Strokes(1, '-')[0] == '-';
  }

  lemma UndatedSample(p: Parts, at: string, clock: Clock) returns (input: Input)
    requires Good(p, clock) && clock.ms(at).None?
    ensures Parsed(input, clock) && AllGates(input, At(input, NOW, clock))
    ensures Complete(input) && !Timely(input, At(input, NOW, clock))
  {
    input := Sample(p, at);
    UndatedIsApproved(p, at, clock);
  }

  // --------------------------------------------------------------------------------------------- the sample, deployed

  /** A digest unlike all the others. */
  const HASH := "sha256:" + Strokes(64, 'a')

  lemma HashIsItsOwn(i: nat)
    requires i < 20
    ensures IsSha256(HASH) && HASH != Sha(i)
  {
    ShaIsDigest(i);
    Digits(i % 10, 0);
    assert HASH[..7] == "sha256:" && HASH[70] == 'a';
  }

  function ArtifactOf(input: Input): Artifact {
    Artifact(PayloadOf(input, [], At(input, NOW, CLOCK)), HASH)
  }

  function LibraryOf(input: Input): Library {
    Library(s => if s == "d" then Record(ArtifactOf(input)) else Unreadable, p => HASH, CLOCK)
  }

  function EnvironmentOf(p: Parts): Environment { Environment(Some("d"), Some(p.revision), Some(RUNTIME)) }

  lemma NothingToTrim(s: string)
    requires s != "" && !IsBlank(s[0]) && !IsBlank(s[|s| - 1])
    ensures Value(Some(s)) == s
  {
  }

  lemma Reads(input: Input)
    ensures Value(Some("d")) == "d" && LibraryOf(input).read("d") == Record(ArtifactOf(input))
  {
    NothingToTrim("d");
  }

  lemma IsDeployed(input: Input, env: Environment)
    requires env.decision == Some("d") && AllGates(input, At(input, NOW, CLOCK))
    requires HASH !in AllDigests(input) && IsSha256(HASH)
    ensures Deployed(ArtifactOf(input), input, NOW, env, LibraryOf(input))
  {
    Reads(input);
  }

  lemma SampleMatches(p: Parts, at: string)
    requires |p.digests| == 20 && IsGitRevision(p.revision)
    ensures Matches(EnvironmentOf(p), Sample(p, at))
  {
    NothingToTrim(RUNTIME);
    NothingToTrim(p.revision);
  }

  lemma SampleIsDeployed(p: Parts, at: string)
    requires Good(p, CLOCK) && (CLOCK.ms(at).None? || at == p.observed)
    requires HASH !in p.digests && IsSha256(HASH)
    ensures Deployed(ArtifactOf(Sample(p, at)), Sample(p, at), NOW, EnvironmentOf(p), LibraryOf(Sample(p, at)))
    ensures AllGates(Sample(p, at), At(Sample(p, at), NOW, CLOCK))
  {
    SampleHolds(p, at, At(Sample(p, at), NOW, CLOCK));
    DigestsAreItsOwn(p, at);
    IsDeployed(Sample(p, at), EnvironmentOf(p));
  }

  /** The parts with another digest for the contract. */
  function WithDigest(digest: string): Parts {
    var p := SampleParts();
    p.(digests := p.digests[0 := digest])
  }

  lemma WithDigestIsGood(digest: string)
    requires digest != HASH && forall i :: 0 <= i < 20 ==> digest != Sha(i)
    ensures Good(WithDigest(digest), CLOCK) && HASH !in WithDigest(digest).digests && IsSha256(HASH)
  {
    PartsAreGood();
    HashIsItsOwn(0);
    forall i | 0 <= i < 20 ensures WithDigest(digest).digests[i] != HASH { HashIsItsOwn(i); }
  }

  /**
   The whole way, for a contract digest of its own: the builder approves, and the authority does too, at the moment of
   the decision, exactly when the contract's digest is one.
   */
  lemma ApprovedExactlyWithDigest(digest: string)
    requires digest != HASH && forall i :: 0 <= i < 20 ==> digest != Sha(i)
    ensures var p := WithDigest(digest);
            var input := Sample(p, p.observed);
            && Parsed(input, CLOCK) && AllGates(input, At(input, NOW, CLOCK))
            && (ReadAuthority(EnvironmentOf(p), NOW, LibraryOf(input)).Approved? <==> IsSha256(digest))
  {
    WithDigestIsGood(digest);
    ClockTellsTime();
    ReadFromLibrary(WithDigest(digest));
  }

  lemma ReadFromLibrary(p: Parts)
    requires Good(p, CLOCK) && HASH !in p.digests && IsSha256(HASH) && TellsTime(CLOCK, NOW)
    ensures var input := Sample(p, p.observed);
            && Parsed(input, CLOCK) && AllGates(input, At(input, NOW, CLOCK))
            && (ReadAuthority(EnvironmentOf(p), NOW, LibraryOf(input)).Approved? <==> IsSha256(p.digests[0]))
  {
    var input := Sample(p, p.observed);
    SampleIsParsed(p, p.observed, CLOCK);
    SampleIsDeployed(p, p.observed);
    SampleMatches(p, p.observed);
    ReviewsFound(p, p.observed);
    ApprovedExactlyInWindow(ArtifactOf(input), input, NOW, EnvironmentOf(p), NOW, LibraryOf(input));
  }
}
