/**
 The runner's boot self-test as a state machine over its checks, for an executor whose every operation may fail, hang
 until the deadline, or throw any error; and the parser through which the verdict it writes is read back.
 */
module BootVerdict {
  import opened Options
  import opened Text

  datatype CheckState = Pending | Passed | Failed | Skipped | NotApplicable

  datatype Check =
    | Docker | RequiredServices | InjectedBundleDigests | PreloadedImages
    | HermesFixture | DetailedHealth | ModelCanary | TelegramConfig | Cleanup

  datatype Observed = Observed(
    docker: CheckState,
    requiredServices: CheckState,
    injectedBundleDigests: CheckState,
    preloadedImages: CheckState,
    hermesFixture: CheckState,
    detailedHealth: CheckState,
    modelCanary: CheckState,
    telegramConfig: CheckState,
    cleanup: CheckState)

  function With(o: Observed, check: Check, state: CheckState): Observed {
    match check
    case Docker => o.(docker := state)
    case RequiredServices => o.(requiredServices := state)
    case InjectedBundleDigests => o.(injectedBundleDigests := state)
    case PreloadedImages => o.(preloadedImages := state)
    case HermesFixture => o.(hermesFixture := state)
    case DetailedHealth => o.(detailedHealth := state)
    case ModelCanary => o.(modelCanary := state)
    case TelegramConfig => o.(telegramConfig := state)
    case Cleanup => o.(cleanup := state)
  }

  predicate SomeFailed(o: Observed) {
    || o.docker.Failed? || o.requiredServices.Failed? || o.injectedBundleDigests.Failed? || o.preloadedImages.Failed?
    || o.hermesFixture.Failed? || o.detailedHealth.Failed? || o.modelCanary.Failed? || o.telegramConfig.Failed?
    || o.cleanup.Failed?
  }

  /** Only the model canary may be skipped. */
  predicate OnlyCanarySkipped(o: Observed) {
    && !o.docker.Skipped? && !o.requiredServices.Skipped? && !o.injectedBundleDigests.Skipped?
    && !o.preloadedImages.Skipped? && !o.hermesFixture.Skipped? && !o.detailedHealth.Skipped?
    && !o.telegramConfig.Skipped? && !o.cleanup.Skipped?
  }

  const ALL_PENDING: Observed :=
    Observed(Pending, Pending, Pending, Pending, Pending, Pending, Pending, Pending, Pending)

  datatype Mode = Full | Attested

  datatype Evidence = Evidence(releaseBundleDigest: string, snapshotBundleDigest: string, snapshotImageId: string)

  /** Which of the attested checks are verified; the others are not applicable. */
  datatype Attestations = Attestations(
    fullFixture: bool, detailedHealth: bool, modelCanary: bool, telegramConfig: bool, cleanup: bool)

  const NONE_ATTESTED: Attestations := Attestations(false, false, false, false, false)
  const ALL_ATTESTED: Attestations := Attestations(true, true, true, true, true)

  datatype Reason =
    | DockerUnavailable | ReleaseMismatch | ReleaseValidationFailed | RequiredServicesUnavailable
    | PreloadedImagesMismatch | FixtureLaunchFailed | DetailedHealthFailed | CanaryFailed
    | TelegramConfigFailed | CleanupFailed | DeadlineExceeded | SnapshotInvalid

  datatype Status = Testing | Ready | Broken

  datatype Snapshot = Snapshot(
    mode: Mode,
    status: Status,
    observed: Observed,
    attested: Attestations,
    evidence: Option<Evidence>,
    reason: Option<Reason>,
    startedAt: string,
    completedAt: Option<string>)

  // ----------------------------------------------------------------------------------------------------- the parser

  /** How the parser reads timestamps, digests and ids. */
  datatype Formats = Formats(timestamp: string -> bool, evidence: Evidence -> bool)

  predicate ReadyVector(mode: Mode, o: Observed, attested: Attestations, evidence: Option<Evidence>) {
    match mode
    case Full =>
      && o.docker.Passed?
      && o.requiredServices.NotApplicable? && o.injectedBundleDigests.NotApplicable?
      && o.preloadedImages.NotApplicable?
      && o.hermesFixture.Passed? && o.detailedHealth.Passed?
      && (o.modelCanary.Passed? || o.modelCanary.Skipped?)
      && o.telegramConfig.Passed? && o.cleanup.Passed? && evidence.None?
    case Attested =>
      && o.docker.Passed?
      && o.requiredServices.Passed? && o.injectedBundleDigests.Passed? && o.preloadedImages.Passed?
      && o.hermesFixture.NotApplicable? && o.detailedHealth.NotApplicable?
      && o.modelCanary.NotApplicable? && o.telegramConfig.NotApplicable?
      && o.cleanup.Passed? && attested == ALL_ATTESTED && evidence.Some?
  }

  predicate Untouched(state: CheckState) { state.NotApplicable? || state.Pending? }

  /** `parseRunnerBootSnapshot` returns the snapshot rather than null. */
  predicate Accepts(s: Snapshot, formats: Formats) {
    var o := s.observed;
    && formats.timestamp(s.startedAt) && (s.completedAt.Some? ==> formats.timestamp(s.completedAt.value))
    && OnlyCanarySkipped(o)
    && (s.evidence.Some? ==> formats.evidence(s.evidence.value))
    && (s.mode.Full? ==> s.evidence.None? && s.attested == NONE_ATTESTED)
    && (s.mode.Attested? ==> Untouched(o.hermesFixture) && Untouched(o.detailedHealth) && Untouched(o.modelCanary)
                             && Untouched(o.telegramConfig))
    && (s.status.Ready? ==> s.reason.None? && s.completedAt.Some? && ReadyVector(s.mode, o, s.attested, s.evidence))
    && (s.status.Testing? ==> s.reason.None? && s.completedAt.None?)
    && (s.status.Broken? ==> s.reason.Some? && s.completedAt.Some? && SomeFailed(o))
  }

  // ---------------------------------------------------------------------------------------------- modes and plans

  /** `readRunnerBootValidationMode`: an empty setting means full; anything else unknown is an error. */
  function ReadMode(setting: Option<string>): Option<Mode> {
    var value := if setting.Some? then Trim(setting.value) else "";
    if value == "" || value == "full" then Some(Full)
    else if value == "release_attested" then Some(Attested)
    else None
  }

  function ConfiguredMode(setting: Option<string>): Mode {
    if ReadMode(setting).Some? then ReadMode(setting).value else Full
  }

  datatype Plan = FullPlan | AttestedPlan(evidence: Evidence)

  function ModeOf(p: Plan): Mode { if p.FullPlan? then Full else Attested }

  datatype Thrown = ValidationError | SelfTestError(reason: Reason) | OtherError

  /** `failureFrom` */
  function FailureFrom(t: Thrown, check: Check): Reason {
    match t
    case ValidationError => ReleaseValidationFailed
    case SelfTestError(reason) => reason
    case OtherError =>
      match check
      case Docker => DockerUnavailable
      case RequiredServices => RequiredServicesUnavailable
      case InjectedBundleDigests => ReleaseValidationFailed
      case PreloadedImages => PreloadedImagesMismatch
      case HermesFixture => FixtureLaunchFailed
      case DetailedHealth => DetailedHealthFailed
      case ModelCanary => CanaryFailed
      case TelegramConfig => TelegramConfigFailed
      case Cleanup => CleanupFailed
  }

  // ------------------------------------------------------------------------------------------------------- the run

  datatype Settings = Settings(
    setting: Option<string>, canaryEnabled: bool, canaryAttempts: int, startedAt: string, completedAt: string)

  function Attempts(c: Settings): nat { if c.canaryAttempts > 0 then c.canaryAttempts else 1 }

  /** What is asked of the executor, of the file system and of the clock, in one run. */
  datatype Operation =
    | Recover | VerifyRelease | VerifyServices | VerifyImages | LaunchFixture | ProbeHealth
    | RunCanary(attempt: nat) | Delay(attempt: nat)
    | FirstPersist | TestingPersist(n: nat) | FinalPersist
    | CleanFixture | RecoverAgain

  /** Whether the deadline passes meanwhile, and what is thrown. */
  datatype Outcome = Outcome(deadline: bool, error: Option<Thrown>)

  /** Everything a run depends on besides its settings: any answers, and any plan or error of the resolver. */
  datatype Behaviour = Behaviour(outcome: Operation -> Outcome, plan: Result<Plan, Thrown>)

  const TELEGRAM: Thrown := SelfTestError(TelegramConfigFailed)

  predicate Fine(b: Behaviour, op: Operation) { b.outcome(op) == Outcome(false, None) }

  predicate BlamesTelegram(b: Behaviour, op: Operation) { b.outcome(op) == Outcome(false, Some(TELEGRAM)) }

  /** The plan the run gets to. */
  function PlanReached(b: Behaviour): Option<Plan> {
    if Fine(b, Recover) && Fine(b, VerifyRelease) && b.plan.Ok? then Some(b.plan.value) else None
  }

  /** The first thing to go wrong before or during the attested checks is an error with the Telegram reason. */
  predicate TelegramUnasked(b: Behaviour) {
    || BlamesTelegram(b, Recover)
    || (Fine(b, Recover) && BlamesTelegram(b, VerifyRelease))
    || (Fine(b, Recover) && Fine(b, VerifyRelease) && b.plan == Err(TELEGRAM))
    || (Fine(b, Recover) && Fine(b, VerifyRelease) && b.plan.Ok? && AttestedBlamesTelegram(b))
  }

  predicate AttestedBlamesTelegram(b: Behaviour) {
    BlamesTelegram(b, VerifyServices) || (Fine(b, VerifyServices) && BlamesTelegram(b, VerifyImages))
  }

  /** The service's own executor gives that reason only while it launches a fixture, and its resolver never does. */
  ghost predicate OnlyFixtureBlamesTelegram(b: Behaviour) {
    && (forall op :: b.outcome(op).error == Some(TELEGRAM) ==> op.LaunchFixture?)
    && b.plan != Err(TELEGRAM)
  }

  predicate TelegramNow(thrown: Option<Thrown>, aborted: bool) { !aborted && thrown == Some(TELEGRAM) }

  // ------------------------------------------------------------------------------------------- what a run must come to

  /** Answered in time and without an error. */
  predicate InTime(b: Behaviour, op: Operation) { !b.outcome(op).deadline && b.outcome(op).error.None? }

  /** Saved, whether or not the deadline has passed meanwhile. */
  predicate SavedTesting(b: Behaviour, n: nat) { b.outcome(TestingPersist(n)).error.None? }

  /** Some attempt of the canary answers, and before it every failure and every pause ends within the deadline. */
  ghost predicate CanaryAnswers(b: Behaviour, attempts: nat) {
    exists k: nat :: k < attempts && AnswersFirstAt(b, k)
  }

  ghost predicate AnswersFirstAt(b: Behaviour, k: nat) {
    && InTime(b, RunCanary(k))
    && forall j: nat :: j < k ==> FailsInTime(b, j)
  }

  predicate FailsInTime(b: Behaviour, attempt: nat) {
    && b.outcome(RunCanary(attempt)).error.Some? && !b.outcome(RunCanary(attempt)).deadline
    && !b.outcome(Delay(attempt)).deadline
  }

  predicate AttestedGoesWell(b: Behaviour) {
    InTime(b, VerifyServices) && InTime(b, VerifyImages) && SavedTesting(b, 1)
  }

  /** The deadline matters as long as something is asked of the executor after it. */
  ghost predicate FullGoesWell(c: Settings, b: Behaviour) {
    && InTime(b, TestingPersist(1)) && InTime(b, LaunchFixture)
    && InTime(b, TestingPersist(2)) && InTime(b, ProbeHealth)
    && SavedTesting(b, 3) && (c.canaryEnabled ==> InTime(b, TestingPersist(3)) && CanaryAnswers(b, Attempts(c)))
    && SavedTesting(b, 4)
  }

  /** Everything that the mode asks for is answered, and the fixture is gone again. */
  ghost predicate GoesWell(c: Settings, b: Behaviour) {
    && InTime(b, Recover) && InTime(b, VerifyRelease)
    && b.plan.Ok? && (if b.plan.value.AttestedPlan? then AttestedGoesWell(b) else FullGoesWell(c, b))
    && InTime(b, CleanFixture) && InTime(b, RecoverAgain)
  }

  /** The check that a run stops at, and the reason it gives. */
  datatype Trouble = Trouble(check: Check, reason: Reason)

  /** A step of a run: a question under the deadline, a saved snapshot, or the canary with its attempts. */
  datatype Step = Asks(op: Operation) | Saves(n: nat) | Tries(attempts: nat)

  /** The steps of a run in their order, each with the check it stands for and the reason of a failure without one. */
  datatype Steps = Done | Then(step: Step, check: Check, own: Reason, rest: Steps)

  function Named(t: Thrown, own: Reason): Reason {
    match t
    case ValidationError => ReleaseValidationFailed
    case SelfTestError(reason) => reason
    case OtherError => own
  }

  function TryFrom(b: Behaviour, attempts: nat, k: nat, own: Reason): Option<Reason>
    requires k < attempts
    decreases attempts - k
  {
    var o := b.outcome(RunCanary(k));
    if o.deadline then Some(DeadlineExceeded)
    else if o.error.None? then None
    else if k == attempts - 1 then Some(Named(o.error.value, own))
    else if b.outcome(Delay(k)).deadline then Some(DeadlineExceeded)
    else TryFrom(b, attempts, k + 1, own)
  }

  /** What is wrong with one step, `late` saying that the deadline has passed before it. */
  function StepTrouble(b: Behaviour, step: Step, own: Reason, late: bool): Option<Reason> {
    match step
    case Asks(op) =>
      var o := b.outcome(op);
      if late || o.deadline then Some(DeadlineExceeded)
      else if o.error.Some? then Some(Named(o.error.value, own)) else None
    case Saves(n) =>
      var o := b.outcome(TestingPersist(n));
      if o.error.None? then None else Some(if late || o.deadline then DeadlineExceeded else own)
    case Tries(attempts) =>
      if late || attempts == 0 then Some(DeadlineExceeded) else TryFrom(b, attempts, 0, own)
  }

  /** A deadline that passes while a snapshot is saved is not noticed before the next question. */
  predicate LateAfter(b: Behaviour, step: Step, late: bool) {
    step.Saves? && (late || b.outcome(TestingPersist(step.n)).deadline)
  }

  /** The first step that goes wrong. */
  function FirstTrouble(b: Behaviour, steps: Steps, late: bool): Option<Trouble> {
    match steps
    case Done => None
    case Then(step, check, own, rest) =>
      var reason := StepTrouble(b, step, own, late);
      if reason.Some? then Some(Trouble(check, reason.value)) else FirstTrouble(b, rest, LateAfter(b, step, late))
  }

  lemma NextStep(b: Behaviour, steps: Steps, late: bool)
    requires steps.Then?
    ensures var reason := StepTrouble(b, steps.step, steps.own, late);
            FirstTrouble(b, steps, late)
            == if reason.Some? then Some(Trouble(steps.check, reason.value))
               else FirstTrouble(b, steps.rest, LateAfter(b, steps.step, late))
    ensures steps.rest.Done? ==> FirstTrouble(b, steps.rest, LateAfter(b, steps.step, late)).None?
  {
  }

  const START_STEPS: Steps :=
    Then(Asks(Recover), Docker, DockerUnavailable,
    Then(Asks(VerifyRelease), Docker, DockerUnavailable, Done))

  const ATTESTED_STEPS: Steps :=
    Then(Asks(VerifyServices), RequiredServices, RequiredServicesUnavailable,
    Then(Asks(VerifyImages), PreloadedImages, PreloadedImagesMismatch,
    Then(Saves(1), PreloadedImages, PreloadedImagesMismatch, Done)))

  function ProbeSteps(c: Settings): Steps {
    Then(Asks(ProbeHealth), DetailedHealth, DetailedHealthFailed,
    Then(Saves(3), DetailedHealth, DetailedHealthFailed, LastSteps(c)))
  }

  function LastSteps(c: Settings): Steps {
    if c.canaryEnabled then
      Then(Tries(Attempts(c)), ModelCanary, CanaryFailed, Then(Saves(4), ModelCanary, CanaryFailed, Done))
    else Then(Saves(4), DetailedHealth, DetailedHealthFailed, Done)
  }

  function FullSteps(c: Settings): Steps {
    Then(Saves(1), InjectedBundleDigests, ReleaseValidationFailed, FixtureSteps(c))
  }

  function FixtureSteps(c: Settings): Steps {
    Then(Asks(LaunchFixture), HermesFixture, FixtureLaunchFailed,
    Then(Saves(2), HermesFixture, FixtureLaunchFailed, ProbeSteps(c)))
  }

  /** What goes wrong first in the checks of a run, if anything. */
  function TroubleOf(c: Settings, b: Behaviour): Option<Trouble> {
    var start := FirstTrouble(b, START_STEPS, false);
    if start.Some? then start
    else if b.plan.Err? then Some(Trouble(InjectedBundleDigests, Named(b.plan.error, ReleaseValidationFailed)))
    else FirstTrouble(b, if b.plan.value.AttestedPlan? then ATTESTED_STEPS else FullSteps(c), false)
  }

  /** How a run of the checks has ended, in the same terms. */
  function Ended(thrown: Option<Thrown>, active: Check, aborted: bool): Option<Trouble> {
    if thrown.None? then None
    else Some(Trouble(active, if aborted then DeadlineExceeded else FailureFrom(thrown.value, active)))
  }

  lemma {:induction false} TryMeans(b: Behaviour, attempts: nat, k: nat, own: Reason)
    requires k < attempts && forall j: nat :: j < k ==> FailsInTime(b, j)
    ensures TryFrom(b, attempts, k, own).None? <==> CanaryAnswers(b, attempts)
    decreases attempts - k
  {
    var o := b.outcome(RunCanary(k));
    if !o.deadline && o.error.None? {
      assert AnswersFirstAt(b, k);
    } else if FailsInTime(b, k) && k < attempts - 1 {
      TryMeans(b, attempts, k + 1, own);
    } else {
      forall i: nat | i < attempts ensures !AnswersFirstAt(b, i) {
        assert AnswersFirstAt(b, i) && k < i ==> FailsInTime(b, k);
        assert i < k ==> FailsInTime(b, i);
      }
    }
  }

  /** Nothing goes wrong exactly when all goes well. */
  lemma NoTroubleMeans(c: Settings, b: Behaviour)
    ensures TroubleOf(c, b).None? && InTime(b, CleanFixture) && InTime(b, RecoverAgain) <==> GoesWell(c, b)
  {
    StartMeans(b);
    if b.plan.Ok? {
      if b.plan.value.AttestedPlan? { AttestedMeans(b); } else { FullMeans(c, b); }
    }
  }

  lemma StartMeans(b: Behaviour)
    ensures FirstTrouble(b, START_STEPS, false).None? <==> InTime(b, Recover) && InTime(b, VerifyRelease)
  {
    NextStep(b, START_STEPS, false);
    NextStep(b, START_STEPS.rest, false);
  }

  lemma AttestedMeans(b: Behaviour)
    ensures FirstTrouble(b, ATTESTED_STEPS, false).None? <==> AttestedGoesWell(b)
  {
    NextStep(b, ATTESTED_STEPS, false);
    NextStep(b, ATTESTED_STEPS.rest, false);
    NextStep(b, ATTESTED_STEPS.rest.rest, false);
  }

  lemma FullMeans(c: Settings, b: Behaviour)
    ensures FirstTrouble(b, FullSteps(c), false).None? <==> FullGoesWell(c, b)
  {
    var steps := FullSteps(c);
    NextStep(b, steps, false);
    NextStep(b, steps.rest, b.outcome(TestingPersist(1)).deadline);
    NextStep(b, steps.rest.rest, false);
    ProbesMean(c, b, b.outcome(TestingPersist(2)).deadline);
  }

  lemma ProbesMean(c: Settings, b: Behaviour, late: bool)
    ensures FirstTrouble(b, ProbeSteps(c), late).None?
       <==> (&& !late && InTime(b, ProbeHealth) && SavedTesting(b, 3)
             && (c.canaryEnabled ==> InTime(b, TestingPersist(3)) && CanaryAnswers(b, Attempts(c)))
             && SavedTesting(b, 4))
  {
    var steps, late3 := ProbeSteps(c), b.outcome(TestingPersist(3)).deadline;
    NextStep(b, steps, late);
    NextStep(b, steps.rest, false);
    NextStep(b, steps.rest.rest, late3);
    if c.canaryEnabled {
      TryMeans(b, Attempts(c), 0, CanaryFailed);
      NextStep(b, steps.rest.rest.rest, false);
    }
  }

  function StateOf(o: Observed, check: Check): CheckState {
    match check
    case Docker => o.docker
    case RequiredServices => o.requiredServices
    case InjectedBundleDigests => o.injectedBundleDigests
    case PreloadedImages => o.preloadedImages
    case HermesFixture => o.hermesFixture
    case DetailedHealth => o.detailedHealth
    case ModelCanary => o.modelCanary
    case TelegramConfig => o.telegramConfig
    case Cleanup => o.cleanup
  }

  /** Marked failed are the check of the trouble, the Telegram check when it is to blame, and a failed cleanup. */
  ghost predicate MarkedFailed(o: Observed, trouble: Option<Trouble>, cleaned: bool) {
    forall k: Check :: StateOf(o, k).Failed? <==>
      || (trouble.Some? && k == trouble.value.check)
      || (trouble.Some? && k.TelegramConfig? && trouble.value.reason.TelegramConfigFailed?)
      || (k.Cleanup? && !cleaned)
  }

  lemma MarkingFails(o: Observed, o': Observed, trouble: Option<Trouble>, cleaned: bool)
    requires !SomeFailed(o)
    requires var marked := if trouble.Some? then With(o, trouble.value.check, Failed) else o;
             var blamed := if trouble.Some? && trouble.value.reason.TelegramConfigFailed?
                           then marked.(telegramConfig := Failed) else marked;
             o' == blamed.(cleanup := if cleaned then Passed else Failed)
    requires trouble.Some? ==> !trouble.value.check.Cleanup?
    ensures MarkedFailed(o', trouble, cleaned)
  {
  }

  /** The reason that the verdict gives: a failed cleanup hides every other. */
  function ReasonOf(trouble: Option<Trouble>, cleaned: bool): Option<Reason> {
    if !cleaned then Some(CleanupFailed) else if trouble.Some? then Some(trouble.value.reason) else None
  }

  /** While the checks run: which mode was resolved decides which checks have been touched. */
  ghost predicate Underway(o: Observed, active: Check, resolved: Option<Plan>, attested: Attestations,
                           evidence: Option<Evidence>) {
    && o.cleanup.Pending?
    && !SomeFailed(o)
    && OnlyCanarySkipped(o)
    && (resolved.None? ==>
          && o.hermesFixture.Pending? && o.detailedHealth.Pending? && o.modelCanary.Pending?
          && o.telegramConfig.Pending?
          && (active.Docker? || active.InjectedBundleDigests?) && attested == NONE_ATTESTED && evidence.None?)
    && (resolved.Some? && resolved.value.FullPlan? ==>
          && attested == NONE_ATTESTED && evidence.None? && !active.Cleanup?)
    && (resolved.Some? && resolved.value.AttestedPlan? ==>
          && o.hermesFixture.NotApplicable? && o.detailedHealth.NotApplicable? && o.modelCanary.NotApplicable?
          && o.telegramConfig.NotApplicable?
          && (active.InjectedBundleDigests? || active.RequiredServices? || active.PreloadedImages?)
          && attested == ALL_ATTESTED && evidence == Some(resolved.value.evidence))
  }

  /** All checks of the resolved mode have passed; only the cleanup is open. */
  ghost predicate AllChecked(o: Observed, plan: Plan, canaryEnabled: bool, attested: Attestations,
                             evidence: Option<Evidence>) {
    && ReadyVector(ModeOf(plan), o.(cleanup := Passed), attested, evidence)
    && (plan.FullPlan? ==> o.modelCanary == if canaryEnabled then Passed else Skipped)
  }

  class BootRun {
    const settings: Settings
    const behaviour: Behaviour
    var observed: Observed
    var attested: Attestations
    var evidence: Option<Evidence>
    var active: Check
    var aborted: bool
    var canaryRuns: nat
    var written: seq<Snapshot>

    constructor (settings: Settings, behaviour: Behaviour)
      ensures this.settings == settings && this.behaviour == behaviour && Fresh()
    {
      this.settings, this.behaviour := settings, behaviour;
      observed, attested, evidence, active := ALL_PENDING, NONE_ATTESTED, None, Docker;
      aborted, canaryRuns, written := false, 0, [];
    }

    ghost predicate Fresh()
      reads this
    {
      && observed == ALL_PENDING && attested == NONE_ATTESTED && evidence == None && active == Docker
      && !aborted && canaryRuns == 0 && written == []
    }

    /** `abortable`: an operation of the executor, under a deadline that may pass at any time. */
    method Abortable(op: Operation) returns (thrown: Option<Thrown>)
      modifies `aborted
      ensures old(aborted) ==> aborted && thrown == Some(OtherError)
      ensures !old(aborted) ==>
                var o := behaviour.outcome(op);
                aborted == o.deadline && thrown == if o.deadline then Some(OtherError) else o.error
    {
      if aborted { return Some(OtherError); }
      aborted := behaviour.outcome(op).deadline;
      thrown := if aborted then Some(OtherError) else behaviour.outcome(op).error;
    }

    function TestingNow(): Snapshot
      reads this
    {
      Snapshot(ConfiguredMode(settings.setting), Testing, observed, attested, evidence, None, settings.startedAt, None)
    }

    /** `persistSnapshot`: written beside the old one and renamed over it, or not at all. */
    method Persist(s: Snapshot, op: Operation) returns (thrown: Option<Thrown>)
      modifies `written
      ensures written == if thrown.None? then old(written) + [s] else old(written)
      ensures thrown == if behaviour.outcome(op).error.Some? then Some(OtherError) else None
    {
      if behaviour.outcome(op).error.Some? { return Some(OtherError); }
      written := written + [s];
      return None;
    }

    /** `runBootCanaryWithRetries`, inside `abortable`. */
    method RunCanary() returns (thrown: Option<Thrown>)
      modifies `aborted, `canaryRuns
      ensures canaryRuns <= old(canaryRuns) + Attempts(settings)
      ensures old(aborted) ==> aborted && thrown.Some?
      ensures !old(aborted) ==>
                Ended(thrown, ModelCanary, aborted)
                == var reason := TryFrom(behaviour, Attempts(settings), 0, CanaryFailed);
                   if reason.Some? then Some(Trouble(ModelCanary, reason.value)) else None
      ensures thrown.None? ==> !aborted
    {
      if aborted { return Some(OtherError); }
      thrown := None;
      for attempt := 0 to Attempts(settings)
        invariant canaryRuns == old(canaryRuns) + attempt
        invariant !aborted && thrown.None?
        invariant attempt < Attempts(settings) ==>
                    TryFrom(behaviour, Attempts(settings), attempt, CanaryFailed)
                    == TryFrom(behaviour, Attempts(settings), 0, CanaryFailed)
        invariant attempt < Attempts(settings)
      {
        canaryRuns := canaryRuns + 1;
        var o := behaviour.outcome(Operation.RunCanary(attempt));
        if o.deadline { aborted := true; }
        if o.error.None? { return if aborted then Some(OtherError) else None; }
        if aborted || attempt == Attempts(settings) - 1 { return o.error; }
        if behaviour.outcome(Delay(attempt)).deadline {
          aborted := true;
          return Some(OtherError);
        }
      }
    }

    ghost predicate Going(resolved: Option<Plan>)
      reads this
    {
      Underway(observed, active, resolved, attested, evidence)
    }

    /** Only testing snapshots have been written since, and each can be read back. */
    ghost predicate OnlyReadableSince(before: seq<Snapshot>, resolved: Option<Plan>, formats: Formats)
      reads this
    {
      && before <= written
      && forall i :: |before| <= i < |written| ==>
           written[i].status.Testing? && (Consistent(settings, resolved, formats) ==> Accepts(written[i], formats))
    }

    method PersistTesting(resolved: Option<Plan>, ghost before: seq<Snapshot>, ghost formats: Formats)
      returns (thrown: Option<Thrown>)
      requires Going(resolved) && OnlyReadableSince(before, resolved, formats) && Timed(settings, formats)
      modifies `written, `aborted
      ensures OnlyReadableSince(before, resolved, formats)
      ensures thrown.None? ==> |written| == |old(written)| + 1
      ensures var o := behaviour.outcome(TestingPersist(|old(written)|));
              && aborted == (old(aborted) || o.deadline)
              && thrown == if o.error.Some? then Some(OtherError) else None
    {
      if Consistent(settings, resolved, formats) {
        UnderwayIsReadable(TestingNow(), active, resolved, settings, formats);
      }
      var op := TestingPersist(|written|);
      thrown := Persist(TestingNow(), op);
      if behaviour.outcome(op).deadline { aborted := true; }
    }

    /** The attested half of the checks. */
    method RunAttested(plan: Plan, ghost before: seq<Snapshot>, ghost formats: Formats) returns (thrown: Option<Thrown>)
      requires plan.AttestedPlan? && Going(None) && observed.docker.Passed? && active.InjectedBundleDigests?
      requires !aborted
      requires OnlyReadableSince(before, Some(plan), formats) && Timed(settings, formats) && |written| == 1
      modifies this
      ensures Ended(thrown, active, aborted) == FirstTrouble(behaviour, ATTESTED_STEPS, false)
      ensures Going(Some(plan)) && canaryRuns == old(canaryRuns)
      ensures TelegramNow(thrown, aborted) <==> AttestedBlamesTelegram(behaviour)
      ensures OnlyReadableSince(before, Some(plan), formats)
      ensures thrown.None? ==> AllChecked(observed, plan, settings.canaryEnabled, attested, evidence)
    {
      observed := observed.(injectedBundleDigests := Passed, hermesFixture := NotApplicable,
                            detailedHealth := NotApplicable, modelCanary := NotApplicable,
                            telegramConfig := NotApplicable);
      attested := ALL_ATTESTED;
      evidence := Some(plan.evidence);
      active := RequiredServices;
      thrown := VerifyAttested(plan);
      if thrown.Some? { return; }
      NextStep(behaviour, ATTESTED_STEPS.rest.rest, false);
      thrown := PersistTesting(Some(plan), before, formats);
    }

    method VerifyAttested(plan: Plan) returns (thrown: Option<Thrown>)
      requires plan.AttestedPlan? && Going(Some(plan)) && active.RequiredServices? && !aborted
      requires observed.docker.Passed? && observed.injectedBundleDigests.Passed?
      modifies `observed, `active, `aborted
      ensures Going(Some(plan))
      ensures TelegramNow(thrown, aborted) <==> AttestedBlamesTelegram(behaviour)
      ensures thrown.Some? ==> Ended(thrown, active, aborted) == FirstTrouble(behaviour, ATTESTED_STEPS, false)
      ensures thrown.None? ==>
                && !aborted && active.PreloadedImages?
                && AllChecked(observed, plan, settings.canaryEnabled, attested, evidence)
                && FirstTrouble(behaviour, ATTESTED_STEPS, false)
                   == FirstTrouble(behaviour, ATTESTED_STEPS.rest.rest, false)
    {
      NextStep(behaviour, ATTESTED_STEPS, false);
      thrown := Abortable(VerifyServices);
      if thrown.Some? { return; }
      observed := observed.(requiredServices := Passed);
      active := PreloadedImages;
      NextStep(behaviour, ATTESTED_STEPS.rest, false);
      thrown := Abortable(VerifyImages);
      if thrown.Some? { return; }
      observed := observed.(preloadedImages := Passed);
    }

    /** The full half: a fixture is launched, probed and asked, with a snapshot after each step. */
    method RunFull(ghost before: seq<Snapshot>, ghost formats: Formats) returns (thrown: Option<Thrown>)
      requires Going(None) && observed.docker.Passed? && active.InjectedBundleDigests? && !aborted && |written| == 1
      requires OnlyReadableSince(before, Some(FullPlan), formats) && Timed(settings, formats)
      modifies this
      ensures Ended(thrown, active, aborted) == FirstTrouble(behaviour, FullSteps(settings), false)
      ensures Going(Some(FullPlan)) && canaryRuns <= old(canaryRuns) + Attempts(settings)
      ensures !settings.canaryEnabled ==> canaryRuns == old(canaryRuns)
      ensures OnlyReadableSince(before, Some(FullPlan), formats)
      ensures thrown.None? ==> AllChecked(observed, FullPlan, settings.canaryEnabled, attested, evidence)
    {
      observed := observed.(requiredServices := NotApplicable, injectedBundleDigests := NotApplicable,
                            preloadedImages := NotApplicable);
      ghost var steps := FullSteps(settings);
      NextStep(behaviour, steps, false);
      thrown := PersistTesting(Some(FullPlan), before, formats);
      if thrown.Some? { return; }
      thrown := RunFixture(before, formats);
    }

    /** From the launch of the fixture on. */
    method RunFixture(ghost before: seq<Snapshot>, ghost formats: Formats) returns (thrown: Option<Thrown>)
      requires Going(Some(FullPlan)) && observed.docker.Passed? && |written| == 2
      requires observed.requiredServices.NotApplicable? && observed.injectedBundleDigests.NotApplicable?
      requires observed.preloadedImages.NotApplicable?
      requires OnlyReadableSince(before, Some(FullPlan), formats) && Timed(settings, formats)
      modifies this
      ensures Ended(thrown, active, aborted) == FirstTrouble(behaviour, FixtureSteps(settings), old(aborted))
      ensures Going(Some(FullPlan)) && canaryRuns <= old(canaryRuns) + Attempts(settings)
      ensures !settings.canaryEnabled ==> canaryRuns == old(canaryRuns)
      ensures OnlyReadableSince(before, Some(FullPlan), formats)
      ensures thrown.None? ==> AllChecked(observed, FullPlan, settings.canaryEnabled, attested, evidence)
    {
      active := HermesFixture;
      ghost var steps := FixtureSteps(settings);
      NextStep(behaviour, steps, aborted);
      thrown := Abortable(LaunchFixture);
      if thrown.Some? { return; }
      observed := observed.(hermesFixture := Passed, telegramConfig := Passed);
      NextStep(behaviour, steps.rest, false);
      thrown := PersistTesting(Some(FullPlan), before, formats);
      if thrown.Some? { return; }
      thrown := RunProbes(before, formats);
    }

    ghost predicate FixtureChecked()
      reads this
    {
      && Going(Some(FullPlan)) && observed.docker.Passed?
      && observed.requiredServices.NotApplicable? && observed.injectedBundleDigests.NotApplicable?
      && observed.preloadedImages.NotApplicable? && observed.hermesFixture.Passed? && observed.telegramConfig.Passed?
    }

    method RunProbes(ghost before: seq<Snapshot>, ghost formats: Formats) returns (thrown: Option<Thrown>)
      requires FixtureChecked() && OnlyReadableSince(before, Some(FullPlan), formats) && Timed(settings, formats)
      requires |written| == 3
      modifies this
      ensures Ended(thrown, active, aborted) == FirstTrouble(behaviour, ProbeSteps(settings), old(aborted))
      ensures FixtureChecked() && canaryRuns <= old(canaryRuns) + Attempts(settings)
      ensures !settings.canaryEnabled ==> canaryRuns == old(canaryRuns)
      ensures OnlyReadableSince(before, Some(FullPlan), formats)
      ensures thrown.None? ==> AllChecked(observed, FullPlan, settings.canaryEnabled, attested, evidence)
    {
      active := DetailedHealth;
      ghost var steps := ProbeSteps(settings);
      NextStep(behaviour, steps, aborted);
      thrown := Abortable(ProbeHealth);
      if thrown.Some? { return; }
      observed := observed.(detailedHealth := Passed);
      NextStep(behaviour, steps.rest, false);
      thrown := PersistTesting(Some(FullPlan), before, formats);
      if thrown.Some? { return; }
      thrown := RunLastCheck(before, formats);
    }

    /** The canary, if it is enabled, and the last snapshot of the checks. */
    method RunLastCheck(ghost before: seq<Snapshot>, ghost formats: Formats) returns (thrown: Option<Thrown>)
      requires FixtureChecked() && OnlyReadableSince(before, Some(FullPlan), formats) && Timed(settings, formats)
      requires |written| == 4 && observed.detailedHealth.Passed? && active.DetailedHealth?
      modifies this
      ensures Ended(thrown, active, aborted) == FirstTrouble(behaviour, LastSteps(settings), old(aborted))
      ensures FixtureChecked() && canaryRuns <= old(canaryRuns) + Attempts(settings)
      ensures !settings.canaryEnabled ==> canaryRuns == old(canaryRuns)
      ensures OnlyReadableSince(before, Some(FullPlan), formats)
      ensures thrown.None? ==> AllChecked(observed, FullPlan, settings.canaryEnabled, attested, evidence)
    {
      ghost var steps := LastSteps(settings);
      NextStep(behaviour, steps, aborted);
      if settings.canaryEnabled {
        active := ModelCanary;
        thrown := RunCanary();
        if thrown.Some? { return; }
        observed := observed.(modelCanary := Passed);
        NextStep(behaviour, steps.rest, false);
      } else {
        observed := observed.(modelCanary := Skipped);
      }
      thrown := PersistTesting(Some(FullPlan), before, formats);
    }

    /** The guarded part of `executeBootSelfTest`: recovery, release evidence, mode, and the checks of that mode. */
    method RunChecks(ghost before: seq<Snapshot>, ghost formats: Formats)
      returns (thrown: Option<Thrown>, resolved: Option<Plan>)
      requires Going(None) && observed == ALL_PENDING && active.Docker? && written == before && Timed(settings, formats)
      requires !aborted && |written| == 1
      modifies this
      ensures Going(resolved) && canaryRuns <= old(canaryRuns) + Attempts(settings)
      ensures resolved != Some(FullPlan) || !settings.canaryEnabled ==> canaryRuns == old(canaryRuns)
      ensures OnlyReadableSince(before, resolved, formats)
      ensures resolved == PlanReached(behaviour)
      ensures Ended(thrown, active, aborted) == TroubleOf(settings, behaviour)
      ensures resolved != Some(FullPlan) ==> (TelegramNow(thrown, aborted) <==> TelegramUnasked(behaviour))
      ensures thrown.None? ==>
                resolved.Some? && AllChecked(observed, resolved.value, settings.canaryEnabled, attested, evidence)
    {
      resolved := None;
      NextStep(behaviour, START_STEPS, false);
      thrown := Abortable(Recover);
      if thrown.Some? { return; }
      NextStep(behaviour, START_STEPS.rest, false);
      thrown := Abortable(VerifyRelease);
      if thrown.Some? { return; }
      observed := observed.(docker := Passed);
      active := InjectedBundleDigests;
      var plan := behaviour.plan;
      if plan.Err? {
        thrown := Some(plan.error);
        return;
      }
      resolved := Some(plan.value);
      if plan.value.AttestedPlan? {
        thrown := RunAttested(plan.value, before, formats);
      } else {
        thrown := RunFull(before, formats);
      }
    }

    /** The `catch` and `finally` blocks: name the failure, mark the active check, clean up, and form the verdict. */
    method Conclude(thrown: Option<Thrown>, resolved: Option<Plan>, ghost formats: Formats) returns (s: Snapshot)
      requires Going(resolved) && Timed(settings, formats)
      requires thrown.None? ==>
                 resolved.Some? && AllChecked(observed, resolved.value, settings.canaryEnabled, attested, evidence)
      modifies `observed
      ensures Verdict(s, resolved, settings)
      ensures var trouble := Ended(thrown, active, aborted);
              var cleaned := InTime(behaviour, CleanFixture) && InTime(behaviour, RecoverAgain);
              s.reason == ReasonOf(trouble, cleaned) && MarkedFailed(s.observed, trouble, cleaned)
      ensures Consistent(settings, resolved, formats) ==>
                (Accepts(s, formats) <==> !(ConfiguredMode(settings.setting).Attested? && TelegramNow(thrown, aborted)))
    {
      ghost var before, trouble := observed, Ended(thrown, active, aborted);
      var reason: Option<Reason> := None;
      if thrown.Some? {
        reason := Some(if aborted then DeadlineExceeded else FailureFrom(thrown.value, active));
        observed := With(observed, active, Failed);
        if reason == Some(TelegramConfigFailed) { observed := observed.(telegramConfig := Failed); }
      }
      var cleaned := Fine(behaviour, CleanFixture) && Fine(behaviour, RecoverAgain);
      observed := observed.(cleanup := if cleaned then Passed else Failed);
      MarkingFails(before, observed, trouble, cleaned);
      assert thrown.Some? ==> StateOf(observed, active).Failed?;
      assert !cleaned ==> StateOf(observed, Cleanup).Failed?;
      if !cleaned { reason := Some(CleanupFailed); }
      s := Snapshot(ConfiguredMode(settings.setting), if reason.None? then Ready else Broken, observed, attested,
                    evidence, reason, settings.startedAt, Some(settings.completedAt));
    }

    /**
     `executeBootSelfTest`. Whatever the executor does, a final snapshot is ready exactly when it has no failure reason;
     ready means that every check of the mode actually resolved has passed, the cleanup too; otherwise some check
     failed. It can be read back unless, in attested mode, the first error is one that blames Telegram.
     */
    method Execute(ghost formats: Formats) returns (final: Option<Snapshot>, resolved: Option<Plan>)
      requires Fresh() && Timed(settings, formats)
      modifies this
      ensures canaryRuns <= Attempts(settings)
      ensures resolved != Some(FullPlan) || !settings.canaryEnabled ==> canaryRuns == 0
      ensures final.Some? <==> Saved(behaviour)
      ensures final.Some? ==> resolved == PlanReached(behaviour)
      ensures final.Some? ==> |written| > 0 && written[|written| - 1] == final.value
      ensures final.None? ==> forall i :: 0 <= i < |written| ==> written[i].status.Testing?
      ensures written == [] <==> behaviour.outcome(FirstPersist).error.Some?
      ensures final.Some? ==> Verdict(final.value, resolved, settings)
      ensures final.Some? ==> (final.value.status.Ready? <==> GoesWell(settings, behaviour))
      ensures final.Some? ==>
                var trouble := TroubleOf(settings, behaviour);
                var cleaned := InTime(behaviour, CleanFixture) && InTime(behaviour, RecoverAgain);
                final.value.reason == ReasonOf(trouble, cleaned) && MarkedFailed(final.value.observed, trouble, cleaned)
      ensures forall i :: 0 <= i < |written| && written[i].status.Testing? ==>
                Consistent(settings, resolved, formats) ==> Accepts(written[i], formats)
      ensures final.Some? && Consistent(settings, resolved, formats) ==>
                (Accepts(final.value, formats) <==> !Unreadable(settings, behaviour))
    {
      resolved := None;
      UnderwayIsReadable(TestingNow(), active, None, settings, formats);
      var thrown := Persist(TestingNow(), FirstPersist);
      if thrown.Some? { return None, None; }
      ghost var before := written;
      thrown, resolved := RunChecks(before, formats);
      var s := Conclude(thrown, resolved, formats);
      NoTroubleMeans(settings, behaviour);
      thrown := Persist(s, FinalPersist);
      final := if thrown.Some? then None else Some(s);
    }

    /** A run from start to end, and the file the controller then reads; `earlier` is what was there before. */
    method Report(earlier: Option<Snapshot>, ghost formats: Formats)
      returns (file: Option<Snapshot>, resolved: Option<Plan>)
      requires Fresh() && Timed(settings, formats)
      modifies this
      ensures Saved(behaviour) ==> resolved == PlanReached(behaviour)
      ensures Saved(behaviour) && Consistent(settings, resolved, formats) ==>
                var reported := Read(file, old(TestingNow()), formats);
                && (reported.status.Testing? <==> Unreadable(settings, behaviour))
                && (!reported.status.Testing? ==> Verdict(reported, resolved, settings))
      ensures Saved(behaviour) && Consistent(settings, resolved, formats) && OnlyFixtureBlamesTelegram(behaviour) ==>
                Verdict(Read(file, old(TestingNow()), formats), resolved, settings)
      ensures behaviour.outcome(FirstPersist).error.Some? ==> file == earlier
      ensures behaviour.outcome(FirstPersist).error.None? && behaviour.outcome(FinalPersist).error.Some? ==>
                Read(file, old(TestingNow()), formats).status.Testing?
    {
      var final;
      final, resolved := Execute(formats);
      file := if written == [] then earlier else Some(written[|written| - 1]);
    }
  }

  /** The first and the last snapshot can be saved. */
  predicate Saved(b: Behaviour) {
    b.outcome(FirstPersist).error.None? && b.outcome(FinalPersist).error.None?
  }

  /** The verdict of such a run will be one that the parser refuses. */
  predicate Unreadable(c: Settings, b: Behaviour) {
    ConfiguredMode(c.setting).Attested? && TelegramUnasked(b)
  }

  ghost predicate Timed(c: Settings, formats: Formats) {
    formats.timestamp(c.startedAt) && formats.timestamp(c.completedAt)
  }

  /** The resolver answered for the configured mode, with digests of the right shape; the service's own always does. */
  ghost predicate Consistent(c: Settings, resolved: Option<Plan>, formats: Formats) {
    resolved.Some? ==>
      ReadMode(c.setting) == Some(ModeOf(resolved.value))
      && (resolved.value.AttestedPlan? ==> formats.evidence(resolved.value.evidence))
  }

  /** Everything that full validation checks has passed, and nothing else has been checked. */
  predicate FullyChecked(s: Snapshot, canaryEnabled: bool) {
    && s.observed == Observed(Passed, NotApplicable, NotApplicable, NotApplicable, Passed, Passed,
                              if canaryEnabled then Passed else Skipped, Passed, Passed)
    && s.evidence.None? && s.attested == Attestations(false, false, false, false, false)
  }

  /** Everything that attested validation checks has passed, and the rest is attested on the evidence at hand. */
  predicate AttestedChecked(s: Snapshot) {
    && s.observed == Observed(Passed, Passed, Passed, Passed, NotApplicable, NotApplicable, NotApplicable,
                              NotApplicable, Passed)
    && s.evidence.Some? && s.attested == Attestations(true, true, true, true, true)
  }

  ghost predicate Verdict(s: Snapshot, resolved: Option<Plan>, c: Settings) {
    && !s.status.Testing?
    && (s.status.Ready? <==> s.reason.None?)
    && (s.status.Ready? ==>
          && resolved.Some? && (resolved.value.FullPlan? ==> FullyChecked(s, c.canaryEnabled))
          && (resolved.value.AttestedPlan? ==> AttestedChecked(s) && s.evidence == Some(resolved.value.evidence)))
    && (s.status.Broken? ==> exists k :: StateOf(s.observed, k).Failed?)
    && (s.observed.cleanup.Passed? || (s.observed.cleanup.Failed? && s.reason == Some(CleanupFailed)))
  }

  lemma UnderwayIsReadable(s: Snapshot, active: Check, resolved: Option<Plan>, c: Settings, formats: Formats)
    requires s.status.Testing? && s.reason.None? && s.completedAt.None? && formats.timestamp(s.startedAt)
    requires s.mode == ConfiguredMode(c.setting) && Consistent(c, resolved, formats)
    requires Underway(s.observed, active, resolved, s.attested, s.evidence)
    ensures Accepts(s, formats)
  {
  }

  // ------------------------------------------------------------------------------------------------ reading it back

  /** What the controller reports: the parsed file, or what it knew when it started. */
  function Read(file: Option<Snapshot>, testing: Snapshot, formats: Formats): Snapshot {
    if file.Some? && Accepts(file.value, formats) then file.value else testing
  }

  /**
   What a reader may rely on. Every snapshot that the parser lets through: under way, ready or broken as its reason and
   its time of completion say; nothing but the canary skipped; ready only with everything of its mode checked; broken
   only with a failed check; times, evidence and attestations as its mode has them.
   */
  lemma AcceptedIsConsistent(s: Snapshot, formats: Formats)
    requires Accepts(s, formats)
    ensures formats.timestamp(s.startedAt) && (s.completedAt.Some? ==> formats.timestamp(s.completedAt.value))
    ensures s.evidence.Some? ==> s.mode.Attested? && formats.evidence(s.evidence.value)
    ensures s.mode.Full? ==> s.attested == Attestations(false, false, false, false, false)
    ensures forall k: Check :: StateOf(s.observed, k).Skipped? ==> k.ModelCanary?
    ensures s.mode.Attested? ==>
              forall k: Check :: k.HermesFixture? || k.DetailedHealth? || k.ModelCanary? || k.TelegramConfig? ==>
                StateOf(s.observed, k).NotApplicable? || StateOf(s.observed, k).Pending?
    ensures s.status.Testing? <==> s.completedAt.None?
    ensures s.status.Broken? <==> s.reason.Some?
    ensures s.status.Ready? <==> s.reason.None? && s.completedAt.Some?
    ensures s.status.Broken? ==> exists k :: StateOf(s.observed, k).Failed?
    ensures s.status.Ready? ==>
              if s.mode.Attested? then AttestedChecked(s) else FullyChecked(s, true) || FullyChecked(s, false)
  {
    if s.status.Broken? { SomeCheckFailed(s.observed); }
  }

  lemma SomeCheckFailed(o: Observed)
    requires SomeFailed(o)
    ensures exists k :: StateOf(o, k).Failed?
  {
    var k := if o.docker.Failed? then Docker
             else if o.requiredServices.Failed? then RequiredServices
             else if o.injectedBundleDigests.Failed? then InjectedBundleDigests
             else if o.preloadedImages.Failed? then PreloadedImages
             else if o.hermesFixture.Failed? then HermesFixture
             else if o.detailedHealth.Failed? then DetailedHealth
             else if o.modelCanary.Failed? then ModelCanary
             else if o.telegramConfig.Failed? then TelegramConfig else Cleanup;
    assert StateOf(o, k).Failed?;
  }

  /** The three settings there are, with any blanks around them; without a setting validation is full. */
  lemma SettingsMean(blanks: string, more: string)
    requires AllBlank(blanks) && AllBlank(more)
    ensures ReadMode(None) == ReadMode(Some(blanks)) == Some(Full)
    ensures ReadMode(Some(blanks + "full" + more)) == Some(Full)
    ensures ReadMode(Some(blanks + "release_attested" + more)) == Some(Attested)
  {
    NothingLeftMeans(blanks);
    TrimsTo(blanks, "full", more);
    TrimsTo(blanks, "release_attested", more);
  }

  /** Every other setting is refused. */
  lemma OtherSettingsAreRefused(setting: string)
    requires ReadMode(Some(setting)).Some? && exists c :: c in setting && !IsBlank(c)
    ensures exists blanks, more, mode ::
              && (mode == "full" || mode == "release_attested")
              && AllBlank(blanks) && AllBlank(more) && setting == blanks + mode + more
  {
    NothingLeftMeans(setting);
    var blanks, more := TrimMeans(setting);
  }

  lemma AttestedSetting()
    ensures ReadMode(Some("release_attested")) == Some(Attested)
  {
    var s := "release_attested";
    assert s[0] == 'r' && s[|s| - 1] == 'd';
    assert SkipBlanks(s) == s && DropTrailingBlanks(s) == s;
  }

  /**
   A run that ends so: attested mode, and release evidence that fails with the reason of the Telegram check. The verdict
   is written, and the controller goes on reporting a test under way.
   */
  method UnreadableRun(startedAt: string, completedAt: string, ghost formats: Formats) returns (final: Snapshot)
    requires formats.timestamp(startedAt) && formats.timestamp(completedAt)
    ensures Verdict(final, None, Settings(Some("release_attested"), true, 3, startedAt, completedAt))
    ensures final.status.Broken? && !Accepts(final, formats)
    ensures forall testing: Snapshot :: Read(Some(final), testing, formats) == testing
  {
    var settings := Settings(Some("release_attested"), true, 3, startedAt, completedAt);
    var outcome := (op: Operation) => Outcome(false, if op == VerifyRelease then Some(TELEGRAM) else None);
    var run := new BootRun(settings, Behaviour(outcome, Ok(FullPlan)));
    AttestedSetting();
    var file, resolved := run.Execute(formats);
    final := file.value;
  }

  /** A run that ends ready although its deadline has passed: it does so while the last snapshots are saved. */
  method LateReadyRun(startedAt: string, completedAt: string, ghost formats: Formats) returns (final: Snapshot)
    requires formats.timestamp(startedAt) && formats.timestamp(completedAt)
    ensures final.status.Ready?
  {
    var settings := Settings(None, false, 3, startedAt, completedAt);
    var outcome := (op: Operation) => Outcome(op == TestingPersist(3) || op == TestingPersist(4), None);
    var run := new BootRun(settings, Behaviour(outcome, Ok(FullPlan)));
    assert GoesWell(settings, Behaviour(outcome, Ok(FullPlan)));
    var file, resolved := run.Execute(formats);
    final := file.value;
  }
}
