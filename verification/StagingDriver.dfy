/**
 The driver of a live staging acceptance run: it begins a run on a remote service, follows the run's own next action,
 asks a human to confirm each Telegram challenge, and requests a cleanup when anything goes wrong. The remote service,
 the human and the signals may do anything at any time; the log records what the driver did.
 */
module StagingDriver {
  import opened Options

  datatype Purpose = Initial | PostRestart

  datatype NextAction =
    | Automatic
    | OperatorTelegram(challengeId: string, text: string, purpose: Purpose, expiresAt: string)
    | Nothing

  datatype Resource = NotCreated | Present | Absent

  datatype CleanupState = CleanupState(
    agent: Resource, workload: Resource, firewall: Resource, droplet: Resource, runner: Resource, secretsRevoked: bool)

  datatype SafeRun = SafeRun(
    runId: string,
    phase: string,
    nextAction: NextAction,
    checks: map<string, bool>,
    cleanup: CleanupState,
    errorCode: Option<string>,
    completedAt: Option<string>)

  const CHECK_KEYS: set<string> := {
    "imageAttested", "deploymentStagesObserved", "initialReplyAttested", "restartReady", "restartImageAttested",
    "postRestartReplyAttested", "diagnosticsRedacted", "intentionalStopStable", "rollbackVerified"
  }

  predicate Completed(run: SafeRun) { run.completedAt.Some? || run.phase == "complete" }

  /** `isSuccessfulCompletedRun` */
  predicate Successful(run: SafeRun) {
    && run.phase == "complete" && run.completedAt.Some? && run.errorCode.None?
    && (forall key :: key in CHECK_KEYS ==> key in run.checks && run.checks[key])
    && !run.cleanup.agent.Present? && !run.cleanup.workload.Present? && !run.cleanup.firewall.Present?
    && !run.cleanup.droplet.Present? && !run.cleanup.runner.Present? && run.cleanup.secretsRevoked
  }

  /** Every one of the nine checks is there and true, nothing is left present, and the secrets are revoked. */
  lemma SuccessMeans(run: SafeRun)
    ensures Successful(run)
       <==> (&& run.phase == "complete" && run.completedAt.Some? && run.errorCode.None?
             && Checked(run, "imageAttested") && Checked(run, "deploymentStagesObserved")
             && Checked(run, "initialReplyAttested") && Checked(run, "restartReady")
             && Checked(run, "restartImageAttested") && Checked(run, "postRestartReplyAttested")
             && Checked(run, "diagnosticsRedacted") && Checked(run, "intentionalStopStable")
             && Checked(run, "rollbackVerified")
             && run.cleanup.secretsRevoked && run.cleanup.agent != Present && run.cleanup.workload != Present
             && run.cleanup.firewall != Present && run.cleanup.droplet != Present && run.cleanup.runner != Present)
  {
  }

  predicate Checked(run: SafeRun, key: string) { key in run.checks && run.checks[key] }

  datatype Command =
    | Begin
    | Attest(runId: string, challengeId: string, token: string)
    | RequestCleanup(runId: string)
    | Advance(runId: string)
    | Read(runId: string)

  /** A run is received only when the reply parsed. */
  datatype Entry =
    | Sent(command: Command)
    | Received(run: SafeRun)
    | Asked(action: NextAction, confirmed: bool)
    | Signalled

  type Log = seq<Entry>

  /** The attestation token for a run and its challenge; none when one of them is malformed. */
  type Signer = (string, NextAction) -> Option<string>

  datatype Reply = Threw | Invalid | Got(run: SafeRun)

  /**
   The remote service, the human and the signals: any answers at all, each of which may depend on everything that
   happened before. The human answers no challenge when asking throws.
   */
  datatype Surroundings = Surroundings(
    reply: Log -> Reply, confirms: Log -> Option<bool>, interrupted: Log -> bool, signer: Signer)

  // --------------------------------------------------------------------------------------------- what a log may hold

  /** The run the driver knows: the last one it received. */
  function Current(log: Log): Option<SafeRun> {
    if log == [] then None
    else if log[|log| - 1].Received? then Some(log[|log| - 1].run)
    else Current(log[..|log| - 1])
  }

  function Commands(log: Log): nat {
    if log == [] then 0 else Commands(log[..|log| - 1]) + if log[|log| - 1].Sent? then 1 else 0
  }

  predicate IsCleanup(e: Entry) { e.Sent? && e.command.RequestCleanup? }

  function Cleanups(log: Log): nat {
    if log == [] then 0 else Cleanups(log[..|log| - 1]) + if IsCleanup(log[|log| - 1]) then 1 else 0
  }

  function Receipts(log: Log): nat {
    if log == [] then 0 else Receipts(log[..|log| - 1]) + if log[|log| - 1].Received? then 1 else 0
  }

  function Signals(log: Log): nat {
    if log == [] then 0 else Signals(log[..|log| - 1]) + if log[|log| - 1].Signalled? then 1 else 0
  }

  /** The log up to the first request for a cleanup, or all of it. */
  function BeforeCleanup(log: Log): Log {
    if log == [] || IsCleanup(log[0]) then [] else [log[0]] + BeforeCleanup(log[1..])
  }

  lemma {:induction false} CleanupsOfMore(log: Log, e: Entry)
    ensures Cleanups([e] + log) == Cleanups(log) + if IsCleanup(e) then 1 else 0
  {
    if log == [] {
      assert [e] + log == [e] && [e][..0] == [];
    } else {
      var n := |log| - 1;
      assert ([e] + log)[..n + 1] == [e] + log[..n];
      CleanupsOfMore(log[..n], e);
    }
  }

  lemma {:induction false} CleanupSplits(followed: Log, rest: Log)
    requires Cleanups(followed) == 0 && (rest != [] ==> IsCleanup(rest[0]))
    ensures BeforeCleanup(followed + rest) == followed
  {
    if followed != [] {
      assert followed == [followed[0]] + followed[1..] && (followed + rest)[1..] == followed[1..] + rest;
      CleanupsOfMore(followed[1..], followed[0]);
      CleanupSplits(followed[1..], rest);
    } else {
      assert followed + rest == rest;
    }
  }

  /** The log ends with a completed run, received in one of the rounds and before any signal. */
  predicate Accepted(log: Log, rounds: nat) {
    && log != [] && log[|log| - 1].Received? && Completed(log[|log| - 1].run)
    && Receipts(log) <= rounds && Signals(log) == 0
  }

  /** An attestation directly follows the confirmation of the very challenge that the current run asks for. */
  predicate AttestsConfirmed(before: Log, c: Command, signer: Signer)
    requires c.Attest?
  {
    && |before| >= 2 && before[|before| - 2].Received?
    && var run := before[|before| - 2].run;
       && run.nextAction.OperatorTelegram? && before[|before| - 1] == Asked(run.nextAction, true)
       && c.runId == run.runId && c.challengeId == run.nextAction.challengeId
       && signer(run.runId, run.nextAction) == Some(c.token)
  }

  /** A command that may be sent after this. */
  predicate Proper(before: Log, c: Command, signer: Signer) {
    match c
    case Begin => before == []
    case Attest(_, _, _) => AttestsConfirmed(before, c, signer)
    case RequestCleanup(runId) => Addressed(before, runId)
    case Advance(runId) => Addressed(before, runId)
    case Read(runId) => Addressed(before, runId)
  }

  /** A command is addressed to the run that is current when it is sent. */
  predicate Addressed(before: Log, runId: string) {
    Current(before).Some? && Current(before).value.runId == runId
  }

  predicate AllProper(log: Log, signer: Signer) {
    log == [] || (AllProper(log[..|log| - 1], signer)
                  && (log[|log| - 1].Sent? ==> Proper(log[..|log| - 1], log[|log| - 1].command, signer)))
  }

  lemma {:induction false} ProperWhereSent(log: Log, i: nat, signer: Signer)
    requires AllProper(log, signer) && i < |log| && log[i].Sent?
    ensures Proper(log[..i], log[i].command, signer)
  {
    if i < |log| - 1 {
      assert log[..|log| - 1][..i] == log[..i];
      ProperWhereSent(log[..|log| - 1], i, signer);
    }
  }

  /** The last run received before this point is the one received there. */
  predicate LastReceivedAt(log: Log, i: nat, j: nat)
    requires i <= |log|
  {
    j < i && log[j].Received? && forall k :: j < k < i ==> !log[k].Received?
  }

  lemma {:induction false} CurrentIsLast(log: Log) returns (j: nat)
    requires Current(log).Some?
    ensures LastReceivedAt(log, |log|, j) && Current(log) == Some(log[j].run)
  {
    if log[|log| - 1].Received? {
      j := |log| - 1;
    } else {
      j := CurrentIsLast(log[..|log| - 1]);
    }
  }

  /**
   What such a log says of each of its commands. A run is begun first of all. An attestation comes directly after the
   human has confirmed the challenge of the run received just before, and is for that run, that challenge, and signed
   for both. Everything else is addressed to the run received last.
   */
  lemma EachIsProper(log: Log, i: nat, signer: Signer)
    requires AllProper(log, signer) && i < |log| && log[i].Sent?
    ensures match log[i].command
            case Begin => i == 0
            case Attest(runId, challengeId, token) =>
              && i >= 2 && log[i - 2].Received? && log[i - 1] == Asked(log[i - 2].run.nextAction, true)
              && log[i - 2].run.runId == runId
              && log[i - 2].run.nextAction.OperatorTelegram?
              && log[i - 2].run.nextAction.challengeId == challengeId
              && signer(runId, log[i - 2].run.nextAction) == Some(token)
            case RequestCleanup(runId) => exists j: nat :: LastReceivedAt(log, i, j) && log[j].run.runId == runId
            case Advance(runId) => exists j: nat :: LastReceivedAt(log, i, j) && log[j].run.runId == runId
            case Read(runId) => exists j: nat :: LastReceivedAt(log, i, j) && log[j].run.runId == runId
  {
    ProperWhereSent(log, i, signer);
    if !log[i].command.Begin? && !log[i].command.Attest? {
      var j := CurrentIsLast(log[..i]);
      assert LastReceivedAt(log, i, j);
    }
  }

  lemma Appended(log: Log, e: Entry, signer: Signer)
    requires AllProper(log, signer)
    requires e.Sent? ==> Proper(log, e.command, signer)
    ensures AllProper(log + [e], signer)
    ensures Commands(log + [e]) == Commands(log) + if e.Sent? then 1 else 0
    ensures Cleanups(log + [e]) == Cleanups(log) + if IsCleanup(e) then 1 else 0
    ensures Current(log + [e]) == if e.Received? then Some(e.run) else Current(log)
    ensures Receipts(log + [e]) == Receipts(log) + if e.Received? then 1 else 0
    ensures Signals(log + [e]) == Signals(log) + if e.Signalled? then 1 else 0
  {
    assert (log + [e])[..|log|] == log;
  }

  // ------------------------------------------------------------------------------------------------------ the driver

  /** What the driver does, as a function of its surroundings: one command and its reply. */
  function Exchange(w: Surroundings, log: Log, c: Command): (Log, Reply) {
    var sent := log + [Sent(c)];
    var r := w.reply(sent);
    (if r.Got? then sent + [Received(r.run)] else sent, r)
  }

  function RunOf(e: (Log, Reply)): (Log, Option<SafeRun>) { (e.0, if e.1.Got? then Some(e.1.run) else None) }

  function Advanced(w: Surroundings, log: Log, run: SafeRun): (Log, Option<SafeRun>) {
    var first := Exchange(w, log, Advance(run.runId));
    if first.1.Invalid? then RunOf(Exchange(w, first.0, Read(run.runId))) else RunOf(first)
  }

  function Confirmed(w: Surroundings, log: Log, run: SafeRun): (Log, Option<SafeRun>)
    requires run.nextAction.OperatorTelegram?
  {
    var confirmed, token := w.confirms(log), w.signer(run.runId, run.nextAction);
    if confirmed.None? then (log, None)
    else
      var asked := log + [Asked(run.nextAction, confirmed.value)];
      if !confirmed.value || token.None? then (asked, None)
      else RunOf(Exchange(w, asked, Attest(run.runId, run.nextAction.challengeId, token.value)))
  }

  function Turn(w: Surroundings, log: Log, run: SafeRun): (Log, Option<SafeRun>) {
    match run.nextAction
    case OperatorTelegram(_, _, _, _) => Confirmed(w, log, run)
    case Automatic => Advanced(w, log, run)
    case Nothing => RunOf(Exchange(w, log, Read(run.runId)))
  }

  /** The loop over any kind of turn, from a run received: the log, the last run, and whether the loop ended on it. */
  function FollowedBy(turn: (Log, SafeRun) -> (Log, Option<SafeRun>), interrupted: Log -> bool, log: Log, run: SafeRun,
                      rounds: nat): (Log, SafeRun, bool)
    decreases rounds
  {
    if rounds == 0 then (log, run, false)
    else if interrupted(log) then (log + [Signalled], run, false)
    else if Completed(run) then (log, run, true)
    else
      var next := turn(log, run);
      if next.1.None? then (next.0, run, false) else FollowedBy(turn, interrupted, next.0, next.1.value, rounds - 1)
  }

  /** When the loop ends on its last run, that run is accepted. */
  lemma AcceptedExactly(log: Log, run: SafeRun, finished: bool, rounds: nat)
    requires Current(log) == Some(run)
    requires finished ==>
               Completed(run) && log[|log| - 1] == Received(run) && Receipts(log) <= rounds && Signals(log) == 0
    requires !finished ==> Signals(log) > 0 || !Completed(run) || Receipts(log) == rounds + 1
    ensures finished <==> Accepted(log, rounds)
  {
  }

  function TurnsOf(w: Surroundings): (Log, SafeRun) -> (Log, Option<SafeRun>) { (log, run) => Turn(w, log, run) }

  /** One round of the loop. */
  lemma OneRound(turn: (Log, SafeRun) -> (Log, Option<SafeRun>), interrupted: Log -> bool, log: Log, run: SafeRun,
                 rounds: nat)
    requires rounds > 0
    ensures var all := FollowedBy(turn, interrupted, log, run, rounds);
            && (interrupted(log) ==> all == (log + [Signalled], run, false))
            && (!interrupted(log) && Completed(run) ==> all == (log, run, true))
            && (!interrupted(log) && !Completed(run) ==>
                  var next := turn(log, run);
                  if next.1.None? then all == (next.0, run, false)
                  else all == FollowedBy(turn, interrupted, next.0, next.1.value, rounds - 1))
  {
  }

  /** The driver's loop: its log up to a cleanup. */
  function Followed(w: Surroundings, log: Log, run: SafeRun, rounds: nat): (Log, SafeRun, bool) {
    FollowedBy(TurnsOf(w), w.interrupted, log, run, rounds)
  }

  function LogOf(begun: (Log, Reply), w: Surroundings, rounds: nat): Log
    requires begun.1.Got?
  {
    Followed(w, begun.0, begun.1.run, rounds).0
  }

  /** A turn while a run is being cleaned up: nobody is asked anything. */
  function QuietTurn(w: Surroundings, log: Log, run: SafeRun): (Log, Option<SafeRun>) {
    if run.nextAction.Automatic? then Advanced(w, log, run) else RunOf(Exchange(w, log, Read(run.runId)))
  }

  function QuietTurnsOf(w: Surroundings): (Log, SafeRun) -> (Log, Option<SafeRun>) {
    (log, run) => QuietTurn(w, log, run)
  }

  const NEVER: Log -> bool := log => false

  /** The log of a cleanup, from a run received: signals do not stop it. */
  function Drained(w: Surroundings, log: Log, run: SafeRun, rounds: nat): Log {
    FollowedBy(QuietTurnsOf(w), NEVER, log, run, rounds).0
  }

  lemma OneQuietRound(w: Surroundings, log: Log, run: SafeRun, rounds: nat)
    requires rounds > 0
    ensures Completed(run) ==> Drained(w, log, run, rounds) == log
    ensures !Completed(run) ==>
              var next := QuietTurn(w, log, run);
              Drained(w, log, run, rounds)
              == if next.1.None? then next.0 else Drained(w, next.0, next.1.value, rounds - 1)
  {
    OneRound(QuietTurnsOf(w), NEVER, log, run, rounds);
    assert QuietTurnsOf(w)(log, run) == QuietTurn(w, log, run);
  }

  /** The log of a run that has to be cleaned up, from the request on. */
  function CleanedUp(w: Surroundings, log: Log, run: SafeRun, rounds: nat): Log {
    var requested := Exchange(w, log, RequestCleanup(run.runId));
    if requested.1.Got? then Drained(w, requested.0, requested.1.run, rounds) else requested.0
  }

  /** From this point on the driver only advances and reads. */
  ghost predicate OnlyFollows(log: Log, from: nat) {
    forall i :: from <= i < |log| ==>
      log[i].Received? || (log[i].Sent? && (log[i].command.Advance? || log[i].command.Read?))
  }

  function Rounds(maxIterations: int): nat { if maxIterations > 0 then maxIterations else 0 }

  class Driver {
    const world: Surroundings
    const maxIterations: int
    var log: Log

    constructor (world: Surroundings, maxIterations: int)
      ensures this.world == world && this.maxIterations == maxIterations && log == []
    {
      this.world, this.maxIterations := world, maxIterations;
      log := [];
    }

    /** One command, and whatever comes back. */
    method Send(c: Command) returns (r: Reply)
      requires AllProper(log, world.signer) && Proper(log, c, world.signer)
      modifies this
      ensures AllProper(log, world.signer) && Commands(log) == Commands(old(log)) + 1
      ensures Cleanups(log) == Cleanups(old(log)) + if c.RequestCleanup? then 1 else 0
      ensures log == old(log) + [Sent(c)] + if r.Got? then [Received(r.run)] else []
      ensures Current(log) == if r.Got? then Some(r.run) else Current(old(log))
      ensures Receipts(log) == Receipts(old(log)) + if r.Got? then 1 else 0
      ensures Signals(log) == Signals(old(log))
      ensures (log, r) == Exchange(world, old(log), c)
    {
      Appended(log, Sent(c), world.signer);
      log := log + [Sent(c)];
      r := world.reply(log);
      if r.Got? {
        Appended(log, Received(r.run), world.signer);
        log := log + [Received(r.run)];
      }
    }

    ghost predicate Knows(run: SafeRun)
      reads this
    {
      AllProper(log, world.signer) && log != [] && log[|log| - 1] == Received(run)
    }

    /** `advance`, and a `read` when its reply is no run. */
    method AdvanceOrRead(run: SafeRun) returns (next: Option<SafeRun>)
      requires Knows(run)
      modifies this
      ensures AllProper(log, world.signer) && old(log) <= log && Cleanups(log) == Cleanups(old(log))
      ensures Commands(log) <= Commands(old(log)) + 2
      ensures next.Some? ==> Knows(next.value) && Receipts(log) == Receipts(old(log)) + 1
      ensures next.None? ==> Current(log) == Some(run)
      ensures Signals(log) == Signals(old(log)) && OnlyFollows(log, |old(log)|)
      ensures (log, next) == Advanced(world, old(log), run)
    {
      var r := Send(Advance(run.runId));
      if r.Threw? { return None; }
      if r.Invalid? { r := Send(Read(run.runId)); }
      next := if r.Got? then Some(r.run) else None;
    }

    /** The human is asked, and a confirmed challenge is attested; a declined or malformed one throws. */
    method Confirm(run: SafeRun) returns (next: Option<SafeRun>)
      requires Knows(run) && run.nextAction.OperatorTelegram?
      modifies this
      ensures AllProper(log, world.signer) && old(log) <= log && Cleanups(log) == Cleanups(old(log))
      ensures Commands(log) <= Commands(old(log)) + 1
      ensures next.Some? ==> Knows(next.value) && Receipts(log) == Receipts(old(log)) + 1
      ensures next.None? ==> Current(log) == Some(run)
      ensures Signals(log) == Signals(old(log))
      ensures (log, next) == Confirmed(world, old(log), run)
    {
      var confirmed := world.confirms(log);
      if confirmed.None? { return None; }
      Appended(log, Asked(run.nextAction, confirmed.value), world.signer);
      log := log + [Asked(run.nextAction, confirmed.value)];
      if !confirmed.value { return None; }
      var token := world.signer(run.runId, run.nextAction);
      if token.None? { return None; }
      var r := Send(Attest(run.runId, run.nextAction.challengeId, token.value));
      next := if r.Got? then Some(r.run) else None;
    }

    /** One turn of the loop for a run that is not completed. */
    method Follow(run: SafeRun) returns (next: Option<SafeRun>)
      requires Knows(run)
      modifies this
      ensures AllProper(log, world.signer) && old(log) <= log && Cleanups(log) == Cleanups(old(log))
      ensures Commands(log) <= Commands(old(log)) + 2
      ensures next.Some? ==> Knows(next.value) && Receipts(log) == Receipts(old(log)) + 1
      ensures next.None? ==> Current(log) == Some(run)
      ensures Signals(log) == Signals(old(log))
      ensures (log, next) == Turn(world, old(log), run)
    {
      match run.nextAction {
        case OperatorTelegram(_, _, _, _) => next := Confirm(run);
        case Automatic => next := AdvanceOrRead(run);
        case Nothing =>
          var r := Send(Read(run.runId));
          next := if r.Got? then Some(r.run) else None;
      }
    }

    /** `requestAndDrainCleanup`: one request, then the run is followed, asking no one, until it is completed. */
    method RequestAndDrainCleanup(run: SafeRun)
      requires AllProper(log, world.signer) && Current(log) == Some(run)
      modifies this
      ensures AllProper(log, world.signer) && old(log) <= log
      ensures Cleanups(log) == Cleanups(old(log)) + 1
      ensures Commands(log) <= Commands(old(log)) + 1 + 2 * Rounds(maxIterations)
      ensures |log| > |old(log)| && log[|old(log)|] == Sent(RequestCleanup(run.runId))
      ensures OnlyFollows(log, |old(log)| + 1)
      ensures log == CleanedUp(world, old(log), run, Rounds(maxIterations))
    {
      assert (log + [Sent(RequestCleanup(run.runId))])[..|log|] == log;
      var r := Send(RequestCleanup(run.runId));
      if r.Got? { Drain(r.run); }
    }

    /** Follows a run that is being cleaned up until it is completed or stops answering. */
    method Drain(start: SafeRun)
      requires Knows(start)
      modifies this
      ensures AllProper(log, world.signer) && old(log) <= log && Cleanups(log) == Cleanups(old(log))
      ensures Commands(log) <= Commands(old(log)) + 2 * Rounds(maxIterations)
      ensures OnlyFollows(log, |old(log)|)
      ensures log == Drained(world, old(log), start, Rounds(maxIterations))
    {
      var current := start;
      var rounds := Rounds(maxIterations);
      ghost var all := Drained(world, log, start, rounds);
      for iteration := 0 to rounds
        invariant Knows(current) && old(log) <= log && Cleanups(log) == Cleanups(old(log))
        invariant Commands(log) <= Commands(old(log)) + 2 * iteration
        invariant OnlyFollows(log, |old(log)|)
        invariant Drained(world, log, current, rounds - iteration) == all
      {
        var stops: bool;
        stops, current := QuietRound(current, rounds - iteration);
        if stops { return; }
      }
    }

    /** One round of the cleanup. */
    method QuietRound(run: SafeRun, ghost rounds: nat) returns (stops: bool, next: SafeRun)
      requires Knows(run) && rounds > 0
      modifies this
      ensures AllProper(log, world.signer) && old(log) <= log && Cleanups(log) == Cleanups(old(log))
      ensures Commands(log) <= Commands(old(log)) + 2
      ensures OnlyFollows(log, |old(log)|)
      ensures !stops ==> Knows(next)
      ensures Drained(world, old(log), run, rounds) == if stops then log else Drained(world, log, next, rounds - 1)
    {
      OneQuietRound(world, log, run, rounds);
      if Completed(run) { return true, run; }
      var followed := FollowQuietly(run);
      if followed.None? { return true, run; }
      return false, followed.value;
    }

    /** One turn of the cleanup: the run is advanced when it can go on by itself, and read otherwise. */
    method FollowQuietly(run: SafeRun) returns (next: Option<SafeRun>)
      requires Knows(run)
      modifies this
      ensures AllProper(log, world.signer) && old(log) <= log && Cleanups(log) == Cleanups(old(log))
      ensures Commands(log) <= Commands(old(log)) + 2
      ensures next.Some? ==> Knows(next.value)
      ensures OnlyFollows(log, |old(log)|)
      ensures (log, next) == QuietTurn(world, old(log), run)
    {
      if run.nextAction.Automatic? {
        next := AdvanceOrRead(run);
      } else {
        var answer := Send(Read(run.runId));
        next := if answer.Got? then Some(answer.run) else None;
      }
    }

    method NoteSignal()
      requires AllProper(log, world.signer)
      modifies this
      ensures AllProper(log, world.signer) && log == old(log) + [Signalled]
      ensures Commands(log) == Commands(old(log)) && Cleanups(log) == Cleanups(old(log))
      ensures Receipts(log) == Receipts(old(log)) && Current(log) == Current(old(log))
      ensures Signals(log) == Signals(old(log)) + 1
    {
      Appended(log, Signalled, world.signer);
      log := log + [Signalled];
    }

    /** One round of the loop: it stops, on a completed run or by throwing, or goes on with the next run. */
    method Round(run: SafeRun, ghost rounds: nat) returns (stops: bool, finished: bool, next: SafeRun)
      requires Knows(run) && rounds > 0
      modifies this
      ensures AllProper(log, world.signer) && old(log) <= log && Cleanups(log) == Cleanups(old(log))
      ensures Commands(log) <= Commands(old(log)) + 2
      ensures stops ==> next == run && Current(log) == Some(run)
      ensures stops && finished ==> Completed(run) && log == old(log)
      ensures stops && !finished ==> Signals(log) == Signals(old(log)) + 1 || !Completed(run)
      ensures !stops ==> Knows(next) && Receipts(log) == Receipts(old(log)) + 1 && Signals(log) == Signals(old(log))
      ensures Loop(old(log), run, rounds) == if stops then (log, run, finished) else Loop(log, next, rounds - 1)
    {
      OneRound(TurnsOf(world), world.interrupted, log, run, rounds);
      ghost var before := log;
      if world.interrupted(log) {
        NoteSignal();
        return true, false, run;
      }
      if Completed(run) { return true, true, run; }
      var followed := Follow(run);
      assert TurnsOf(world)(before, run) == (log, followed);
      if followed.None? { return true, false, run; }
      return false, false, followed.value;
    }

    ghost function Loop(from: Log, run: SafeRun, rounds: nat): (Log, SafeRun, bool) {
      FollowedBy(TurnsOf(world), world.interrupted, from, run, rounds)
    }

    /** The loop: `finished` when it ends on a completed run, none when it throws. */
    method FollowToEnd(begun: SafeRun) returns (run: SafeRun, finished: bool)
      requires Knows(begun)
      modifies this
      ensures AllProper(log, world.signer) && old(log) <= log && Cleanups(log) == Cleanups(old(log))
      ensures Commands(log) <= Commands(old(log)) + 2 * Rounds(maxIterations)
      ensures Current(log) == Some(run)
      ensures finished ==> Completed(run) && Knows(run)
      ensures finished ==>
                Receipts(log) < Receipts(old(log)) + Rounds(maxIterations) && Signals(log) == Signals(old(log))
      ensures !finished ==>
                Signals(log) > 0 || !Completed(run) || Receipts(log) == Receipts(old(log)) + Rounds(maxIterations)
      ensures (log, run, finished) == Followed(world, old(log), begun, Rounds(maxIterations))
    {
      run, finished := begun, false;
      var rounds := Rounds(maxIterations);
      ghost var all := Loop(log, begun, rounds);
      for iteration := 0 to rounds
        invariant Knows(run) && old(log) <= log && Cleanups(log) == Cleanups(old(log))
        invariant Commands(log) <= Commands(old(log)) + 2 * iteration
        invariant Receipts(log) == Receipts(old(log)) + iteration && Signals(log) == Signals(old(log))
        invariant Loop(log, run, rounds - iteration) == all
      {
        var stops: bool;
        stops, finished, run := Round(run, rounds - iteration);
        if stops { return; }
      }
      finished := false;
    }

    /**
     `runHermesStagingVerification`. What counts is the log up to a cleanup. A run is accepted when it comes back
     completed in one of the rounds and before a signal; exit code 0 is for an accepted run with every check true and
     nothing left present. Otherwise exactly one cleanup is requested, once a run was begun, for the last run known.
     */
    method Verify(planOk: bool, interactive: bool) returns (exit: int)
      requires log == []
      modifies this
      ensures AllProper(log, world.signer)
      ensures Commands(log) <= 2 + 4 * Rounds(maxIterations)
      ensures exit == 0 || exit == 1
      ensures var followed := BeforeCleanup(log);
              && (exit == 0 <==> Accepted(followed, Rounds(maxIterations)) && Successful(followed[|followed| - 1].run))
              && (Cleanups(log)
                  == if Current(followed).Some? && !Accepted(followed, Rounds(maxIterations)) then 1 else 0)
              && (Cleanups(log) == 0 ==> log == followed)
      ensures !(planOk && interactive) ==> log == []
      ensures planOk && interactive ==>
                var begun := Exchange(world, [], Begin);
                BeforeCleanup(log) == (if begun.1.Got? then LogOf(begun, world, Rounds(maxIterations)) else begun.0)
      ensures Cleanups(log) == 1 ==>
                var followed := BeforeCleanup(log);
                log == CleanedUp(world, followed, Current(followed).value, Rounds(maxIterations))
    {
      exit := 1;
      if !planOk || !interactive { return; }
      var run := BeginRun();
      if run.None? { return; }
      var finished;
      run, finished := FollowOrCleanUp(run.value);
      if finished { exit := if Successful(run.value) then 0 else 1; }
    }

    /** The first command; nothing is known unless its reply is a run. */
    method BeginRun() returns (run: Option<SafeRun>)
      requires log == []
      modifies this
      ensures AllProper(log, world.signer) && Commands(log) == 1 && Cleanups(log) == 0 && BeforeCleanup(log) == log
      ensures Receipts(log) <= 1 && Signals(log) == 0
      ensures if run.Some? then Knows(run.value) && Receipts(log) == 1 else Current(log).None?
      ensures (log, run) == RunOf(Exchange(world, [], Begin))
    {
      assert [Sent(Begin)] == [] + [Sent(Begin)];
      var r := Send(Begin);
      run := if r.Got? then Some(r.run) else None;
      CleanupSplits(log, []);
      assert log + [] == log;
    }

    /** Everything after a successful begin. */
    method FollowOrCleanUp(begun: SafeRun) returns (run: Option<SafeRun>, finished: bool)
      requires Knows(begun) && Receipts(log) == 1 && Cleanups(log) == 0 && Signals(log) == 0
      modifies this
      ensures AllProper(log, world.signer)
      ensures Commands(log) <= Commands(old(log)) + 1 + 4 * Rounds(maxIterations)
      ensures finished <==> Accepted(BeforeCleanup(log), Rounds(maxIterations))
      ensures Current(BeforeCleanup(log)).Some? && Current(BeforeCleanup(log)) == run
      ensures BeforeCleanup(log) == Followed(world, old(log), begun, Rounds(maxIterations)).0
      ensures if finished then Cleanups(log) == 0 && BeforeCleanup(log) == log && run.Some? && Knows(run.value)
              else
                && Cleanups(log) == 1 && run.Some?
                && log == CleanedUp(world, BeforeCleanup(log), run.value, Rounds(maxIterations))
    {
      var last;
      last, finished := FollowToEnd(begun);
      AcceptedExactly(log, last, finished, Rounds(maxIterations));
      run := Some(last);
      ghost var followed := log;
      if !finished { RequestAndDrainCleanup(last); }
      CleanupSplits(followed, log[|followed|..]);
      assert log == followed + log[|followed|..];
    }
  }

  // ------------------------------------------------------------------------------------------------ a late completion

  const CLEAN: CleanupState := CleanupState(Absent, Absent, Absent, Absent, Absent, true)

  const UNDERWAY: SafeRun := SafeRun("run", "provisioning", Automatic, map[], CLEAN, None, None)

  const DONE: SafeRun :=
    SafeRun("run", "complete", Nothing, map key | key in CHECK_KEYS :: true, CLEAN, None, Some("at last"))

  /** A service whose run is complete, with everything in order, as soon as it has been advanced once. */
  const PROMPT: Surroundings := Surroundings(
    log => if |log| == 1 then Got(UNDERWAY) else Got(DONE),
    log => None, log => false, (runId, action) => None)

  const LATE: Log := [Sent(Begin), Received(UNDERWAY), Sent(Advance("run")), Received(DONE)]

  lemma PromptFollows()
    ensures Exchange(PROMPT, [], Begin) == (LATE[..2], Got(UNDERWAY))
    ensures Followed(PROMPT, LATE[..2], UNDERWAY, 1) == (LATE, DONE, false)
    ensures Followed(PROMPT, LATE[..2], UNDERWAY, 2) == (LATE, DONE, true)
  {
    assert [] + [Sent(Begin)] == LATE[..1] && LATE[..1] + [Received(UNDERWAY)] == LATE[..2];
    assert LATE[..2] + [Sent(Advance("run"))] == LATE[..3] && LATE[..3] + [Received(DONE)] == LATE;
    assert UNDERWAY.phase[0] != "complete"[0];
    assert !Completed(UNDERWAY) && Completed(DONE);
    assert Advanced(PROMPT, LATE[..2], UNDERWAY) == (LATE, Some(DONE));
    assert Turn(PROMPT, LATE[..2], UNDERWAY) == (LATE, Some(DONE));
    assert Followed(PROMPT, LATE, DONE, 0) == (LATE, DONE, false);
    assert Followed(PROMPT, LATE, DONE, 1) == (LATE, DONE, true);
  }

  lemma ReceiptsThen(log: Log, e: Entry)
    ensures Receipts(log + [e]) == Receipts(log) + if e.Received? then 1 else 0
    ensures Signals(log + [e]) == Signals(log) + if e.Signalled? then 1 else 0
  {
    assert (log + [e])[..|log|] == log;
  }

  lemma LateReceipts()
    ensures Receipts(LATE) == 2 && Current(LATE) == Some(DONE) && Signals(LATE) == 0
  {
    ReceiptsThen([], LATE[0]);
    ReceiptsThen([] + [LATE[0]], LATE[1]);
    ReceiptsThen([] + [LATE[0]] + [LATE[1]], LATE[2]);
    ReceiptsThen([] + [LATE[0]] + [LATE[1]] + [LATE[2]], LATE[3]);
    assert [] + [LATE[0]] + [LATE[1]] + [LATE[2]] + [LATE[3]] == LATE;
  }

  lemma DoneIsSuccessful()
    ensures Successful(DONE)
  {
    assert forall key :: key in CHECK_KEYS ==> key in DONE.checks && DONE.checks[key];
  }

  /**
   One allowed round is too few for such a run: it comes back complete and successful, and is cleaned up, and the exit
   code is 1. With two rounds the exit code is 0 and there is no cleanup.
   */
  method LateCompletion(rounds: int) returns (exit: int, log: Log)
    requires 1 <= rounds <= 2
    ensures BeforeCleanup(log) == LATE && Successful(DONE)
    ensures rounds == 1 ==> exit == 1 && Cleanups(log) == 1
    ensures rounds == 2 ==> exit == 0 && Cleanups(log) == 0
  {
    PromptFollows();
    LateReceipts();
    DoneIsSuccessful();
    exit, log := VerifyLate(PROMPT, rounds);
  }

  /** A driver in surroundings in which it gets to that log. */
  method VerifyLate(world: Surroundings, rounds: int) returns (exit: int, log: Log)
    requires 1 <= rounds <= 2 && Exchange(world, [], Begin) == (LATE[..2], Got(UNDERWAY))
    requires Followed(world, LATE[..2], UNDERWAY, rounds).0 == LATE
    requires Receipts(LATE) == 2 && Current(LATE) == Some(DONE) && Signals(LATE) == 0 && Successful(DONE)
    ensures BeforeCleanup(log) == LATE
    ensures rounds == 1 ==> exit == 1 && Cleanups(log) == 1
    ensures rounds == 2 ==> exit == 0 && Cleanups(log) == 0
  {
    var driver := new Driver(world, rounds);
    exit := driver.Verify(true, true);
    log := driver.log;
    assert LogOf((LATE[..2], Got(UNDERWAY)), world, rounds) == LATE;
    assert Accepted(LATE, rounds) <==> rounds == 2;
  }

  // ----------------------------------------------------------------------------------------------- bounded responses

  type Byte = x: int | 0 <= x < 256

  function Concat(chunks: seq<seq<Byte>>): seq<Byte> {
    if chunks == [] then [] else Concat(chunks[..|chunks| - 1]) + chunks[|chunks| - 1]
  }

  lemma {:induction false} PrefixIsShorter(chunks: seq<seq<Byte>>, k: nat)
    requires k <= |chunks|
    ensures Concat(chunks[..k]) <= Concat(chunks)
  {
    if k < |chunks| {
      assert chunks[..|chunks| - 1][..k] == chunks[..k];
      PrefixIsShorter(chunks[..|chunks| - 1], k);
    } else {
      assert chunks[..k] == chunks;
    }
  }

  /**
   `readResponseBytes`: reads chunk by chunk, gives up as soon as there are too many bytes, and copies the chunks one
   behind the other into one array.
   */
  method ReadResponseBytes(stream: seq<seq<Byte>>, maxBytes: nat) returns (result: Option<array<Byte>>)
    ensures result.Some? <==> |Concat(stream)| <= maxBytes
    ensures result.Some? ==> result.value[..] == Concat(stream)
  {
    var chunks: seq<seq<Byte>>, total := [], 0;
    for i := 0 to |stream|
      invariant chunks == stream[..i] && total == |Concat(chunks)| <= maxBytes
    {
      assert stream[..i + 1][..i] == stream[..i];
      PrefixIsShorter(stream, i + 1);
      total := total + |stream[i]|;
      if total > maxBytes { return None; }
      chunks := chunks + [stream[i]];
      assert chunks == stream[..i + 1];
    }
    assert stream[..|stream|] == stream;
    var bytes := new Byte[total](_ => 0);
    var offset := 0;
    for i := 0 to |chunks|
      invariant offset == |Concat(chunks[..i])| && offset <= bytes.Length == |Concat(chunks)|
      invariant bytes[..offset] == Concat(chunks[..i])
    {
      assert chunks[..i + 1][..i] == chunks[..i];
      PrefixIsShorter(chunks, i + 1);
      CopyAt(bytes, offset, chunks[i]);
      offset := offset + |chunks[i]|;
    }
    assert chunks[..|chunks|] == chunks;
    return Some(bytes);
  }

  /** `result.set(chunk, offset)` */
  method CopyAt(bytes: array<Byte>, offset: nat, chunk: seq<Byte>)
    requires offset + |chunk| <= bytes.Length
    modifies bytes
    ensures bytes[..offset] == old(bytes[..offset]) && bytes[offset..offset + |chunk|] == chunk
    ensures bytes[..offset + |chunk|] == old(bytes[..offset]) + chunk
  {
    for i := 0 to |chunk|
      invariant bytes[..offset] == old(bytes[..offset])
      invariant bytes[offset..offset + i] == chunk[..i]
    {
      bytes[offset + i] := chunk[i];
    }
  }
}
