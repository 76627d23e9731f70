# Runner and release-gate models

Dafny models of the parts of Bruno that decide which Docker workload an agent has, what is on its disk, when its runner
counts as ready, and when a release is approved, together with proofs of what these parts promise.

`dafny verify dfyconfig.toml` checks everything.

## What is modelled

**Managed launches** (`src/runner-service/docker.ts`). `AgentLock` is the per-agent chain of promises as a state machine
and as the map the service updates. `LaunchProtocol` interleaves launches, stops and cleanups over one Docker host;
every command may fail with or without its effect, and every launch may be cancelled or time out between any two
commands. `LaunchRuns` follows one call's own steps, and `LaunchProgress` shows where they end: what a stop, a cleanup
or a launch leaves when it succeeds, and that a stop or cleanup always can. `Judges` holds the two independent judgements of a container, the one made at launch and the one made at every
status request, with the command line that writes the labels and the reader of those labels; `SandboxEvidence` says
over the record's own fields what they accept, and `Shapes` which ids, digests and operations are read. `LaunchAcceptance` is one
launch alone inside its section, from any set of labelled containers to exactly one; `LaunchRefinement` shows that an
accepted or failed launch there is a run of the interleaved service, and `LaunchSuccess` that a launch which nothing disturbs is accepted.
`CreatedContainers` takes the `docker run` line to the launch judge.

**Hermes projection** (`src/runner-service/hermes-projection.ts`). `ConfigTree` edits, checks, prints and reads back the
nested config; `ConfigRecords` does the same edits on records changed in place. `EnvFile` merges the environment file
line by line and reads the API server key back. `ConfigMeaning`, `EnvMeaning` and `EnvVariables` say what these parsers,
checks and merges mean for a file and for its variables, without the functions that compute it. `HermesProjection` composes them over a disk that survives crashes.
`ConfigExample` and `ProjectionExample` work out inputs at which a property fails.

**Boot self-test** (`src/runner-service/boot-self-test.ts`). `BootFixtures` is the write-ahead protocol for Docker
fixtures and its recovery. `BootVerdict` is the run of the checks against an arbitrary executor, and the parser through
which its snapshots are read back.

**Setup sessions** (`src/runner-service/hermes-setup-sessions.ts`): `SetupSessions`, atomic events between two awaits.

**Release gates** (`scripts/`). `HistoryScan` is the bounded scan of a candidate's check runs against an arbitrary
server. `StagingDriver` is the remote-driven acceptance loop with its log of commands. `ProviderQualification`,
`ReleaseDecision` and `DecisionAuthority` are the evidence, the builder of the decision, and the authority read back
from it; `ReleaseMeaning` and `AuthorityMeaning` say field by field what these two ask for; `DecisionExample` takes one
candidate the whole way.

**Persisted runner environment** (`src/runner-service/bootstrap.ts`): `EnvQuoting`.

`Options`, `Ordering`, `StringSets` and `Text` are shared helpers.

## Where the code does not do what one would expect

The models keep the code as it is. Each point names the lemma that says exactly when it happens, where there is such a
condition, and the one that shows an input or a run at which it does.

- A waiter that gives up as the newest link of its agent's chain while the holder still runs deletes the map entry, and
  the next call walks in beside the holder (`AgentLock.AbandonSafeExactly`, `AgentLock.OverlapIsReachable`).
- A model name that looks like a key makes the service refuse the config file it wrote itself
  (`ConfigTree.RenderAbsorbs`, `ConfigTree.RenderIsIdempotent`, `ConfigExample.OwnFileIsRefused`).
- A preserved line that ends in a carriage return of its own loses it at the next merge (`EnvFile.MergeAbsorbs`,
  `EnvFile.LoneReturnIsLost`).
- Pruning removes `config.yaml.tmp` and its like, but staged files are named `.config.yaml.tmp-` and a random suffix:
  what a crashed attempt staged is never removed (`HermesProjection.HermesHome.Project`,
  `HermesProjection.LeftBehind`).
- The revision marker lags behind when another spec is tried and crashes (`HermesProjection.MarkerTellsExactly`,
  `HermesProjection.OwnMarkersTellExactly`, `ProjectionExample.MarkerLags`).
- The boot deadline rejects the promise of a fixture launch without stopping it. A recovery that meanwhile sweeps that
  launch's own directory can remove the descriptor of a container that the launch has just created and not yet attached
  to its network (`BootFixtures.SweepSafeExactly`, `BootFixtures.DeadlineLeaks`).
- In attested mode a run whose first error blames Telegram ends in a snapshot that the parser refuses, so that the
  controller goes on reporting a test under way (`BootVerdict.BootRun.Execute`, `BootVerdict.UnreadableRun`). The
  service's own executor gives that reason only while it launches a fixture; then every verdict can be read
  (`BootVerdict.BootRun.Report`).
- A boot deadline that passes while the last snapshots are saved goes unnoticed: the run ends ready
  (`BootVerdict.BootRun.Execute`, `BootVerdict.LateReadyRun`).
- Overlapping `create` calls both register a session (`SetupSessions.CommitSafeExactly`,
  `SetupSessions.OverlappingCreates`).
- A staging run that comes back completed in the last allowed round, or just before a signal, is cleaned up all the same
  and ends with exit code 1 (`StagingDriver.Driver.Verify`, `StagingDriver.LateCompletion`).
- The release builder by itself looks neither at whether the dates of the attended reviews can be read nor at the shape
  of the digests that come with the product contract. It approves a review without a date
  (`DecisionAuthority.TimelyExactlyWhenReviewsDated`, `DecisionExample.UndatedReviewIsApproved`), and the authority
  refuses what it approved when a digest is malformed (`DecisionAuthority.ApprovedExactlyInWindow`,
  `DecisionExample.ApprovedExactlyWithDigest`). The contract's own builder checks both, and for a contract made by it
  nothing more is asked (`DecisionAuthority.BuiltApprovalHolds`).

## Model

| member | source | states |
|---|---|---|
| AgentLock.SettledMeansAllLeft | src/runner-service/docker.ts:1370-1396 | A settled link of the chain means that every call of the agent up to it has left. |
| AgentLock.StepKeepsInv | src/runner-service/docker.ts:1370-1396 | Every safe event keeps the shape of all chains, the currency of the map, and the order of entry. |
| AgentLock.SafeRunsExclude | src/runner-service/docker.ts:1370-1396 | Over every run of safe events no two calls of one agent are inside together, and sections are entered in call order. |
| AgentLock.FreshLocksExclude | src/runner-service/docker.ts:1370-1396 | The same from a service that has just started. |
| AgentLock.UnsafeAbandonOverlaps | src/runner-service/docker.ts:1383-1395 | Giving up as the newest link before the predecessors settled lets some continuation put two calls inside together. |
| AgentLock.OverlapIsReachable | src/runner-service/docker.ts:1370-1396 | From a service that has just started, four events lead to such a state. |
| AgentLock.AbandonSafeExactly | src/runner-service/docker.ts:1383-1395 | Giving up is harmless for every continuation if and only if the waiter is not the newest link or its predecessors are gone. |
| AgentLock.PromiseLocks.Register | src/runner-service/docker.ts:1374-1381 | Reading the predecessor and publishing the own link is the model's call event. |
| AgentLock.PromiseLocks.Proceed | src/runner-service/docker.ts:1383-1389 | The continuation after the wait is the model's enter event. |
| AgentLock.PromiseLocks.Leave | src/runner-service/docker.ts:1390-1395 | Releasing, and deleting the entry only when it is the own link, is the model's exit or abandon event. |
| LaunchProtocol.AdvanceKeeps | src/runner-service/docker.ts:690-803 | One settled step of a call inside its section keeps that call's own invariant and touches only its agent's containers. |
| LaunchProtocol.InterruptedKeeps | src/runner-service/docker.ts:643-688 | A step that fails or is interrupted, with or without its effect, does so too. |
| LaunchProtocol.StepKeepsInv | src/runner-service/docker.ts:472-803 | Every event of the interleaved service keeps the invariant of all calls and of Docker. |
| LaunchProtocol.ReachableStates | src/runner-service/docker.ts:472-803 | Over every safe interleaving from a fresh service the invariant and mutual exclusion hold. |
| LaunchProtocol.RunStaysQuiet | src/runner-service/docker.ts:643-688 | Once nothing of an agent is active and no launch of it is inside, that stays so until a launch enters. |
| LaunchProtocol.StopDominates | src/runner-service/docker.ts:472-508 | When a successful stop leaves its section nothing of its agent runs or restarts, every launch called before it is over, and nothing becomes active until a later launch enters. That stops succeed is LaunchProgress.CanAlwaysSucceed. |
| LaunchProtocol.CleanupLeavesNothing | src/runner-service/docker.ts:510-532 | When a successful cleanup leaves its section no container carries the agent's label. |
| LaunchProtocol.AcceptedLeavesExactlyOne | src/runner-service/docker.ts:690-803 | Under any interleaving a launch that reports accepted leaves its section with exactly its own container. |
| LaunchProtocol.MarkedNeverAccepted | src/runner-service/docker.ts:1282-1292 | A terminal reason is never cleared, and a launch marked before its last check never reports accepted. |
| LaunchProtocol.StopCancelsRegistered | src/runner-service/docker.ts:1268-1280 | Calling stop or cleanup dooms every launch of the agent that is registered and not yet accepted. |
| LaunchProtocol.MarkedNeverEnters | src/runner-service/docker.ts:1282-1336 | A launch that is marked while it waits never enters its section. |
| LaunchProtocol.MarkedOnlyByOwn | src/runner-service/docker.ts:1268-1292 | A launch is marked only by its own deadline, or by a stop or cleanup of its own agent before it has left. |
| LaunchProtocol.StepStopsOnlyBusy | src/runner-service/docker.ts:472-803 | Under any interleaving a container keeps its status until it is removed, unless it runs or restarts and is stopped; and only a launch of its own agent brings one about. |
| LaunchProgress.OwnStepsSucceed | src/runner-service/docker.ts:472-532 | However a stop or cleanup takes its own steps without a fault, it never fails and succeeds after a number of steps given by its program counter; a stop then leaves each busy container of its agent stopped and everything else as it was, a cleanup removes exactly the agent's containers. |
| LaunchProgress.SucceedsAlone | src/runner-service/docker.ts:472-532 | From its section, some of its own steps without a fault end in success, with its leaving enabled. |
| LaunchProgress.OnlyFaultsFail | src/runner-service/docker.ts:472-532 | Under any interleaving only a failing command of its own makes a stop or cleanup fail. |
| LaunchProgress.CanAlwaysSucceed | src/runner-service/docker.ts:472-532 | From every reachable state in which a stop or cleanup waits or works, some safe run of the service without a failing command ends with it gone and successful, with nothing of its agent busy, or no container of it at all. |
| LaunchProgress.LaunchSteps | src/runner-service/docker.ts:690-803 | However a launch takes its own steps, an accepted one leaves its agent exactly one container: one that ran before and is unchanged, or a new one; other agents' containers are unchanged. |
| LaunchProgress.FailureLeavesNothingNew | src/runner-service/docker.ts:663-687 | A launch that fails before its container was verified, whichever command fails, leaves no new container once its unwinding has been carried out. |
| Judges.RunArgsLabels | src/runner-service/docker.ts:2565-2629 | What Docker's command line reader makes of the built arguments: the labels written, and no option mistaken for another. |
| CreatedContainers.RunArgsRead | src/runner-service/docker.ts:2565-2629 | Docker reads the options just as they were put together, and the image behind them. |
| Judges.ReadBackExactly | src/runner-service/docker.ts:1546-1576 | A well-formed operation written as labels is read back exactly. |
| Shapes.ReadExactly | src/runner-service/docker.ts:1546-1576 | An operation is read from labels exactly when it is proper and each of its six parts stands under its own label. |
| Shapes.UuidMeans | src/runner-service/docker.ts:1558 | An id is accepted exactly when it fits the pattern of a UUID of version 1 to 5 in either case. |
| Shapes.SomeAreProper | src/runner-service/docker.ts:1546-1576 | There are proper operations for every target and every moment. |
| Shapes.Sha256Means | src/runner-service/docker.ts:2066-2068 | An image id is `sha256:` and 64 lower-case hexadecimal digits. |
| Judges.OperationRoundTrip | src/runner-service/docker.ts:1546-1576 | The operation on the command line is the one read from the container if and only if the extra labels leave its labels alone. |
| Judges.FreshNamesLeaveAlone | src/runner-service/docker.ts:2631-2644 | Extra labels with names of their own do leave them alone. |
| Judges.ExactStringSetIsReordering | src/runner-service/docker.ts:2444-2461 | The size-and-membership test accepts exactly the reorderings of the expected values. |
| Judges.LaunchAcceptsThenStatusAccepts | src/runner-service/docker.ts:1943-2000 | A container the launch judge accepts is evident to the status judge for the operation its labels name. |
| Judges.JudgesAgree | src/runner-service/docker.ts:2296-2384 | When the state root has one name, launch and status judge agree in both directions, up to the launch judge's search for secrets. What they agree on is SandboxEvidence.SandboxExactly. |
| SandboxEvidence.SandboxExactly | src/runner-service/docker.ts:2331-2384 | Both judges pass the sandbox of exactly the containers that are contained: on the one network, no host port with a non-blank character, restart policy, the exact options and limits, and no path through the Docker socket. |
| SandboxEvidence.PublishedPortIsRefused | src/runner-service/docker.ts:2427-2433 | One non-blank host port, in the bindings or on the network, and neither judge lets the container pass. |
| SandboxEvidence.SocketIsRefused | src/runner-service/docker.ts:2435-2442 | The same for one path through the Docker socket in a bind or a mount. |
| SandboxEvidence.BlankPortsPass | src/runner-service/docker.ts:2427-2433 | With blank or absent host ports and other binds the service's own sandbox passes both judges. |
| SandboxEvidence.SetMeans | src/runner-service/docker.ts:2444-2461 | An option list is as expected exactly when it has as many values as names and one that stands for each, blanks, case and a `CAP_` in front set aside. |
| SandboxEvidence.AcceptedExactly | src/runner-service/docker.ts:2296-2384 | The launch judge accepts exactly the container that was asked for: labels, mounts, image, marker, sandbox, and no secret. |
| SandboxEvidence.EvidentExactly | src/runner-service/docker.ts:1943-2000 | A status request finds a container evident for its operation exactly when agent, marker, image, mounts and sandbox are as that operation says. |
| SandboxEvidence.ClassifyMeans | src/runner-service/docker.ts:1921-1941 | The revision matches exactly when marker, request and container give one and the same; when it is unreadable and when it mismatches. |
| CreatedContainers.MadePassesExactly | src/runner-service/docker.ts:2296-2384 | What Docker reports of a container made by the service's own line is accepted at launch if and only if the extra labels leave the judged ones alone, the marker is the spec's, no mounted path goes through the Docker socket, and no secret shows. |
| LaunchAcceptance.WinnerIsLeast | src/runner-service/docker.ts:1197-1228 | There is a winner exactly when some container is exact. It was accepted no later than any other exact one, and at the same time its id comes first. |
| Text.BeforeMeans | src/runner-service/docker.ts:1578-1588 | One text is before another exactly when it is a proper prefix of it or smaller at the first character in which they differ. |
| LaunchAcceptance.StatusChoice | src/runner-service/docker.ts:1590-1611 | A status request reports a container with a readable operation whenever there is one, of those the one accepted first, and at the same time, or without any operation, the one whose id comes first. |
| LaunchAcceptance.ListingOrderIsIrrelevant | src/runner-service/docker.ts:1578-1611 | Neither the reused container nor the one a status request reports depends on the order of the listing. |
| LaunchAcceptance.RemoveSurplus | src/runner-service/docker.ts:1230-1247 | Removes exactly the surplus containers or stops early; nothing new, and no other agent's container touched. |
| LaunchAcceptance.StartContainer | src/runner-service/docker.ts:721-748 | One new container whose labels decode to the launch's own operation, remembered by name until its id is known. |
| LaunchAcceptance.VerifyContainer | src/runner-service/docker.ts:750-772 | The new container is judged and kept, or removed again; without a failing command it is kept exactly when it passes, and gone otherwise. |
| LaunchAcceptance.AcceptHermesLaunch | src/runner-service/docker.ts:690-803 | Accepted means converged: one container, its operation reported, the disposition decided by the starting set. Refused means at most one new container, remembered by its name. When no command fails and nothing ends the launch, it is accepted exactly when the image is there and the winner or a new container passes. |
| LaunchAcceptance.LaunchManaged | src/runner-service/docker.ts:643-688 | The same for the whole launch: the token's terminal reason decides the error, and a failed launch leaves the agent's containers partly cleared, or exactly one new one. Undisturbed, it succeeds whenever its image is there and its container would be accepted. |
| LaunchAcceptance.CleanupKnownCreated | src/runner-service/docker.ts:1338-1368 | Removes at most the remembered container, and forgets it first. |
| LaunchAcceptance.ReuseAccepts | src/runner-service/docker.ts:711-717 | Keeping the winner and removing the rest is an acceptance with disposition reused. |
| LaunchAcceptance.CreatedAccepts | src/runner-service/docker.ts:718-773 | Clearing everything and verifying a new container is an acceptance with disposition created or replaced. |
| LaunchAcceptance.FailsSafelyCounts | src/runner-service/docker.ts:663-687 | A failed launch leaves at most one container that was not there before. |
| LaunchSuccess.OwnLaunchCanAccept | src/runner-service/docker.ts:643-803 | When Docker reports what the command line asks for, the container passes whatever its name, so that an undisturbed launch that finds its image succeeds. |
| LaunchAcceptance.AcceptedIsEvident | src/runner-service/docker.ts:805-909 | After an accepted launch a status request chooses that container and finds it evident for the reported operation. |
| LaunchAcceptance.LaunchRegistry.CancelActiveLaunches | src/runner-service/docker.ts:1268-1280 | Every registered launch of the agent is marked cancelled, and one that was accepted no later than any other is named. |
| LaunchRefinement.AcceptedIsARun | src/runner-service/docker.ts:690-803 | Every accepted launch of LaunchAcceptance is a run of LaunchProtocol's local steps, with the same containers at both ends. |
| LaunchRefinement.AcceptedInTheService | src/runner-service/docker.ts:643-803 | So some safe run of the interleaved service takes the launch from its entry to that acceptance. |
| LaunchRefinement.FailedIsARun | src/runner-service/docker.ts:643-803 | Whatever a failed launch leaves behind is what some run of the local steps leaves in which a command fails and the launch unwinds. |
| LaunchRefinement.FailedInTheService | src/runner-service/docker.ts:643-803 | So some safe run of the interleaved service, with its faults, takes the launch from its entry to that failure. |
| ConfigTree.ApartMeansNoPrefix | src/runner-service/hermes-projection.ts:545-575 | Two paths are apart if and only if neither is a prefix of the other. |
| ConfigTree.ApplyKeepsApart | src/runner-service/hermes-projection.ts:545-575 | An edit changes no lookup of a path that is neither a prefix nor an extension of its own. |
| ConfigTree.AllEditsIndependent | src/runner-service/hermes-projection.ts:258-275 | The managed paths never contain one another, except where they are the same. |
| ConfigTree.RewriteReaches | src/runner-service/hermes-projection.ts:253-275 | After the rewrite every set path has its value and every deleted path is absent. |
| ConfigMeaning.RewrittenAsTabled | src/runner-service/hermes-projection.ts:253-275 | Whatever the tree held, afterwards each of the managed paths, listed one by one, has its value or is absent. |
| ConfigTree.RewriteIsIdempotent | src/runner-service/hermes-projection.ts:253-275 | Rewriting twice for one model is rewriting once. |
| ConfigTree.RewriteAbsorbs | src/runner-service/hermes-projection.ts:253-275 | A rewrite for one model followed by a rewrite for another is the second alone. |
| ConfigTree.RewriteKeepsTheRest | src/runner-service/hermes-projection.ts:253-275 | Lookups of paths that are neither prefixes nor extensions of managed paths are kept. |
| ConfigTree.CopyValue | src/runner-service/hermes-projection.ts:408-437 | Copying with the shared counter succeeds exactly when everything is supported, no deeper than 64 levels, and all entries fit within 4096; then it gives the plain tree. |
| ConfigTree.CopyMap | src/runner-service/hermes-projection.ts:439-459 | The same for a mapping, whose keys must be safe strings. |
| ConfigTree.EditsStayClean | src/runner-service/hermes-projection.ts:507-543 | The managed edits keep a tree free of secrets when their own values are. |
| ConfigTree.WhenRewrittenIsClean | src/runner-service/hermes-projection.ts:507-543 | A rewritten tree passes the secret check if and only if neither provider nor model looks like a key. |
| ConfigMeaning.CleanMeans | src/runner-service/hermes-projection.ts:507-543 | The secret check passes exactly the trees in which everything, wherever it lies, is harmless under its own key. |
| ConfigMeaning.ParsedExactly | src/runner-service/hermes-projection.ts:361-400 | A config is read exactly when there is nothing in it, or it is within 256 KiB, has no unsafe syntax, and is one mapping whose values are supported, at most 64 deep and 4096 in number. |
| ConfigTree.RenderedReadsBack | src/runner-service/hermes-projection.ts:253-287 | A rendered file parses to exactly the rewritten tree. |
| ConfigTree.RenderAbsorbs | src/runner-service/hermes-projection.ts:253-287 | Rendering a rendered file gives what rendering the original would have given, or is refused, exactly when the earlier names look like keys. |
| ConfigTree.RenderIsIdempotent | src/runner-service/hermes-projection.ts:253-287 | Rendering again for the same model changes nothing if and only if provider and model do not look like keys. |
| ConfigTree.RenderedMeans | src/runner-service/hermes-projection.ts:253-287 | What a reader of the rendered file finds: required values, absent legacy paths, everything else kept. |
| ConfigExample.RewrittenFromNothing | src/runner-service/hermes-projection.ts:253-275 | What the rewrite makes of an empty config, in full. |
| ConfigExample.OwnFileIsRefused | src/runner-service/hermes-projection.ts:507-543 | An empty config rendered for a key-shaped model is written, and refused at the next rendering. |
| ConfigRecords.PlainRecord.SetPath | src/runner-service/hermes-projection.ts:545-559 | Changing the records in place does to their tree what setting the path does to its value. |
| ConfigRecords.PlainRecord.DeletePath | src/runner-service/hermes-projection.ts:561-575 | The same for deleting a path. |
| ConfigRecords.ApplyEdits | src/runner-service/hermes-projection.ts:256-275 | The whole sequence of edits on records is the sequence of edits on the tree. |
| EnvFile.FilterLines | src/runner-service/hermes-projection.ts:327-340 | The filter keeps the lines without an owned key, and stops exactly when some line cannot be read. |
| EnvFile.MergeHermesEnv | src/runner-service/hermes-projection.ts:320-347 | The filter and the pop loop compute the merge. |
| EnvFile.MergedConsistsOf | src/runner-service/hermes-projection.ts:346 | A merged file is the preserved lines and the rendered ones, each ended by a line feed. |
| EnvFile.SurvivorsThenRendered | src/runner-service/hermes-projection.ts:327-346 | Every line without an owned key survives in order, except empty lines at the end. |
| EnvFile.ReturnIsInvisible | src/runner-service/hermes-projection.ts:595-613 | A carriage return at the end of a line changes nothing about how the line is treated. |
| EnvFile.ParseOwn | src/runner-service/hermes-projection.ts:595-599 | A line that assigns to an identifier is read as an assignment to it, the word export notwithstanding. |
| EnvMeaning.ParseMeans | src/runner-service/hermes-projection.ts:595-599 | The parser finds a key exactly when the line, blanks and the word export set aside, is an identifier, an equals sign and anything. |
| EnvMeaning.AcceptableMeans | src/runner-service/hermes-projection.ts:601-613 | A line is refused exactly when it goes on in the next one, or begins like an assignment to an owned key without being one. |
| EnvFile.MergedIsAcceptable | src/runner-service/hermes-projection.ts:601-613 | A merged file is never refused for its lines by the next merge. |
| EnvFile.MergeAbsorbs | src/runner-service/hermes-projection.ts:320-347 | Merging for one spec and then for another that owns at least as much is merging for the second alone, if and only if no line the second keeps ends in a carriage return. |
| EnvFile.LoneReturnIsLost | src/runner-service/hermes-projection.ts:320-347 | One line that ends in two carriage returns is merged differently the second time, whatever the spec. |
| EnvFile.CleanFilesAbsorb | src/runner-service/hermes-projection.ts:320-347 | A file without lone carriage returns is merged the same way once or twice. |
| EnvFile.MergedStaysClean | src/runner-service/hermes-projection.ts:320-347 | A merge of such a file leaves no carriage return at all. |
| EnvFile.UnquoteQuoted | src/runner-service/hermes-projection.ts:587-593 | A JSON string reader gives back what the printer quoted (section 7 of RFC 8259). |
| EnvFile.MergedKeyLines | src/runner-service/docker.ts:1854-1861 | The only assignment to the API server key in a merged file is the rendered one, whatever the file held before. |
| EnvVariables.EveryVariableOnce | src/runner-service/hermes-projection.ts:320-347 | A merged file sets every variable of the spec exactly once, to the spec's value, and no other variable that the service owns. |
| EnvVariables.MergeSucceedsExactly | src/runner-service/hermes-projection.ts:320-347 | A merge succeeds exactly when the file is within its limit and has no NUL, no line is refused and no secret has a control character; the first of these that fails decides the error. |
| EnvFile.ReaderFindsKey | src/runner-service/docker.ts:1841-1882 | The runner's reader finds the spec's key exactly when the key has the accepted shape and the file is within 64 KiB, and nothing otherwise. |
| EnvVariables.KeyIsFoundExactly | src/runner-service/docker.ts:1841-1882 | The reader's answer over the file's bytes and characters: the spec's key exactly when it is `bruno_agent_` and 32 to 247 letters, digits, underscores or hyphens, and the file fits; nothing otherwise. |
| HermesProjection.AttemptIsInvisible | src/runner-service/hermes-projection.ts:132-216 | One attempt, however far it got, changes nothing about what a later projection writes. |
| HermesProjection.HistoryDoesNotMatter | src/runner-service/hermes-projection.ts:132-216 | After any attempts, each cut short anywhere and each for a spec whose keys this one covers, a projection ends with the four files it would have written on the first disk. |
| HermesProjection.RetryAfterCrashes | src/runner-service/hermes-projection.ts:132-216 | Whatever the crash points, a retry of the same spec ends with the same four files as an uninterrupted run. |
| HermesProjection.RetryWorksExactly | src/runner-service/hermes-projection.ts:132-216 | After a crash behind k renames the same spec finds what it found at first if and only if what was renamed can be read again: the config unless its names look like keys, the environment unless a kept line ends in a carriage return or the file has grown too large. |
| HermesProjection.WorkingRetryEndsTheSame | src/runner-service/hermes-projection.ts:132-216 | Then the retry ends with the files of an uninterrupted run. |
| HermesProjection.MarkerLastOnce | src/runner-service/hermes-projection.ts:173-207 | In every state that one attempt leaves, from any disk and cut short anywhere, a new marker means that the other three files hold exactly the new contents. |
| HermesProjection.MarkerLast | src/runner-service/hermes-projection.ts:173-207 | The same after any number of retries, given a library that undoes itself, a model that is not key-shaped, an environment without lone carriage returns, and one that fits its limit. |
| HermesProjection.MarkerTellsExactly | src/runner-service/hermes-projection.ts:173-207 | After a projection and another one cut short, the marker on disk belongs to the files on disk if and only if the files renamed are the same for both, or all the others are. |
| HermesProjection.OwnMarkersTellExactly | src/runner-service/hermes-projection.ts:189-200 | For two specs with markers of their own: before the first rename, after the last, or when the files renamed so far are the same. |
| HermesProjection.OtherModelLags | src/runner-service/hermes-projection.ts:189-200 | For two models the marker lags from the first rename to the last. |
| ProjectionExample.MarkerLags | src/runner-service/hermes-projection.ts:189-200 | Two specs, an empty home and a library for which it does. |
| HermesProjection.HermesHome.StageAtomicWrite | src/runner-service/hermes-projection.ts:631-673 | A staged file is new, has a name the pruning step does not know, and holds the whole content; a failure adds at most one file and touches no other. |
| HermesProjection.HermesHome.RenameAll | src/runner-service/hermes-projection.ts:189-197 | Any failure or crash leaves some prefix of the four files new; success leaves all of them new and no staged file. |
| HermesProjection.HermesHome.Project | src/runner-service/hermes-projection.ts:132-216 | The disk is always as after some number of renames. Done means all four, with environment, soul and revision spelled out, and the obsolete temporary files pruned; a failure whose removals work leaves no staged file of its own; earlier staged files stay. |
| HermesProjection.ProjectedFiles | src/runner-service/hermes-projection.ts:132-187 | The four contents: the rendered config, the merged environment, the trimmed prompt and a line feed, and the marker of the revision. |
| HermesProjection.ContentsExactly | src/runner-service/hermes-projection.ts:132-171 | The contents are refused exactly for an oversized config, a native spec without one, or what the merge or the rewrite refuses. |
| HermesProjection.LeftBehind | src/runner-service/hermes-projection.ts:631-673 | A run in which a crashed attempt's staged file is still there when a later projection has succeeded and pruned. |
| BootFixtures.RunStaysCovered | src/runner-service/boot-self-test.ts:597-700 | Over every run with crashes anywhere, in which nobody sweeps the directory a launch is at work for, every fixture resource is named by a complete descriptor on disk. |
| BootFixtures.FirstBootStaysCovered | src/runner-service/boot-self-test.ts:597-700 | In particular from the first boot on. |
| BootFixtures.StepKeepsInv | src/runner-service/boot-self-test.ts:597-899 | Each such step of launch, sweep, crash, discarding or other people's containers keeps it, also while a launch and a sweep are under way together. |
| BootFixtures.SweepSafeExactly | src/runner-service/boot-self-test.ts:311-338 | While a timed-out launch still works, everything stays named in every continuation if and only if no sweep is of its own directory. |
| BootFixtures.OrderIsExact | src/runner-service/boot-self-test.ts:1048-1059 | An event is harmless for every continuation if and only if the order allows it. |
| BootFixtures.DeadlineLeaks | src/runner-service/boot-self-test.ts:311-338 | A whole run from the first boot, in which the agent's container appears after the recovery has looked for agents, and after which that container is left and no descriptor. |
| BootFixtures.BootHost.RemoveExact | src/runner-service/boot-self-test.ts:813-899 | Success means that nothing labelled is left that the fixture names; only labelled resources go. |
| BootFixtures.BootHost.RecoverFixtures | src/runner-service/boot-self-test.ts:784-811 | The recovery is a run of the state machine, so that a pass cut short keeps the coverage; a complete pass removes every fixture resource and every complete descriptor; broken descriptors and unlabelled resources stay. A pass is complete when no command fails and none but the fixtures' own containers is in their networks. |
| BootVerdict.BootRun.RunCanary | src/runner-service/boot-self-test.ts:354-378 | The canary runs at most as often as its attempts, and once for attempts that are no positive number. |
| BootVerdict.BootRun.RunChecks | src/runner-service/boot-self-test.ts:206-310 | Without an exception every check of the resolved mode has passed. |
| BootVerdict.BootRun.Conclude | src/runner-service/boot-self-test.ts:311-351 | The verdict: ready exactly without a reason, failed only with a failed check, cleanup passed exactly when its operations were fine; readable unless an error that blames Telegram ended attested checks. |
| BootVerdict.BootRun.Execute | src/runner-service/boot-self-test.ts:164-352 | For every behaviour of executor, disk and clock, a run whose snapshots can be saved ends ready if and only if everything its mode asks for goes well, the canary included and the fixtures cleaned up; otherwise its reason is that of the first thing that went wrong. Canary runs are bounded, and the final snapshot is readable if and only if the setting is not attested or the first error does not blame Telegram. |
| BootVerdict.NoTroubleMeans | src/runner-service/boot-self-test.ts:164-400 | Nothing goes wrong, in the order the steps are taken, exactly when all goes well. |
| BootVerdict.AcceptedIsConsistent | src/runner-service/runner-contracts.ts:293-423 | Every snapshot that can be read is consistent: reason, time of completion and checks go together, nothing but the canary is skipped, ready means everything of its mode was checked. |
| BootVerdict.SettingsMean | src/runner-service/boot-validation.ts:56-62 | The settings of the validation mode, with any blanks around them. |
| BootVerdict.LateReadyRun | src/runner-service/boot-self-test.ts:311-351 | A run that ends ready although its deadline passed, while its last snapshots were saved. |
| BootVerdict.BootRun.Report | src/runner-service/boot-self-test.ts:128-135 | The controller reports a finished test as under way exactly in that case, and always reports the verdict when only the fixture launch blames Telegram. |
| BootVerdict.UnreadableRun | src/runner-service/runner-contracts.ts:357-368 | A run in attested mode that ends so. |
| SetupSessions.StepKeepsInv | src/runner-service/hermes-setup-sessions.ts:123-427 | Every event keeps what is known of grants, spawns and removals. |
| SetupSessions.EverySessionOnce | src/runner-service/hermes-setup-sessions.ts:174-198 | Over any run a session grants at most one upgrade, only with its own token and before expiry, spawns at most once, and is removed exactly once when it is gone. |
| SetupSessions.UpgradeMeans | src/runner-service/hermes-setup-sessions.ts:174-198 | After the pruning the model grants exactly what the history allows. |
| SetupSessions.AcceptsMeans | src/runner-service/hermes-setup-sessions.ts:200-244 | A socket is taken exactly for a live, unexpired session that has none. |
| SetupSessions.RunKeepsOne | src/runner-service/hermes-setup-sessions.ts:123-172 | While creates do not overlap, at most one session is unexpired, and none while a create is between its check and its end. |
| SetupSessions.NeverTwoUnexpired | src/runner-service/hermes-setup-sessions.ts:123-172 | From a new manager two unexpired sessions are one. |
| SetupSessions.CommitSafeExactly | src/runner-service/hermes-setup-sessions.ts:126-164 | Registering a session keeps at most one unexpired if and only if none is unexpired at that moment. |
| SetupSessions.OverlappingCreates | src/runner-service/hermes-setup-sessions.ts:123-172 | Two overlapping creates register two unexpired sessions. |
| SetupSessions.SetupSessionManager.Cleanup | src/runner-service/hermes-setup-sessions.ts:392-418 | Forgets the session before removing its container, so that no second cleanup finds it. |
| SetupSessions.SetupSessionManager.PruneExpired | src/runner-service/hermes-setup-sessions.ts:420-427 | Cleans up exactly the expired sessions. |
| SetupSessions.SetupSessionManager.CreatePrune | src/runner-service/hermes-setup-sessions.ts:123-124 | The first part of create is its pruning event. |
| SetupSessions.SetupSessionManager.CreateCheck | src/runner-service/hermes-setup-sessions.ts:126-128 | The second part of create, its check, is the check event. |
| SetupSessions.SetupSessionManager.CreateCommit | src/runner-service/hermes-setup-sessions.ts:143-164 | The last part is its registration. |
| SetupSessions.SetupSessionManager.AuthorizeUpgrade | src/runner-service/hermes-setup-sessions.ts:174-198 | Over the history: granted if and only if the path names a session that was created and not removed, none was granted for it, it has not expired, and the token's hash is its own; the grant is then recorded. |
| SetupSessions.SetupSessionManager.Open | src/runner-service/hermes-setup-sessions.ts:200-244 | The socket is taken, and the process spawned, exactly for a live session before its expiry and for the first time, also when the spawn or a message throws. |
| SetupSessions.SetupSessionManager.Message | src/runner-service/hermes-setup-sessions.ts:246-290 | Passes a message on exactly to a running process of a live session. |
| SetupSessions.SetupSessionManager.Close | src/runner-service/hermes-setup-sessions.ts:292-294 | Afterwards the session is gone, and it was removed once. |
| SetupSessions.SetupSessionManager.Finish | src/runner-service/hermes-setup-sessions.ts:342-367 | The same for a finished process, without a kill. |
| SetupSessions.SetupSessionManager.Expire | src/runner-service/hermes-setup-sessions.ts:369-390 | The same for the timer. |
| HistoryScan.AddUnseen | scripts/check-founder-product-contract-candidate-history.ts:65-70 | A page's ids are added exactly when none was seen before. |
| HistoryScan.Scan.Request | scripts/check-founder-product-contract-candidate-history.ts:38-48 | No request beyond the thousandth is sent. |
| HistoryScan.Scan.ScanSuites | scripts/check-founder-product-contract-candidate-history.ts:49-79 | Against an honest server the first loop succeeds exactly when ids, pages and requests allow it, and then returns every suite. |
| HistoryScan.Scan.ScanRuns | scripts/check-founder-product-contract-candidate-history.ts:82-121 | The same for the runs of one suite, of which it keeps the exact candidate's. |
| HistoryScan.Scan.ScanAllRuns | scripts/check-founder-product-contract-candidate-history.ts:81-121 | The same for the runs of all suites together. |
| HistoryScan.Scan.CheckOrigins | scripts/check-founder-product-contract-candidate-history.ts:131-153 | For any server: success means that every control was answered for; for an honest one it succeeds exactly when every origin fits and can still be asked for. |
| HistoryScan.Scan.Verify | scripts/check-founder-product-contract-candidate-history.ts:21-155 | At most a thousand requests for any server; for an honest one success if and only if the history is readable and clean, with the number of matching controls. |
| HistoryScan.CleanMeansEveryRun | scripts/check-founder-product-contract-candidate-history.ts:123-154 | A history is clean if and only if it is within the limits and each single run of the candidate, in each suite, is complete, successful and accounted for by its own workflow run. |
| HistoryScan.LargeHistoriesAreRefused | scripts/check-founder-product-contract-candidate-history.ts:8-9 | A thousand suites are too many for the request limit. |
| ProviderQualification.Evaluate | scripts/create-founder-production-provider-qualification.ts:153-241 | Gives exactly the reasons of its table for what is wrong, and so none exactly when all three qualifications hold for this candidate and the authorized targets, on evidence of their own. |
| ReleaseDecision.StudyReasons | scripts/create-founder-general-release-decision.ts:405-439 | No reason exactly when the study holds, and otherwise each of its table that applies. |
| ReleaseDecision.OperationsReasons | scripts/create-founder-general-release-decision.ts:441-471 | The same for the operational evidence. |
| ReleaseDecision.ReviewReasons | scripts/create-founder-general-release-decision.ts:473-498 | The same for both attended reviews, and no reason twice. |
| ReleaseDecision.ProviderReasons | scripts/create-founder-general-release-decision.ts:500-540 | The same for the providers, their times and the independence of their evidence. |
| ReleaseDecision.GroupsAreIndependent | scripts/create-founder-general-release-decision.ts:553-599 | Independence of all digests implies independence of the smaller groups the builder also tests. |
| ReleaseDecision.Build | scripts/create-founder-general-release-decision.ts:381-675 | Approved if and only if every gate holds, where a date that cannot be read makes every comparison false; otherwise denied for exactly what the tables of the gates list as wrong. |
| ReleaseMeaning.ApprovedExactly | scripts/create-founder-general-release-decision.ts:381-675 | All gates hold if and only if there are two clean reviews and everything else, field by field, is convincing, with twenty different digests. |
| ReleaseMeaning.ReviewFound | scripts/create-founder-general-release-decision.ts:683-722 | The review under an id is the first record of the first invariant with that id, if it is clean and independent. |
| ReleaseMeaning.EachProviderIsNamed | scripts/create-founder-general-release-decision.ts:506-533 | Each provider's reasons carry its own name. |
| ReleaseMeaning.EachKindIsNamed | scripts/create-founder-general-release-decision.ts:463-467 | Each kind of operational evidence has the reason of its own name. |
| ReleaseDecision.ApprovalIsTimely | scripts/create-founder-general-release-decision.ts:405-541 | An approval means that all evidence is in time if and only if all its dates can be read. |
| DecisionAuthority.SameManifestIsReordering | scripts/founder-general-release-decision-authority.ts:142-147 | The manifest test accepts exactly the reorderings of the manifest. |
| AuthorityMeaning.ApprovesExactly | scripts/founder-general-release-decision-authority.ts:51-125 | For any artifact at all: approved exactly when it is sealed by its own hash, runs here, is in force, and carries one digest for each key, all different from each other and from its own. |
| AuthorityMeaning.ApprovalSays | scripts/founder-general-release-decision-authority.ts:106-125 | The approval gives back the revisions that run here and the digests in the order of their keys. |
| AuthorityMeaning.RefusalsMean | scripts/founder-general-release-decision-authority.ts:51-125 | What each refusal says about the artifact and the environment. |
| DecisionAuthority.WellFormedExactly | scripts/founder-general-release-decision-authority.ts:64-80 | An approved artifact is well formed to the authority if and only if the product contract's digests are digests. |
| DecisionAuthority.ApprovedExactlyInWindow | scripts/founder-general-release-decision-authority.ts:51-125 | It is approved exactly from its decision up to but excluding its expiry, in exactly the environments it names, given those digests. |
| DecisionAuthority.BuiltApprovalHolds | scripts/create-founder-product-contract-evidence.ts:255-354 | For a contract made by its own builder the approval holds exactly in its window and environments, and all evidence is in time. |
| DecisionAuthority.TimelyExactlyWhenReviewsDated | scripts/create-founder-general-release-decision.ts:683-722 | For any other contract the evidence is in time if and only if both review dates can be read. |
| DecisionExample.UndatedReviewIsApproved | scripts/create-founder-general-release-decision.ts:485-496 | A parsed input that is approved with a review of no readable date. |
| DecisionExample.ApprovedExactlyWithDigest | scripts/founder-general-release-decision-authority.ts:64-80 | An input the builder approves and the authority, at the moment of the decision, if and only if the contract's digest is one. |
| DecisionAuthority.WindowIsShort | scripts/create-founder-general-release-decision.ts:451-462 | That window is not empty and not longer than eight days. |
| DecisionAuthority.DeniedNeverApproved | scripts/founder-general-release-decision-authority.ts:86-88 | A decision with a failed gate is approved nowhere and never. |
| DecisionAuthority.ChangedIsRefused | scripts/founder-general-release-decision-authority.ts:81-85 | A payload changed after its digest was taken is refused. |
| StagingDriver.EachIsProper | scripts/verify-hermes-staging.ts:396-505 | In a log of the driver, read by its positions, every command is addressed to the run that the reply before it showed, and an attestation stands directly behind the confirmation of the challenge that run asked for. |
| StagingDriver.Driver.Confirm | scripts/verify-hermes-staging.ts:426-468 | An attestation directly follows the confirmation of the challenge the current run asks for. |
| StagingDriver.Driver.RequestAndDrainCleanup | scripts/verify-hermes-staging.ts:530-558 | Exactly one cleanup request, addressed to the run known last, and then only reads and advances of runs that are being cleaned up, until one is completed or stops answering. |
| StagingDriver.Driver.Verify | scripts/verify-hermes-staging.ts:396-505 | A run is accepted if and only if it comes back completed in one of the rounds and before a signal; exit code 0 exactly for an accepted successful run; otherwise exactly one cleanup request once a run was begun; every command proper; at most 2 + 4 times the iterations many. |
| StagingDriver.SuccessMeans | scripts/verify-hermes-staging.ts:719-732 | A successful run has all nine checks true, nothing left present and its secrets revoked. |
| StagingDriver.LateCompletion | scripts/verify-hermes-staging.ts:410-421 | A run that comes back complete and successful in the only round is cleaned up, with exit code 1; with two rounds the exit code is 0. |
| StagingDriver.ReadResponseBytes | scripts/verify-hermes-staging.ts:925-964 | Gives the whole body exactly when it is within the limit. |
| EnvQuoting.FourPassesAreOne | src/runner-service/bootstrap.ts:236-238 | The four successive replacements equal one pass. |
| EnvQuoting.OrderMatters | src/runner-service/bootstrap.ts:236-238 | Replacing quotes before backslashes differs exactly when there is a quote. |
| EnvQuoting.QuotedReadsBack | src/runner-service/bootstrap.ts:236-238 | A shell reads the quoted value back, whatever it holds and whatever follows. |
| EnvQuoting.BuildPersistedEnv | src/runner-service/bootstrap.ts:187-230 | The file holds the required settings and the optional ones that are present, in order. |
| EnvQuoting.FileReadsBack | src/runner-service/bootstrap.ts:187-234 | A shell reads the whole file back: the same settings, values and order. |

## Left out

- The legacy launch path (`startLegacy`, `restart` without a spec): it takes no lock.
- The Docker CLI, HTTP probes, health classification, logs and canaries: Docker is a finite map of containers; a command's effect is settled before the next one, and nothing else changes labelled containers.
- Timers and promises: a deadline or a cancellation is an event that may happen between any two steps; `runLaunchStep` and `withLaunchDeadline` are not modelled apart from that.
- Random container names, session ids and Docker ids are taken to be new.
- The detection of secrets in an inspect record and the exact-instant test are function parameters; resource limits are numbers already.
- `localeCompare` is taken to be the order of character codes, which it is on the timestamps and hexadecimal ids compared; upper-casing is ASCII.
- Strings are sequences of Unicode scalar values: unpaired surrogates do not occur, and a JSON escape for one reads as no key.
- The YAML library, JSON, SHA-256 and the byte length of a config are parameters, with the round trip, injectivity or freshness each lemma asks for; whether a key name or a text looks like a secret is a parameter too.
- Symbolic links, ownership, file modes and hard links in the projection.
- ConfigRecords.PlainRecord.SetPath: the cursor loop is written as recursion on the record below the first key, which is the cursor's next position.
- AgentLock.PromiseLocks.Proceed: waiting itself is the precondition that the predecessor has settled.
- LaunchAcceptance.AcceptHermesLaunch: the text of the accepted snapshot (phase, health fields) is not modelled.
- LaunchAcceptance.LaunchManaged: which commands fail and when the launch is ended are functions of a clock that counts its commands, so that an end between two commands shows at the next one.
- LaunchProgress.CanAlwaysSucceed: says that a stop or cleanup can succeed whatever has happened, not that every fair schedule lets it.
- CreatedContainers.MadePassesExactly: Docker's defaults (no published ports, no retries counted) belong to the model, its reading of the limits is taken to be the service's, and a path with a comma, which a mount option cannot hold, is excluded.
- BootFixtures.BootHost.RecoverFixtures: no container starts or stops in a network while a recovery runs, which the state machine allows; listings in one stage are removed one after the other, not in parallel; directory names that are no identifiers are skipped by the source and do not occur in the model.
- BootVerdict.BootRun.Execute: snapshots are typed values, so that the parser's tests of JSON shapes do not appear; timestamps and digest shapes are parameters.
- SetupSessions: clock readings do not decrease, and what happens on a socket beyond its being taken is not recorded.
- HistoryScan: response parsing is reduced to usable or not; the workflow path, the control name and the run id of a details link are functions of the candidate.
- StagingDriver: capability checks, the parsing of remote replies and the derivation of the attestation token are parameters.
- DecisionAuthority.BuiltApprovalHolds: the builder of the product contract is not modelled; what it checks of reviews and digests is the hypothesis `ContractBuilt`.
- ReleaseDecision.Build: the fields of the artifact that the authority does not read are kept as the input they come from.
- DecisionAuthority: a variable that parses to a value of another shape counts as unreadable, which the source answers with the same refusal.
- Pages, API routes, database, smoke, benchmark and publish scripts.
