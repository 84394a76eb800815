# Verified model of the pulse engine

The repository runs autonomous work in short "pulses" started by a scheduler. A pulse can be killed at any instant, and a
later one resumes from what was saved. This project models the parts whose correctness depends on that, together with three
self-contained machines of the same repository, and proves what they promise.

- `SideEffects`, `Markers`, `GitHub`: side effects with a ledger and a marker on GitHub. One step is one ledger check, listing,
  request, record or save; a crash may fall between any two. How many comments a key can get, exactly, and what an answer is worth.
- `Orchestrate`, `Remediation`: the plan, execute, verify, remediate loop with a checkpoint at each boundary. The scheduler, the
  planner and the judge may answer anything their contracts allow.
- `Checkpointer`: commits of the state directory pushed to a branch that other jobs push to as well. Trees are maps from path to
  blob, a push is accepted when it extends the branch, and any number of jobs interleave.
- `Lifecycle`, `IssueSync`, `Dispatch`: the list of tasks, its status table, intake with de-duplication, commands from comments
  behind a cursor, and the operator's control actions.
- `Gev`: the controller of the embedded globe, an asynchronous machine with generation numbers, timers and calls in flight that
  fire in any order.
- `JsonRepair`: the balanced-brace scanner, the trailing-comma repair and the search over opening braces, against JSON texts as RFC
  8259 defines them.
- `EventStream`: the loop that reads a chat answer as server-sent events from arbitrary chunks.
- `PulseGaps`, `TaskYaml`: the nearest-rank statistics of pulse gaps, and the quoted and block scalars of the issue block.
- `Text`: strings, white space, trimming and lines, used by the others.

Where the code changes state, the model does too: a class with the same fields, and methods with the same branches whose
contracts say that the new state is the one a specification function gives. Theorems are about those functions and about whole
runs. Where a machine is stated over small steps, each method carries a ghost list of the steps it took and ensures that running
them from the old state gives the new one, so that a crash inside the method is a run that stops early. What the outside answers
is a parameter: the `Env` of a pulse (steps, scheduler, judge, drain signal) and the `Weather` of a push (pull, server, gate,
others' pushes). The events of a method are then an exact function of the state and these answers.

Where the code and its own comments or intentions differ, the model follows the code and states the difference:

- `src/engine/sideEffects.js:34-48`: the comment says a suppressed effect is recorded; it is not, and the next
  unsuppressed pulse fires it unless it looks at GitHub and finds the marker; without the flag and with an empty ledger it does not
  look (`SuppressedFiresLater`, `SuppressionIsForgotten`).
- `src/engine/orchestrate.js:236`: the first half of the test can never be true there (`PhaseTestIsDead`).
- `src/engine/orchestrate.js:119`: a parked plan is saved without a change of phase; of all parks only those at a step leave the
  phase executing (`ResultsAreHonest`).
- `src/engine/checkpointer.js:133-141`: deletions made on purpose are not found, because they were committed before; the conflict
  path brings such a file back exactly when the remote has it (`DeletionSurvivesIff`, `DeletedFileComesBack`).
- `src/engine/checkpointer.js:14-19`: a file this pulse wrote wins a conflict, and so does its stale copy of a file that it did not
  write, which undoes another job's update (`StaleCopyIff`, `StaleCopyOverwrites`).
- `dashboard/lib/gev.ts:290-299`: the reload limit leaves the generation as it is, so a call in flight continues
  (`LimitStopsIff`, `LimitOvertaken`).
- `src/issueSync.js:111-122`: known ids are collected once, before the loop (`IdsStayUniqueIff`).
- `src/issueSync.js:259-269`: issue listing and comment listing are two requests; handling is exactly
  once if and only if no comment falls between them (`HandledOnceIff`, `TwoPulsesHandleTwice`).
- `src/issueSync.js:373-394`: manual dispatch does not look for duplicates (`ManualKeepsRulesIff`).
- `src/lib/jsonRepair.js:94-107`: an unclosed brace ends the search before later balanced objects (`UnclosedBraceHidesTheRest`).

`dafny verify dfyconfig.toml` checks the whole project.

## Model

| member | source | states |
|---|---|---|
| `Markers.MarkerIsExact` | src/engine/sideEffects.js:14-19 | For keys without a space, a posted text carries the marker of a key exactly when its body already did or it was posted under that very key. |
| `Markers.MarkerOfAnyKey` | src/engine/sideEffects.js:14-19 | For every key without a line break, spaces or not: a posted text carries the marker of a key exactly when its body already did or the marker of the key it was posted under holds it. |
| `Markers.SpacedKeyForgesMarker` | src/engine/sideEffects.js:16-19 | A concrete key with a space whose posted text carries another key's marker, so the restriction is needed. |
| `GitHub.CommentsAfterPost` | src/fakes/fakeGitHub.js:95-105 | Posting appends one comment, with its body and number, to the named issue, leaves the comments of every other issue alone, and does nothing for an unknown issue. |
| `GitHub.CommentsAfterClose` | src/fakes/fakeGitHub.js:107-116 | Closing changes no comment of any issue. |
| `GitHub.OpenAfterPost` | src/fakes/fakeGitHub.js:95-105 | Posting opens and closes no issue, and moves the update time of the named issue, and of no other, to that of the comment. |
| `GitHub.OpenAfterClose` | src/fakes/fakeGitHub.js:107-116 | After a close the named issue is not open, every other is as it was, and the update time moves. |
| `GitHub.FakeGitHub.CommentOnIssue` | src/fakes/fakeGitHub.js:95-105 | The new list of issues is the old one with the comment added; the effects run so far are kept. |
| `GitHub.FakeGitHub.ListIssueComments` | src/fakes/fakeGitHub.js:87-93 | Exactly the comments of the issue created at or after `since`, in order, and none for an unknown issue. |
| `GitHub.FakeGitHub.CloseIssue` | src/fakes/fakeGitHub.js:107-116 | The new list of issues is the old one with that issue closed. |
| `SideEffects.CommentsBounded` | src/engine/sideEffects.js:67-98 | Over every run, with a crash allowed between any two steps: comments with the key's marker number at most one plus the lost traces (crash or lost acknowledgement while the saved ledger is empty) plus the listings that failed before a post. |
| `SideEffects.BoundIsReached` | src/engine/sideEffects.js:75-87 | For every n there is a run with n such crashes and n + 1 comments: the bound is exact. |
| `SideEffects.AtMostOneComment` | src/engine/sideEffects.js:67-98 | When every restart after the first makes the engine look at GitHub first and listings succeed, at most one comment with the marker is ever posted, whatever the crashes and lost replies; a blind process that lost the reply must only not be asked for the same key again before it looks. |
| `SideEffects.AnswersAreTrue` | src/engine/sideEffects.js:67-88 | In every run from a fresh start, an answer posted, skipped-ledger or skipped-remote under the key means that the comment is on the issue exactly when the issue exists. |
| `SideEffects.UnknownIssueIsAnsweredPosted` | src/engine/sideEffects.js:83-87 | Posting to a number that GitHub does not know is answered posted although no comment exists. |
| `SideEffects.MarkedNeverFalls` | src/engine/sideEffects.js:83 | No step of the engine or of anyone else takes a marked comment away. |
| `SideEffects.OnceBounded` | src/engine/sideEffects.js:125-139 | A custom effect, which cannot be looked up, runs at most once plus the number of times it was forgotten before it reached the disk. |
| `SideEffects.RanMeansRan` | src/engine/sideEffects.js:125-139 | In every run whose only effect under the key is a custom one, an answer that it ran, or was skipped as recorded, means that it ran at least once. |
| `SideEffects.ClosedMeansClosed` | src/engine/sideEffects.js:104-116 | In every run whose only effect under the key is closing that issue, an answer closed or skipped-ledger means that the issue is not open. |
| `SideEffects.NothingReopens` | src/engine/sideEffects.js:111 | No step opens a closed issue, and a close request that takes effect leaves its issue closed. |
| `SideEffects.OneCallTells` | src/engine/sideEffects.js:67-139 | A call without a fault gives one answer under its key; it says fired exactly when the one counter moves, skipped exactly when the other does, names the kind of effect, and leaves the key on record when it says so. |
| `SideEffects.SuppressedFiresLater` | src/engine/sideEffects.js:34-48 | A suppressed effect leaves no trace in any ledger; the next unsuppressed pulse fires it exactly when it does not find the marker, which it looks for only with the flag set or a non-empty ledger, and only for comments. The comment above the field promises that it never fires. |
| `SideEffects.SuppressionIsForgotten` | src/engine/sideEffects.js:34-48 | The same over every stretch of suppressed pulses: the next unsuppressed pulse fires an effect exactly when it is targeted, was not in the ledger before the stretch, is not found on GitHub, and its request lands. |
| `SideEffects.StepsAreUninterrupted` | src/engine/sideEffects.js:54-139 | The small steps of one call, run back to back, are one state change: the link between the machine and the methods. |
| `SideEffects.SideEffectLedger.constructor` | src/engine/sideEffects.js:25-42 | A pulse starts from the ledger that the last save left, with both counters at zero. |
| `SideEffects.SideEffectLedger.RecordKey` | src/engine/sideEffects.js:54-58 | The key is in the memory ledger whether or not the save succeeds; the file holds the ledger exactly when it does. |
| `SideEffects.SideEffectLedger.RemoteHas` | src/engine/sideEffects.js:90-98 | True exactly when the listing succeeds and some comment of the issue contains the marker; a failed listing counts as absent. |
| `SideEffects.SideEffectLedger.Comment` | src/engine/sideEffects.js:67-88 | Ends in the state that the machine reaches by the call's steps, with the answer on record; an exception gives no answer. |
| `SideEffects.SideEffectLedger.Post` | src/engine/sideEffects.js:83-87 | The request, the counter, the record and the save, in that order, for each way the request can end. |
| `SideEffects.SideEffectLedger.CloseIssue` | src/engine/sideEffects.js:104-116 | Ends in the state that the machine reaches by the call's steps, the issue included, with the answer on record; there is no look at GitHub. |
| `SideEffects.SideEffectLedger.Once` | src/engine/sideEffects.js:125-139 | As for comments, without the look at GitHub; a key already recorded never runs the effect again. |
| `Remediation.RemediationTargets` | src/engine/orchestrate.js:290-307 | The growing loop terminates and returns exactly the steps that are a seed or reachable downstream of one, on cyclic graphs too. |
| `Remediation.Seeds` | src/engine/orchestrate.js:291-294 | The seeds are steps of the graph, and there is one whenever the graph has a step. |
| `Remediation.SeedsAre` | src/engine/orchestrate.js:292-294 | A step is a seed exactly when an issue names it; if no issue names a step, when it writes code; if none does, always. |
| `Remediation.TargetSet` | src/engine/orchestrate.js:290-307 | The result holds the seeds and is closed downstream. |
| `Remediation.DownstreamIsLeast` | src/engine/orchestrate.js:295-305 | Everything downstream of the seeds lies in every downstream-closed set that holds them: the result is the least such set. |
| `Remediation.OrderIndependent` | src/engine/orchestrate.js:298-304 | Two graphs with the same steps, in any order and with any repetition, have the same seeds, and what is downstream of them in one is so in the other. |
| `Orchestrate.InvRun` | src/engine/orchestrate.js:96-280 | The invariant of the engine (what is durable, how rounds are paid for, what a verdict implies) holds after every run of pulses and crashes. |
| `Orchestrate.RoundsAreDurable` | src/engine/orchestrate.js:194-272 | Over every run with crashes: the saved round never decreases and never exceeds the limit; one pulse runs the scheduler at most limit - start + 1 times; each judge call is paid for by a pulse or a saved round; while steps run, the round they run under is already saved. |
| `Orchestrate.PassIsFinal` | src/engine/orchestrate.js:233-278 | Once a pass is saved, no later pulse calls the judge, starts a round or loses the pass, although a drained or parked resume moves the phase back. |
| `Orchestrate.ResultsAreHonest` | src/engine/orchestrate.js:104-278 | Each way a pulse ends says what happened and what is on disk: ok only with every step complete, a passing verdict for the current round and phase verified; drained only with a step left to run and phase executing; parked at a step only with every step ended and one parked, phase executing; parked at the plan with no graph; a failed verification only at the limit or when draining. |
| `Orchestrate.UnplannedRun` | src/engine/orchestrate.js:113-133 | In every run a checkpoint without a graph has phase planned or delivering. |
| `Orchestrate.FinishedWorkIsKept` | src/engine/orchestrate.js:173-189 | A step saved as complete keeps its saved entry through every crash and later pulse, until a failed verification sends that very step back. |
| `Orchestrate.EndedStepIsSaved` | src/engine/orchestrate.js:40-50 | When a step ends, its saved entry has its state and attempts and an output exactly when it has one: the whole of it up to 16000 characters, else its first 16000. Nothing else in the checkpoint moves. |
| `Orchestrate.ScheduledStepsAreSaved` | src/engine/orchestrate.js:222-224 | The same for every entry of the scheduler when it is done without draining. |
| `Orchestrate.PlanIsSaved` | src/engine/orchestrate.js:127-133 | The graph that the decomposer gave is the one on the disk. |
| `Orchestrate.PlanIsKept` | src/engine/orchestrate.js:106 | Once saved, a plan is never made again: through every crash and later pulse the disk holds the same steps with the same dependencies, whatever feedback they carry. |
| `Orchestrate.RemediationIsConsistent` | src/engine/orchestrate.js:257-267 | Sending back deletes exactly the targets' entries, leaves no kept entry that depends directly or transitively on a deleted step, and marks the targets, and only them, with the feedback. |
| `Orchestrate.PhaseTestIsDead` | src/engine/orchestrate.js:222-236 | In every reachable state the test `cp.phase === 'verified'` is false where it is made: the phase was just set to executed. |
| `Orchestrate.CheckpointRecord.TakeSnapshots` | src/engine/orchestrate.js:223 | Every scheduler entry is copied over the saved one; the others stay. |
| `Orchestrate.CheckpointRecord.SendBack` | src/engine/orchestrate.js:261-265 | Exactly the targets' entries are deleted and exactly the targets get the hint, step by step in the loop. |
| `Orchestrate.CheckpointFile.Write` | src/engine/orchestrate.js:133 | The file holds the whole checkpoint as it is in memory. |
| `Orchestrate.Orchestration.Plan` | src/engine/orchestrate.js:104-134 | For each answer of the decomposer, the one step of the machine: a saved graph, a saved park without a change of phase, or an exception. |
| `Orchestrate.Orchestration.RunScheduler` | src/engine/orchestrate.js:140-196 | Exactly the legal ended steps of this round, each saved at once, in order; then the scheduler's answer where its contract allows it. |
| `Orchestrate.Orchestration.AfterScheduler` | src/engine/orchestrate.js:198-232 | One step of the machine; going on means that nothing drained and nothing parked. |
| `Orchestrate.Orchestration.ReviewRun` | src/engine/orchestrate.js:233-253 | Exactly the steps that the state calls for: failed step, saved pass reused, or one judge call after a checkpoint with phase verifying. |
| `Orchestrate.Orchestration.Act` | src/engine/orchestrate.js:255-278 | One deciding step of the machine, given whether the pulse drains; going on means that the round went up by one and is within the limit. |
| `Orchestrate.Orchestration.RunRound` | src/engine/orchestrate.js:194-278 | One round takes exactly the events that its state and the answers of this round determine. |
| `Orchestrate.Orchestration.RunOrchestration` | src/engine/orchestrate.js:96-280 | The same from any state a run can reach: the pulse terminates in a reachable state, and ok means a saved pass with every step complete. |
| `Orchestrate.Orchestration.RunPulse` | src/engine/orchestrate.js:96-280 | For every scheduler, judge, decomposer and drain signal: one pulse, planning included, takes exactly the events they determine and ends with the result it reports, so all results about runs hold of the program, with a crash being a run cut short. |
| `Checkpointer.MergeByPath` | src/engine/checkpointer.js:125-149 | Per path: outside the state directory the remote's; inside, the disk's if on disk, absent if staged as removed, else the remote's. |
| `Checkpointer.ReapplySyncs` | src/engine/checkpointer.js:144-152 | Afterwards the working state directory equals the new tip's, HEAD, index and disk agree, nothing else on disk moved, and the new tip is the remote tip or one commit on it. |
| `Checkpointer.ReapplyIsIdempotent` | src/engine/checkpointer.js:125-157 | Merging again on the tip just made changes nothing and makes no new commit. |
| `Checkpointer.CommitAgrees` | src/engine/checkpointer.js:74-77 | After the commit HEAD, index and disk agree under the state directory. |
| `Checkpointer.CommitIff` | src/engine/checkpointer.js:72-85 | A checkpoint commits exactly when the state directory on disk differs from HEAD, only state paths are staged, and the gate finds nothing; the commit has HEAD as its parent, and its tree is the disk under the state directory and the old index elsewhere. |
| `Checkpointer.NothingIsRemoved` | src/engine/checkpointer.js:138-142 | In the flow of `checkpoint()` the set of staged removals is empty and the merge is the remote overlaid by the disk. |
| `Checkpointer.DeletionSurvivesIff` | src/engine/checkpointer.js:133-152 | In that flow a file the pulse deleted stays deleted exactly when the remote tip does not have it; otherwise it comes back, on the branch and on disk. |
| `Checkpointer.DeletedFileComesBack` | src/engine/checkpointer.js:72-152 | A run in which a committed deletion comes back through a failed rebase and the conflict push. |
| `Checkpointer.UnstagedDeletionIsKept` | src/engine/checkpointer.js:138-142 | A deletion that was not committed before the merge is kept, as the comment there intends. |
| `Checkpointer.InvRun` | src/engine/checkpointer.js:67-157 | The invariant of the many-job system holds after every interleaving of all jobs' commands, faults and outside pushes. |
| `Checkpointer.PushIsSafe` | src/engine/checkpointer.js:105 | Every accepted push extends the branch, stays under the state directory, and leaves every path the job does not claim as on the tip it lands on. |
| `Checkpointer.NoLostUpdate` | src/engine/checkpointer.js:67-157 | For any number of jobs in any interleaving: the branch only grows, and a path keeps its value until a job that claims it, or someone outside, pushes. After a conflict merge a job claims everything on its disk. |
| `Checkpointer.StaleCopyIff` | src/engine/checkpointer.js:138-149 | Of a state path that the job did not touch, the conflict merge keeps the remote's value exactly when the path was not in the job's base or the remote has not changed it since. |
| `Checkpointer.ConflictPushKeepsUntouchedIff` | src/engine/checkpointer.js:92-157 | The same end to end, for every accepted conflict push and anything others do before the gate and before the push. |
| `Checkpointer.StaleCopyOverwrites` | src/engine/checkpointer.js:138-149 | A run of two jobs in which an accepted conflict push undoes the other job's update of a file that the pushing job never wrote. |
| `Checkpointer.ConflictPushLands` | src/engine/checkpointer.js:105 | An accepted conflict push puts the merged commit on the very tip that was fetched before the merge. |
| `Checkpointer.CalmConflictLands` | src/engine/checkpointer.js:92-152 | When the pull fails for whatever reason but the server answers, the gate has nothing to object and nobody pushes in between, the try always ends on the branch. |
| `Checkpointer.MergePassesGate` | src/engine/checkpointer.js:125-149 | What the conflict merge changes on the remote tip lies under the state directory, so the gate never objects to its paths. |
| `Checkpointer.CodeIsUntouched` | src/engine/checkpointer.js:118-124 | With jobs as the only writers no path outside the state directory ever changes on the branch. |
| `Checkpointer.ConflictPushKeepsTheRest` | src/engine/checkpointer.js:103-106 | From the merge through anything others do before the gate and before the push, an accepted conflict push keeps on its tip the value of every path the job did not hold on disk. |
| `Checkpointer.OthersKeep` | src/engine/checkpointer.js:92-116 | What other jobs do never changes this job's repository or progress. |
| `Checkpointer.FallsBackIff` | src/engine/checkpointer.js:54-59 | For every way from the repository to the state directory, the test on the relative path turns git mode off exactly when the directory is not inside the repository or its first name starts with two dots. |
| `Checkpointer.Checkpointer.constructor` | src/engine/checkpointer.js:40-60 | Git mode falls back to none exactly on that test; the counters start at zero. |
| `Checkpointer.Checkpointer.Checkpoint` | src/engine/checkpointer.js:67-90 | Each skip exactly under its own condition on the old state: mode, rate limit, state directory as in HEAD, gate; otherwise the commit and exactly the events of the push. Counters, clock and result say which. |
| `Checkpointer.Checkpointer.CommitState` | src/engine/checkpointer.js:72-85 | Nothing changed, refused or committed, each exactly when; the new commit stands on the old HEAD with the disk under the state directory and the old index elsewhere; the disk never moves. |
| `Checkpointer.Checkpointer.PushWithRetry` | src/engine/checkpointer.js:92-116 | Exactly the events of up to three tries in the given weather; pushed exactly when one of them lands; one push counted on success, three failures on giving up; on success HEAD is on the branch. |
| `Checkpointer.Checkpointer.Attempt` | src/engine/checkpointer.js:94-112 | One try takes exactly the events that the weather determines and succeeds exactly when they land. |
| `Checkpointer.Checkpointer.Prepare` | src/engine/checkpointer.js:95-104 | A rebase with any legal result, or the conflict merge: exactly the events the weather determines, ending prepared or in the next try. |
| `Checkpointer.Checkpointer.ReapplyOnRemote` | src/engine/checkpointer.js:125-157 | The ordered commands on the temporary index, HEAD, index and working tree are the fetch and merge steps of the system. |
| `Checkpointer.Checkpointer.GatedPush` | src/reviewer/githubGate.js:119-153 | The fetch, the comparison and the push are exactly these events; accepted exactly when the gate is content and HEAD extends the branch as it is then, and HEAD is the tip afterwards. |
| `Gev.TokenInvariant` | dashboard/lib/gev.ts:233-383 | In every state any interleaving can reach: at most one current-generation check, mint or main timer; a running controller without one has ended as empty, unconfigured, rejected or reload-limited; a stopped one has none; no armed timer is forgotten; `src` is set exactly in phase ready. |
| `Gev.StaleAnswersChangeNothing` | dashboard/lib/gev.ts:318-369 | The answer to a call of an older generation changes nothing and starts nothing. |
| `Gev.StoppedIsQuiet` | dashboard/lib/gev.ts:263-267 | After `stop`, over every run until the next `start`, nothing is emitted, armed or called. |
| `Gev.FrameKeyCountsEntries` | dashboard/lib/gev.ts:335-345 | `frameKey` never decreases between starts and rises by exactly one on each entry to ready. |
| `Gev.LimitStopsIff` | dashboard/lib/gev.ts:290-299 | The reload limit stops the controller exactly when no call of the current generation is in flight, because it clears the timers but not the generation. |
| `Gev.LimitOvertaken` | dashboard/lib/gev.ts:290-299 | With a mint in flight the frame comes back after the limit was reported. |
| `Gev.LimitIsReachedAndOvertaken` | dashboard/lib/gev.ts:281-347 | A run from the start that gets there: two rejected links, a mint in flight, the limit shown, then the frame. |
| `Gev.NoTokenNoChange` | dashboard/lib/gev.ts:316-383 | Without a token no pending answer or timer can change what is shown. |
| `Gev.ViewIsSound` | dashboard/lib/gev.ts:251-383 | In every run the view shows what its phase says (an error its message, a working frame none, an empty page why, a missing configuration what), and what was last emitted is the view. |
| `Gev.DotTurnsAfterTwoMisses` | dashboard/lib/gev.ts:368-381 | Over every run of monitor checks on a frame just shown: unreachable exactly while at least the last two were missed, and nothing else of the view changes. |
| `Gev.ShownIsWatched` | dashboard/lib/gev.ts:335-348 | A frame just shown is reachable, has no missed check, and its monitor is armed: the state those runs start from. |
| `Gev.WakingIsCounted` | dashboard/lib/gev.ts:316-328 | A probe that is not answered well shows waking with one more attempt and arms the next probe after the delay of that count, or half a second after a timeout. |
| `Gev.RefusedLinkReloadsIff` | dashboard/lib/gev.ts:287-301 | A refused link starts a new generation exactly unless two automatic reloads lie inside the window already; then the page says why it stopped. |
| `Gev.NoticeOfSession` | dashboard/lib/gev.ts:281-285 | The notice about a blocked session appears with its message only, and always then; it stays until the frame starts over or is shown again. |
| `Gev.ReloadsAreRateLimited` | dashboard/lib/gev.ts:287-301 | With a clock that never goes back, any three consecutive automatic reloads of any run span at least the window, although the history is pruned in place and manual reloads come between. |
| `Gev.ClockSetBack` | dashboard/lib/gev.ts:289 | A run with a clock set back in which three reloads span no time: the condition is needed. |
| `Gev.RetryDelayGrows` | dashboard/lib/gev.ts:119-129 | Delays never shrink with the number of attempts and are at the ceiling exactly from the fifth on. |
| `Gev.GevController.Start` | dashboard/lib/gev.ts:251-261 | New generation; the view starts over, empty when there is no host; otherwise one health check is begun. |
| `Gev.GevController.Stop` | dashboard/lib/gev.ts:263-267 | New generation, both timers cleared. |
| `Gev.GevController.Reload` | dashboard/lib/gev.ts:270-278 | New generation, both timers cleared, frame removed, one health check; nothing at all when stopped or without a host. |
| `Gev.GevController.ReportMessage` | dashboard/lib/gev.ts:281-302 | Prunes the history, and reloads or reports the limit; nothing when stopped. |
| `Gev.GevController.ProbeResumes` | dashboard/lib/gev.ts:316-328 | An old generation's answer only leaves the set of calls; otherwise mint, or wait with the next delay armed. |
| `Gev.GevController.MintResumes` | dashboard/lib/gev.ts:330-363 | The four ends of a mint: shown and watched, rejected, unconfigured, or retried by timer. |
| `Gev.GevController.Show` | dashboard/lib/gev.ts:335-348 | The frame is shown, the monitor and the renewal timer are armed, `frameKey` goes up by one. |
| `Gev.GevController.MonitorResumes` | dashboard/lib/gev.ts:368-381 | Two missed checks in a row show as unreachable, one good one clears them, and the monitor is armed again. |
| `Gev.GevController.ScheduleMonitor` | dashboard/lib/gev.ts:365-383 | One main timer armed for this generation. |
| `Gev.GevController.TimerFires` | dashboard/lib/gev.ts:325-367 | A fired timer is disarmed and its callback starts the next call, or reloads. |
| `Lifecycle.CommandLaws` | src/issueSync.js:299-362 | For every command: a finished task leaves its status only by retry; a running one keeps it; an ignored command changes nothing; identity, key and cursor never change; every move is one the transition table allows, so `transition` never throws. |
| `Lifecycle.CommandEffects` | src/issueSync.js:299-362 | Both ways: exactly when each verb moves a task and where to, when a running task is asked instead, and what is recorded under which name. |
| `Lifecycle.DecisionLandsOnItsStep` | src/issueSync.js:343-358 | A decision is recorded under the step named, cut to 64 characters, or under `all`, and under no other; no other command touches one. |
| `Lifecycle.PriorityIsOneOfFour` | src/issueSync.js:336-342 | The priority is set exactly to one of the four words in any case, and stays with any other argument. |
| `Lifecycle.OutcomeTells` | src/issueSync.js:299-362 | Which outcome stands for which move or request, and that a command is ignored exactly when the task does not listen to it. |
| `Lifecycle.ResumeUndoesPause` | src/issueSync.js:320-335 | A resume gives back the paused task, except that a task that waited no longer does; the same task exactly when it was pending. |
| `Lifecycle.CommandKeepsOneLiveIff` | src/issueSync.js:302-309 | A command breaks the rule of one live task per key exactly when it is a retry of a finished task whose key another live task has. |
| `Lifecycle.TaskRecord.Transition` | src/task/lifecycle.js:77-128 | Refused, with nothing changed, exactly when the table does not allow the move or a wait has no known reason; otherwise status, stamps, reason and the record of the earlier life change as stated. |
| `Lifecycle.TaskRecord.ApplyCommand` | src/issueSync.js:299-362 | The record ends as, and the outcome is, what the command's specification says. |
| `IssueSync.FindDuplicate` | src/issueSync.js:81-89 | The answer blocks the key (live, or finished within the window and not cancelled), and no answer means that no task does. |
| `IssueSync.DuplicateWindow` | src/issueSync.js:81-89 | An issue is a duplicate of a task with its key that was not cancelled and that lives, or finished at most the window ago, the last instant included. |
| `IssueSync.IntakeKeepsOneLive` | src/issueSync.js:104-191 | No intake pass creates a second live task with the same key. |
| `IssueSync.IdsStayUniqueIff` | src/issueSync.js:111-122 | Ids stay unique exactly when no two eligible issues of the listing have the same number, since the set of known ids is not updated inside the loop. |
| `IssueSync.IntakeIds` | src/issueSync.js:117-188 | The ids after the pass are the old ones and those of the eligible issues. |
| `IssueSync.EachIssueHasOneFate` | src/issueSync.js:117-190 | Each issue is filed, live or as a duplicate, exactly when it is eligible, is ignored exactly when its unknown author is not authorized, and only filed ones add a task. |
| `IssueSync.IntakeFilesWell` | src/issueSync.js:153-188 | The pass changes no task it found, and each it adds is live or cancelled as a duplicate that names a task on the list. |
| `IssueSync.EachEligibleIsFiled` | src/issueSync.js:153-188 | For each eligible issue the pass adds a task with its number, key and priority, no attempts and no decisions, pending or cancelled now, whose cursor stands at the creation of the issue. |
| `IssueSync.ReportNamesThem` | src/issueSync.js:176-217 | The report names exactly the tasks filed as duplicates and the issues ignored, in the order of the listing. |
| `IssueSync.SecondPassAddsNothing` | src/issueSync.js:111-122 | A second pass over the same listing, at any later time, adds nothing. |
| `IssueSync.ReportAddsUp` | src/issueSync.js:112-216 | Added plus duplicates is exactly the growth of the list. |
| `IssueSync.ManualKeepsRulesIff` | src/issueSync.js:373-394 | A task dispatched by hand keeps one live task per key and unique ids exactly when no live task has its key and none was dispatched in the same millisecond. |
| `IssueSync.HandledOnceIff` | src/issueSync.js:239-285 | Over every sequence of pulses, closed in between or not, with issue and comments asked for one after the other: the command comments handled are exactly those after the starting cursor and up to the last examined update, each once, in posting order, if and only if none falls between an update seen and the listing then made. |
| `IssueSync.HandledCount` | src/issueSync.js:239-285 | In every such run the number handled is that of the stretch plus one more for each that came early. |
| `IssueSync.HandlingIsWhatTheLogSays` | src/issueSync.js:263-284 | The task ends as the logged commands, applied in order, leave it; every logged outcome is the true one at that point; late retries and unauthorized commands leave no trace on the task. |
| `IssueSync.OneNew` | src/issueSync.js:265-284 | With one new comment in the listing, the pass does with the task what it does with that comment and nothing else. |
| `IssueSync.CancelReachesTheTask` | src/issueSync.js:239-284 | Through the whole pass: one authorized cancel behind the cursor cancels a pending, waiting or paused task now and asks a running one; an unauthorized one changes nothing but the cursor. |
| `IssueSync.CommentsExactlyOnce` | src/issueSync.js:239-285 | With atomic snapshots the condition holds, so every command comment of the stretch is handled once; a stored cursor is not needed, the first examination starts one. |
| `IssueSync.OnlyStaleRetriesAreDropped` | src/issueSync.js:270-284 | A handled comment is dropped exactly when it is a retry no later than the completion, and otherwise refused only for its author. |
| `IssueSync.EarlyListingHandlesTwice` | src/issueSync.js:259-269 | A comment that a listing shows although it is later than the update time seen is handled again by the next pulse that looks. |
| `IssueSync.TwoPulsesHandleTwice` | src/issueSync.js:259-269 | A concrete input of two pulses that handles one comment twice. |
| `IssueSync.HandleAllKeeps` | src/issueSync.js:265-284 | Handling comments keeps id, key and cursor, and brings a task to life only through an applied retry. |
| `IssueSync.CloseCancels` | src/issueSync.js:243-248 | Closing an issue cancels its task exactly when the task is pending, waiting or paused, by an allowed move, and handles no comment. |
| `IssueSync.ReconcileKeepsOneLive` | src/issueSync.js:231-291 | A pass in which no retry is applied keeps one live task per key and every id. |
| `IssueSync.CountsAddUp` | src/issueSync.js:237-284 | Every handled comment is counted once as command or rejection unless it was a late retry, and the retry count moves exactly when a retry was applied. |
| `IssueSync.CountsByOutcome` | src/issueSync.js:273-282 | Rejections, retries and approvals counted are exactly the entries of the log with that outcome. |
| `IssueSync.PassCounts` | src/issueSync.js:243-260 | One cancellation is counted for each waiting task whose issue is not open, and one fetch for each whose issue was updated after the cursor. |
| `IssueSync.TaskList.Duplicated` | src/issueSync.js:81-89 | The loop finds the first blocking task. |
| `IssueSync.TaskList.File` | src/issueSync.js:153-188 | One fresh record is pushed, live or cancelled as a duplicate; the records already there are untouched. |
| `IssueSync.TaskList.SyncIssuesIntoTasks` | src/issueSync.js:104-217 | The loop over the mutable list ends in the specified list and report; every new record is fresh. |
| `IssueSync.TaskList.ReconcileTask` | src/issueSync.js:239-285 | One record changes as specified for what the pulse sees of its issue, with its log and counts. |
| `IssueSync.TaskList.HandleComments` | src/issueSync.js:263-284 | The inner loop handles the comments in order, with its log and counts. |
| `IssueSync.TaskList.HandleComment` | src/issueSync.js:266-283 | Late retry, then authorization, then the command, in that order, each with its counter. |
| `IssueSync.TaskList.ReconcileIssueState` | src/issueSync.js:231-291 | Every record on the list ends as specified for it, and the counts are those of all logs. |
| `Dispatch.OneCallLaws` | src/control/dispatch.js:47-101 | A refused call changes neither the control file nor any task; an accepted one changes one of the two: the control file at the one field the answer names, stamped with actor and reason, or one task. Unchanged is the answer exactly when only the stamp moved. |
| `Dispatch.WhyRefused` | src/control/dispatch.js:66-100 | Each refusal exactly when: no actor, a word that is none of the eleven, a missing target, no such task, a bad argument, in this order; a call that meets none is refused exactly when the task does not listen to the command. |
| `Dispatch.Dispatched` | src/control/dispatch.js:47-101 | A task command only ever reaches a task stored under the trimmed target. |
| `Dispatch.TargetNamesOne` | src/control/dispatch.js:93 | With unique ids the stored name of a task finds that task. |
| `Dispatch.IdTextInjective` | src/issueSync.js:121 | Two different tasks never have the same stored name. |
| `Dispatch.RunningIsNotInterrupted` | src/control/dispatch.js:88-100 | Over every sequence of control actions and issue commands a running task stays running. |
| `Dispatch.FinishedLeavesByRetryOnly` | src/issueSync.js:302-309 | Over every such sequence a finished task keeps its status unless a retry was applied to it at some step. |
| `Dispatch.StepKeepsOneLiveIff` | src/control/dispatch.js:97 | One event breaks the rule of one live task per key exactly when it is a retry that revives a twin. |
| `Dispatch.RunKeepsOneLive` | src/control/dispatch.js:97 | A run without such a retry keeps the rule. |
| `Dispatch.EveryCallIsAudited` | src/control/dispatch.js:56-59 | After every run the audit trail holds one event per call, in order, and nothing else. |
| `Dispatch.LastWordWins` | src/control/dispatch.js:69-77 | After every run each switch stands where the last well-formed call about it put it, whatever else was asked; which words say so is `SwitchStandsAsSaid`. |
| `Dispatch.SwitchStandsAsSaid` | src/control/dispatch.js:33-77 | After every run whose last well-formed call about `kill-switch`, `drain` or `safe-mode` says `on`, `true`, `1` or `yes`, in any case and with any white space around, that switch is on; with `off`, `false`, `0` or `no` it is off. |
| `Dispatch.AutonomyStandsAsAsked` | src/control/dispatch.js:79-86 | After every run the autonomy is the level that the last well-formed call about it asked for. |
| `Dispatch.NamedTaskMoves` | src/control/dispatch.js:88-100 | A signed call with the name of a verb and the id of a task carries out that command on that task and no other, and moves it as the verb says and not otherwise. |
| `Dispatch.FindTask` | src/control/dispatch.js:93 | The first task stored under the name, or none. |
| `Dispatch.CommandTask` | src/control/dispatch.js:90-100 | The one task found changes in place as the command says; the others and the list stay. |
| `Dispatch.ApplyControlAction` | src/control/dispatch.js:47-101 | Answer, tasks and audit trail are those of the specification; exactly one event is appended. |
| `JsonRepair.ExtractMeans` | src/lib/jsonRepair.js:24-52 | The scanner returns the text from the first opening brace to the first place where the depth is back at zero, and nothing exactly when there is no such brace or no such place. |
| `JsonRepair.ValueIsNeutral` | src/lib/jsonRepair.js:27-50 | By induction on the value: scanning a printed JSON value restores depth and string state and never goes shallower. |
| `JsonRepair.RoundTrip` | src/lib/jsonRepair.js:24-52 | For every JSON object text (RFC 8259, sections 4 and 7), every prefix without an opening brace and every suffix, the scanner returns exactly the object. |
| `JsonRepair.StripDropsDanglingCommas` | src/lib/jsonRepair.js:60-62 | The left-to-right replacement removes exactly the commas with only white space between them and a closing bracket, and nothing else. |
| `JsonRepair.ValueIsSolid` | src/lib/jsonRepair.js:60-62 | By induction on the value: the repair of a printed value is its printing without the extra commas, with each string repaired alone, whatever follows. |
| `JsonRepair.RepairIff` | src/lib/jsonRepair.js:60-62 | The repair gives the plain printing exactly when no string, keys included, holds a comma with only white space before a closing bracket; any subset of the containers may have a trailing comma. |
| `JsonRepair.LenientIsFirstAccepted` | src/lib/jsonRepair.js:94-117 | The answer is the first accepted object among the successive opening braces, and there is none exactly when all are refused up to the end or to the first brace that is never closed. |
| `JsonRepair.UnclosedBraceHidesTheRest` | src/lib/jsonRepair.js:105-107 | An unclosed opening brace ends the search, so balanced objects after it are not tried, although the description says every one is. |
| `JsonRepair.UnclosedBraceExample` | src/lib/jsonRepair.js:105-107 | A concrete text with a balanced object that the search does not reach. |
| `JsonRepair.LenientRecovers` | src/lib/jsonRepair.js:103-117 | An object written with trailing commas, in text with no opening brace before it, gives what the caller accepts for the plain printing. |
| `JsonRepair.ExtractBalancedObject` | src/lib/jsonRepair.js:24-52 | The index loop over depth, string and escape flags computes the specified extraction. |
| `JsonRepair.TryLenientJson` | src/lib/jsonRepair.js:103-117 | The loop terminates, its search position strictly increasing, with the specified answer. |
| `EventStream.DrainedConcat` | dashboard/components/ChatPage.tsx:203-208 | Reading a text in two parts gives the frames and the left-over of reading it at once. |
| `EventStream.ChunkingDoesNotMatter` | dashboard/components/ChatPage.tsx:201-208 | For every way of cutting a text into chunks the frames and the left-over are those of the whole text. |
| `EventStream.RestHasNoSeparator` | dashboard/components/ChatPage.tsx:206-208 | Between chunks the buffer never contains a blank-line separator. |
| `EventStream.CuttingIsLossless` | dashboard/components/ChatPage.tsx:206-208 | Frames and left-over joined again are the text, and every frame is free of separators. |
| `EventStream.CuttingUndoesJoining` | dashboard/components/ChatPage.tsx:206-208 | Separator-free frames joined and cut again are the same frames, with the unfinished rest left over. |
| `EventStream.FrameRoundTrip` | dashboard/components/ChatPage.tsx:209-214 | An event line and a data line with newline-free trimmed fields parse back to the event. |
| `EventStream.StreamRoundTrip` | dashboard/components/ChatPage.tsx:201-217 | Such events, however the text is cut and whatever unfinished frame follows, arrive as sent and in order; the unfinished frame is not delivered. |
| `EventStream.ContentIsDeltas` | dashboard/components/ChatPage.tsx:225-228 | The answer shown is what was there plus the delta texts in order; malformed data and other events never touch it. |
| `EventStream.FieldsAreLastGiven` | dashboard/components/ChatPage.tsx:218-246 | Thread, provider and model are the last that a `meta` or `done` event named, the usage is that of the last `done`, and the error that of the last `error`. |
| `EventStream.ParseFrame` | dashboard/components/ChatPage.tsx:209-214 | The line loop computes the specified event: last event line, concatenated trimmed data lines. |
| `EventStream.ChatPage.OnEvent` | dashboard/components/ChatPage.tsx:216-250 | What each kind of event changes, and that unparsable data changes nothing. |
| `EventStream.ChatPage.Deliver` | dashboard/components/ChatPage.tsx:207-250 | One frame: skipped without data, otherwise acted on. |
| `EventStream.ChatPage.DrainBuffer` | dashboard/components/ChatPage.tsx:206-251 | All complete frames are acted on in order and the left-over stays in the buffer. |
| `EventStream.ChatPage.ReadStream` | dashboard/components/ChatPage.tsx:201-252 | What is shown at the end is what the whole text says, whatever the chunks. |
| `PulseGaps.SortSorts` | dashboard/lib/pulseView.ts:82-86 | Sorting gives an ordered permutation. |
| `PulseGaps.GapsTelescope` | dashboard/lib/pulseView.ts:83-84 | The gaps add up to the last kept time minus the first. |
| `PulseGaps.NearestRank` | dashboard/lib/pulseView.ts:87 | The reported rank is a gap; at least ceil(q n) gaps are at most it and fewer than that many are strictly below it. |
| `PulseGaps.FiguresAreOrdered` | dashboard/lib/pulseView.ts:88-89 | Not negative, and median at most p90 at most maximum, after rounding. |
| `PulseGaps.ReportedFigures` | dashboard/lib/pulseView.ts:84-89 | The reported median and p90 are those of gaps with that rank (at least 50 or 90 percent of the gaps are at most it, fewer are below), and no gap is above the maximum. |
| `PulseGaps.MinutesAreNearest` | dashboard/lib/pulseView.ts:88 | A reported figure is the tenth of a minute nearest to the exact value, halves up. |
| `PulseGaps.CountOfGaps` | dashboard/lib/pulseView.ts:83-85 | One gap fewer than pulses in the window, and figures exactly with two pulses or more. |
| `PulseGaps.KeptAsMultiset` | dashboard/lib/pulseView.ts:78-81 | What is kept of the history is each readable time inside the window, as often as it occurs. |
| `PulseGaps.OrderDoesNotMatter` | dashboard/lib/pulseView.ts:79-86 | The report depends only on which pulses lie in the window, not on the order of the history. |
| `PulseGaps.PulseGapStats` | dashboard/lib/pulseView.ts:77-90 | The loop and the two sorts compute the specified report. |
| `TaskYaml.UnescapedEscaped` | src/lib/taskYaml.js:36 | Undoing one escape is right for every text. |
| `TaskYaml.QuoteRoundTrip` | dashboard/lib/taskYaml.ts:37-39 | The quoted form of any text reads back as that text, although the two unescapings run one after the other. |
| `TaskYaml.DedentUndoesIndent` | src/lib/taskYaml.js:68-76 | Reading indented lines back gives the lines. |
| `TaskYaml.ChompedText` | src/lib/taskYaml.js:77-80 | Dropping final empty lines is dropping final line breaks. |
| `TaskYaml.BlockRoundTrip` | dashboard/lib/taskYaml.ts:42-45 | A description written as a block and read back is the description with its line breaks normalised and the final ones dropped. |
| `TaskYaml.ReadBlockAt` | src/lib/taskYaml.js:65-82 | The loops return the specified description and the first line after the block. |

## Left out

- React components, hooks, styling, REST wrappers and demo data: user interface and plumbing.
- Provider adapters, configuration, logging, wire-up and command-line entry points; real `git` and `fetch` calls.
- Event and log texts, and the `stepUsage` accounting of resumed attempts: observability.
- The process kill of the fake GitHub at a chosen call: replaced by a crash between any two steps.
- GitHub's limit of 100 comments per listing, and parsing of `/titan` comments, authorization, redaction and hashing: their results are inputs.
- Dates that do not parse: every date of an issue, comment or task is a number or absent. Within one pass the clock stands still.
- Wake times, run ids, leases and the bounded history that `transition` also writes: nothing in the model reads them.
- Non-ASCII letters in `toLowerCase`: words that only match after such a conversion are not recognised by the model.
- What a scheduler, planner or judge computes: any answer their contracts allow is covered. The scheduler's timing is not.
- The inside of a successful `git rebase`: any result that changes only paths the job changed is covered; failing pathspecs and commands that fail half-way are one fault event.
- New branches without a remote tip, and the pattern search of the push gate: the search is an input.
- `tryStrictJson`: it hands each fenced block, and then the whole text, to `JSON.parse` without repair, so it finds nothing by itself. Whether `JSON.parse` accepts a text is part of the caller's accept function.
- The UTF-8 stream decoder: chunks are characters. Whether a payload parses is a function of its text.
- Floating point in `pulseGapStats`: ranks are exact ceilings, minutes are exact reals.
- `buildYamlBlock` as a whole and the other fields of the block: line patterns and bounds only. A `-->` inside a field ends the block early and is outside the two round trips.
- `pulseView`, `PulseBudget`, labels, themes and wording: they copy or compare single fields for display, keep no state, and nothing modelled here reads them.
- Checkpointer.NoLostUpdate: does not protect a path that a job claims without having written it; `StaleCopyIff` says when such an update is lost.
- IssueSync.TaskList.ReconcileIssueState: the two listings of one pass are a map and a function fixed at its start, because requests to GitHub are outside the model.
- EventStream.ChatPage.ReadStream: the abort of a stream half-way is not modelled; it ends the loop between two chunks.
