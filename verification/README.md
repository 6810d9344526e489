# Verification model of the lease-fenced attempt protocol

An agent session works through a plan of priced steps within a token budget, and a task may need
several attempts at it: after an interruption, a crash, a planned error or an exhausted window. Any
number of processes may make those attempts, and a lease with an owner token decides who may
write. This project is a Dafny model of that mechanism. It follows the code from the price of a
single step to histories in which executors, people and servers act in any order, and proves what
holds in all of them. Where a documented property does not hold in all of them, it gives a history
in which the property fails and the exact condition under which it holds.

`dafny verify dfyconfig.toml` checks everything.

## How the model is built

| layer | modules | follows |
|---|---|---|
| completion policy and status machine | `Domain` | `internal/domain/types.go` |
| plan construction and its costs | `Plans` | `internal/agent/agent.go` |
| session states and transitions as values | `Agent`, `Driving`, `FreshWindows` | `internal/agent/agent.go` |
| the mutable session, its step array, its file and its output | `SessionObject` | `internal/agent/agent.go` |
| the two tables and the effect of each statement or transaction | `Store`, `StoreAnswers` | `internal/store` |
| the store as an object updated in place, against `Store` | `Repo` | `internal/store` |
| decisions of executors and recovering servers | `Runner` | `internal/runner/runner.go` |
| those programs on the mutable session and store | `Driver` | `internal/runner/runner.go` |
| the scheduler loop | `Server` | `internal/server/server.go` |
| every process interleaved, as one state machine (file `System.dfy`) | `Protocol` | all of them |
| its invariant, and the proof for each of 18 actions | `Invariant`, `Preservation`, `Steps` | |
| what follows over whole histories | `Fencing`, `Recoveries`, `Lineage`, `ExactlyOnce`, `Windows`, `LateScheduling`, `Continuity`, `Takeover`, `Leases`, `Records`, `Resumes` | |
| texts and prices of small cases | `Samples` | `internal/agent/agent.go` |
| histories in which a tempting property fails, and the stretches they are made of | `Races`, `Replay` | |

In `Protocol` a history is any sequence of actions applied to the empty database. Each action
is one database statement or transaction, one write of a compatibility file, or one step of
private work, so any process may stop or pause between any two of them. A snapshot taken for a
resume and a row read for a recovery are kept for ever and may be used at any later time, in
any order and any number of times. The database clock is set freely, also backwards; a theorem
that needs it not to go back past some time says so, and `steady` records whether it ever went
back. The clocks of executors and servers are
arbitrary values. `After(actions)` is the state after a history, `Attempts(s, t)` lists the
runs of task `t` in id order, and `Row` and `History` give one attempt's row and the facts
about its claim and finalization that the tables do not hold.

## Where the code and its documentation disagree

`README.md` with line numbers is the repository's own.

- `README.md:283-286` says that a run without a checkpoint is recovered from the bootstrap
  session file as an empty interrupted attempt. The attempt is empty, but it stands where the
  file stands, and the file is written after the fenced commit
  (`internal/agent/agent.go:503-511`), so it can lag behind the checkpoint the run was claimed
  from. In `Races.LaggingFileRewindsTheTask`, with a well-behaved clock, a step that was recorded
  is going to be done again; `ExactlyOnce.ExactlyOnceProgress` gives the exact condition for
  exactly-once progress: every recovery from a file found the file at the run's start step. In
  `Races.ErrorFiresTwice` the planned error fires in two attempts, because the file in which it is
  still armed is used in between; `ExactlyOnce.DisarmedIffFilesMatch` gives the exact condition.
- `README.md:304-305` admits clock jumps for eligibility only. They also affect recovery:
  `Races.JumpLosesTheStep` shows for any executor at work how a server can drop a step that the
  store has accepted, once the database clock goes back past the lease the server has read.
  `Recoveries.RecoveryLosesNothing` rules that out while the clock stays at or above that lease,
  and `Recoveries.RecoveryKeepsIffSilent` is the exact condition with any clock.
- `README.md:229-233` says that only a fresh window that advances zero steps is marked stopped.
  That is what finalization does (`Windows.StoppedIsExact`). Late scheduling takes every window
  as fresh (`internal/store/continuation_repo.go:179-185`): in `Races.FittingStepIsStopped` it
  stops a continued window whose next step fits a fresh one. `Windows.LateDecisionAgrees` says
  exactly when the two stop alike, and `Windows.LateStopIsExact` exactly when late scheduling
  stops.
- `README.md:220-222` says that older exhausted tasks are initialized from their terminal run. The
  write is not tied to the run that was read (`internal/store/continuation_repo.go:195-204`), so
  the decision may land on a later failure. `LateScheduling.LateWriteIsOwedIffCurrent` says exactly
  when it is the newest run's own; `Races.LaterExhaustionIsRetriedEarly` is a history in which a
  later exhaustion is retried before its reset time, and `Races.AgentErrorIsPutOff` and
  `Races.AgentErrorIsStopped` are histories in which the decision lands on an agent error.
  `LateScheduling.StrayDecision` says what any such decision causes: an agent error is never
  resumed automatically by it.
- `README.md:180` says that a resume begins a new budget window. After an interruption the code
  continues the current one, as `README.md:205-207` says; the model follows the code.
- `README.md:247-248` says that callers never provide an authorization time. The first lease of
  a run is computed from the claimant's own clock (`internal/store/attempt_repo.go:430-435`);
  in the model that time is arbitrary, and only renewal uses the database clock.

## Model

Main results first: whole histories, then single attempts and single operations.

| member | source | states |
|---|---|---|
| ExactlyOnce.ExactlyOnceProgress | internal/runner/runner.go:374-413 | After every history each attempt at a task starts where the previous one ended, the first at step 0. All attempts record exactly their own intervals if and only if every recovery from a compatibility file found a matching file, and then the stored step lines of all attempts concatenate to each completed step once, in order |
| Fencing.FinalizedForever | internal/store/attempt_repo.go:284-300 | A run that has left running has the same row after any further history: one outcome, one final checkpoint, finalized at most once |
| Fencing.FencedForever | internal/store/attempt_repo.go:166-220 | Once a run is finalized, nothing its executor does after any pause and any further history changes any table |
| Fencing.ChangesHitTheLatestRun | internal/store/attempt_repo.go:285-325 | Every step of any process that changes an existing run changes its task's newest run, and only while that run is running |
| Fencing.DoneForever | internal/domain/types.go:331-343 | A done task stays done, with no continuation, through any further history |
| Fencing.TasksAndRunsAgree | internal/domain/types.go:232-261 | After every history: todo means no runs; in_progress means exactly one running run, the newest; failed and done mean at least one run, none running, and the status is the one the newest run's outcome maps to |
| Recoveries.RecoveryLosesNothing | internal/store/attempt_repo.go:346-358 | A server reads an expired row, anything happens, and its recovery succeeds: if the database clock has not since shown a time before the lease that was read, the row was still exactly the one read, and it is finalized with the output, tokens and checkpoint last accepted |
| Recoveries.RecoveryKeepsIffSilent | internal/store/attempt_repo.go:84-86 | With any clock: a recovery that succeeds keeps all that was accepted if and only if no publication was accepted since the row was read, or a row without checkpoint was read and the file loaded for it is current |
| Recoveries.SameCheckpointMeansSilent | internal/store/attempt_repo.go:166-189 | While a run goes on running, its checkpoint is unchanged over a history exactly if no publication of it was accepted, and every accepted publication moves it on |
| Leases.RenewalHoldsTheRun | internal/store/attempt_repo.go:191-220 | An accepted renewal at database time n for d, in any reached state: through every further history whose clock stays before n + d, and until the owner finalizes the run or renews again, the run is running, not expired, and its owner's alone |
| Leases.LeaseHolds | internal/store/attempt_repo.go:78-86 | The same for any lease, a claim's first one included |
| Leases.OwnersAloneMeans | internal/store/attempt_repo.go:235-303 | Of a run that is its owner's alone, the owner's publications and finalization are accepted and no recovery has any effect |
| Records.FinishedRunsTellWhy | internal/domain/types.go:232-261 | After every history each finalized run is succeeded, errored, exhausted or interrupted in status and exit exactly as its checkpoint completed, hit the planned error, ran out of tokens or did none of these; the error text of a planned error names its step; and the task is done exactly if its newest run succeeded |
| Records.CommentsAreTheAgents | internal/store/attempt_repo.go:326-337 | After every history each comment was left by a completed run of its task at its finalization, signed by the agent, with the summary of its checkpoint |
| Resumes.ResumeAnswers | internal/runner/runner.go:311-372 | After every history the answer to a resume says exactly what stands in its way: a task that has not failed, with its status; to a human, a stored time later than the clock; to a server, only a changed selection |
| Resumes.AutomaticClaimsLoseGracefully | internal/store/attempt_repo.go:500-535 | In every reached state, from however stale a snapshot, a refused automatic claim is a conflict, so a lost race never ends a server |
| Fencing.ParkedStays | internal/agent/agent.go:393-411 | A terminal checkpoint whose executor does not finalize stays the running row's checkpoint through any further history |
| Fencing.RecoveryRefinesFinish | internal/runner/runner.go:209-231 | For a published completed, agent-error or exhausted checkpoint, recovery after any further history sends the same outcome, output, tokens, error, comment, checkpoint and continuation, eligibility time included, as the executor would have |
| Fencing.StreamedOutputIsStored | internal/runner/runner.go:459-483 | While a run is running its row holds its executor's joined lines, tokens used and session exactly |
| Fencing.OneCommentWhenDone | internal/store/attempt_repo.go:326-337 | After every history a task has exactly one success comment if it is done and none otherwise, whoever finalized it |
| Fencing.StepKeepsFinalized | internal/store/attempt_repo.go:235-343 | Every one of the 18 kinds of step keeps every finalized row |
| Fencing.OthersKeepIdentities | internal/store/attempt_repo.go:563-579 | Only a claim adds a run, and no step changes what a claim wrote into it |
| StoreAnswers.ClaimReturnsItsRun | internal/store/attempt_repo.go:563-599 | An accepted claim returns the id of a new run, running, the newest of its task, with what the caller asked for and the token it was given; nothing else but the task has changed, and a refusal changes nothing |
| StoreAnswers.RefusalsExplain | internal/store/attempt_repo.go:500-561 | A claim is accepted, not found, in conflict with the status and run observed, or not yet eligible, each exactly when that is so; an automatic claim of an existing task only loses to a conflict |
| StoreAnswers.BadClaimsAreNoRaces | internal/store/attempt_repo.go:388-415 | A lease that is not positive, or an automatic claim without a failed run, is never reported as a lost race |
| StoreAnswers.OnlyTheOwnerWrites | internal/store/attempt_repo.go:166-220 | Publication and renewal are accepted exactly from the holder of the token of a running run whose lease holds, and otherwise change nothing |
| StoreAnswers.PublicationWritesProgress | internal/store/attempt_repo.go:166-178 | An accepted publication writes output, tokens and checkpoint of the owner's row and nothing else |
| StoreAnswers.RenewalMovesTheLease | internal/store/attempt_repo.go:199-210 | An accepted renewal puts the lease the full, positive duration after the database's time and writes nothing else |
| StoreAnswers.GuardsAreComplementary | internal/store/attempt_repo.go:78-86 | A running run can be finalized by recovery exactly if its lease has expired and by a token holder exactly if it has not, never by both |
| StoreAnswers.FinishWritesTogether | internal/store/attempt_repo.go:235-343 | An accepted finalization writes run, task and comment with one time and leaves identity, lease and all else; a refused one changes nothing, and a lost lease is told from a task no longer in progress |
| StoreAnswers.LatestTerminalIsNewest | internal/store/attempt_repo.go:94-113 | No run of a task that is not running is newer than the one a resume starts from |
| Records.FinalizationTexts | internal/runner/runner.go:120-165 | An owner records the cause of an interruption as it was told and a recovering server a crash; the comment is the agent's summary exactly if the attempt completed |
| Records.SummaryTellsCompletion | internal/agent/agent.go:667-690 | The comment of a completed attempt says that all n of n steps are done, and which feedback, cut after 60 characters, it addressed |
| Records.SummaryTellsStatus | internal/agent/agent.go:667-690 | The status a summary names, for completed, exhausted, errored and other sessions |
| Resumes.ReconcileAnswers | internal/runner/runner.go:181-207 | Reconciliation refuses exactly a session bound to a newer run, one of another owner, or a negative allowance, each told apart, and otherwise keeps a bound session or binds an unspent one in place |
| Resumes.SnapshotAnswers | internal/runner/runner.go:328-405 | With selection and time in order, a missing run, a missing session and an exit that cannot be resumed are told apart; otherwise the session is the checkpoint's, or the file's without one, with the rest of the window after an interruption and a fresh one after an error or exhaustion |
| Lineage.LinearSuccession | internal/store/attempt_repo.go:480-490 | Each attempt's claimed predecessor is the task's previous attempt, a finalized failure, and no other run anywhere claims the same predecessor |
| Lineage.SnapshotsStayTrue | internal/runner/runner.go:332-347 | However old, a resume's snapshot still holds the session that its predecessor's row gives, so an accepted claim never starts from a superseded checkpoint |
| Lineage.ResetTimeIsHonoured | internal/runner/runner.go:149-158 | The successor of an exhausted run finalized with a positive interval starts no earlier than its recorded halt time plus that interval; automatic attempts follow only exhaustion or interruption, and never a failure finalized as stopped |
| LateScheduling.StoppedWaitsForAHuman | internal/store/attempt_repo.go:440-464 | A failed task that holds a stopped continuation, whoever stored it, keeps its row and gets no further run through any further history without a manual claim of it |
| Lineage.WindowConservation | internal/agent/agent.go:257-284 | The tokens of all attempts since the last fresh start plus the newest attempt's remaining allowance equal the configured budget, through interruptions, crashes and recoveries, with no hypothesis on the file |
| Lineage.OnePlan | internal/runner/runner.go:374-382 | All attempts at one task belong to one session with one plan |
| ExactlyOnce.RecordsIffFileMatches | internal/runner/runner.go:181-200 | One run's stored output is exactly the lines of the steps from its start step to its checkpoint if and only if the file it may have been recovered from matched |
| ExactlyOnce.AttemptsAreLinked | internal/store/attempt_repo.go:563-579 | An attempt's start step is the end of its predecessor, whatever the compatibility file says |
| ExactlyOnce.DisarmedIffFilesMatch | internal/agent/agent.go:393-402 | After a planned error has fired, later attempts are claimed with it disarmed exactly if every file used for recovery in between was disarmed |
| ExactlyOnce.ErrorFiresOnce | internal/agent/agent.go:393-402 | No two attempts at a task end in the planned error, if every file used for a recovery in between was disarmed |
| Takeover.ExpiredRunsAreRecoverable | internal/runner/runner.go:167-237 | Whatever its executor left behind and wherever it died, a run with an expired lease is finalized by one pass of a server, with the reconciled session as its checkpoint and its task done or failed accordingly |
| Takeover.RunningRunsReconcile | internal/runner/runner.go:181-207 | For a running run of any reached state the errors of reconciliation (bound to a newer run, negative allowance, wrong owner token) cannot occur |
| Takeover.SessionsHaveHomes | internal/store/attempt_repo.go:563-579 | After every history all runs and pending claims of one session belong to one task |
| Continuity.FailuresAreResumable | internal/runner/runner.go:311-420 | After every history a failed task can be resumed, by hand or by a server, exactly when its continuation allows at snapshot and at claim; the resume then creates the next run at the failed checkpoint, and otherwise no table changes |
| Continuity.ServersRetryByThemselves | internal/store/continuation_repo.go:44-60 | An interrupted failure is always queued as due from its finalization; an exhausted one finalized with a positive interval is eligible that interval after its halt, and the scheduler selects it unless it was stopped |
| Windows.StoppedIsExact | internal/domain/types.go:196-207 | A failure is finalized as stopped if and only if a fresh window was exhausted under a positive interval and the attempt's first step costs more than the configured budget |
| Windows.ProgressTestsAgree | internal/store/continuation_repo.go:179-185 | On every exhausted attempt tokens_used > 0 holds exactly if its checkpoint is beyond its start step |
| Windows.LateDecisionAgrees | internal/store/continuation_repo.go:144-190 | Late scheduling stops a task exactly when finalization would have, if and only if the attempt used tokens or started a fresh window; and it names the same time if and only if the run was finalized when it halted |
| Windows.LateStopIsExact | internal/store/continuation_repo.go:179-185 | Late scheduling stops a task if and only if its next step costs more than the configured budget, or the attempt had only the rest of a window and used none of it |
| LateScheduling.LateWriteIsOwedIffCurrent | internal/store/continuation_repo.go:195-204 | After every history, an accepted late write with a positive reset interval, the only kind a server may have, stores the decision owed to the newest run if and only if the run that was read is still the newest, or the newest is an exhaustion finalized at the same instant that progressed alike |
| LateScheduling.DecisionsAreHeld | internal/store/continuation_repo.go:147-190 | However old, the decision a server holds is the one asked for by the finalized exhausted run it read |
| LateScheduling.StrayDecision | internal/store/continuation_repo.go:195-204 | What any late decision does to the failure it lands on: a manual claim is accepted exactly from its time on; the scheduler selects the task exactly if the decision is to retry and the run exhausted or was interrupted; and only the automatic claim that goes with its exit is accepted, from that time on |
| Windows.BoundedAutomaticRetry | internal/server/server.go:77-211 | After a failure with m remaining steps, the scheduler alone, with attempts run to their end, claims at most m attempts, or m + 1 if that failure was an interruption |
| Windows.UndisturbedAttemptsExhaust | internal/agent/agent.go:390-411 | With no planned error and no interruption, every attempt before the newest exhausted its window |
| Windows.WindowsSuffice | internal/agent/agent.go:404-440 | Over whole histories: with B of at least 400, no planned error and no interruption, a task of n steps is on at most attempt ceil(n / (B div 400)) |
| Windows.WindowsAreNeeded | internal/agent/agent.go:595-641 | Such a task, once done, has taken at least ceil(n / (B div 150)) attempts |
| FreshWindows.FreshWindowsComplete | internal/agent/agent.go:404-440 | Undisturbed fresh windows run one after another: ceil(n / (B div 400)) of them always complete the plan, fewer than ceil(n / (B div 150)) never do |
| FreshWindows.CalmRunEnds | internal/agent/agent.go:363-480 | An undisturbed attempt with no error ahead returns, completed or exhausted before a step it cannot pay |
| Steps.InvariantAlways | internal/store/attempt_repo.go:404-600 | The invariant of runs, tasks, succession, files, executors, snapshots and recoveries holds after every history |
| Steps.NextKeepsInvariant | internal/runner/runner.go:311-547 | Each of the 18 kinds of step keeps that invariant |
| Steps.ClaimKeeps | internal/store/attempt_repo.go:404-600 | An accepted claim from any snapshot, however stale, keeps it |
| Steps.CommitKeeps | internal/runner/runner.go:459-483 | A publication, accepted or rejected, keeps it |
| Steps.FinishKeeps | internal/runner/runner.go:495-531 | The owner's finalization, accepted or rejected, keeps it |
| Steps.RecoverKeeps | internal/runner/runner.go:209-237 | A recovery's finalization from any row it once read keeps it |
| Steps.FinalizedRunIsResumable | internal/runner/runner.go:374-382 | A finalized run always has a checkpoint of its own session, so no resume falls back on the file |
| Races.LaggingFileRewindsTheTask | internal/agent/agent.go:503-511 | A history with a steady clock in which recovery from a lagging file puts a task back before a recorded step |
| Races.ErrorFiresTwice | internal/agent/agent.go:393-402 | A history with a steady clock in which attempts 0 and 2 of a task end in the planned error, because attempt 1 is recovered from a file in which it is still armed |
| Races.JumpLosesTheStep | internal/store/attempt_repo.go:346-358 | From any reached state in which an executor is at work: a history in which the database clock goes back, the executor publishes a transition, and a recovery drops it |
| Races.ClockJumpLosesAcceptedWork | internal/store/attempt_repo.go:346-358 | A reached history in which an accepted step is dropped that way |
| Races.LaterExhaustionIsRetriedEarly | internal/store/continuation_repo.go:195-204 | A history in which the decision read from run 1 lands on the later exhaustion of run 2, and a server may retry it before the time run 2 is owed |
| Races.AgentErrorIsPutOff | internal/store/continuation_repo.go:195-204 | A history in which a retry decision lands on a later agent error: a manual resume must wait for its time, and no automatic claim is ever accepted |
| Races.FittingStepIsStopped | internal/store/continuation_repo.go:179-185 | A history in which late scheduling stops a continued window although its next step fits the configured budget and finalization would have scheduled a retry |
| Races.AgentErrorIsStopped | internal/store/continuation_repo.go:195-204 | A history in which a stop decision lands on a later agent error |
| Driving.DriveIsCoherent | internal/agent/agent.go:363-480 | Whatever the world does during an attempt: the books balance, the session is the last accepted one, the accumulated lines are those rebuilt from the steps, every accepted publication agrees with itself, and the user has seen only accepted lines, in order |
| Driving.DriveEnds | internal/agent/agent.go:482-518 | How the loop ends and what it leaves: a return means a terminal state was published and saved; a lost fence or a rejection leaves session and file at the last accepted publication |
| Driving.DriveIsFenced | internal/agent/agent.go:374-433 | Every publication of a run of the loop was permitted by the answers of its own turn: no step without every lease it had to ask for, no refused lease passed over, interruption exactly on a cancellation that was seen, the planned error before exhaustion; and a refused lease ends the run in a lost fence |
| Driving.TurnIsFenced | internal/agent/agent.go:374-456 | One turn ends in a lost fence exactly if it asks for its lease in vain, in a rejection exactly if the store refuses, both without any effect, and otherwise publishes exactly one permitted state, which the file takes unless it cannot be written |
| Driving.CalmRunCompletes | internal/agent/agent.go:363-480 | Undisturbed, with no error ahead and enough allowance for the rest of the plan, an attempt completes it |
| Driving.DefaultTaskCompletes | internal/agent/agent.go:21-23 | Without directives and with at most one piece of feedback, an undisturbed first attempt completes, for every hash |
| Agent.AdvanceKeepsBooks | internal/agent/agent.go:435-456 | Every transition keeps: exactly the first steps are done with their outputs, tokens used are the cost since the attempt's start, used plus remaining is the allowance, remaining is not negative, and the halt reason is explained |
| Agent.AdvanceAddsItsLine | internal/agent/agent.go:299-331 | The line a transition shows is exactly what the output rebuilt from the steps array gains by it |
| Agent.OutputsArePlanLines | internal/agent/agent.go:299-331 | The outputs collected from the steps array are the plan's lines for the interval |
| Agent.PlanLinesDiffer | internal/agent/agent.go:436 | No two steps of a plan share a line |
| Agent.BeginIsReady | internal/agent/agent.go:257-277 | A granted allowance leaves nothing used; a fresh origin always comes with the configured budget |
| Agent.StartIsReady | internal/agent/agent.go:134-183 | A new session stands at step 0 with its whole configured budget, nothing done, and the planned error armed |
| Agent.BindIsAccounted | internal/agent/agent.go:286-297 | Binding a session to a run starts an attempt with balanced books and no output |
| Plans.DefaultPlanFitsBudget | internal/agent/agent.go:21-23 | The default plan with at most one piece of feedback costs at most 3500 tokens for every hash |
| Plans.PlansArePriced | internal/agent/agent.go:619-641 | Every planned step costs between 150 and 400 tokens |
| Plans.CostBounds | internal/agent/agent.go:622-637 | n consecutive steps cost between 150 n and 400 n |
| Plans.BoundedHash | internal/agent/agent.go:595-601 | The result lies between the two bounds for every 32-bit hash and every salt |
| Plans.XorCancels | internal/agent/agent.go:595-597 | Mixing a salt into a hash twice gives the hash back |
| Plans.DefaultStepCounts | internal/agent/agent.go:143 | By default a plan has 4 to 8 steps, each count for some hashes |
| Samples.SampleFeedback | internal/agent/agent.go:622-628 | The name of a feedback step quotes the feedback, cut after 40 characters, and its price comes from a salt of its own |
| Samples.SampleSteps | internal/agent/agent.go:629-638 | In a plan of up to ten steps names are used once; in a longer one they are used in turn and numbered |
| Samples.SampleStepLine | internal/agent/agent.go:436 | The line of step 2 of 5 |
| Base.DecimalRoundTrip | internal/agent/agent.go:436 | A printed number reads back as itself |
| Plans.BuildSteps | internal/agent/agent.go:619-641 | The loops build one step for each piece of feedback and then the numbered steps |
| Domain.ColumnsRoundTrip | internal/domain/types.go:106-130 | Three stored columns parse to a decision if and only if that decision is valid and writes those columns |
| Domain.MalformedColumns | internal/domain/types.go:106-130 | Each kind of malformed columns is refused for its own reason |
| Domain.ValidationIsPolicy | internal/domain/types.go:148-216 | Validation accepts exactly the completions the policy can decide, up to the wording of a stop |
| Domain.DecideAttemptCompletion | internal/domain/types.go:185-216 | The policy always yields a completion its own validation accepts, with the given outcome and a valid continuation |
| SessionObject.Session.RunFenced | internal/agent/agent.go:349-480 | The mutable session, its file, its output and the publications end as the specification `Drive` says, for every behaviour of the world, and every publication was permitted by the fences and cancellations of its turn |
| SessionObject.Session.TakeTurn | internal/agent/agent.go:372-456 | One turn of the loop, with its order of exits, fences and delay |
| SessionObject.Session.ExecuteStep | internal/agent/agent.go:432-456 | A step written through the live pointer is published, or undone field by field |
| SessionObject.Session.Leave | internal/agent/agent.go:374-411 | Every terminal exit is published, or undone field by field |
| SessionObject.Session.CommitState | internal/agent/agent.go:482-518 | Publish first; a rejection restores the previous state from the copied array and leaves file and output alone; an acceptance writes the file |
| SessionObject.Session.CloneState | internal/agent/agent.go:520-525 | The copy has the state's value and its own array |
| SessionObject.Session.AttemptLines | internal/agent/agent.go:299-331 | The loop over the steps array collects the attempt's lines |
| SessionObject.Session.BindAttempt | internal/agent/agent.go:286-297 | Binding changes the session and, without any fence, the compatibility file |
| SessionObject.Session.BeginAttempt | internal/agent/agent.go:257-277 | A negative allowance changes nothing |
| SessionObject.Session.ContinueAttempt | internal/agent/agent.go:279-284 | The rest of the window becomes the allowance |
| SessionObject.Session.Restore | internal/agent/agent.go:204-214 | Restoring a checkpoint changes nothing in it and shares no array |
| SessionObject.ProgressSink.Commit | internal/runner/runner.go:459-483 | A rejected publication changes nothing; an accepted one extends lines and publications, and the output unless a write to it has failed |
| Repo.AttemptRepo.StartAttempt | internal/store/attempt_repo.go:404-600 | The in-place claim and its branches have the effect, the returned id and the typed refusals of `Store.StartAttempt`, for all three authorizations |
| Repo.AttemptRepo.UpdateProgress | internal/store/attempt_repo.go:166-189 | The in-place publication has the effect of `Store.UpdateProgress`; a stale owner changes nothing |
| Repo.AttemptRepo.RenewLease | internal/store/attempt_repo.go:191-220 | The in-place renewal has the effect of `Store.RenewLease`; an expired lease is never renewed |
| Repo.AttemptRepo.FinishAttempt | internal/store/attempt_repo.go:235-343 | Run, task and comment change together as `Store.FinishAttempt` says, or all stay, also when the task update fails after the run was updated |
| Repo.AttemptRepo.GetResumeCandidate | internal/store/attempt_repo.go:94-164 | The snapshot is of the newest run that is not running |
| Repo.AttemptRepo.NextExpired | internal/store/attempt_repo.go:346-358 | A running run with an expired lease is found if and only if there is one |
| Repo.AttemptRepo.Next | internal/store/continuation_repo.go:44-83 | A failed, scheduled task whose newest run exhausted or was interrupted is found if and only if there is one, with that run and its exit |
| Repo.AttemptRepo.InitializeUnscheduled | internal/store/continuation_repo.go:144-215 | The lowest unscheduled exhausted task is given the decision read from its newest run if, however other processes have left the tables meanwhile, it is still failed without a continuation; otherwise the write is overtaken and changes nothing |
| Repo.AttemptRepo.StoreDecision | internal/store/continuation_repo.go:195-213 | The guarded write of a late decision |
| Driver.BindOwnedSession | internal/runner/runner.go:100-118 | The file is written before the publication; without the file nothing is published |
| Driver.PrepareSession | internal/runner/runner.go:311-398 | A resume ends in the stated error or in a session with the right window |
| Driver.Resume | internal/runner/runner.go:311-420 | Snapshot, session and claim together: the id returned is that of the new run, which is the attempt asked for; any refusal is passed on as it is and leaves the tables equal |
| Driver.RunAttempt | internal/runner/runner.go:440-547 | The run loop followed by finalization with what it accumulated; a failed run or a failed renewal is not finalized, and a failed output stream still ends in an error after finalization |
| Driver.RecoverExpired | internal/runner/runner.go:167-237 | Reconcile and finalize, with every error told apart and leaving the tables alone |
| Server.Scheduler.New | internal/server/server.go:57-75 | Only positive intervals are accepted |
| Server.Scheduler.Scan | internal/server/server.go:83-170 | Priorities of one pass, whatever other processes do during its initialization: recovery waits until no task is unscheduled or the initialization has been overtaken, nothing is continued or awaited while a run is expired, and waiting never passes the eligibility time or the scan interval |
| Server.Scheduler.ScanUntilWork | internal/server/server.go:77-96 | Undisturbed, repeated initialization ends, and leaves every unscheduled exhausted task with exactly the decision owed to it and every other task as it was |
| Server.LateDecisionIsFinal | internal/server/server.go:57-63 | A late decision is empty exactly if the interval is not positive, which is why the server must refuse such intervals; with tokens used it is scheduled, otherwise stopped |
| Store.LatestIsNewest | internal/store/attempt_repo.go:480-490 | No run of a task is newer than its latest |
| Store.LatestBefore | internal/store/attempt_repo.go:480-490 | The latest run before a task's k-th run is its (k - 1)-th |

## Left out

- SQLite itself: SQL text, drivers, locking, busy handling, schema and migrations; one statement or transaction is one atomic step.
- Legacy data: sessions before version 3 and runs without the current columns.
- Text of times and JSON: times are integers on one scale, so rounding to milliseconds is not captured.
- Repo.AttemptRepo.NextExpired: which of several expired runs is returned; the code orders lease times as text, and their text has two formats.
- Repo.AttemptRepo.Next: which of several qualifying tasks is returned; the code orders eligibility times as text, which is not the order of time within one second.
- Files: one value replaced whole; a write may fail without effect. Temporary files and renames are left out.
- FNV hashing of title and description, random ids and owner tokens: the hash is an arbitrary 32-bit value, ids are positions, and tokens are arbitrary values, not assumed distinct, because every guarded statement also names the run.
- Step delays: only the cancellation and the second fence at a delay are modelled.
- Directives: step count, budget and planned error are inputs; a step count of zero is allowed.
- `truncate` counts characters, not bytes, and `%q` does not escape; both occur only in step names and the success comment.
- Error branches for enumeration values that no stored row can hold, such as an unknown halt reason.
- The unfenced `Session.Run`, `TaskRepo.Transition`, lists, counts, `Current` and `Stopped`, and the columns created_at and updated_at.
- Commands, tables, logging and tickers: the lease renewal ticker is an action that may happen at any time.
- Waiting in `Server.Run` and its reaction to errors: `Scheduler.Scan` models one pass; a pass whose continuation is refused changes nothing, which `Driver.Resume` states.
- Driver.RunAttempt: the store's answers during the run loop are given as replies, since other processes act in between; `Protocol` models them with the real tables.
- Driver.RecoverExpired: requires what it loads to have next within its steps, as every session has; a checkpoint that does not would be an index error in the code.
- Server.Scheduler.Scan: other processes act only between the read and the write of its initialization; `Protocol` lets them act between any two operations.
- Server.Scheduler.ScanUntilWork: no other process acts between its passes.
- ExactlyOnce.ErrorFiresOnce: one direction, since an armed error need not be reached; the exact condition for being armed is in `ExactlyOnce.DisarmedIffFilesMatch`.
- Windows.BoundedAutomaticRetry: counts attempts that were started; it does not claim that a server gets round to starting one, which depends on fairness.
