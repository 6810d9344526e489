/** Concrete histories in which a tempting property fails. */
module Races {
  import opened Base
  import opened Domain
  import opened Plans
  import opened Agent
  import opened Driving
  import opened Store
  import opened Runner
  import opened Protocol
  import opened Invariant
  import opened Steps
  import opened Fencing
  import opened Lineage
  import opened ExactlyOnce
  import opened LateScheduling
  import opened Recoveries
  import opened Replay
  import opened Windows

  // ---- one plan for all histories: three steps, of which the first costs 150 tokens, the
  // ---- second 220 and the last at least 150, with a budget of 250

  lemma PlanCosts(failAt: nat)
    ensures var steps := PlanOf(3, 250, failAt).steps;
            |steps| == 3 && steps[0].cost == 150 && steps[1].cost == 220 && steps[2].cost >= 150
  {
    hide BodyStep, PlannedSteps;
    BodyCost(0);
    BodyCost(1);
    BodyCost(2);
    var steps := PlanOf(3, 250, failAt).steps;
    assert steps[0] == BodyStep(0, 3, 0) && steps[1] == BodyStep(0, 3, 1) && steps[2] == BodyStep(0, 3, 2);
  }

  lemma BodyCost(i: nat)
    ensures BodyStep(0, 3, i).cost == 150 + (i * 2654435761) % 0x1_0000_0000 % 251
  {
    hide Decimal, Xor;
    XorZero((i * 2654435761) % 0x1_0000_0000);
  }

  /** What all states of the session agree on. */
  predicate Ours(c: SessionState)
  {
    && c.id == 0 && |c.steps| == 3 && c.budget == 250
    && c.steps[0].cost == 150 && c.steps[1].cost == 220 && c.steps[2].cost >= 150
  }

  /** A bound session that stands before step k. */
  predicate Stands(c: SessionState, k: nat, remaining: int, used: int, armed: nat)
  {
    && Ours(c) && c.next == k <= 3 && c.remaining == remaining && c.used == used && c.erroredAt == armed
    && c.halt.HaltRunning? && c.haltedAt.None?
  }

  /** A session that halted before step k. */
  predicate Halts(c: SessionState, halt: HaltReason, k: nat, remaining: int, used: int, armed: nat, time: int)
  {
    && Ours(c) && c.next == k < 3 && c.remaining == remaining && c.used == used && c.erroredAt == armed
    && c.halt == halt && c.haltedAt == Some(time)
  }

  lemma FirstStands(failAt: nat, token: Token)
    ensures var c := BindAttempt(Start(0, PlanOf(3, 250, failAt)), 1, token);
            Stands(c, 0, 250, 0, failAt) && c.start == 0 && c.origin.WindowFresh? && c.runID == 1 && c.token == token
  {
    PlanCosts(failAt);
    hide PlannedSteps;
  }

  /** The attempt c belongs to is the one d belongs to. */
  predicate SameAttempt(c: SessionState, d: SessionState)
  {
    c.start == d.start && c.origin == d.origin && c.runID == d.runID && c.token == d.token && c.allowance == d.allowance
  }

  lemma Pays(c: SessionState, k: nat, remaining: int, used: int, armed: nat, time: int)
    requires Stands(c, k, remaining, used, armed) && k < 3 && armed != k + 1 && c.steps[k].cost <= remaining
    ensures var after := Advance(c, false, time).state;
            Stands(after, k + 1, remaining - c.steps[k].cost, used + c.steps[k].cost, armed) && SameAttempt(c, after)
  {
    hide StepOutput, SummaryLine, ErrorText;
  }

  lemma Exhausts(c: SessionState, k: nat, remaining: int, used: int, armed: nat, time: int)
    requires Stands(c, k, remaining, used, armed) && k < 3 && armed != k + 1 && c.steps[k].cost > remaining
    ensures var after := Advance(c, false, time).state;
            Halts(after, HaltTokenExhausted, k, remaining, used, armed, time) && SameAttempt(c, after)
  {
    hide StepOutput, SummaryLine, ErrorText;
  }

  lemma Errs(c: SessionState, k: nat, remaining: int, used: int, time: int)
    requires Stands(c, k, remaining, used, k + 1) && k < 3
    ensures var after := Advance(c, false, time).state;
            Halts(after, HaltAgentError, k, remaining, used, 0, time) && SameAttempt(c, after)
  {
    hide StepOutput, SummaryLine, ErrorText;
  }

  lemma Interrupts(c: SessionState, k: nat, remaining: int, used: int, armed: nat, time: int)
    requires Stands(c, k, remaining, used, armed) && k < 3
    ensures var after := Advance(c, true, time).state;
            Halts(after, HaltInterrupted, k, remaining, used, armed, time) && SameAttempt(c, after)
  {
    hide StepOutput, SummaryLine, ErrorText;
  }

  /** After an exhaustion or an agent error the next attempt has a fresh window. */
  lemma FreshWindow(c: SessionState, exit: ExitReason, runID: nat, token: Token)
    requires Ours(c) && c.next <= 3 && (exit.ExitTokenBudgetExhausted? || exit.ExitAgentError?)
    ensures Granted(c, exit).Ok?
    ensures var d := BindAttempt(Granted(c, exit).value, runID, token);
            Stands(d, c.next, 250, 0, c.erroredAt) && d.start == c.next && d.origin.WindowFresh?
            && d.runID == runID && d.token == token
  {
  }

  /** After an interruption it has the rest of the window. */
  lemma RestOfWindow(c: SessionState, runID: nat, token: Token)
    requires Ours(c) && c.next <= 3
    ensures Granted(c, ExitInterrupted).Ok?
    ensures var d := BindAttempt(Granted(c, ExitInterrupted).value, runID, token);
            Stands(d, c.next, c.remaining, 0, c.erroredAt) && d.start == c.next
            && d.origin.WindowContinued? && d.runID == runID
  {
  }

  /** What a finalization without a reset interval decides. */
  lemma Unscheduling(c: SessionState, startStep: nat, time: int)
    ensures var continuation := CompletionFor(c, startStep, time, 0).continuation;
            && (c.halt.HaltTokenExhausted? || c.halt.HaltAgentError? ==> continuation.NoContinuation?)
            && (c.halt.HaltInterrupted? || c.halt.HaltRunning? ==> continuation == Scheduled(time))
  {
  }

  // ---- stretches with this plan ----

  /** Run 1 is claimed, and its executor is at work before the first step. */
  lemma Opening(failAt: nat) returns (s: System, c: SessionState)
    ensures Working(s, c) && Stands(c, 0, 250, 0, failAt)
    ensures c.start == 0 && c.runID == 1 && c.token == Newest(s).of.token && c.origin.WindowFresh?
    ensures |s.db.runs| == 1 && s.lateWrites == [] && s.now == 0 && s.steady && s.plans == [PlanOf(3, 250, failAt)]
    ensures Newest(s).leaseExpiresAt == LEASE && Newest(s).of.startStep == 0 && s.trail[0].birth.armed == failAt
    ensures Reachable(s)
  {
    hide Start, PlannedSteps, BindAttempt, Reachable;
    var start := Start(0, PlanOf(3, 250, failAt));
    s := Begin(3, 250, failAt);
    var token := Newest(s).of.token;
    StartFacts(PlanOf(3, 250, failAt));
    FirstStands(failAt, token);
    s := Replay.Bind(s, start);
    c := BindAttempt(start, 1, token);
  }

  lemma StartFacts(plan: Plan)
    ensures var c := Start(0, plan); c.next == 0 && c.erroredAt == plan.failAt
  {
  }

  /** The executor does one step. */
  lemma OneStep(s: System, c: SessionState, k: nat, remaining: int, used: int, armed: nat, time: int)
    returns (t: System, d: SessionState)
    requires Working(s, c) && Stands(c, k, remaining, used, armed)
    requires k < 3 && armed != k + 1 && c.steps[k].cost <= remaining
    ensures Working(t, d)
        && Stands(d, k + 1, remaining - c.steps[k].cost, used + c.steps[k].cost, armed)
    ensures SameAttempt(c, d) && Onward(s, t) && t.now == s.now && Newest(t).leaseExpiresAt == Newest(s).leaseExpiresAt
    ensures Reachable(s) ==> Reachable(t)
  {
    hide Advance, Reachable;
    Pays(c, k, remaining, used, armed, time);
    d := Advance(c, false, time).state;
    t := Publish(s, c, false, time);
  }

  /** The executor halts before step k and finalizes its run without a reset interval. */
  lemma HaltAndFinish(
    s: System, c: SessionState, k: nat, remaining: int, used: int, armed: nat, cancelled: bool, time: int)
    returns (t: System, d: SessionState)
    requires Working(s, c) && Stands(c, k, remaining, used, armed) && k < 3
    requires cancelled || armed == k + 1 || c.steps[k].cost > remaining
    ensures var halt := if cancelled then HaltInterrupted
                        else if armed == k + 1 then HaltAgentError else HaltTokenExhausted;
            && Halts(d, halt, k, remaining, used, if halt.HaltAgentError? then 0 else armed, time)
            && Ended(t, d, if cancelled then Scheduled(time) else NoContinuation)
    ensures SameAttempt(c, d) && Onward(s, t) && t.now == s.now && Newest(t).finishedAt == Some(time)
    ensures Reachable(s) ==> Reachable(t)
  {
    hide Advance, Reachable, CompletionFor;
    d := Advance(c, cancelled, time).state;
    if cancelled {
      Interrupts(c, k, remaining, used, armed, time);
    } else if armed == k + 1 {
      Errs(c, k, remaining, used, time);
    } else {
      Exhausts(c, k, remaining, used, armed, time);
    }
    t := Publish(s, c, cancelled, time);
    var mid := t;
    Unscheduling(d, d.start, time);
    t := Replay.Finish(t, d, time, 0);
  }

  /** t has one run more than s. */
  predicate OneMoreRun(s: System, t: System)
  {
    && |t.db.runs| == |s.db.runs| + 1 && t.db.runs[..|s.db.runs|] == s.db.runs
    && |t.trail| == |s.trail| + 1 && t.trail[..|s.trail|] == s.trail
    && t.plans == s.plans && t.lateWrites == s.lateWrites && t.steady == s.steady && t.now == s.now
  }

  /** A human resumes the failed task, and the executor is at work. */
  lemma ResumeToWork(s: System, c: SessionState, continuation: Continuation, time: int)
    returns (t: System, d: SessionState)
    requires Ended(s, c, continuation) && Due(continuation, time) && s.now < time + LEASE
    requires Ours(c) && c.next <= 3 && !c.halt.HaltCompleted?
    ensures Working(t, d) && OneMoreRun(s, t) && d.start == c.next && Newest(t).of.startStep == c.next
    ensures var rest := OutcomeOf(c.halt).AttemptInterrupted?;
            && Stands(d, c.next, if rest then c.remaining else 250, 0, c.erroredAt)
            && d.origin == (if rest then WindowContinued else WindowFresh)
    ensures Reachable(s) ==> Reachable(t)
  {
    hide Granted, BindAttempt, Reachable;
    t := Again(s, c, continuation, time);
    var prepared := Granted(c, Newest(s).exit).value;
    PreparedSession(c, Newest(s).exit);
    var mid := t;
    if OutcomeOf(c.halt).AttemptInterrupted? {
      RestOfWindow(c, |t.db.runs|, Newest(t).of.token);
    } else {
      FreshWindow(c, Newest(s).exit, |t.db.runs|, Newest(t).of.token);
    }
    d := BindAttempt(prepared, |t.db.runs|, Newest(t).of.token);
    t := Replay.Bind(t, prepared);
  }

  // ---- late decisions that go astray ----

  /** A server holds the decision it read from run 1: retry from time 102. Run 1 did the first
      step, exhausted its window and was finalized at time 2, without a reset interval. Run 2
      was finalized at time 50, with two steps done: it ended in the planned error if one was
      planned for step 3, and otherwise exhausted its window. */
  lemma HoldThenFailAgain(failAt: nat) returns (s: System, c: SessionState)
    requires failAt == 0 || failAt == 3
    ensures Ended(s, c, NoContinuation) && |s.db.runs| == 2 && Newest(s).finishedAt == Some(50)
    ensures c.halt == (if failAt == 3 then HaltAgentError else HaltTokenExhausted) && Newest(s).tokensUsed == 220
    ensures s.lateWrites == [LateWrite(1, Scheduled(102), 1, 100)]
    ensures Reachable(s)
  {
    hide Working, Reachable, LateDecision;
    s, c := Opening(failAt);
    s, c := OneStep(s, c, 0, 250, 0, failAt, 1);
    s, c := HaltAndFinish(s, c, 1, 100, 150, failAt, false, 2);
    LateScheduled(Newest(s), 100);
    s := ReadIt(s, c, 100);
    s, c := ResumeToWork(s, c, NoContinuation, 3);
    s, c := OneStep(s, c, 1, 250, 0, failAt, 4);
    s, c := HaltAndFinish(s, c, 2, 30, 220, failAt, false, 50);
  }

  lemma LateScheduled(run: Run, resetInterval: int)
    requires run.finishedAt.Some? && resetInterval > 0
    ensures var at := run.finishedAt.value + resetInterval;
            LateDecision(run, resetInterval) == if run.tokensUsed > 0 then Scheduled(at)
                                                else Stopped(at, NO_PROGRESS_REASON)
  {
  }

  /** The parameters of an automatic claim of task 1 after its newest run. */
  function RetryOf(db: Db, startedAt: int): StartParams
  {
    StartParams(1, Failed, Latest(db.runs, 1), 0, 250, 2, startedAt, LEASE)
  }

  /** A stray decision on a later exhaustion. The run that was read is no longer the newest,
      which is owed a retry from time 150; what is stored is a retry from time 102, the
      scheduler selects the task, and an automatic claim is accepted at time 102. */
  lemma LaterExhaustionIsRetriedEarly() returns (s: System)
    ensures Lands(s, 0) && s.lateWrites[0].runID == 1 && Latest(s.db.runs, 1) == 2
    ensures var after := Next(s, WriteLate(0)).db;
            && after.TaskOf(1) == Task(Failed, Scheduled(102))
            && s.db.RunOf(2).exit.ExitTokenBudgetExhausted? && s.db.RunOf(2).finishedAt == Some(50)
            && Unscheduled(s.db, 1) && Owed(s.db, 1, 100) == Scheduled(150)
            && !IsOwed(s.db, 1, s.lateWrites[0].decision, 100)
            && Continuable(after, 1) && StartAttempt(after, RetryOf(after, 102), AutomaticStart, TOKEN).1.Ok?
    ensures Reachable(s)
  {
    var c;
    s, c := HoldThenFailAgain(0);
    LandingFacts(s, c);
    WriteStray(s, c);
    hide *;
    RetriedEarly(s.db);
  }

  /** What the first held write meets. */
  predicate MeetsRunTwo(db: Db)
  {
    && db.HasTask(1) && db.TaskOf(1) == Task(Failed, NoContinuation) && Latest(db.runs, 1) == 2 == |db.runs|
    && db.RunOf(2).finishedAt == Some(50) && db.RunOf(2).tokensUsed == 220
  }

  lemma LandingFacts(s: System, c: SessionState)
    requires Ended(s, c, NoContinuation) && |s.db.runs| == 2 && Newest(s).finishedAt == Some(50)
    requires Newest(s).tokensUsed == 220 && s.lateWrites == [LateWrite(1, Scheduled(102), 1, 100)]
    ensures MeetsRunTwo(s.db) && Lands(s, 0) && s.lateWrites[0].runID == 1 && s.lateWrites[0].decision == Scheduled(102)
    ensures s.db.RunOf(2).exit == TerminalStateOf(OutcomeOf(c.halt)).exit
  {
    NewestIsLatest(s);
  }

  lemma WriteStray(s: System, c: SessionState)
    requires Ended(s, c, NoContinuation) && s.lateWrites == [LateWrite(1, Scheduled(102), 1, 100)]
    ensures Next(s, WriteLate(0)).db == WriteDecision(s.db, 1, Scheduled(102)).0
  {
  }

  lemma RetriedEarly(db: Db)
    requires MeetsRunTwo(db) && db.RunOf(2).exit.ExitTokenBudgetExhausted?
    ensures var after := WriteDecision(db, 1, Scheduled(102)).0;
            && after.HasTask(1) && after.TaskOf(1) == Task(Failed, Scheduled(102))
            && Unscheduled(db, 1) && Owed(db, 1, 100) == Scheduled(150) && !IsOwed(db, 1, Scheduled(102), 100)
            && Continuable(after, 1) && StartAttempt(after, RetryOf(after, 102), AutomaticStart, TOKEN).1.Ok?
  {
    LateScheduled(db.RunOf(2), 100);
    hide Latest, LateDecision, StartAttempt;
    StrayDecision(db, 1, Scheduled(102), RetryOf(db, 102), TOKEN);
  }

  /** A stray decision on an agent error: a manual resume is put off to its time, and no
      automatic claim is ever accepted. */
  lemma AgentErrorIsPutOff() returns (s: System)
    ensures Lands(s, 0) && s.lateWrites[0].runID == 1 && Latest(s.db.runs, 1) == 2
    ensures var after := Next(s, WriteLate(0)).db;
            && after.TaskOf(1) == Task(Failed, Scheduled(102)) && s.db.RunOf(2).exit.ExitAgentError?
            && !IsOwed(s.db, 1, s.lateWrites[0].decision, 100) && !Continuable(after, 1)
            && StartAttempt(after, RetryOf(after, 101), OwnerStart, TOKEN) == (after, Err(NotEligible))
            && forall time :: StartAttempt(after, RetryOf(after, time), AutomaticStart, TOKEN).1.Err?
                              && StartAttempt(after, RetryOf(after, time), InterruptedStart, TOKEN).1.Err?
    ensures Reachable(s)
  {
    var c;
    s, c := HoldThenFailAgain(3);
    LandingFacts(s, c);
    WriteStray(s, c);
    hide *;
    PutOff(s.db);
  }

  lemma PutOff(db: Db)
    requires MeetsRunTwo(db) && db.RunOf(2).exit.ExitAgentError?
    ensures var after := WriteDecision(db, 1, Scheduled(102)).0;
            && after.HasTask(1) && after.TaskOf(1) == Task(Failed, Scheduled(102))
            && !IsOwed(db, 1, Scheduled(102), 100)
            && !Continuable(after, 1)
            && StartAttempt(after, RetryOf(after, 101), OwnerStart, TOKEN) == (after, Err(NotEligible))
            && forall time :: StartAttempt(after, RetryOf(after, time), AutomaticStart, TOKEN).1.Err?
                              && StartAttempt(after, RetryOf(after, time), InterruptedStart, TOKEN).1.Err?
  {
    hide StartAttempt, Latest;
    var after := WriteDecision(db, 1, Scheduled(102)).0;
    StrayDecision(db, 1, Scheduled(102), RetryOf(db, 101), TOKEN);
    forall time ensures StartAttempt(after, RetryOf(after, time), AutomaticStart, TOKEN).1.Err?
                        && StartAttempt(after, RetryOf(after, time), InterruptedStart, TOKEN).1.Err? {
      StrayDecision(db, 1, Scheduled(102), RetryOf(db, time), TOKEN);
    }
  }

  // ---- a continued window that is stopped ----

  /** Run 1 did the first step and was interrupted; run 2 had the 100 tokens left, and
      exhausted them before the second step, which costs 220. The server reads run 2. */
  lemma ExhaustTheRest(failAt: nat) returns (s: System, c: SessionState)
    requires failAt == 0 || failAt == 3
    ensures Ended(s, c, NoContinuation) && |s.db.runs| == 2 && s.now == 0
    ensures Halts(c, HaltTokenExhausted, 1, 100, 0, failAt, 4) && c.start == 1 && c.origin.WindowContinued?
    ensures Newest(s).of.startStep == 1 && Newest(s).finishedAt == Some(4)
    ensures s.lateWrites == [LateWrite(1, Stopped(104, NO_PROGRESS_REASON), 2, 100)]
        && s.plans == [PlanOf(3, 250, failAt)]
    ensures Reachable(s)
  {
    hide Working, Reachable, LateDecision;
    s, c := Opening(failAt);
    s, c := OneStep(s, c, 0, 250, 0, failAt, 1);
    s, c := HaltAndFinish(s, c, 1, 100, 150, failAt, true, 2);
    s, c := ResumeToWork(s, c, Scheduled(2), 3);
    s, c := HaltAndFinish(s, c, 1, 100, 0, failAt, false, 4);
    LateScheduled(Newest(s), 100);
    s := ReadIt(s, c, 100);
  }

  /** Late scheduling stops the task, although its next step fits a fresh window and
      finalization with the same interval would have scheduled a retry. */
  lemma FittingStepIsStopped() returns (s: System)
    ensures Single(s) && s.db.tasks[0] == Task(Failed, Stopped(104, NO_PROGRESS_REASON))
    ensures Newest(s).exit.ExitTokenBudgetExhausted? && Newest(s).checkpoint.Some?
        && !Oversized(Newest(s).of, s.plans[0])
    ensures Newest(s).of.startStep < |s.plans[0].steps|
        && s.plans[0].steps[Newest(s).of.startStep].cost <= s.plans[0].budget
    ensures CompletionFor(Newest(s).checkpoint.value, Newest(s).of.startStep, 4, 100).continuation == Scheduled(104)
    ensures Reachable(s)
  {
    var c;
    s, c := ExhaustTheRest(0);
    PlanCosts(0);
    hide Reachable, PlannedSteps;
    s := WriteIt(s, c, 0);
  }

  /** The same stop, stored late on an agent error of run 3, which did that very step. */
  lemma AgentErrorIsStopped() returns (s: System)
    ensures Single(s) && |s.db.runs| == 3 && Newest(s).exit.ExitAgentError?
    ensures s.db.tasks[0] == Task(Failed, Stopped(104, NO_PROGRESS_REASON))
    ensures |s.lateWrites| == 1 && s.lateWrites[0].runID == 2
    ensures Reachable(s)
  {
    hide Working, Reachable;
    var c;
    s, c := ExhaustTheRest(3);
    s, c := ResumeToWork(s, c, NoContinuation, 5);
    s, c := OneStep(s, c, 1, 250, 0, 3, 6);
    s, c := HaltAndFinish(s, c, 2, 30, 220, 3, false, 7);
    s := WriteIt(s, c, 0);
  }

  // ---- a lagging file ----

  /** A session in the file, bound to an older run, given a newer run's allowance. */
  lemma Adopts(file: SessionState, id: nat, of: Identity, armed: nat)
    requires Stands(file, 0, 250, 0, armed) && file.runID < id && 0 <= of.tokenBudget
    ensures Reconcile(file, id, of).Ok?
    ensures Stands(Reconcile(file, id, of).value, 0, of.tokenBudget, 0, armed)
  {
  }

  /** Run 1's executor publishes its first transition and dies before it saves the file,
      which still holds the binding. A server recovers run 1 from its checkpoint. */
  lemma DieUnsaved(failAt: nat) returns (s: System, c: SessionState, file: SessionState)
    requires failAt == 0 || failAt == 1
    ensures Ended(s, c, if failAt == 1 then NoContinuation else Scheduled(20)) && Ours(c)
    ensures |s.db.runs| == 1 && s.steady && s.now == 20 && s.files == [file] && Newest(s).of.startStep == 0
    ensures Stands(file, 0, 250, 0, failAt) && file.runID == 1 && file.next == 0
    ensures c.next == (if failAt == 1 then 0 else 1) && c.erroredAt == 0 && 0 <= c.remaining
    ensures Newest(s).exit == if failAt == 1 then ExitAgentError else ExitInterrupted
    ensures Reachable(s)
  {
    hide Reachable, CompletionFor, Reconcile, Advance;
    s, file := Opening(failAt);
    c := Advance(file, false, 1).state;
    if failAt == 1 {
      Errs(file, 0, 250, 0, 1);
    } else {
      Pays(file, 0, 250, 0, failAt, 1);
    }
    s := PublishAndDie(s, file, 1);
    OwnCheckpoint(c, 1, Newest(s).of);
    Unscheduling(c, 0, 20);
    s := Replay.TakeOver(s, c, 20, 0);
  }

  /** Then run 2 is claimed and its executor dies unbound, and a server recovers run 2 from
      the file. */
  lemma LagBehind(failAt: nat) returns (s: System, c: SessionState, first: Run)
    requires failAt == 0 || failAt == 1
    ensures Ended(s, c, Scheduled(40)) && Stands(c, 0, Newest(s).of.tokenBudget, 0, failAt)
    ensures |s.db.runs| == 2 && s.db.runs[0] == first && s.steady && s.now == 40
    ensures first.checkpoint.Some? && Newest(s).of.startStep == first.checkpoint.value.next
    ensures first.checkpoint.value.next == (if failAt == 1 then 0 else 1) && first.of.startStep == 0
    ensures first.exit == if failAt == 1 then ExitAgentError else ExitInterrupted
    ensures s.trail[1].birth.armed == 0
    ensures s.trail[1].closing.value.file.Some?
    ensures var file := s.trail[1].closing.value.file.value;
            file.runID == 1 && file.next == 0 && file.erroredAt == failAt
    ensures Reachable(s)
  {
    hide Reachable, CompletionFor, Reconcile, Granted;
    var file;
    s, c, file := DieUnsaved(failAt);
    first := Newest(s);
    s := Again(s, c, if failAt == 1 then NoContinuation else Scheduled(20), 20);
    AllowanceOf(c, first.exit);
    PreparedSession(c, first.exit);
    s := Die(s);
    Adopts(file, 2, Newest(s).of, failAt);
    c := Reconcile(file, 2, Newest(s).of).value;
    Unscheduling(c, Newest(s).of.startStep, 40);
    s := Replay.TakeOver(s, c, 40, 0);
  }

  lemma OwnCheckpoint(c: SessionState, id: nat, of: Identity)
    requires c.runID == id && c.token == of.token
    ensures Reconcile(c, id, of) == Ok(c)
  {
  }

  lemma AllowanceOf(c: SessionState, exit: ExitReason)
    requires Granted(c, exit).Ok? && Ours(c) && 0 <= c.remaining
    ensures 0 <= Granted(c, exit).value.allowance && Granted(c, exit).value.erroredAt == c.erroredAt
  {
  }

  lemma SingleAttempts(s: System)
    requires Single(s) && 2 <= |s.db.runs| <= 3
    ensures Attempts(s, 1) == if |s.db.runs| == 2 then [1, 2] else [1, 2, 3]
  {
    var runs := s.db.runs;
    LatestAppend([], runs[0], 1);
    LatestAppend([runs[0]], runs[1], 1);
    assert [] + [runs[0]] == [runs[0]];
    if |runs| == 2 {
      assert [runs[0]] + [runs[1]] == runs;
    } else {
      LatestAppend([runs[0], runs[1]], runs[2], 1);
      assert [runs[0]] + [runs[1]] == [runs[0], runs[1]];
      assert [runs[0], runs[1]] + [runs[2]] == runs;
    }
  }

  lemma ReachableInv(s: System)
    requires Reachable(s)
    ensures Inv(s)
  {
    var actions :| After(actions) == s;
    InvariantAlways(actions);
  }

  /** The compatibility file may lag. In this history, whose database clock never goes back,
      attempt 0 records the first step; attempt 1 is claimed after it; and recovering attempt
      1 from the file puts the task back to step 0, so the next attempt will do the step
      again. Exactly-once progress therefore needs the file to match. */
  lemma LaggingFileRewindsTheTask() returns (s: System)
    ensures s.steady && Attempts(s, 1) == [1, 2] && IsAttempt(s, 1, 0) && IsAttempt(s, 1, 1)
    ensures EndOf(Row(s, 1, 0)) == 1 && Row(s, 1, 1).of.startStep == 1 && EndOf(Row(s, 1, 1)) == 0
    ensures !Sound(s, 1, 1) && !Recorded(s, 1, 1, PlanAt(s, 1, 0))
    ensures Reachable(s)
  {
    var c, first;
    s, c, first := LagBehind(0);
    SingleAttempts(s);
    ReachableInv(s);
    hide Reachable, Inv, RowOk, Attempts;
    AttemptFacts(s, 1, 0);
    AttemptFacts(s, 1, 1);
  }

  /** The fire-once error may fire twice. Here the file lags behind the agent error itself: run
      1 ends in the planned error, run 2 is recovered from the file, in which the error is
      still armed, and run 3 ends in it again. */
  lemma ErrorFiresTwice() returns (s: System)
    ensures s.steady && Attempts(s, 1) == [1, 2, 3]
    ensures IsAttempt(s, 1, 0) && IsAttempt(s, 1, 1) && IsAttempt(s, 1, 2)
    ensures Row(s, 1, 0).exit.ExitAgentError? && Row(s, 1, 2).exit.ExitAgentError? && !ErrorMatches(s, 1, 1)
    ensures Reachable(s)
  {
    s := FireAgain();
    hide Reachable;
    SingleAttempts(s);
    ReachableInv(s);
    hide Inv, RowOk, Attempts, Single;
    AttemptFacts(s, 1, 0);
    AttemptFacts(s, 1, 1);
    AttemptFacts(s, 1, 2);
  }

  lemma FireAgain() returns (s: System)
    ensures s.steady && Single(s) && |s.db.runs| == 3
    ensures s.db.runs[0].exit.ExitAgentError? && s.db.runs[2].exit.ExitAgentError?
    ensures s.trail[1].birth.armed == 0
    ensures s.trail[1].closing.Some? && s.trail[1].closing.value.file.Some?
        && s.trail[1].closing.value.file.value.erroredAt == 1
    ensures Reachable(s)
  {
    hide Working, Reachable;
    var c, first;
    s, c, first := LagBehind(1);
    var before := s;
    s, c := ResumeToWork(s, c, Scheduled(40), 40);
    assert s.db.runs[..2] == before.db.runs && s.trail[..2] == before.trail;
    var mid := s;
    s, c := HaltAndFinish(s, c, 0, c.remaining, 0, 1, false, 41);
    assert s.db.runs[..2] == mid.db.runs[..2] && s.trail[..2] == mid.trail[..2];
    assert s.db.runs[0] == s.db.runs[..2][0] && s.trail[1] == s.trail[..2][1];
  }

  // ---- a clock that goes back ----

  /** Recovery needs the clock not to go back past the lease. Whatever an executor is at work
      on, let a server read its run just when the lease has expired, let the clock go back and
      the executor publish a transition, and let the clock go on: the server's recovery is
      accepted, and drops the transition. */
  lemma JumpLosesTheStep(s: System, c: SessionState, time: int, resetInterval: int) returns (before: System, r: nat)
    requires Working(s, c) && c.halt.HaltRunning? && c.runID == |s.db.runs|
        && c.token == Newest(s).of.token
    ensures Single(before) && |before.db.runs| == |s.db.runs| && !before.steady
    ensures Newest(before).status.RunRunning? && Newest(before).checkpoint == Some(Advance(c, false, time).state)
    ensures var t := Next(before, Recover(r, time, resetInterval));
            Single(t) && Newest(t).exit.ExitInterrupted? && Newest(t).checkpoint == Some(c)
    ensures Reachable(s) ==> Reachable(before)
  {
    r := |s.recoveries|;
    hide Next, Reachable, Advance, CompletionFor, Working;
    before := PublishAfterJump(s, c, time);
    var t := Reclose(before, r, c, time, resetInterval);
  }

  /** The read, the jump and the publication. */
  lemma PublishAfterJump(s: System, c: SessionState, time: int) returns (t: System)
    requires Working(s, c) && c.halt.HaltRunning? && c.runID == |s.db.runs|
        && c.token == Newest(s).of.token
    ensures Single(t) && |t.db.runs| == |s.db.runs| && !t.steady
    ensures t.db.tasks[0] == Task(InProgress, NoContinuation) && Expired(Newest(t), t.now) && Usable(c)
    ensures Newest(t).checkpoint == Some(Advance(c, false, time).state) && Newest(t).of == Newest(s).of
    ensures t.recoveries == s.recoveries + [Reconciled(|s.db.runs|, Newest(s), c, None, false)]
    ensures Reachable(s) ==> Reachable(t)
  {
    hide Reachable, Advance;
    var lease := Newest(s).leaseExpiresAt;
    var back := JumpBack(s, c);
    var published := Publish(back, c, false, time);
    WorkingFacts(published, Advance(c, false, time).state);
    hide Working, Single;
    t := Tick(published, lease);
    SingleStays(published, t);
  }

  lemma WorkingFacts(s: System, c: SessionState)
    requires Working(s, c)
    ensures Single(s) && s.db.tasks[0] == Task(InProgress, NoContinuation) && Newest(s).status.RunRunning?
    ensures Newest(s).checkpoint == Some(c)
  {
  }

  lemma SingleStays(s: System, t: System)
    requires Single(s) && t == s.(now := t.now, steady := t.steady, recoveries := t.recoveries)
    ensures Single(t) && Newest(t) == Newest(s)
  {
  }

  /** A server reads the run, and then the clock goes back to where it was. */
  lemma JumpBack(s: System, c: SessionState) returns (t: System)
    requires Working(s, c) && c.runID == |s.db.runs| && c.token == Newest(s).of.token
    ensures t == s.(steady := false, recoveries := s.recoveries + [Reconciled(|s.db.runs|, Newest(s), c, None, false)])
    ensures Working(t, c)
    ensures Reachable(s) ==> Reachable(t)
  {
    hide Reachable;
    t := ReadInTime(s, c);
    t := Tick(t, s.now);
    WorkStays(s, t, c);
  }

  lemma WorkStays(s: System, t: System, c: SessionState)
    requires Working(s, c) && t == s.(steady := t.steady, recoveries := t.recoveries)
    ensures Working(t, c)
  {
  }

  lemma Tick(s: System, time: int) returns (t: System)
    ensures t == s.(now := time, steady := s.steady && s.now <= time)
    ensures Reachable(s) ==> Reachable(t)
  {
    Take(s, SetClock(time));
    t := Next(s, SetClock(time));
  }

  /** A server reads a run at the moment its lease expires. */
  lemma ReadInTime(s: System, c: SessionState) returns (t: System)
    requires Working(s, c) && c.runID == |s.db.runs| && c.token == Newest(s).of.token
    ensures t == s.(now := Newest(s).leaseExpiresAt,
      recoveries := s.recoveries + [Reconciled(|s.db.runs|, Newest(s), c, None, false)])
    ensures Reachable(s) ==> Reachable(t)
  {
    var i, r, lease := |s.db.runs| - 1, |s.recoveries|, Newest(s).leaseExpiresAt;
    OwnCheckpoint(c, |s.db.runs|, Newest(s).of);
    SightEffect(s, c, lease);
    hide Next, Reachable, Reconcile;
    Take(s, SetClock(lease));
    t := Next(s, SetClock(lease));
    Take(t, Sight(i));
    t := Next(t, Sight(i));
    Take(t, Load(r));
    t := Next(t, Load(r));
    Take(t, SaveRecovery(r));
    t := Next(t, SaveRecovery(r));
  }

  /** So there is a history in which a step the store accepted is lost. */
  lemma ClockJumpLosesAcceptedWork() returns (before: System, r: nat)
    ensures Single(before) && !before.steady
    ensures var t := Next(before, Recover(r, 40, 5));
            && Single(t) && EndOf(Newest(before)) == 1
            && Newest(t).exit.ExitInterrupted? && EndOf(Newest(t)) == 0
    ensures Reachable(before)
  {
    hide Reachable, Next, Advance;
    var s, c := Opening(0);
    Pays(c, 0, 250, 0, 0, 40);
    before, r := JumpLosesTheStep(s, c, 40, 5);
  }
}
