/** How concrete histories are put together: stretches of the life of one task, each proved
    once about any state, so that a history is a short list of stretches. */
module Replay {
  import opened Base
  import opened Domain
  import opened Plans
  import opened Agent
  import opened Driving
  import opened Store
  import opened Runner
  import opened Protocol
  import opened Invariant
  import opened Steps
  import opened Fencing
  import opened Continuity

  /** Some history leads to s. */
  ghost predicate Reachable(s: System)
  {
    exists actions :: After(actions) == s
  }

  lemma Take(s: System, a: Action)
    ensures Reachable(s) ==> Reachable(Next(s, a))
  {
    hide Next;
    if Reachable(s) {
      var actions :| After(actions) == s;
      assert (actions + [a])[..|actions|] == actions;
      assert After(actions + [a]) == Next(s, a);
    }
  }

  // ---- the one task and its newest run ----

  /** One task, one session, and every run theirs. */
  predicate Single(s: System)
  {
    && |s.db.tasks| == |s.files| == |s.plans| == 1
    && |s.owners| == |s.trail| == |s.db.runs| > 0
    && forall i :: 0 <= i < |s.db.runs| ==> s.db.runs[i].of.taskID == 1 && s.db.runs[i].of.sessionID == 0
  }

  function Newest(s: System): Run
    requires Single(s)
  {
    s.db.runs[|s.db.runs| - 1]
  }

  predicate Usable(c: SessionState)
  {
    c.id == 0 && c.next <= |c.steps|
  }

  /** The newest run is running and its lease holds. */
  predicate Running(s: System)
  {
    && Single(s) && s.db.tasks[0] == Task(InProgress, NoContinuation)
    && Newest(s).status.RunRunning? && s.now < Newest(s).leaseExpiresAt
  }

  /** The newest run has just been claimed for session c. */
  predicate Taken(s: System, c: SessionState)
  {
    && Running(s) && Newest(s).checkpoint.None? && Usable(c)
    && s.owners[|s.owners| - 1] == Claimed(c)
    && Newest(s).of.startStep == c.next && Newest(s).of.tokenBudget == c.allowance
    && s.trail[|s.trail| - 1].birth.armed == c.erroredAt && s.trail[|s.trail| - 1].birth.origin == c.origin
  }

  /** Its executor has published and saved state c. */
  predicate Working(s: System, c: SessionState)
  {
    && Running(s) && Newest(s).checkpoint == Some(c) && Usable(c) && s.files == [c]
    && var owner := s.owners[|s.owners| - 1];
    && owner.Live? && owner.session == c && !owner.unsaved
  }

  /** Its executor is gone. */
  predicate Abandoned(s: System)
  {
    Running(s) && s.owners[|s.owners| - 1].Gone?
  }

  /** It was finalized as a failure with checkpoint c and this continuation. */
  predicate Ended(s: System, c: SessionState, continuation: Continuation)
  {
    && Single(s) && s.db.tasks[0] == Task(Failed, continuation)
    && !Newest(s).status.RunRunning? && Newest(s).checkpoint == Some(c) && Usable(c)
    && Newest(s).exit == TerminalStateOf(OutcomeOf(c.halt)).exit && Newest(s).tokensUsed == c.used
    && Newest(s).finishedAt.Some? && s.trail[|s.trail| - 1].closing.Some?
  }

  /** From s to t only the newest run, its task, its executor and the file may have changed. */
  predicate Onward(s: System, t: System)
    requires Single(s) && Single(t)
  {
    && |t.db.runs| == |s.db.runs|
    && t.db.runs[..|s.db.runs| - 1] == s.db.runs[..|s.db.runs| - 1]
    && t.trail[..|s.trail| - 1] == s.trail[..|s.trail| - 1]
    && Newest(t).of == Newest(s).of && t.trail[|s.trail| - 1].birth == s.trail[|s.trail| - 1].birth
    && t.plans == s.plans && t.lateWrites == s.lateWrites && t.steady == s.steady
  }

  // ---- the stretches ----

  const TOKEN: Token := 7

  const LEASE: int := 10

  function PlanOf(count: nat, budget: nat, failAt: nat): Plan
  {
    Plan("t", [], PlannedSteps(0, count, []), budget, failAt)
  }

  /** A task is added, a session started for it, and its first run claimed. */
  lemma Begin(count: nat, budget: nat, failAt: nat) returns (s: System)
    ensures Taken(s, Start(0, PlanOf(count, budget, failAt)))
    ensures |s.db.runs| == 1 && s.plans == [PlanOf(count, budget, failAt)] && s.lateWrites == []
        && s.steady && s.now == 0
    ensures Newest(s).leaseExpiresAt == LEASE && s.trail[0].birth.pred == 0
    ensures Reachable(s)
  {
    InitialIsReachable();
    ExecuteEffect(count, budget, failAt);
    ClaimEffect(PlanOf(count, budget, failAt));
    FirstRunIsTaken(PlanOf(count, budget, failAt));
    var execute := Execute(1, 0, count, "t", [], budget, failAt);
    hide Next, Reachable, PlannedSteps, Start, INITIAL, Prepared, Taken, Newest, FirstRun;
    Take(INITIAL, AddTask);
    Take(Next(INITIAL, AddTask), execute);
    Take(Next(Next(INITIAL, AddTask), execute), Claim(0, 0, LEASE, TOKEN));
    s := FirstRun(PlanOf(count, budget, failAt));
  }

  lemma InitialIsReachable()
    ensures Reachable(INITIAL)
  {
    assert After([]) == INITIAL;
  }

  function FirstRun(plan: Plan): System
  {
    var start := Start(0, plan);
    var p := StartParams(1, Todo, 0, 0, plan.budget, 0, 0, LEASE);
    Prepared(plan).(db := Db([Task(InProgress, NoContinuation)], [NewRun(p, TOKEN)], []), owners := [Claimed(start)],
                    trail := [Trail(Birth(0, ManualResume, WindowFresh, plan.failAt), None)])
  }

  lemma FirstRunIsTaken(plan: Plan)
    ensures var s := FirstRun(plan);
            && Taken(s, Start(0, plan)) && |s.db.runs| == 1 && s.plans == [plan]
            && s.lateWrites == [] && s.steady && s.now == 0
            && Newest(s).leaseExpiresAt == LEASE && s.trail[0].birth.pred == 0
  {
    hide FreshSteps;
  }

  /** A task whose session has been started and not yet claimed. */
  function Prepared(plan: Plan): System
  {
    var start := Start(0, plan);
    INITIAL.(db := Db([Task(Todo, NoContinuation)], [], []), plans := [plan], files := [start],
             snapshots := [Snapshot(1, Todo, 0, ManualResume, start)])
  }

  lemma ExecuteEffect(count: nat, budget: nat, failAt: nat)
    ensures Next(Next(INITIAL, AddTask), Execute(1, 0, count, "t", [], budget, failAt))
        == Prepared(PlanOf(count, budget, failAt))
  {
    hide PlannedSteps, Start;
  }

  lemma ClaimEffect(plan: Plan)
    ensures Next(Prepared(plan), Claim(0, 0, LEASE, TOKEN)) == FirstRun(plan)
  {
    hide FreshSteps;
  }

  /** s with the newest run's row, its task, its executor, its history and the file replaced. */
  function Put(s: System, task: Task, row: Run, owner: Owner, trail: Trail, file: SessionState): System
    requires Single(s)
  {
    var i := |s.db.runs| - 1;
    s.(db := s.db.(tasks := [task], runs := s.db.runs[i := row]), owners := s.owners[i := owner],
       trail := s.trail[i := trail], files := [file])
  }

  lemma PutIsOnward(s: System, task: Task, row: Run, owner: Owner, trail: Trail, file: SessionState)
    requires Single(s) && row.of == Newest(s).of && trail.birth == s.trail[|s.trail| - 1].birth
    ensures var t := Put(s, task, row, owner, trail, file);
            && Single(t) && Onward(s, t) && Newest(t) == row && t.db.tasks == [task]
            && t.owners[|s.owners| - 1] == owner && t.trail[|s.trail| - 1] == trail && t.files == [file]
  {
  }

  function Progressed(row: Run, output: string, c: SessionState): Run
  {
    row.(output := output, tokensUsed := c.used, checkpoint := Some(c))
  }

  lemma BindEffect(s: System, c: SessionState)
    requires Taken(s, c)
    ensures var i, row := |s.db.runs| - 1, Newest(s);
            var bound := BindAttempt(c, i + 1, row.of.token);
            Next(Next(Next(s, Protocol.Bind(i)), Save(i)), PublishBinding(i))
            == Put(s, s.db.tasks[0], Progressed(row, "", bound), Live(bound, [], false), s.trail[i], bound)
  {
    var i, row := |s.db.runs| - 1, Newest(s);
    var bound := BindAttempt(c, i + 1, row.of.token);
    var t := Next(s, Protocol.Bind(i));
    assert t.owners[i] == Bound(bound, true);
    t := Next(t, Save(i));
    assert t.owners[i] == Bound(bound, false) && t.files == [bound] && t.db == s.db
        && t.now == s.now && t.trail == s.trail;
    t := Next(t, PublishBinding(i));
    assert t.owners == s.owners[i := Live(bound, [], false)];
    assert t.trail == s.trail[i := s.trail[i]];
    assert t.db.tasks == [s.db.tasks[0]];
  }

  /** The executor binds its session to the run, saves it and publishes it. */
  lemma Bind(s: System, c: SessionState) returns (t: System)
    requires Taken(s, c)
    ensures Working(t, BindAttempt(c, |s.db.runs|, Newest(s).of.token))
        && Onward(s, t) && t.now == s.now
    ensures Newest(t).leaseExpiresAt == Newest(s).leaseExpiresAt
    ensures Reachable(s) ==> Reachable(t)
  {
    var i, row := |s.db.runs| - 1, Newest(s);
    var bound := BindAttempt(c, i + 1, row.of.token);
    BindEffect(s, c);
    PutIsOnward(s, s.db.tasks[0], Progressed(row, "", bound), Live(bound, [], false), s.trail[i], bound);
    hide Next, Reachable, Onward;
    Take(s, Protocol.Bind(i));
    t := Next(s, Protocol.Bind(i));
    Take(t, Save(i));
    t := Next(t, Save(i));
    Take(t, PublishBinding(i));
    t := Next(t, PublishBinding(i));
  }

  lemma CommitEffect(s: System, c: SessionState, cancelled: bool, time: int)
    requires Working(s, c) && !c.halt.Terminal()
    ensures var i, owner, move := |s.db.runs| - 1, s.owners[|s.db.runs| - 1], Advance(c, cancelled, time);
            var lines := Extend(owner.lines, move.line);
            Next(s, Commit(i, cancelled, time))
            == Put(s, s.db.tasks[0], Progressed(Newest(s), Join(lines, "\n"), move.state),
                Live(move.state, lines, true), s.trail[i], c)
  {
    hide Advance;
    var i := |s.db.runs| - 1;
    var t := Next(s, Commit(i, cancelled, time));
    assert t.trail == s.trail[i := s.trail[i]];
    assert t.db.tasks == [s.db.tasks[0]];
  }

  /** One transition, published but not saved. */
  predicate Unsaved(s: System, c: SessionState)
  {
    && Running(s) && Newest(s).checkpoint == Some(c) && Usable(c) && Newest(s).tokensUsed == c.used
    && var owner := s.owners[|s.owners| - 1];
    && owner.Live? && owner.session == c && owner.unsaved
  }

  lemma CommitOnly(s: System, c: SessionState, cancelled: bool, time: int) returns (t: System)
    requires Working(s, c) && !c.halt.Terminal()
    ensures Unsaved(t, Advance(c, cancelled, time).state) && Onward(s, t) && t.now == s.now
    ensures t.files == s.files && t.recoveries == s.recoveries && Newest(t).leaseExpiresAt == Newest(s).leaseExpiresAt
    ensures Reachable(s) ==> Reachable(t)
  {
    var i, owner, move := |s.db.runs| - 1, s.owners[|s.db.runs| - 1], Advance(c, cancelled, time);
    var lines := Extend(owner.lines, move.line);
    AdvanceKeepsId(c, cancelled, time);
    CommitEffect(s, c, cancelled, time);
    PutIsOnward(s, s.db.tasks[0], Progressed(Newest(s), Join(lines, "\n"), move.state),
        Live(move.state, lines, true), s.trail[i], c);
    hide Next, Reachable, Onward, Advance;
    Take(s, Commit(i, cancelled, time));
    t := Next(s, Commit(i, cancelled, time));
  }

  lemma AdvanceKeepsId(c: SessionState, cancelled: bool, time: int)
    requires c.next <= |c.steps| && !c.halt.Terminal()
    ensures Advance(c, cancelled, time).state.id == c.id
  {
    hide StepOutput, SummaryLine, ErrorText;
  }

  lemma SaveEffect(s: System, c: SessionState)
    requires Unsaved(s, c)
    ensures var i := |s.db.runs| - 1;
            Next(s, Save(i)) == Put(s, s.db.tasks[0], Newest(s), Live(c, s.owners[i].lines, false), s.trail[i], c)
  {
    var i := |s.db.runs| - 1;
    var t := Next(s, Save(i));
    assert t.trail == s.trail[i := s.trail[i]];
    assert t.db.tasks == [s.db.tasks[0]];
    assert t.db.runs == s.db.runs[i := s.db.runs[i]];
  }

  /** One transition, published and saved. */
  lemma Publish(s: System, c: SessionState, cancelled: bool, time: int) returns (t: System)
    requires Working(s, c) && !c.halt.Terminal()
    ensures Working(t, Advance(c, cancelled, time).state) && Onward(s, t) && t.now == s.now
    ensures Newest(t).leaseExpiresAt == Newest(s).leaseExpiresAt && t.recoveries == s.recoveries
    ensures Reachable(s) ==> Reachable(t)
  {
    hide Advance, Reachable;
    var i, after := |s.db.runs| - 1, Advance(c, cancelled, time).state;
    var mid := CommitOnly(s, c, cancelled, time);
    SaveEffect(mid, after);
    PutIsOnward(mid, mid.db.tasks[0], Newest(mid), Live(after, mid.owners[i].lines, false), mid.trail[i], after);
    hide Next, Put;
    Take(mid, Save(i));
    t := Next(mid, Save(i));
    PutFacts(mid, mid.db.tasks[0], Newest(mid), Live(after, mid.owners[i].lines, false), mid.trail[i], after);
  }

  lemma PutFacts(s: System, task: Task, row: Run, owner: Owner, trail: Trail, file: SessionState)
    requires Single(s)
    ensures var t := Put(s, task, row, owner, trail, file);
            && t.now == s.now && t.recoveries == s.recoveries && t.snapshots == s.snapshots && |t.owners| == |s.owners|
            && |t.trail| == |s.trail| && |t.db.runs| == |s.db.runs|
  {
  }

  /** The executor disappears. */
  lemma Die(s: System) returns (t: System)
    requires Running(s)
    ensures Abandoned(t) && Onward(s, t) && t.now == s.now && t.files == s.files && t.db == s.db
    ensures Reachable(s) ==> Reachable(t)
  {
    Take(s, Crash(|s.db.runs| - 1));
    hide Reachable;
    t := Next(s, Crash(|s.db.runs| - 1));
  }

  /** The executor publishes a transition and disappears before it saves the file. */
  lemma PublishAndDie(s: System, c: SessionState, time: int) returns (t: System)
    requires Working(s, c) && !c.halt.Terminal()
    ensures Abandoned(t) && Onward(s, t) && t.now == s.now && t.files == s.files
    ensures Newest(t).checkpoint == Some(Advance(c, false, time).state)
    ensures Newest(t).leaseExpiresAt == Newest(s).leaseExpiresAt
    ensures Reachable(s) ==> Reachable(t)
  {
    hide Advance, Next, Reachable;
    t := CommitOnly(s, c, false, time);
    t := Die(t);
  }

  /** The row and the trail of a run finalized as a failure. */
  predicate FinalizedAs(s: System, row: Run, trail: Trail, c: SessionState, time: int, closing: Closing)
    requires Single(s)
  {
    var state := TerminalStateOf(OutcomeOf(c.halt));
    && row.of == Newest(s).of && row.status == state.run && row.exit == state.exit && row.tokensUsed == c.used
    && row.finishedAt == Some(time) && row.checkpoint == Some(c)
    && trail == s.trail[|s.trail| - 1].(closing := Some(closing))
  }

  lemma FinishEffect(s: System, c: SessionState, time: int, resetInterval: int) returns (row: Run, trail: Trail)
    requires Working(s, c) && c.halt.Terminal() && !c.halt.HaltCompleted?
    ensures var continuation := CompletionFor(c, c.start, time, resetInterval).continuation;
            && FinalizedAs(s, row, trail, c, time, Closing(resetInterval, continuation, None))
            && Next(s, Protocol.Finish(|s.db.runs| - 1, time, resetInterval, ""))
               == Put(s, Task(Failed, continuation), row, Gone, trail, c)
  {
    var i := |s.db.runs| - 1;
    CompletionOutcome(c, c.start, time, resetInterval);
    hide CompletionFor, Summary;
    row := FinishedRun(Newest(s), FinishCall(s, i, time, resetInterval, ""));
    trail := s.trail[i].(closing :=
        Some(Closing(resetInterval, CompletionFor(c, c.start, time, resetInterval).continuation, None)));
    var t := Next(s, Protocol.Finish(i, time, resetInterval, ""));
    assert t.db.tasks == [Task(Failed, CompletionFor(c, c.start, time, resetInterval).continuation)];
  }

  /** The executor finalizes its halted run. */
  lemma Finish(s: System, c: SessionState, time: int, resetInterval: int) returns (t: System)
    requires Working(s, c) && c.halt.Terminal() && !c.halt.HaltCompleted?
    ensures Ended(t, c, CompletionFor(c, c.start, time, resetInterval).continuation) && Onward(s, t)
    ensures t.now == s.now && t.files == s.files && Newest(t).finishedAt == Some(time)
    ensures Reachable(s) ==> Reachable(t)
  {
    hide Next, CompletionFor, Reachable;
    var row, trail := FinishEffect(s, c, time, resetInterval);
    var continuation := CompletionFor(c, c.start, time, resetInterval).continuation;
    PutIsOnward(s, Task(Failed, continuation), row, Gone, trail, c);
    PutFacts(s, Task(Failed, continuation), row, Gone, trail, c);
    Take(s, Protocol.Finish(|s.db.runs| - 1, time, resetInterval, ""));
    t := Next(s, Protocol.Finish(|s.db.runs| - 1, time, resetInterval, ""));
  }

  predicate Due(continuation: Continuation, time: int)
  {
    continuation.EligibleAt().Some? ==> continuation.EligibleAt().value <= time
  }

  lemma NewestIsLatest(s: System)
    requires Single(s)
    ensures Latest(s.db.runs, 1) == |s.db.runs|
    ensures !Newest(s).status.RunRunning? ==> LatestTerminal(s.db.runs, 1) == |s.db.runs|
  {
  }

  /** t is s with a further run claimed. */
  predicate TakenOver(s: System, t: System)
  {
    && |t.db.runs| == |s.db.runs| + 1 && t.db.runs[..|s.db.runs|] == s.db.runs
    && |t.trail| == |s.trail| + 1 && t.trail[..|s.trail|] == s.trail
    && t.plans == s.plans && t.lateWrites == s.lateWrites && t.steady == s.steady
    && t.files == s.files && t.now == s.now
  }

  lemma AgainEffect(s: System, c: SessionState, continuation: Continuation, time: int)
    requires Ended(s, c, continuation) && Due(continuation, time)
    requires !Newest(s).exit.ExitCompleted? && !Newest(s).exit.ExitNone?
    ensures Granted(c, Newest(s).exit).Ok?
    ensures var prepared := Granted(c, Newest(s).exit).value;
            var p := ClaimParams(1, Failed, |s.db.runs|, prepared, time, LEASE);
            var t := Next(Next(s, Resume(1, ManualResume, 0, time)), Claim(|s.snapshots|, time, LEASE, TOKEN));
            && t == s.(db := s.db.(tasks := [Task(InProgress, NoContinuation)], runs := s.db.runs + [NewRun(p, TOKEN)]),
                       owners := s.owners + [Claimed(prepared)],
                       trail := s.trail + [Trail(Birth(|s.db.runs|, ManualResume, prepared.origin, prepared.erroredAt),
                           None)],
                       snapshots := s.snapshots + [Snapshot(1, Failed, |s.db.runs|, ManualResume, prepared)])
  {
    NewestIsLatest(s);
    ResumePrepares(s, 1, ManualResume, 0, time);
    var prepared := Granted(c, Newest(s).exit).value;
    ClaimAccepts(s.db, 1, ManualResume, prepared, time, LEASE, TOKEN);
    hide Granted, DoResume, Latest, LatestTerminal, StartAttempt, Refusal;
    var mid := Next(s, Resume(1, ManualResume, 0, time));
    assert mid.snapshots[|s.snapshots|] == Snapshot(1, Failed, |s.db.runs|, ManualResume, prepared);
    assert s.db.tasks[0 := Task(InProgress, NoContinuation)] == [Task(InProgress, NoContinuation)];
  }

  /** A human resumes the failed task. */
  lemma Again(s: System, c: SessionState, continuation: Continuation, time: int) returns (t: System)
    requires Ended(s, c, continuation) && Due(continuation, time) && s.now < time + LEASE
    requires !Newest(s).exit.ExitCompleted? && !Newest(s).exit.ExitNone?
    ensures Granted(c, Newest(s).exit).Ok? && Taken(t, Granted(c, Newest(s).exit).value)
        && TakenOver(s, t)
    ensures Newest(t).leaseExpiresAt == time + LEASE && t.trail[|s.trail|].birth.pred == |s.db.runs|
    ensures Newest(t).of.token == TOKEN
    ensures Reachable(s) ==> Reachable(t)
  {
    AgainEffect(s, c, continuation, time);
    PreparedSession(c, Newest(s).exit);
    hide Next, Reachable, Granted;
    Take(s, Resume(1, ManualResume, 0, time));
    t := Next(s, Resume(1, ManualResume, 0, time));
    Take(t, Claim(|s.snapshots|, time, LEASE, TOKEN));
    t := Next(t, Claim(|s.snapshots|, time, LEASE, TOKEN));
  }

  lemma PreparedSession(c: SessionState, exit: ExitReason)
    requires Granted(c, exit).Ok?
    ensures var p := Granted(c, exit).value; p.id == c.id && p.next == c.next && p.steps == c.steps
  {
  }

  /** What a server reconciles the newest run from. */
  function LeftBehind(s: System): SessionState
    requires Single(s)
  {
    if Newest(s).checkpoint.Some? then Newest(s).checkpoint.value else s.files[0]
  }

  /** The file a server reads for that. */
  function FileRead(s: System): Option<SessionState>
    requires Single(s)
  {
    if Newest(s).checkpoint.Some? then None else Some(s.files[0])
  }

  /** The file once the server has saved what it bound. */
  function FileSaved(s: System, c: SessionState): SessionState
    requires Single(s)
  {
    if LeftBehind(s).runID != |s.db.runs| then c else s.files[0]
  }

  lemma SightEffect(s: System, c: SessionState, time: int)
    requires Running(s) && Newest(s).leaseExpiresAt <= time
    requires Reconcile(LeftBehind(s), |s.db.runs|, Newest(s).of) == Ok(c) && Usable(c)
    ensures var i, r := |s.db.runs| - 1, |s.recoveries|;
            var t := Next(Next(Next(Next(s, SetClock(time)), Sight(i)), Load(r)), SaveRecovery(r));
            t == s.(now := time, steady := s.steady && s.now <= time, files := [FileSaved(s, c)],
                    recoveries := s.recoveries + [Reconciled(i + 1, Newest(s), c, FileRead(s), false)])
  {
    hide Reconcile;
    var i, r := |s.db.runs| - 1, |s.recoveries|;
    var t := Next(Next(s, SetClock(time)), Sight(i));
    assert t == s.(now := time, steady := s.steady && s.now <= time,
                   recoveries := s.recoveries + [Sighted(i + 1, Newest(s))]);
    LoadEffect(t, s.recoveries, c);
    var loaded := Reconciled(i + 1, Newest(s), c, FileRead(s), LeftBehind(s).runID != i + 1);
    SaveRecoveryEffect(Next(t, Load(r)), s.recoveries, loaded);
  }

  lemma LoadEffect(s: System, before: seq<Recovery>, c: SessionState)
    requires Single(s) && s.recoveries == before + [Sighted(|s.db.runs|, Newest(s))]
    requires Reconcile(LeftBehind(s), |s.db.runs|, Newest(s).of) == Ok(c)
    ensures Next(s, Load(|before|)) == s.(recoveries := before +
      [Reconciled(|s.db.runs|, Newest(s), c, FileRead(s), LeftBehind(s).runID != |s.db.runs|)])
  {
    hide Reconcile;
    var t := Next(s, Load(|before|));
    assert t.recoveries
        == before + [Reconciled(|s.db.runs|, Newest(s), c, FileRead(s), LeftBehind(s).runID != |s.db.runs|)];
  }

  lemma SaveRecoveryEffect(s: System, before: seq<Recovery>, rec: Recovery)
    requires |s.files| == 1 && s.recoveries == before + [rec] && rec.Reconciled? && rec.session.id == 0
    ensures Next(s, SaveRecovery(|before|)) ==
      s.(files := [if rec.unsaved then rec.session else s.files[0]], recoveries := before + [rec.(unsaved := false)])
  {
    var t := Next(s, SaveRecovery(|before|));
    assert t.recoveries == before + [rec.(unsaved := false)];
    assert t.files == [if rec.unsaved then rec.session else s.files[0]];
  }

  lemma RecoverEffect(s: System, r: nat, c: SessionState, time: int, resetInterval: int)
    returns (row: Run, trail: Trail)
    requires Single(s) && s.db.tasks[0] == Task(InProgress, NoContinuation) && Expired(Newest(s), s.now)
    requires Usable(c) && !c.halt.HaltCompleted?
    requires r < |s.recoveries| && s.recoveries[r].Reconciled? && !s.recoveries[r].unsaved
    requires s.recoveries[r].id == |s.db.runs| && s.recoveries[r].run.of == Newest(s).of && s.recoveries[r].session == c
    ensures var continuation := CompletionFor(c, Newest(s).of.startStep, time, resetInterval).continuation;
            && FinalizedAs(s, row, trail, c, time, Closing(resetInterval, continuation, s.recoveries[r].file))
            && Next(s, Recover(r, time, resetInterval))
               == Put(s, Task(Failed, continuation), row, s.owners[|s.owners| - 1], trail, s.files[0])
  {
    var i := |s.db.runs| - 1;
    CompletionOutcome(c, Newest(s).of.startStep, time, resetInterval);
    RecoveryCallIs(s, r, c, time, resetInterval);
    FinishOnlyTask(s.db, RecoverCall(s, r, time, resetInterval), s.now);
    hide CompletionFor, FinishAttempt, RecoverCall;
    var continuation := CompletionFor(c, Newest(s).of.startStep, time, resetInterval).continuation;
    row := FinishedRun(Newest(s), RecoverCall(s, r, time, resetInterval));
    trail := s.trail[i].(closing := Some(Closing(resetInterval, continuation, s.recoveries[r].file)));
    var t := Next(s, Recover(r, time, resetInterval));
    assert t.db.tasks == [Task(Failed, continuation)];
    assert t.owners == s.owners[i := s.owners[i]];
    assert t.files == [s.files[0]];
  }

  lemma RecoveryCallIs(s: System, r: nat, c: SessionState, time: int, resetInterval: int)
    requires MayRecover(s, r) && s.recoveries[r].session == c && !c.halt.HaltCompleted?
    ensures var p, rec := RecoverCall(s, r, time, resetInterval), s.recoveries[r];
            && p.runID == rec.id && p.taskID == rec.run.of.taskID && p.checkpoint == c && p.tokensUsed == c.used
            && p.author == p.body == "" && p.finishedAt == time
            && p.completion == CompletionFor(c, rec.run.of.startStep, time, resetInterval)
  {
    hide CompletionFor, Summary, AttemptOutput;
    CompletionOutcome(c, s.recoveries[r].run.of.startStep, time, resetInterval);
  }

  lemma FinishOnlyTask(db: Db, p: FinishParams, now: int)
    requires |db.tasks| == 1 && db.tasks[0].status.InProgress? && p.taskID == 1 && p.runID == |db.runs| > 0
    requires p.author == p.body == "" && db.RunOf(p.runID).of.taskID == 1 && Expired(db.RunOf(p.runID), now)
    ensures FinishAttempt(db, p, ByRecovery, now) ==
      (db.(tasks := [Task(TerminalStateOf(p.completion.outcome).task, p.completion.continuation)],
           runs := db.runs[p.runID - 1 := FinishedRun(db.RunOf(p.runID), p)]),
       None)
  {
    var task := Task(TerminalStateOf(p.completion.outcome).task, p.completion.continuation);
    assert db.tasks[0 := task] == [task];
  }

  /** A server finalizes the newest run with a session it has reconciled. */
  lemma Reclose(s: System, r: nat, c: SessionState, time: int, resetInterval: int) returns (t: System)
    requires Single(s) && s.db.tasks[0] == Task(InProgress, NoContinuation) && Expired(Newest(s), s.now)
    requires Usable(c) && !c.halt.HaltCompleted?
    requires r < |s.recoveries| && s.recoveries[r].Reconciled? && !s.recoveries[r].unsaved
    requires s.recoveries[r].id == |s.db.runs| && s.recoveries[r].run.of == Newest(s).of && s.recoveries[r].session == c
    ensures Ended(t, c, CompletionFor(c, Newest(s).of.startStep, time, resetInterval).continuation)
    ensures Onward(s, t) && t.now == s.now && t.files == s.files && Newest(t).finishedAt == Some(time)
    ensures t.trail[|s.trail| - 1].closing.value.file == s.recoveries[r].file
    ensures t == Next(s, Recover(r, time, resetInterval))
    ensures Reachable(s) ==> Reachable(t)
  {
    hide Next, CompletionFor, Reachable;
    var row, trail := RecoverEffect(s, r, c, time, resetInterval);
    var continuation := CompletionFor(c, Newest(s).of.startStep, time, resetInterval).continuation;
    PutIsOnward(s, Task(Failed, continuation), row, s.owners[|s.owners| - 1], trail, s.files[0]);
    PutFacts(s, Task(Failed, continuation), row, s.owners[|s.owners| - 1], trail, s.files[0]);
    Take(s, Recover(r, time, resetInterval));
    t := Next(s, Recover(r, time, resetInterval));
  }

  /** Time passes until the lease has expired, and a server takes the run over. */
  lemma TakeOver(s: System, c: SessionState, time: int, resetInterval: int) returns (t: System)
    requires Abandoned(s) && Newest(s).leaseExpiresAt <= time
    requires Reconcile(LeftBehind(s), |s.db.runs|, Newest(s).of) == Ok(c) && Usable(c) && !c.halt.HaltCompleted?
    ensures Ended(t, c, CompletionFor(c, Newest(s).of.startStep, time, resetInterval).continuation)
    ensures Onward(s, t) && t.now == time && Newest(t).finishedAt == Some(time) && t.files == [FileSaved(s, c)]
    ensures t.trail[|s.trail| - 1].closing.value.file == FileRead(s)
    ensures Reachable(s) ==> Reachable(t)
  {
    hide Next, CompletionFor, Reachable, Reconcile;
    var i, r := |s.db.runs| - 1, |s.recoveries|;
    SightEffect(s, c, time);
    Take(s, SetClock(time));
    t := Next(s, SetClock(time));
    Take(t, Sight(i));
    t := Next(t, Sight(i));
    Take(t, Load(r));
    t := Next(t, Load(r));
    Take(t, SaveRecovery(r));
    t := Next(t, SaveRecovery(r));
    var mid := t;
    assert Single(mid) && Onward(s, mid) && Newest(mid) == Newest(s);
    t := Reclose(mid, r, c, time, resetInterval);
  }

  /** A server reads the unscheduled exhausted task. */
  lemma ReadIt(s: System, c: SessionState, resetInterval: int) returns (t: System)
    requires Ended(s, c, NoContinuation) && Newest(s).exit.ExitTokenBudgetExhausted?
    ensures Ended(t, c, NoContinuation) && Newest(t).finishedAt.Some?
    ensures t == s.(lateWrites :=
        s.lateWrites + [LateWrite(1, LateDecision(Newest(s), resetInterval), |s.db.runs|, resetInterval)])
    ensures Reachable(s) ==> Reachable(t)
  {
    Take(s, SeeUnscheduled(1, resetInterval));
    ReadEffect(s, c, resetInterval);
    hide Next, Reachable, LateDecision;
    t := Next(s, SeeUnscheduled(1, resetInterval));
    LateWritesDoNotMatter(s, t, c, NoContinuation);
  }

  lemma LateWritesDoNotMatter(s: System, t: System, c: SessionState, continuation: Continuation)
    requires Ended(s, c, continuation) && t == s.(lateWrites := t.lateWrites)
    ensures Ended(t, c, continuation)
  {
  }

  lemma ReadEffect(s: System, c: SessionState, resetInterval: int)
    requires Ended(s, c, NoContinuation) && Newest(s).exit.ExitTokenBudgetExhausted?
    ensures Next(s, SeeUnscheduled(1, resetInterval)) ==
      s.(lateWrites :=
          s.lateWrites + [LateWrite(1, LateDecision(Newest(s), resetInterval), |s.db.runs|, resetInterval)])
  {
    NewestIsLatest(s);
    hide Latest, LateDecision;
  }

  /** It stores its decision. */
  lemma WriteIt(s: System, c: SessionState, k: nat) returns (t: System)
    requires Ended(s, c, NoContinuation) && k < |s.lateWrites| && s.lateWrites[k].taskID == 1
    ensures Ended(t, c, s.lateWrites[k].decision)
    ensures t == s.(db := s.db.(tasks := [Task(Failed, s.lateWrites[k].decision)]))
    ensures t == Next(s, WriteLate(k))
    ensures Reachable(s) ==> Reachable(t)
  {
    Take(s, WriteLate(k));
    WriteEffect(s, c, k);
    hide Next, Reachable;
    t := Next(s, WriteLate(k));
  }

  lemma WriteEffect(s: System, c: SessionState, k: nat)
    requires Ended(s, c, NoContinuation) && k < |s.lateWrites| && s.lateWrites[k].taskID == 1
    ensures Next(s, WriteLate(k)) == s.(db := s.db.(tasks := [Task(Failed, s.lateWrites[k].decision)]))
  {
    assert s.db.tasks[0 := Task(Failed, s.lateWrites[k].decision)] == [Task(Failed, s.lateWrites[k].decision)];
  }
}
