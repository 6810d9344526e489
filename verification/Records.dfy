/** What the tables say about an attempt once it is over: its status and exit reason, its
    error text, and the comment it leaves. */
module Records {
  import opened Base
  import opened Domain
  import opened Plans
  import opened Agent
  import opened Driving
  import opened Store
  import opened Runner
  import opened Protocol
  import opened Invariant
  import opened Preservation
  import opened Steps
  import opened Fencing
  import opened StoreAnswers

  // ---- status, exit reason and error text ----

  /** The row tells in its own columns why its session halted. */
  predicate TellsWhy(row: Run, c: SessionState, plan: Plan)
  {
    && row.checkpoint == Some(c) && row.finishedAt.Some? && c.next <= |plan.steps|
    && (row.status.RunSucceeded? <==> c.halt.HaltCompleted?) && (row.exit.ExitCompleted? <==> c.halt.HaltCompleted?)
    && (row.status.RunErrored? <==> c.halt.HaltAgentError?) && (row.exit.ExitAgentError? <==> c.halt.HaltAgentError?)
    && (row.status.RunTokenExhausted? <==> c.halt.HaltTokenExhausted?)
    && (row.exit.ExitTokenBudgetExhausted? <==> c.halt.HaltTokenExhausted?)
    && (row.status.RunInterrupted? <==> c.halt.HaltInterrupted? || c.halt.HaltRunning?)
    && (row.exit.ExitInterrupted? <==> c.halt.HaltInterrupted? || c.halt.HaltRunning?)
    && (c.halt.HaltCompleted? ==> c.next == |plan.steps| && row.error == "")
    && (c.halt.HaltTokenExhausted? ==> row.error == "")
    && (c.halt.HaltAgentError? ==> c.next < |plan.steps| && row.error == ErrorText(c.next + 1, plan.steps[c.next].name))
  }

  lemma ClosedTellsWhy(row: Run, id: nat, trail: Trail, plan: Plan)
    requires RowOk(row, id, trail, plan) && !row.status.RunRunning?
    ensures row.checkpoint.Some? && TellsWhy(row, row.checkpoint.value, plan)
  {
    hide AttemptOutput, CompletionFor, ErrorText, Reconcile;
  }

  /** After every history, every run that is over has exactly the status and the exit reason
      of what its session halted for: succeeded if it completed, errored on the planned error,
      exhausted before a step it could not pay, and interrupted otherwise; and the error text
      of a planned error names the step. The task is done exactly if its newest run succeeded. */
  lemma FinishedRunsTellWhy(actions: seq<Action>, i: nat)
    requires i < |After(actions).db.runs| && !After(actions).db.runs[i].status.RunRunning?
    ensures var s := After(actions);
            var row := s.db.runs[i];
            && row.of.sessionID < |s.plans| && row.checkpoint.Some?
            && TellsWhy(row, row.checkpoint.value, s.plans[row.of.sessionID])
            && s.db.HasTask(row.of.taskID)
            && (Latest(s.db.runs, row.of.taskID) == i + 1 ==>
                  s.db.TaskOf(row.of.taskID).status == if row.status.RunSucceeded? then Done else Failed)
  {
    var s := After(actions);
    InvariantAlways(actions);
    hide Play, LinkOk, FileOk, SnapshotOk, RecoveryOk, RowOk, OwnerOk, TellsWhy, Latest;
    assert RunOk(s, i);
    assert TaskOk(s, s.db.runs[i].of.taskID);
    ClosedTellsWhy(s.db.runs[i], i + 1, s.trail[i], s.plans[s.db.runs[i].of.sessionID]);
    ExitTells(s.db.runs[i], s.plans[s.db.runs[i].of.sessionID]);
  }

  lemma ExitTells(row: Run, plan: Plan)
    requires row.checkpoint.Some? && TellsWhy(row, row.checkpoint.value, plan)
    ensures row.exit.ExitCompleted? <==> row.status.RunSucceeded?
  {
  }

  const CRASHED: string := "process exited before attempt finalization"

  /** What a finalization sends: the text for the error column, and the comment. */
  predicate SendsTexts(p: FinishParams, c: SessionState, interruption: string)
  {
    && p.error == (match c.halt
                   case HaltAgentError => c.errorMessage
                   case HaltCompleted => ""
                   case HaltTokenExhausted => ""
                   case _ => interruption)
    && p.author == (if c.halt.HaltCompleted? then "agent" else "")
    && p.body == (if c.halt.HaltCompleted? then Summary(c) else "")
  }

  /** An owner that finalizes records the cause of an interruption as it was told; a server
      that recovers records a crash; both leave a comment, signed by the agent and saying what
      it has done, exactly if the attempt completed. */
  lemma FinalizationTexts(
    id: nat, of: Identity, c: SessionState, lines: seq<string>, time: int, reset: int, text: string)
    requires c.next <= |c.steps|
    ensures SendsTexts(OwnerParams(id, of, c, lines, c.start, time, reset, text), c, text)
    ensures SendsTexts(RecoveryParams(id, of, c, reset, time), c, CRASHED)
    ensures OwnerParams(id, of, c, lines, c.start, time, reset, text).finishedAt == time
    ensures RecoveryParams(id, of, c, reset, time).finishedAt == time
  {
    hide Summary, AttemptOutput;
    CompletionOutcome(c, c.start, time, reset);
    CompletionOutcome(c, of.startStep, time, reset);
    hide CompletionFor;
  }

  // ---- the comment ----

  /** The session has done exactly its first next steps. */
  lemma {:induction false} DoneCountIs(steps: seq<PlannedStep>, next: nat, n: nat)
    requires n <= |steps|
    ensures DoneCount(Executed(steps, next)[..n]) == if next < n then next else n
  {
    if n > 0 {
      DoneCountIs(steps, next, n - 1);
      assert Executed(steps, next)[..n][..n - 1] == Executed(steps, next)[..n - 1];
    }
  }

  /** What the comment of a completed attempt says: all steps are done, and which feedback,
      cut after 60 characters, it addressed. */
  lemma SummaryTellsCompletion(c: SessionState, plan: Plan)
    requires Accounted(c, plan) && c.halt.HaltCompleted?
    ensures var n, feedback := Decimal(|plan.steps|), Join(plan.feedback, "; ");
            Summary(c) == n + "/" + n + " steps completed" + ", " + "status: completed" +
              if feedback == "" then "" else ", " + ("feedback addressed: " + Truncate(feedback, 60))
  {
    var n := |plan.steps|;
    AllDone(c, plan);
    hide Decimal, DoneCount, Accounted, Join, Truncate;
    var first, second := Decimal(n) + "/" + Decimal(n) + " steps completed", "status: completed";
    var feedback := Join(c.feedback, "; ");
    var addressed := if feedback != "" then ["feedback addressed: " + Truncate(feedback, 60)] else [];
    assert Summary(c) == Join([first] + [second] + addressed, ", ");
    JoinFew(first, second, addressed);
  }

  /** The status in the summary of a session without feedback. */
  lemma SummaryTellsStatus(s: SessionState)
    requires s.feedback == []
    ensures Summary(s) == Decimal(DoneCount(s.steps)) + "/" + Decimal(|s.steps|) + " steps completed" +
      if s.completed then ", " + "status: completed"
      else if s.budgetHalted then ", " + "status: budget exhausted"
      else if s.errorMessage != "" then ", " + "status: errored"
      else ""
  {
    hide Decimal, DoneCount;
    var first := Decimal(DoneCount(s.steps)) + "/" + Decimal(|s.steps|) + " steps completed";
    assert Join(s.feedback, "; ") == "";
    assert Join([first], ", ") == first;
    JoinFew(first, "status: completed", []);
    JoinFew(first, "status: budget exhausted", []);
    JoinFew(first, "status: errored", []);
  }

  lemma AllDone(c: SessionState, plan: Plan)
    requires Accounted(c, plan) && c.halt.HaltCompleted?
    ensures DoneCount(c.steps) == |plan.steps| == |c.steps| && c.completed && c.feedback == plan.feedback
  {
    DoneCountIs(plan.steps, c.next, |plan.steps|);
    assert c.steps[..|plan.steps|] == c.steps;
  }

  lemma JoinFew(first: string, second: string, rest: seq<string>)
    requires |rest| <= 1
    ensures Join([first] + [second] + rest, ", ") == first + ", " + second + if |rest| == 0 then "" else ", " + rest[0]
  {
    var two := [first] + [second];
    assert two[..1] == [first];
    assert Join(two, ", ") == first + ", " + second;
    if |rest| == 1 {
      assert (two + rest)[..2] == two;
      assert Join(two + rest, ", ") == Join(two, ", ") + ", " + rest[0];
    } else {
      assert two + rest == two;
    }
  }

  /** The comment was left by run i + 1 when it completed. */
  predicate LeftBy(db: Db, comment: Comment, i: nat)
  {
    && i < |db.runs| && !db.runs[i].status.RunRunning? && db.runs[i].exit.ExitCompleted?
    && db.runs[i].of.taskID == comment.taskID && db.runs[i].checkpoint.Some?
    && comment.author == "agent" && comment.body == Summary(db.runs[i].checkpoint.value)
    && Some(comment.at) == db.runs[i].finishedAt
  }

  ghost predicate IsLeft(db: Db, comment: Comment)
  {
    exists i :: LeftBy(db, comment, i)
  }

  ghost predicate CommentsAreLeft(db: Db)
  {
    forall k :: 0 <= k < |db.comments| ==> IsLeft(db, db.comments[k])
  }

  lemma LeftStays(db: Db, later: Db, comment: Comment, i: nat)
    requires LeftBy(db, comment, i) && KeepsFinalized(db.runs, later.runs)
    ensures LeftBy(later, comment, i)
  {
    hide Summary;
    assert later.runs[i] == db.runs[i];
  }

  lemma CommentsStay(db: Db, later: Db)
    requires CommentsAreLeft(db) && KeepsFinalized(db.runs, later.runs) && later.comments == db.comments
    ensures CommentsAreLeft(later)
  {
    hide LeftBy, KeepsFinalized;
    forall k | 0 <= k < |later.comments| ensures IsLeft(later, later.comments[k]) {
      assert IsLeft(db, db.comments[k]);
      var i :| LeftBy(db, db.comments[k], i);
      LeftStays(db, later, db.comments[k], i);
    }
  }

  lemma FinishLeavesItsComment(
    db: Db, p: FinishParams, authorization: FinishAuthorization, now: int, c: SessionState, interruption: string)
    requires CommentsAreLeft(db) && SendsTexts(p, c, interruption) && p.checkpoint == c
    requires p.completion.outcome == OutcomeOf(c.halt)
    ensures CommentsAreLeft(FinishAttempt(db, p, authorization, now).0)
  {
    FinishWritesTogether(db, p, authorization, now);
    FinishKeepsFinalized(db, p, authorization, now);
    var after := FinishAttempt(db, p, authorization, now).0;
    if after != db {
      var mid := Db(db.tasks, after.runs, db.comments);
      FinishedExit(db, p, authorization, now);
      ExitOfCompletion(c);
      hide FinishAttempt, Summary, KeepsFinalized, OutcomeOf, TerminalStateOf;
      CommentsStay(db, mid);
      forall k | 0 <= k < |after.comments| ensures IsLeft(after, after.comments[k]) {
        if k < |db.comments| {
          assert after.comments[k] == mid.comments[k] && IsLeft(mid, mid.comments[k]);
          var i :| LeftBy(mid, mid.comments[k], i);
          assert LeftBy(after, after.comments[k], i);
        } else {
          assert after.comments[k] == Comment(p.taskID, p.author, p.body, p.finishedAt);
          assert LeftBy(after, after.comments[k], p.runID - 1);
        }
      }
    }
  }

  lemma ExitOfCompletion(c: SessionState)
    ensures TerminalStateOf(OutcomeOf(c.halt)).exit.ExitCompleted? <==> c.halt.HaltCompleted?
  {
  }

  lemma FinishedExit(db: Db, p: FinishParams, authorization: FinishAuthorization, now: int)
    requires FinishAttempt(db, p, authorization, now).0 != db
    ensures db.HasRun(p.runID) && db.RunOf(p.runID).of.taskID == p.taskID
    ensures var after := FinishAttempt(db, p, authorization, now).0;
            && after.HasRun(p.runID) && !after.RunOf(p.runID).status.RunRunning?
            && after.RunOf(p.runID).exit == TerminalStateOf(p.completion.outcome).exit
  {
  }

  lemma StepKeepsCommentsLeft(s: System, a: Action)
    requires CommentsAreLeft(s.db)
    ensures CommentsAreLeft(Next(s, a).db)
  {
    StepKeepsFinalized(s, a);
    hide KeepsFinalized, CommentsAreLeft, FinishAttempt, Summary, CompletionFor, AttemptOutput, SendsTexts, Terminalize;
    match a {
      case Finish(i, time, resetInterval, text) =>
        if Next(s, a) != s {
          FinishSends(s, i, time, resetInterval, text);
          var c := s.owners[i].session;
          FinishLeavesItsComment(s.db, FinishCall(s, i, time, resetInterval, text), ByOwner, s.now, c, text);
        }
      case Recover(r, time, resetInterval) =>
        if Next(s, a) != s {
          RecoverySends(s, r, time, resetInterval);
          var c := s.recoveries[r].session;
          FinishLeavesItsComment(s.db, RecoverCall(s, r, time, resetInterval), ByRecovery, s.now, c, CRASHED);
        }
      case _ =>
        OthersLeaveComments(s, a);
        CommentsStay(s.db, Next(s, a).db);
    }
  }

  lemma OthersLeaveComments(s: System, a: Action)
    requires !a.Finish? && !a.Recover?
    ensures Next(s, a).db.comments == s.db.comments
  {
    hide Advance, Reconcile, Granted, PlannedSteps, Start, BindAttempt, LateDecision;
    hide Refusal, Latest, Unscheduled, Claimable;
  }

  lemma FinishSends(s: System, i: nat, time: int, resetInterval: int, text: string)
    requires i < |s.owners| && i < |s.db.runs| && s.owners[i].Live?
    ensures var p, c := FinishCall(s, i, time, resetInterval, text), s.owners[i].session;
            SendsTexts(p, c, text) && p.checkpoint == c && p.completion.outcome == OutcomeOf(c.halt)
  {
    hide Summary, CompletionFor;
    CompletionOutcome(s.owners[i].session, s.owners[i].session.start, time, resetInterval);
  }

  lemma RecoverySends(s: System, r: nat, time: int, resetInterval: int)
    requires MayRecover(s, r)
    ensures var p, c := RecoverCall(s, r, time, resetInterval), s.recoveries[r].session;
            SendsTexts(p, c, CRASHED) && p.checkpoint == c && p.completion.outcome == OutcomeOf(c.halt)
  {
    hide Summary, CompletionFor, AttemptOutput;
    CompletionOutcome(s.recoveries[r].session, s.recoveries[r].run.of.startStep, time, resetInterval);
  }

  /** After every history, every comment was left by a completed run of its task when that run
      was finalized: it is signed by the agent and summarizes the run's checkpoint. */
  lemma {:induction false} CommentsAreTheAgents(actions: seq<Action>)
    ensures CommentsAreLeft(After(actions).db)
  {
    hide Next, CommentsAreLeft;
    if |actions| == 0 {
      NoComments();
    } else {
      CommentsAreTheAgents(actions[..|actions| - 1]);
      StepKeepsCommentsLeft(After(actions[..|actions| - 1]), actions[|actions| - 1]);
    }
  }

  lemma NoComments()
    ensures CommentsAreLeft(EMPTY)
  {
  }
}
