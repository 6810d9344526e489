/** The invariant of the protocol: what is true of every run, every task, every file and
    every executor after every history. */
module Invariant {
  import opened Base
  import opened Domain
  import opened Plans
  import opened Agent
  import opened Store
  import opened Runner
  import opened Protocol

  /** The state names the run it belongs to and holds the allowance the run was claimed with. */
  predicate Names(c: SessionState, id: nat, of: Identity)
  {
    c.id == of.sessionID && c.runID == id && c.token == of.token && c.allowance == of.tokenBudget
  }

  /** The fire-once error: still armed as it was at the claim, unless this attempt hit it. */
  predicate Armed(c: SessionState, birth: Birth)
  {
    if c.halt.HaltAgentError? then birth.armed == c.next + 1 && c.erroredAt == 0 else c.erroredAt == birth.armed
  }

  /** A state the run's own executor produced. */
  predicate OwnState(c: SessionState, id: nat, of: Identity, birth: Birth, plan: Plan): (r: bool)
    ensures r ==> c.start <= c.next <= |c.steps| && c.runID == id
  {
    && Accounted(c, plan) && Names(c, id, of)
    && c.start == of.startStep && c.origin == birth.origin && Armed(c, birth) && !c.halt.HaltUnset?
  }

  /** A state a recovering server bound to a run that had no checkpoint: it has done nothing
      and holds the run's whole allowance, but it stands where the file it came from stood. */
  predicate AdoptedState(c: SessionState, id: nat, of: Identity, plan: Plan): (r: bool)
    ensures r ==> c.start == c.next <= |c.steps| && c.runID == id && c.halt.HaltRunning?
  {
    && Accounted(c, plan) && Names(c, id, of)
    && c.start == c.next && c.origin.WindowUnknown? && c.halt.HaltRunning?
  }

  predicate Credible(c: SessionState, id: nat, of: Identity, birth: Birth, plan: Plan): (r: bool)
    ensures r ==> c.start <= c.next <= |c.steps| && c.runID == id
  {
    OwnState(c, id, of, birth, plan) || AdoptedState(c, id, of, plan)
  }

  /** A bound state that has not been run. */
  predicate Untouched(c: SessionState)
  {
    c.start == c.next && c.halt.HaltRunning?
  }

  /** How a finalized row, its checkpoint and the policy decision fit together. */
  predicate Closed(row: Run, id: nat, trail: Trail, c: SessionState, plan: Plan)
  {
    && trail.closing.Some? && row.finishedAt.Some?
    && var closing := trail.closing.value;
    && var terminal := TerminalStateOf(OutcomeOf(c.halt));
    && row.status == terminal.run && row.exit == terminal.exit
    && (!terminal.exit.ExitInterrupted? ==> row.error == if terminal.exit.ExitAgentError? then c.errorMessage else "")
    && closing.continuation == CompletionFor(c, row.of.startStep, row.finishedAt.value,
        closing.resetInterval).continuation
    && match closing.file
       case None => OwnState(c, id, row.of, trail.birth, plan)
       case Some(file) => Reconcile(file, id, row.of) == Ok(c)
  }

  predicate RowOk(row: Run, id: nat, trail: Trail, plan: Plan)
  {
    match row.checkpoint
    case None =>
      row.status.RunRunning? && row.exit.ExitNone? && trail.closing.None? && row.output == "" && row.tokensUsed == 0
    case Some(c) =>
      && Credible(c, id, row.of, trail.birth, plan)
      && row.output == AttemptOutput(c) && row.tokensUsed == c.used
      && if row.status.RunRunning? then
           row.exit.ExitNone? && trail.closing.None? && OwnState(c, id, row.of, trail.birth, plan)
         else Closed(row, id, trail, c, plan)
  }

  /** The executor's private state agrees with its row for as long as the row is running. */
  predicate OwnerOk(owner: Owner, row: Run, id: nat, birth: Birth, plan: Plan)
  {
    match owner
    case Claimed(c) =>
      && Ready(c, plan) && c.id == row.of.sessionID && c.allowance == row.of.tokenBudget && c.next == row.of.startStep
      && c.origin == birth.origin && c.erroredAt == birth.armed
      && (row.status.RunRunning? ==> row.checkpoint.None?)
    case Bound(c, _) =>
      && OwnState(c, id, row.of, birth, plan) && c.halt.HaltRunning? && c.next == c.start
      && (row.status.RunRunning? ==> row.checkpoint.None?)
    case Live(c, lines, _) =>
      && OwnState(c, id, row.of, birth, plan) && lines == AttemptLines(c)
      && (row.status.RunRunning? ==> row.checkpoint == Some(c))
    case Gone => true
  }

  /** The first attempt at a task starts a fresh window at step 0. */
  predicate FirstAttempt(of: Identity, birth: Birth, plan: Plan)
  {
    of.startStep == 0 && of.tokenBudget == plan.budget && birth.origin.WindowFresh? && birth.armed == plan.failAt
    && birth.kind.ManualResume?
  }

  /** An attempt takes over exactly where its finalized predecessor's checkpoint stands. */
  predicate Succeeds(of: Identity, birth: Birth, pred: Run, predTrail: Trail, plan: Plan)
  {
    && !pred.status.RunRunning? && pred.checkpoint.Some? && predTrail.closing.Some?
    && var c := pred.checkpoint.value;
    && var closing := predTrail.closing.value;
    && pred.of.sessionID == of.sessionID
    && of.startStep == c.next && birth.armed == c.erroredAt
    && (match pred.exit
        case ExitInterrupted => birth.origin.WindowContinued? && of.tokenBudget == c.remaining
        case ExitAgentError => birth.origin.WindowFresh? && of.tokenBudget == plan.budget
        case ExitTokenBudgetExhausted => birth.origin.WindowFresh? && of.tokenBudget == plan.budget
        case _ => false)
    && (closing.continuation.EligibleAt().Some? ==> closing.continuation.EligibleAt().value <= of.startedAt)
    && (!birth.kind.ManualResume? ==>
          pred.exit == ExpectedExit(AuthorizationOf(birth.kind)) && !closing.continuation.Stopped?)
  }

  predicate RunOk(s: System, i: nat)
    requires i < |s.db.runs| == |s.owners| == |s.trail|
  {
    var row := s.db.runs[i];
    && row.of.sessionID < |s.plans| && s.db.HasTask(row.of.taskID)
    && RowOk(row, i + 1, s.trail[i], s.plans[row.of.sessionID])
    && OwnerOk(s.owners[i], row, i + 1, s.trail[i].birth, s.plans[row.of.sessionID])
    && (row.status.RunRunning? ==> Latest(s.db.runs, row.of.taskID) == i + 1)
  }

  predicate LinkOk(s: System, i: nat)
    requires i < |s.db.runs| == |s.trail|
  {
    var row, birth := s.db.runs[i], s.trail[i].birth;
    && row.of.sessionID < |s.plans|
    && birth.pred == Latest(s.db.runs[..i], row.of.taskID)
    && if birth.pred == 0 then FirstAttempt(row.of, birth, s.plans[row.of.sessionID])
       else Succeeds(row.of, birth, s.db.runs[birth.pred - 1], s.trail[birth.pred - 1], s.plans[row.of.sessionID])
  }

  predicate TaskOk(s: System, t: nat)
    requires s.db.HasTask(t) && |s.db.runs| == |s.trail|
  {
    var task, id := s.db.TaskOf(t), Latest(s.db.runs, t);
    match task.status
    case Todo => id == 0 && task.continuation.NoContinuation?
    case InProgress => id > 0 && s.db.RunOf(id).status.RunRunning? && task.continuation.NoContinuation?
    case Done => id > 0 && !s.db.RunOf(id).status.RunRunning? && s.db.RunOf(id).exit.ExitCompleted?
        && task.continuation.NoContinuation?
    case Failed =>
      && id > 0 && !s.db.RunOf(id).status.RunRunning? && !s.db.RunOf(id).exit.ExitCompleted?
      && s.trail[id - 1].closing.Some?
      && var decided := s.trail[id - 1].closing.value.continuation;
      && (!decided.NoContinuation? ==> task.continuation == decided)
  }

  predicate FileOk(s: System, x: nat)
    requires x < |s.files| == |s.plans| && |s.db.runs| == |s.trail|
  {
    var f := s.files[x];
    && f.id == x && Accounted(f, s.plans[x]) && f.runID <= |s.db.runs|
    && (f.runID > 0 ==>
          && Credible(f, f.runID, s.db.runs[f.runID - 1].of, s.trail[f.runID - 1].birth, s.plans[x])
          && (s.db.runs[f.runID - 1].checkpoint.None? ==> Untouched(f)))
  }

  predicate SnapshotOk(s: System, k: nat)
    requires k < |s.snapshots|
  {
    var snap := s.snapshots[k];
    var c := snap.session;
    && c.id < |s.plans| && Ready(c, s.plans[c.id])
    && match snap.status
       case Todo => snap.previousRun == 0 && snap.kind.ManualResume? && c == Start(c.id, s.plans[c.id])
       case Failed =>
         && s.db.HasRun(snap.previousRun)
         && var pred := s.db.RunOf(snap.previousRun);
         && !pred.status.RunRunning? && pred.of.taskID == snap.taskID && pred.of.sessionID == c.id
         && pred.checkpoint.Some? && Granted(pred.checkpoint.value, pred.exit) == Ok(c)
       case _ => false
  }

  predicate RecoveryOk(s: System, r: nat)
    requires r < |s.recoveries| && |s.db.runs| == |s.trail|
  {
    var rec := s.recoveries[r];
    && s.db.HasRun(rec.id)
    && var row := s.db.RunOf(rec.id);
    && var birth := s.trail[rec.id - 1].birth;
    && rec.run.of == row.of && row.of.sessionID < |s.plans| && rec.run.status.RunRunning?
    && var plan := s.plans[row.of.sessionID];
    && (rec.run.checkpoint.Some? ==>
          row.checkpoint.Some? && OwnState(rec.run.checkpoint.value, rec.id, row.of, birth, plan))
    && (rec.Reconciled? ==>
          && Credible(rec.session, rec.id, row.of, birth, plan)
          && match rec.file
             case None => rec.run.checkpoint == Some(rec.session)
             case Some(file) =>
               && rec.run.checkpoint.None? && Reconcile(file, rec.id, row.of) == Ok(rec.session)
               && (row.checkpoint.None? ==> Untouched(rec.session)))
  }

  predicate Shape(s: System)
  {
    |s.owners| == |s.trail| == |s.db.runs| && |s.files| == |s.plans|
  }

  predicate PlansOk(s: System)
  {
    forall x :: 0 <= x < |s.plans| ==> Priced(s.plans[x].steps)
  }

  predicate Inv(s: System)
  {
    && Shape(s)
    && PlansOk(s)
    && (forall i :: 0 <= i < |s.db.runs| ==> RunOk(s, i))
    && (forall i :: 0 <= i < |s.db.runs| ==> LinkOk(s, i))
    && (forall t :: 1 <= t <= |s.db.tasks| ==> TaskOk(s, t))
    && (forall x :: 0 <= x < |s.files| ==> FileOk(s, x))
    && (forall k :: 0 <= k < |s.snapshots| ==> SnapshotOk(s, k))
    && (forall r :: 0 <= r < |s.recoveries| ==> RecoveryOk(s, r))
  }
}
