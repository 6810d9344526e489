/** The attempt driver of internal/runner/runner.go on the mutable session and store. Between
    its store operations other processes may act; module Protocol interleaves them. Here each
    method is shown to do, with nothing in between, just what the protocol's actions do. */
module Driver {
  import opened Base
  import opened Domain
  import opened Agent
  import opened Driving
  import opened Store
  import opened StoreAnswers
  import opened Runner
  import opened SessionObject
  import opened Repo

  /** bindOwnedSession: bind in memory and in the compatibility file, then publish. */
  method BindOwnedSession(repo: AttemptRepo, session: Session, file: SessionFile, id: nat,
      token: Token, saves: bool, now: int)
    returns (ok: bool)
    modifies repo`runs, session`header, file
    ensures session.State() == BindAttempt(old(session.State()), id, token)
    ensures saves ==> file.content == Some(session.State())
    ensures (repo.Contents(), ok) ==
            if saves then UpdateProgress(old(repo.Contents()), id, token, "", session.header.used, session.State(), now)
            else (old(repo.Contents()), false)
  {
    var bound := session.BindAttempt(id, token, file, saves);
    if !bound {
      return false;
    }
    var checkpoint := session.State();
    ok := repo.UpdateProgress(id, token, "", session.header.used, checkpoint, now);
  }

  /** The first half of resume: the session that would be taken into the claim. */
  method PrepareSession(candidate: Candidate, kind: ResumeKind, expectedRunID: nat, now: int,
      file: SessionFile, noDelay: bool)
    returns (r: Result<Session, ResumeError>)
    ensures match PrepareResume(candidate, kind, expectedRunID, now, file.content)
            case Ok(s) => r.Ok? && fresh(r.value) && r.value.State() == s
            case Err(e) => r == Err(e)
  {
    if !candidate.status.Failed? {
      return Err(NotFailed(candidate.status));
    }
    if candidate.runID == 0 {
      return Err(NoTerminalRun);
    }
    if !kind.ManualResume? {
      var changed := candidate.runID != expectedRunID
        || candidate.exit != ExpectedExit(AuthorizationOf(kind))
        || !candidate.continuation.Scheduled?;
      if changed {
        return Err(SelectionChanged);
      }
    }
    var eligible := candidate.continuation.EligibleAt();
    if eligible.Some? && now < eligible.value {
      return Err(if kind.ManualResume? then TooEarly else SelectionChanged);
    }
    var source := if candidate.checkpoint.Some? then candidate.checkpoint else file.content;
    if source.None? {
      return Err(NoSession);
    }
    var session := new Session.Restore(source.value, noDelay);
    if candidate.exit.ExitInterrupted? {
      session.ContinueAttempt();
    } else if candidate.exit.ExitAgentError? || candidate.exit.ExitTokenBudgetExhausted? {
      var begun := session.BeginAttempt(session.header.budget, WindowFresh);
    } else {
      return Err(CannotResume);
    }
    return Ok(session);
  }

  datatype ResumeFailure = UnknownTask | NotPrepared(error: ResumeError) | NotClaimed(refusal: StoreError)

  /** resume up to its claim: the id of the run it has created, or what stood in its way. */
  method Resume(repo: AttemptRepo, t: nat, kind: ResumeKind, expectedRunID: nat, now: int, startedAt: int, lease: int,
                token: Token, file: SessionFile, noDelay: bool)
    returns (r: Result<nat, ResumeFailure>)
    modifies repo
    ensures r.Err? ==> repo.Contents() == old(repo.Contents())
    ensures ResumeCandidate(old(repo.Contents()), t).None? ==> r == Err(UnknownTask)
    ensures ResumeCandidate(old(repo.Contents()), t).Some? ==>
      var candidate := ResumeCandidate(old(repo.Contents()), t).value;
      match PrepareResume(candidate, kind, expectedRunID, now, file.content)
      case Err(e) => r == Err(NotPrepared(e))
      case Ok(s) =>
        var params := ClaimParams(t, Failed, candidate.runID, s, startedAt, lease);
        var (db, claimed) := StartAttempt(old(repo.Contents()), params, AuthorizationOf(kind), token);
        match claimed
        case Err(e) => r == Err(NotClaimed(e))
        case Ok(id) =>
          && r == Ok(id) && repo.Contents() == db && IsTheClaimedRun(old(repo.Contents()), db, id, params, token)
          && OnlyClaimed(old(repo.Contents()), db, t)
  {
    hide Store.StartAttempt, IsTheClaimedRun, OnlyClaimed;
    var candidate := repo.GetResumeCandidate(t);
    if candidate.None? {
      return Err(UnknownTask);
    }
    var prepared := PrepareSession(candidate.value, kind, expectedRunID, now, file, noDelay);
    if prepared.Err? {
      return Err(NotPrepared(prepared.error));
    }
    var session := prepared.value;
    var params := StartParams(t, Failed, candidate.value.runID, session.header.id, session.header.allowance,
                              session.header.next, startedAt, lease);
    ClaimReturnsItsRun(repo.Contents(), params, AuthorizationOf(kind), token);
    var claimed := repo.StartAttempt(params, AuthorizationOf(kind), token);
    return if claimed.Ok? then Ok(claimed.value) else Err(NotClaimed(claimed.error));
  }

  datatype RunResult =
    | Recorded(outcome: AttemptOutcome)
    | RecordedUnprinted
    | RenewalFailed
    | RunFailed(end: RunEnd)
    | NotRecorded(error: StoreError)

  /** runAttempt: drive the session, then finalize the run with what it has accumulated. The
      store's answers during the run are the replies; its final answer is its state then. If
      the renewal in the background has failed, nothing is finalized, however the loop ended;
      if the output stream has failed, the finalized attempt still ends in an error. */
  method RunAttempt(repo: AttemptRepo, session: Session, sink: ProgressSink, file: SessionFile, replies: nat -> Reply,
                    id: nat, of: Identity, finishedAt: int, resetInterval: int, interruptionError: string, now: int,
                    renewalFails: bool)
    returns (result: RunResult)
    requires session.header.next <= session.steps.Length && !session.header.halt.Terminal()
    modifies repo, session, session.steps, sink, file
    ensures var (bench, end) := Drive(old(session.View(sink, file)), replies, session.noDelay, 0);
            && session.View(sink, file) == bench
            && (renewalFails ==> result == RenewalFailed && repo.Contents() == old(repo.Contents()))
            && (!renewalFails && !end.Returned? ==> result == RunFailed(end) && repo.Contents() == old(repo.Contents()))
            && (!renewalFails && end.Returned? ==>
                  var params := OwnerParams(id, of, bench.state, bench.lines, old(session.header.next),
                                            finishedAt, resetInterval, interruptionError);
                  var (db, error) := FinishAttempt(old(repo.Contents()), params, ByOwner, now);
                  repo.Contents() == db
                  && result == if error.Some? then NotRecorded(error.value)
                               else if bench.broken then RecordedUnprinted
                               else Recorded(params.completion.outcome))
  {
    hide Drive, Terminalize;
    var startStep := session.header.next;
    var end := session.RunFenced(replies, sink, file);
    if renewalFails {
      return RenewalFailed;
    }
    if !end.Returned? {
      return RunFailed(end);
    }
    var params :=
        OwnerParams(id, of, session.State(), sink.lines, startStep, finishedAt, resetInterval, interruptionError);
    var error := repo.FinishAttempt(params, ByOwner, now);
    if error.Some? {
      return NotRecorded(error.value);
    }
    return if sink.broken then RecordedUnprinted else Recorded(params.completion.outcome);
  }

  datatype RecoverError =
    | NoSessionToRecover
    | NotReconciled(reason: ReconcileError)
    | NotSaved
    | NotFinalized(error: StoreError)

  /** RecoverExpired. */
  method RecoverExpired(repo: AttemptRepo, file: SessionFile, id: nat, run: Run,
      resetInterval: int, time: int, now: int,
                        saves: bool)
    returns (error: Option<RecoverError>)
    requires run.checkpoint.Some? ==> run.checkpoint.value.next <= |run.checkpoint.value.steps|
    requires run.checkpoint.None? && file.content.Some? ==> file.content.value.next <= |file.content.value.steps|
    modifies repo, file
    ensures var source := if run.checkpoint.Some? then run.checkpoint else old(file.content);
            if source.None? || Reconcile(source.value, id, run.of).Err? then
              && error == Some(if source.None? then NoSessionToRecover
                               else NotReconciled(Reconcile(source.value, id, run.of).error))
              && repo.Contents() == old(repo.Contents()) && file.content == old(file.content)
            else
              var s := Reconcile(source.value, id, run.of).value;
              if source.value.runID != id && !saves then
                error == Some(NotSaved) && repo.Contents() == old(repo.Contents()) && file.content == old(file.content)
              else
                && file.content == (if source.value.runID != id then Some(s) else old(file.content))
                && var (db, refused) :=
                    FinishAttempt(old(repo.Contents()), RecoveryParams(id, run.of, s, resetInterval, time),
                                                      ByRecovery, now);
                repo.Contents() == db && error == if refused.Some? then Some(NotFinalized(refused.value)) else None
  {
    hide Terminalize, AttemptOutput;
    var source := if run.checkpoint.Some? then run.checkpoint else file.content;
    if source.None? {
      return Some(NoSessionToRecover);
    }
    var session := new Session.Restore(source.value, true);
    if session.header.runID != id {
      if session.header.runID > id {
        return Some(NotReconciled(BoundToNewerRun));
      }
      var begun := session.BeginAttempt(run.of.tokenBudget, WindowUnknown);
      if !begun {
        return Some(NotReconciled(NegativeAllowance));
      }
      var bound := session.BindAttempt(id, run.of.token, file, saves);
      if !bound {
        return Some(NotSaved);
      }
    }
    if session.header.token != run.of.token {
      return Some(NotReconciled(TokenMismatch));
    }
    var s := session.State();
    var refused := repo.FinishAttempt(RecoveryParams(id, run.of, s, resetInterval, time), ByRecovery, now);
    return if refused.Some? then Some(NotFinalized(refused.value)) else None;
  }
}
