/** What the answers of the store operations mean to those who get them. */
module StoreAnswers {
  import opened Base
  import opened Domain
  import opened Agent
  import opened Store

  /** The newest run of a task that is not running is what LatestTerminal finds. */
  lemma {:induction false} LatestTerminalIsNewest(runs: seq<Run>, t: nat, i: nat)
    requires i < |runs| && runs[i].of.taskID == t && !runs[i].status.RunRunning?
    ensures LatestTerminal(runs, t) >= i + 1
  {
    var n := |runs| - 1;
    if i < n && (runs[n].of.taskID != t || runs[n].status.RunRunning?) {
      LatestTerminalIsNewest(runs[..n], t, i);
    }
  }

  // ---- claims ----

  /** Run id of after is new, and is the attempt that p asked for. */
  predicate IsTheClaimedRun(db: Db, after: Db, id: nat, p: StartParams, token: Token)
  {
    && !db.HasRun(id) && after.HasRun(id) && Latest(after.runs, p.taskID) == id
    && var run := after.RunOf(id);
    && run.status.RunRunning? && run.exit.ExitNone? && run.checkpoint.None? && run.finishedAt.None?
    && run.of == Identity(p.taskID, p.sessionID, p.tokenBudget, p.startedAt, token, p.startStep)
    && run.leaseExpiresAt == p.startedAt + p.lease && run.output == "" && run.tokensUsed == 0 && run.error == ""
  }

  /** Apart from task t and the new run, nothing has changed. */
  predicate OnlyClaimed(db: Db, after: Db, t: nat)
  {
    && |after.runs| == |db.runs| + 1 && after.runs[..|db.runs|] == db.runs && after.comments == db.comments
    && |after.tasks| == |db.tasks| && after.HasTask(t)
    && after.TaskOf(t).status.InProgress? && after.TaskOf(t).continuation == NoContinuation
    && forall u :: 1 <= u <= |db.tasks| && u != t ==> after.TaskOf(u) == db.TaskOf(u)
  }

  /** An accepted claim returns the id of the run it has created, which is the task's newest
      and holds what the caller asked for; a refused claim changes nothing. */
  lemma ClaimReturnsItsRun(db: Db, p: StartParams, authorization: StartAuthorization, token: Token)
    ensures var (after, r) := StartAttempt(db, p, authorization, token);
            match r
            case Ok(id) => IsTheClaimedRun(db, after, id, p, token) && OnlyClaimed(db, after, p.taskID)
            case Err(_) => after == db
  {
    hide Claimable, Refusal;
    LatestAppend(db.runs, NewRun(p, token), p.taskID);
    ClaimableTaskExists(db, p, authorization);
  }

  lemma ClaimableTaskExists(db: Db, p: StartParams, authorization: StartAuthorization)
    ensures Claimable(db, p, authorization) ==> db.HasTask(p.taskID) && db.TaskOf(p.taskID).status == p.expectedStatus
  {
  }

  /** The errors that the callers of a claim treat as a lost race. */
  predicate IsConflict(e: StoreError)
  {
    e.Conflict? || e.StatusConflict?
  }

  /** What a refused claim says. The first claim of a task is refused exactly if the task is
      not todo or has runs, and then it is told what it is. An automatic claim of an existing
      task is only ever refused as a conflict. A manual resume is told that it is too early or
      stopped, exactly if that and nothing else stands in its way. */
  lemma RefusalsExplain(db: Db, p: StartParams, authorization: StartAuthorization, token: Token)
    requires p.lease > 0
    ensures var r := StartAttempt(db, p, authorization, token).1;
            var t := p.taskID;
            && (authorization.OwnerStart? && (p.expectedStatus.Todo? || p.expectedStatus.Failed?) ==>
                  && (r == Err(NotFound) <==> !db.HasTask(t))
                  && (db.HasTask(t) ==>
                        && var current :=
                             db.TaskOf(t).status == p.expectedStatus && Latest(db.runs, t) == p.expectedRunID;
                        && var eligible := db.TaskOf(t).continuation.EligibleAt();
                        && var early := p.expectedStatus.Failed? && eligible.Some? && p.startedAt < eligible.value;
                        && (r.Ok? <==> current && !early)
                        && (r == Err(NotEligible) <==> current && early)
                        && (!current ==> r == Err(StatusConflict(db.TaskOf(t).status, Latest(db.runs, t))))))
            && (!authorization.OwnerStart? && p.expectedStatus.Failed? && p.expectedRunID > 0 && r.Err? ==>
                  r.error == if db.HasTask(t) then Conflict else NotFound)
            && (p.expectedStatus.Done? || p.expectedStatus.InProgress? ==> r.Err? && !IsConflict(r.error))
  {
    hide Latest;
  }

  /** A claim with a lease that is not positive, or an automatic claim that names no failed
      run, is a mistake of the caller and not a lost race. */
  lemma BadClaimsAreNoRaces(db: Db, p: StartParams, authorization: StartAuthorization, token: Token)
    requires p.lease <= 0 || (!authorization.OwnerStart? && (!p.expectedStatus.Failed? || p.expectedRunID == 0))
    ensures var (after, r) := StartAttempt(db, p, authorization, token);
            after == db && r.Err? && !IsConflict(r.error) && !r.error.NotFound? && !r.error.NotEligible?
  {
  }

  // ---- the owner's writes ----

  /** Only row id may differ. */
  predicate OnlyRow(db: Db, after: Db, id: nat)
  {
    && after.tasks == db.tasks && after.comments == db.comments && |after.runs| == |db.runs|
    && forall i :: 0 <= i < |db.runs| && i != id - 1 ==> after.runs[i] == db.runs[i]
  }

  /** A publication that is accepted writes three columns of the owner's row and no other. */
  lemma PublicationWritesProgress(
    db: Db, id: nat, token: Token, output: string, tokensUsed: int, checkpoint: SessionState, now: int)
    ensures var (after, ok) := UpdateProgress(db, id, token, output, tokensUsed, checkpoint, now);
            && (!ok ==> after == db)
            && (ok ==>
                  && db.HasRun(id) && OnlyRow(db, after, id)
                  && var row, was := after.RunOf(id), db.RunOf(id);
                  && row.output == output && row.tokensUsed == tokensUsed && row.checkpoint == Some(checkpoint)
                  && row == was.(output := row.output, tokensUsed := row.tokensUsed, checkpoint := row.checkpoint))
  {
  }

  /** A renewal that is accepted moves the lease of the owner's row to the database's time
      plus the duration, beyond that time, and writes nothing else. */
  lemma RenewalMovesTheLease(db: Db, id: nat, token: Token, duration: int, now: int)
    ensures var (after, ok) := RenewLease(db, id, token, duration, now);
            && (!ok ==> after == db)
            && (ok ==>
                  && db.HasRun(id) && OnlyRow(db, after, id)
                  && var row, was := after.RunOf(id), db.RunOf(id);
                  && row.leaseExpiresAt - now == duration > 0 && !Expired(row, now)
                  && row == was.(leaseExpiresAt := row.leaseExpiresAt))
  {
  }

  /** The owner of a running run, and only the owner, gets its writes accepted, and only
      before the lease expires: with another token, on another run's id, on a finalized run
      or after expiry, nothing changes. */
  lemma OnlyTheOwnerWrites(
    db: Db, id: nat, token: Token, output: string, tokensUsed: int, checkpoint: SessionState, duration: int, now: int)
    ensures var owns := db.HasRun(id) && db.RunOf(id).status.RunRunning? && db.RunOf(id).of.token == token
                        && !Expired(db.RunOf(id), now);
            && (UpdateProgress(db, id, token, output, tokensUsed, checkpoint, now).1 <==> owns)
            && (duration > 0 ==> (RenewLease(db, id, token, duration, now).1 <==> owns))
            && (!owns ==> UpdateProgress(db, id, token, output, tokensUsed, checkpoint, now).0 == db)
            && (!owns ==> RenewLease(db, id, token, duration, now).0 == db)
  {
  }

  // ---- finalization ----

  /** At any time a running run can be finalized by its owner or by recovery, never by both:
      the owner's guard and recovery's are complementary. */
  lemma GuardsAreComplementary(db: Db, p: FinishParams, now: int)
    requires db.HasRun(p.runID) && db.RunOf(p.runID).status.RunRunning? && db.RunOf(p.runID).of.taskID == p.taskID
    requires db.HasTask(p.taskID) && db.TaskOf(p.taskID).status.InProgress? && (p.author == "" <==> p.body == "")
    ensures FinishAttempt(db, p, ByRecovery, now).1.None? <==> Expired(db.RunOf(p.runID), now)
    ensures FinishAttempt(db, p, ByOwner, now).1.None? <==>
            !Expired(db.RunOf(p.runID), now) && p.token == db.RunOf(p.runID).of.token
    ensures FinishAttempt(db, p, ByOwner, now).1.None? ==>
              FinishAttempt(db, p, ByRecovery, now) == (db, Some(LeaseLost))
    ensures FinishAttempt(db, p, ByRecovery, now).1.None? ==>
              FinishAttempt(db, p, ByOwner, now) == (db, Some(LeaseLost))
  {
  }

  /** An accepted finalization writes the caller's values into the run, the task and, if there
      is one, the comment, all with one time; identity and lease of the run stay, and so does
      every other row. A refused one changes nothing, and says why: a lease that is lost is
      told apart from a task that is no longer in progress. */
  lemma FinishWritesTogether(db: Db, p: FinishParams, authorization: FinishAuthorization, now: int)
    ensures var (after, error) := FinishAttempt(db, p, authorization, now);
            && (error.Some? ==> after == db)
            && (error == Some(CommentIncomplete) <==> (p.author == "") != (p.body == ""))
            && (error == Some(Conflict) ==>
                  db.HasRun(p.runID) && db.RunOf(p.runID).status.RunRunning?
                  && (!db.HasTask(p.taskID) || !db.TaskOf(p.taskID).status.InProgress?))
            && (error.Some? ==> error.value.CommentIncomplete? || error.value.Conflict? || error.value.LeaseLost?)
            && (error.None? ==>
                  && db.HasRun(p.runID) && db.HasTask(p.taskID)
                  && |after.runs| == |db.runs| && |after.tasks| == |db.tasks|
                  && (forall i :: 0 <= i < |db.runs| && i != p.runID - 1 ==> after.runs[i] == db.runs[i])
                  && (forall u: nat :: db.HasTask(u) && u != p.taskID ==> after.TaskOf(u) == db.TaskOf(u))
                  && after.TaskOf(p.taskID).continuation == p.completion.continuation
                  && var row, was := after.RunOf(p.runID), db.RunOf(p.runID);
                  && row.of == was.of && row.leaseExpiresAt == was.leaseExpiresAt && row.error == p.error
                  && row.output == p.output && row.tokensUsed == p.tokensUsed && row.checkpoint == Some(p.checkpoint)
                  && row.finishedAt == Some(p.finishedAt)
                  && after.comments == db.comments +
                     if p.author == "" then [] else [Comment(p.taskID, p.author, p.body, p.finishedAt)])
  {
    hide TerminalStateOf;
  }
}
