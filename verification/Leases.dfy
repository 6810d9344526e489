/** What a lease is worth: from its renewal, or its claim, until it expires, nobody can take
    the run away from its owner. */
module Leases {
  import opened Base
  import opened Domain
  import opened Plans
  import opened Agent
  import opened Driving
  import opened Store
  import opened Runner
  import opened Protocol
  import opened Invariant
  import opened Steps
  import opened Fencing
  import opened Recoveries
  import opened Takeover
  import opened StoreAnswers

  /** Run i + 1 is running, with this identity and this lease. */
  predicate Holds(runs: seq<Run>, i: nat, of: Identity, lease: int)
  {
    i < |runs| && runs[i].status.RunRunning? && runs[i].of == of && runs[i].leaseExpiresAt == lease
  }

  /** The owner of run i + 1 moves its own lease, or finalizes its run. */
  predicate EndsTheSpan(a: Action, i: nat)
  {
    (a.Renew? && a.run == i) || (a.Finish? && a.run == i)
  }

  lemma ClaimKeepsHold(
    db: Db, p: StartParams, authorization: StartAuthorization, token: Token, i: nat, of: Identity, lease: int)
    requires Holds(db.runs, i, of, lease)
    ensures Holds(StartAttempt(db, p, authorization, token).0.runs, i, of, lease)
  {
    ClaimReturnsItsRun(db, p, authorization, token);
    hide StartAttempt;
    var after := StartAttempt(db, p, authorization, token).0;
    assert |after.runs| > |db.runs| ==> after.runs[..|db.runs|][i] == after.runs[i];
  }

  lemma PublicationKeepsHold(
    db: Db, id: nat, token: Token, output: string, used: int, c: SessionState, now: int,
    i: nat, of: Identity, lease: int)
    requires Holds(db.runs, i, of, lease)
    ensures Holds(UpdateProgress(db, id, token, output, used, c, now).0.runs, i, of, lease)
  {
  }

  lemma RenewalKeepsHold(db: Db, id: nat, token: Token, duration: int, now: int, i: nat, of: Identity, lease: int)
    requires Holds(db.runs, i, of, lease) && id != i + 1
    ensures Holds(RenewLease(db, id, token, duration, now).0.runs, i, of, lease)
  {
  }

  /** Finalization touches the run it names, and recovery none whose lease holds. */
  lemma FinishKeepsHold(
    db: Db, p: FinishParams, authorization: FinishAuthorization, now: int, i: nat, of: Identity, lease: int)
    requires Holds(db.runs, i, of, lease) && (p.runID != i + 1 || (authorization.ByRecovery? && now < lease))
    ensures Holds(FinishAttempt(db, p, authorization, now).0.runs, i, of, lease)
  {
  }

  lemma OwnersKeepHold(s: System, a: Action, i: nat, of: Identity, lease: int)
    requires Holds(s.db.runs, i, of, lease) && !EndsTheSpan(a, i) && (a.PublishBinding? || a.Renew? || a.Commit?)
    ensures Holds(Next(s, a).db.runs, i, of, lease)
  {
    hide UpdateProgress, RenewLease, Holds, Advance;
    match a {
      case PublishBinding(j) =>
        if j < |s.owners| && j < |s.db.runs| && s.owners[j].Bound? {
          var c := s.owners[j].session;
          PublicationKeepsHold(s.db, j + 1, s.db.runs[j].of.token, "", c.used, c, s.now, i, of, lease);
        }
      case Renew(j, duration) =>
        if j < |s.owners| && j < |s.db.runs| && !s.owners[j].Gone? && j != i {
          RenewalKeepsHold(s.db, j + 1, s.db.runs[j].of.token, duration, s.now, i, of, lease);
        }
      case Commit(j, cancelled, time) =>
        if MayCommit(s, j) {
          var move := Advance(s.owners[j].session, cancelled, time);
          PublicationKeepsHold(s.db, j + 1, s.db.runs[j].of.token, Join(Extend(s.owners[j].lines, move.line), "\n"),
                               move.state.used, move.state, s.now, i, of, lease);
        }
    }
  }

  lemma StepKeepsHold(s: System, a: Action, i: nat, of: Identity, lease: int)
    requires Holds(s.db.runs, i, of, lease) && s.now < lease && !EndsTheSpan(a, i)
    ensures Holds(Next(s, a).db.runs, i, of, lease)
  {
    hide StartAttempt, FinishAttempt, Holds, DoPublishBinding, DoRenew, DoCommit;
    hide Advance, RecoveryParams, Reconcile, PlannedSteps, Start, BindAttempt, ClaimParams, Terminalize;
    hide ResumeCandidate, PrepareResume, Unscheduled;
    match a {
      case Claim(k, startedAt, duration, token) =>
        if k < |s.snapshots| {
          var snap := s.snapshots[k];
          var p := ClaimParams(snap.taskID, snap.status, snap.previousRun, snap.session, startedAt, duration);
          ClaimKeepsHold(s.db, p, AuthorizationOf(snap.kind), token, i, of, lease);
        }
      case PublishBinding(_) => OwnersKeepHold(s, a, i, of, lease);
      case Renew(_, _) => OwnersKeepHold(s, a, i, of, lease);
      case Commit(_, _, _) => OwnersKeepHold(s, a, i, of, lease);
      case Finish(j, time, resetInterval, text) =>
        if j < |s.owners| && j < |s.db.runs| && s.owners[j].Live? && j != i {
          hide FinishCall;
          FinishKeepsHoldByOwner(s, j, time, resetInterval, text, i, of, lease);
        }
      case Recover(r, time, resetInterval) =>
        if MayRecover(s, r) {
          hide RecoverCall;
          FinishKeepsHoldByRecovery(s, r, time, resetInterval, i, of, lease);
        }
      case _ =>
    }
  }

  lemma FinishKeepsHoldByOwner(
    s: System, j: nat, time: int, resetInterval: int, text: string, i: nat, of: Identity, lease: int)
    requires j < |s.owners| && j < |s.db.runs| && s.owners[j].Live? && j != i && Holds(s.db.runs, i, of, lease)
    ensures Holds(FinishAttempt(s.db, FinishCall(s, j, time, resetInterval, text), ByOwner, s.now).0.runs, i, of, lease)
  {
    hide FinishAttempt, Holds, Terminalize;
    FinishKeepsHold(s.db, FinishCall(s, j, time, resetInterval, text), ByOwner, s.now, i, of, lease);
  }

  lemma FinishKeepsHoldByRecovery(s: System, r: nat, time: int, resetInterval: int, i: nat, of: Identity, lease: int)
    requires MayRecover(s, r) && Holds(s.db.runs, i, of, lease) && s.now < lease
    ensures Holds(FinishAttempt(s.db, RecoverCall(s, r, time, resetInterval), ByRecovery, s.now).0.runs, i, of, lease)
  {
    hide RecoverCall, FinishAttempt, Holds;
    FinishKeepsHold(s.db, RecoverCall(s, r, time, resetInterval), ByRecovery, s.now, i, of, lease);
  }

  /** From state s on the clock stays before this time. */
  predicate StaysBefore(s: System, later: seq<Action>, time: int)
  {
    forall n :: 0 <= n <= |later| ==> Play(s, later[..n]).now < time
  }

  lemma {:induction false} HoldStays(s: System, later: seq<Action>, i: nat, of: Identity, lease: int)
    requires Holds(s.db.runs, i, of, lease) && StaysBefore(s, later, lease)
    requires forall n :: 0 <= n < |later| ==> !EndsTheSpan(later[n], i)
    ensures Holds(Play(s, later).db.runs, i, of, lease)
  {
    hide Next, Holds;
    if |later| > 0 {
      var n := |later| - 1;
      forall m | 0 <= m <= n ensures later[..n][..m] == later[..m] {
      }
      assert Play(s, later[..n]).now < lease;
      HoldStays(s, later[..n], i, of, lease);
      StepKeepsHold(Play(s, later[..n]), later[n], i, of, lease);
    }
  }

  /** The run is its owner's alone: it is not expired, what the owner publishes or finalizes
      is accepted, and no recovery of it has any effect. */
  predicate OwnersAlone(s: System, i: nat)
  {
    && i < |s.db.runs| && s.db.runs[i].status.RunRunning? && !Expired(s.db.runs[i], s.now)
    && s.db.HasTask(s.db.runs[i].of.taskID) && s.db.TaskOf(s.db.runs[i].of.taskID).status.InProgress?
  }

  /** What OwnersAlone is worth. */
  lemma OwnersAloneMeans(
    s: System, i: nat, output: string, used: int, c: SessionState, p: FinishParams,
    r: nat, time: int, resetInterval: int)
    requires OwnersAlone(s, i)
    ensures UpdateProgress(s.db, i + 1, s.db.runs[i].of.token, output, used, c, s.now).1
    ensures p.runID == i + 1 && p.taskID == s.db.runs[i].of.taskID && (p.author == "" <==> p.body == "") ==>
      && FinishAttempt(s.db, p, ByRecovery, s.now) == (s.db, Some(LeaseLost))
      && (p.token == s.db.runs[i].of.token ==> FinishAttempt(s.db, p, ByOwner, s.now).1.None?)
    ensures r < |s.recoveries| && s.recoveries[r].id == i + 1 ==> Next(s, Recover(r, time, resetInterval)) == s
  {
    if r < |s.recoveries| && s.recoveries[r].id == i + 1 && MayRecover(s, r) {
      RecoveryNames(s, r, time, resetInterval);
      hide RecoverCall;
    }
  }

  /** A lease that holds, of a run of any reached state, makes the run its owner's alone
      through every further history whose clock stays before it, until the owner itself
      finalizes the run or moves the lease. */
  lemma LeaseHolds(s: System, later: seq<Action>, i: nat)
    requires Inv(s) && i < |s.db.runs| && s.db.runs[i].status.RunRunning?
    requires StaysBefore(s, later, s.db.runs[i].leaseExpiresAt)
    requires forall n :: 0 <= n < |later| ==> !EndsTheSpan(later[n], i)
    ensures OwnersAlone(Play(s, later), i) && Play(s, later).db.runs[i].of == s.db.runs[i].of
    ensures Play(s, later).db.runs[i].leaseExpiresAt == s.db.runs[i].leaseExpiresAt
  {
    HoldStays(s, later, i, s.db.runs[i].of, s.db.runs[i].leaseExpiresAt);
    InvariantStays(s, later);
    assert later[..|later|] == later;
    var t := Play(s, later);
    assert t.now < s.db.runs[i].leaseExpiresAt;
    hide Play, Inv;
    RunningTask(t, i);
  }

  /** Every accepted renewal buys its full duration. Let the owner of run i + 1 renew at
      database time n for d, in any reached state; then through every further history whose
      clock stays before n + d the run is its owner's alone, until the owner itself finalizes
      it or renews again. */
  lemma RenewalHoldsTheRun(actions: seq<Action>, i: nat, duration: int, later: seq<Action>)
    requires var s := After(actions);
             && i < |s.db.runs| && i < |s.owners| && !s.owners[i].Gone?
             && RenewLease(s.db, i + 1, s.db.runs[i].of.token, duration, s.now).1
    requires StaysBefore(Next(After(actions), Renew(i, duration)), later, After(actions).now + duration)
    requires forall n :: 0 <= n < |later| ==> !EndsTheSpan(later[n], i)
    ensures OwnersAlone(Play(Next(After(actions), Renew(i, duration)), later), i)
  {
    hide *;
    AfterIsInvariant(actions);
    RenewedLeaseHolds(After(actions), i, duration, later);
  }

  lemma AfterIsInvariant(actions: seq<Action>)
    ensures Inv(After(actions))
  {
    hide Inv, Play;
    InvariantAlways(actions);
  }

  lemma RenewedLeaseHolds(s: System, i: nat, duration: int, later: seq<Action>)
    requires Inv(s) && i < |s.db.runs| && i < |s.owners| && !s.owners[i].Gone?
    requires RenewLease(s.db, i + 1, s.db.runs[i].of.token, duration, s.now).1
    requires StaysBefore(Next(s, Renew(i, duration)), later, s.now + duration)
    requires forall n :: 0 <= n < |later| ==> !EndsTheSpan(later[n], i)
    ensures OwnersAlone(Play(Next(s, Renew(i, duration)), later), i)
  {
    hide *;
    RenewedRuns(s, i, duration);
    NextKeepsInvariant(s, Renew(i, duration));
    LeaseHolds(Next(s, Renew(i, duration)), later, i);
  }

  lemma RenewedRuns(s: System, i: nat, duration: int)
    requires i < |s.db.runs| && i < |s.owners| && !s.owners[i].Gone?
    requires RenewLease(s.db, i + 1, s.db.runs[i].of.token, duration, s.now).1
    ensures var t := Next(s, Renew(i, duration));
            i < |t.db.runs| && t.db.runs[i].status.RunRunning? && t.db.runs[i].leaseExpiresAt == s.now + duration
  {
  }
}
