/** The scheduler loop (internal/server/server.go): initialize, recover, then continue. */
module Server {
  import opened Base
  import opened Domain
  import opened Agent
  import opened Store
  import opened Repo

  /** What one pass of Run does or waits for. */
  datatype Work =
    | Initialized(taskID: nat)
    | RecoverRun(id: nat)
    | Idle(wait: int)
    | WaitFor(selection: Selection, wait: int)
    | ContinueWith(selection: Selection)

  /** How many of the first n tasks are unscheduled. */
  function Backlog(db: Db, n: nat): nat
  {
    if n == 0 then 0 else Backlog(db, n - 1) + if Unscheduled(db, n) then 1 else 0
  }

  /** With a positive interval a late decision is never empty. This is why the interval must
      be positive: otherwise the task would be found unscheduled again on every pass. */
  lemma LateDecisionIsFinal(run: Run, resetInterval: int)
    requires run.finishedAt.Some?
    ensures LateDecision(run, resetInterval).NoContinuation? <==> resetInterval <= 0
    ensures resetInterval > 0 ==>
      LateDecision(run, resetInterval).EligibleAt() == Some(run.finishedAt.value + resetInterval)
      && (LateDecision(run, resetInterval).Scheduled? <==> run.tokensUsed > 0)
  {
  }

  lemma {:induction false} BacklogShrinks(before: Db, after: Db, t: nat, n: nat)
    requires before.runs == after.runs && |before.tasks| == |after.tasks|
    requires Unscheduled(before, t) && !Unscheduled(after, t)
    requires forall u: nat :: u != t ==> (Unscheduled(before, u) <==> Unscheduled(after, u))
    ensures Backlog(after, n) == Backlog(before, n) - if n >= t then 1 else 0
  {
    if n > 0 {
      BacklogShrinks(before, after, t, n - 1);
    }
  }

  /** Some of the tasks unscheduled in first have been given the decision owed to them. */
  predicate PartlyScheduled(first: Db, db: Db, resetInterval: int)
  {
    && db.runs == first.runs && |db.tasks| == |first.tasks|
    && (forall t: nat :: 1 <= t <= |first.tasks| ==>
          db.TaskOf(t) == first.TaskOf(t)
          || (Unscheduled(first, t) && db.TaskOf(t) == Task(Failed, Owed(first, t, resetInterval))))
  }

  lemma InitializeAdvances(first: Db, before: Db, after: Db, t: nat, resetInterval: int)
    requires resetInterval > 0 && PartlyScheduled(first, before, resetInterval) && Unscheduled(before, t)
    requires after == WriteDecision(before, t, Owed(before, t, resetInterval)).0
    ensures PartlyScheduled(first, after, resetInterval)
    ensures Backlog(after, |after.tasks|) < Backlog(before, |before.tasks|)
  {
    LateDecisionIsFinal(before.RunOf(Latest(before.runs, t)), resetInterval);
    forall u: nat | u != t ensures Unscheduled(before, u) <==> Unscheduled(after, u) {
      assert before.HasTask(u) ==> after.TaskOf(u) == before.TaskOf(u);
    }
    BacklogShrinks(before, after, t, |before.tasks|);
  }

  lemma FullyScheduled(first: Db, db: Db, resetInterval: int, t: nat)
    requires resetInterval > 0 && PartlyScheduled(first, db, resetInterval)
    requires !Unscheduled(db, t) && 1 <= t <= |first.tasks|
    ensures db.TaskOf(t) == if Unscheduled(first, t) then Task(Failed, Owed(first, t, resetInterval))
                            else first.TaskOf(t)
  {
  }

  class Scheduler {
    const repo: AttemptRepo
    const resetInterval: int
    const scanInterval: int

    constructor (repo: AttemptRepo, resetInterval: int, scanInterval: int)
      requires resetInterval > 0 && scanInterval > 0
      ensures this.repo == repo && this.resetInterval == resetInterval && this.scanInterval == scanInterval
    {
      this.repo, this.resetInterval, this.scanInterval := repo, resetInterval, scanInterval;
    }

    /** server.New, which refuses intervals that are not positive. */
    static method New(repo: AttemptRepo, resetInterval: int, scanInterval: int) returns (r: Result<Scheduler, string>)
      ensures r.Ok? <==> resetInterval > 0 && scanInterval > 0
      ensures r.Ok? ==>
        r.value.repo == repo && r.value.resetInterval == resetInterval && r.value.scanInterval == scanInterval
    {
      if resetInterval <= 0 {
        return Err("reset interval must be positive");
      }
      if scanInterval <= 0 {
        return Err("scan interval must be positive");
      }
      var scheduler := new Scheduler(repo, resetInterval, scanInterval);
      return Ok(scheduler);
    }

    /** One pass of Run up to its choice of work. Between the read and the write of its
        initialization other processes may have left the tables as meanwhile says; if they
        have overtaken the write, the pass goes on to recovery. */
    method Scan(now: int, clock: int, meanwhile: Option<Db>) returns (work: Work)
      modifies repo
      ensures match work
        case Initialized(t) =>
          && old(Unscheduled(repo.Contents(), t))
          && (repo.Contents(), true) == WriteDecision(
               if meanwhile.Some? then meanwhile.value else old(repo.Contents()), t,
                   old(Owed(repo.Contents(), t, resetInterval)))
        case RecoverRun(id) => 1 <= id <= |repo.runs| && Expired(repo.runs[id - 1], now)
        case Idle(wait) =>
          && wait == scanInterval
          && (forall i :: 0 <= i < |repo.runs| ==> !Expired(repo.runs[i], now))
          && (forall t: nat :: !Continuable(repo.Contents(), t))
        case WaitFor(sel, wait) =>
          && Continuable(repo.Contents(), sel.taskID) && clock < sel.eligibleAt
          && wait <= scanInterval && clock + wait <= sel.eligibleAt
          && (wait == scanInterval || clock + wait == sel.eligibleAt)
          && (forall i :: 0 <= i < |repo.runs| ==> !Expired(repo.runs[i], now))
        case ContinueWith(sel) =>
          && Continuable(repo.Contents(), sel.taskID) && sel.eligibleAt <= clock
          && sel.runID == Latest(repo.runs, sel.taskID) && sel.exit == repo.runs[sel.runID - 1].exit
          && (forall i :: 0 <= i < |repo.runs| ==> !Expired(repo.runs[i], now))
      ensures !work.Initialized? ==>
        || (unchanged(repo) && forall t: nat :: !Unscheduled(repo.Contents(), t))
        || (meanwhile.Some? && repo.Contents() == meanwhile.value
            && exists t: nat ::
                 old(Unscheduled(repo.Contents(), t)) && !WriteDecision(meanwhile.value, t, NoContinuation).1)
    {
      hide LateDecision;
      var initialized := repo.InitializeUnscheduled(resetInterval, meanwhile);
      if initialized.Initialized? {
        return Work.Initialized(initialized.taskID);
      }
      var expired := repo.NextExpired(now);
      if expired.Some? {
        return RecoverRun(expired.value);
      }
      var next := repo.Next();
      if next.None? {
        return Idle(scanInterval);
      }
      var untilEligible := next.value.eligibleAt - clock;
      if untilEligible > 0 {
        return WaitFor(next.value, if untilEligible < scanInterval then untilEligible else scanInterval);
      }
      return ContinueWith(next.value);
    }

    /** Run's passes, with no other process in between, until one does more than initialize.
        The loop ends: each initialization
        takes a task off the backlog for good. By then every task that was unscheduled holds
        the decision owed to it, and no other task has changed. */
    method ScanUntilWork(now: int, clock: int) returns (work: Work)
      requires resetInterval > 0
      modifies repo
      ensures !work.Initialized?
      ensures repo.runs == old(repo.runs) && |repo.tasks| == |old(repo.tasks)|
      ensures forall t: nat :: !Unscheduled(repo.Contents(), t)
      ensures forall t: nat :: 1 <= t <= |repo.tasks| ==>
        repo.Contents().TaskOf(t) ==
        if old(Unscheduled(repo.Contents(), t)) then Task(Failed, old(Owed(repo.Contents(), t, resetInterval)))
        else old(repo.Contents()).TaskOf(t)
    {
      hide Unscheduled, WriteDecision, Owed, Backlog, Continuable;
      ghost var first := repo.Contents();
      ghost var seen := first;
      work := Scan(now, clock, None);
      while work.Initialized?
        invariant PartlyScheduled(first, seen, resetInterval)
        invariant match work
          case Initialized(t) =>
            Unscheduled(seen, t) && repo.Contents() == WriteDecision(seen, t, Owed(seen, t, resetInterval)).0
          case _ => repo.Contents() == seen && forall t: nat :: !Unscheduled(seen, t)
        decreases work.Initialized?, Backlog(seen, |seen.tasks|)
      {
        InitializeAdvances(first, seen, repo.Contents(), work.taskID, resetInterval);
        seen := repo.Contents();
        work := Scan(now, clock, None);
      }
      forall t: nat | 1 <= t <= |first.tasks|
        ensures seen.TaskOf(t) == if Unscheduled(first, t) then Task(Failed, Owed(first, t, resetInterval))
                                  else first.TaskOf(t)
      {
        FullyScheduled(first, seen, resetInterval, t);
      }
    }
  }
}
