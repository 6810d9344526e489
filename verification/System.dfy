/** The whole protocol as a state machine: one database, its clock, the compatibility files,
    and any number of executors, resuming callers, recovering servers and schedulers, each of
    which may pause between two store operations or disappear. */
module Protocol {
  import opened Base
  import opened Domain
  import opened Plans
  import opened Agent
  import opened Driving
  import opened Store
  import opened Runner

  /** The executor that claimed a run: it holds the claim, it has bound its session to the
      run, it drives the run loop, or it is gone. An unsaved session has been committed (or
      bound) and not yet written to the compatibility file. */
  datatype Owner =
    | Claimed(session: SessionState)
    | Bound(session: SessionState, unsaved: bool)
    | Live(session: SessionState, lines: seq<string>, unsaved: bool)
    | Gone

  /** What a caller of Execute or Resume holds between its snapshot and its claim. */
  datatype Snapshot = Snapshot(taskID: nat, status: TaskStatus, previousRun: nat,
      kind: ResumeKind, session: SessionState)

  /** What a recovering server holds: the row NextExpired returned, then the session it
      reconciled, with the compatibility file if that is where the session came from. */
  datatype Recovery =
    | Sighted(id: nat, run: Run)
    | Reconciled(id: nat, run: Run, session: SessionState, file: Option<SessionState>, unsaved: bool)

  /** What InitializeUnscheduled holds between its read and its write: the task and the
      decision. For stating properties also the run it read and the interval it used. */
  datatype LateWrite = LateWrite(taskID: nat, decision: Continuation, runID: nat, resetInterval: int)

  /** History of a run, for stating properties: the predecessor its claim named, by which
      kind of claim, with which window and armed error; and how it was finalized. */
  datatype Birth = Birth(pred: nat, kind: ResumeKind, origin: WindowOrigin, armed: nat)
  datatype Closing = Closing(resetInterval: int, continuation: Continuation, file: Option<SessionState>)
  datatype Trail = Trail(birth: Birth, closing: Option<Closing>)

  datatype System = System(
    db: Db,
    now: int,                   // the database's clock
    steady: bool,               // history: that clock has never gone back
    plans: seq<Plan>,           // history: the plan each session was started with
    files: seq<SessionState>,   // compatibility files, by session id
    owners: seq<Owner>,         // owners[i] claimed run i + 1
    trail: seq<Trail>,          // history of run i + 1
    snapshots: seq<Snapshot>,   // every snapshot ever taken; a stale one may still be used
    recoveries: seq<Recovery>,
    lateWrites: seq<LateWrite>)

  const INITIAL: System := System(EMPTY, 0, true, [], [], [], [], [], [], [])

  datatype Action =
    | AddTask
    | SetClock(time: int)
    | Execute(taskID: nat, h: Word, count: nat, title: string, feedback: seq<string>, budget: nat, failAt: nat)
    | Resume(taskID: nat, kind: ResumeKind, expectedRunID: nat, time: int)
    | Claim(snapshot: nat, startedAt: int, lease: int, token: Token)
    | Bind(run: nat)
    | Save(run: nat)
    | PublishBinding(run: nat)
    | Renew(run: nat, duration: int)
    | Commit(run: nat, cancelled: bool, time: int)
    | Finish(run: nat, time: int, resetInterval: int, interruptionError: string)
    | Crash(run: nat)
    | Sight(run: nat)
    | Load(recovery: nat)
    | SaveRecovery(recovery: nat)
    | Recover(recovery: nat, time: int, resetInterval: int)
    | SeeUnscheduled(taskID: nat, resetInterval: int)
    | WriteLate(write: nat)

  // In the functions below i is the position of a run: run id i + 1.

  function DoExecute(
    s: System, t: nat, h: Word, count: nat, title: string, feedback: seq<string>, budget: nat, failAt: nat): System
  {
    if !s.db.HasTask(t) || !s.db.TaskOf(t).status.Todo? then s
    else
      var plan := Plan(title, feedback, PlannedSteps(h, count, feedback), budget, failAt);
      var session := Start(|s.plans|, plan);
      s.(plans := s.plans + [plan],
         files := s.files + [session],
         snapshots := s.snapshots + [Snapshot(t, Todo, 0, ManualResume, session)])
  }

  function DoResume(s: System, t: nat, kind: ResumeKind, expectedRunID: nat, time: int): System
  {
    var candidate := ResumeCandidate(s.db, t);
    if candidate.None? then s
    else
      var c := candidate.value;
      var file := if c.sessionID < |s.files| then Some(s.files[c.sessionID]) else None;
      match PrepareResume(c, kind, expectedRunID, time, file)
      case Err(_) => s
      case Ok(session) => s.(snapshots := s.snapshots + [Snapshot(t, Failed, c.runID, kind, session)])
  }

  function DoClaim(s: System, k: nat, startedAt: int, lease: int, token: Token): System
  {
    if k >= |s.snapshots| then s
    else
      var snap := s.snapshots[k];
      var params := ClaimParams(snap.taskID, snap.status, snap.previousRun, snap.session, startedAt, lease);
      var (db, result) := StartAttempt(s.db, params, AuthorizationOf(snap.kind), token);
      if result.Err? then s
      else
        s.(db := db,
           owners := s.owners + [Claimed(snap.session)],
           trail := s.trail + [Trail(Birth(snap.previousRun, snap.kind, snap.session.origin, snap.session.erroredAt),
               None)])
  }

  function DoBind(s: System, i: nat): System
  {
    if i >= |s.owners| || i >= |s.db.runs| || !s.owners[i].Claimed? then s
    else
      var bound := BindAttempt(s.owners[i].session, i + 1, s.db.runs[i].of.token);
      s.(owners := s.owners[i := Bound(bound, true)])
  }

  function DoSave(s: System, i: nat): System
  {
    if i >= |s.owners| || !(s.owners[i].Bound? || s.owners[i].Live?) || !s.owners[i].unsaved
       || s.owners[i].session.id >= |s.files|
    then s
    else
      var session := s.owners[i].session;
      s.(files := s.files[session.id := session], owners := s.owners[i := s.owners[i].(unsaved := false)])
  }

  function DoPublishBinding(s: System, i: nat): System
  {
    if i >= |s.owners| || i >= |s.db.runs| || !s.owners[i].Bound? || s.owners[i].unsaved then s
    else
      var session := s.owners[i].session;
      var (db, ok) := UpdateProgress(s.db, i + 1, s.db.runs[i].of.token, "", session.used, session, s.now);
      s.(db := db, owners := s.owners[i := if ok then Live(session, [], false) else Gone])
  }

  function DoRenew(s: System, i: nat, duration: int): System
  {
    if i >= |s.owners| || i >= |s.db.runs| || s.owners[i].Gone? then s
    else s.(db := RenewLease(s.db, i + 1, s.db.runs[i].of.token, duration, s.now).0)
  }

  predicate MayCommit(s: System, i: nat)
  {
    && i < |s.owners| && i < |s.db.runs|
    && s.owners[i].Live? && !s.owners[i].unsaved
    && !s.owners[i].session.halt.Terminal()
    && s.owners[i].session.next <= |s.owners[i].session.steps|
  }

  function DoCommit(s: System, i: nat, cancelled: bool, time: int): System
  {
    if !MayCommit(s, i) then s
    else
      var move := Advance(s.owners[i].session, cancelled, time);
      var lines := Extend(s.owners[i].lines, move.line);
      var (db, ok) := UpdateProgress(
        s.db, i + 1, s.db.runs[i].of.token, Join(lines, "\n"), move.state.used, move.state, s.now);
      s.(db := db, owners := s.owners[i := if ok then Live(move.state, lines, true) else Gone])
  }

  /** runAttempt's call of FinishAttempt. Its startStep is the session's position when the
      loop began, which is where binding put the session's start. */
  function FinishCall(s: System, i: nat, time: int, resetInterval: int, interruptionError: string): FinishParams
    requires i < |s.owners| && i < |s.db.runs| && s.owners[i].Live?
  {
    var session := s.owners[i].session;
    OwnerParams(i + 1, s.db.runs[i].of, session, s.owners[i].lines, session.start, time,
        resetInterval, interruptionError)
  }

  function DoFinish(s: System, i: nat, time: int, resetInterval: int, interruptionError: string): System
  {
    if i >= |s.owners| || i >= |s.db.runs| || i >= |s.trail| || !s.owners[i].Live? || s.owners[i].unsaved
       || !s.owners[i].session.halt.Terminal()
    then s
    else
      var params := FinishCall(s, i, time, resetInterval, interruptionError);
      var (db, error) := FinishAttempt(s.db, params, ByOwner, s.now);
      s.(db := db,
         owners := s.owners[i := Gone],
         trail := if error.Some? then s.trail
                  else s.trail[i :=
                      s.trail[i].(closing := Some(Closing(resetInterval, params.completion.continuation, None)))])
  }

  function DoSight(s: System, i: nat): System
  {
    if i >= |s.db.runs| || !Expired(s.db.runs[i], s.now) then s
    else s.(recoveries := s.recoveries + [Sighted(i + 1, s.db.runs[i])])
  }

  function DoLoad(s: System, r: nat): System
  {
    if r >= |s.recoveries| || !s.recoveries[r].Sighted? then s
    else
      var id, run := s.recoveries[r].id, s.recoveries[r].run;
      var file := if run.checkpoint.None? && run.of.sessionID < |s.files| then Some(s.files[run.of.sessionID])
                  else None;
      var source := if run.checkpoint.Some? then run.checkpoint else file;
      if source.None? then s
      else
        match Reconcile(source.value, id, run.of)
        case Err(_) => s
        case Ok(session) =>
          s.(recoveries := s.recoveries[r := Reconciled(id, run, session, file, source.value.runID != id)])
  }

  function DoSaveRecovery(s: System, r: nat): System
  {
    if r >= |s.recoveries| || !s.recoveries[r].Reconciled? || !s.recoveries[r].unsaved
       || s.recoveries[r].session.id >= |s.files|
    then s
    else
      var session := s.recoveries[r].session;
      s.(files := s.files[session.id := session], recoveries := s.recoveries[r := s.recoveries[r].(unsaved := false)])
  }

  predicate MayRecover(s: System, r: nat)
  {
    && r < |s.recoveries| && s.recoveries[r].Reconciled? && !s.recoveries[r].unsaved
    && s.recoveries[r].session.next <= |s.recoveries[r].session.steps|
    && 1 <= s.recoveries[r].id <= |s.trail|
  }

  /** RecoverExpired's call of RecoverExpiredAttempt. */
  function RecoverCall(s: System, r: nat, time: int, resetInterval: int): FinishParams
    requires MayRecover(s, r)
  {
    var rec := s.recoveries[r];
    RecoveryParams(rec.id, rec.run.of, rec.session, resetInterval, time)
  }

  function DoRecover(s: System, r: nat, time: int, resetInterval: int): System
  {
    if !MayRecover(s, r) then s
    else
      var rec := s.recoveries[r];
      var params := RecoverCall(s, r, time, resetInterval);
      var (db, error) := FinishAttempt(s.db, params, ByRecovery, s.now);
      if error.Some? then s
      else
        var closing := Closing(resetInterval, params.completion.continuation, rec.file);
        s.(db := db, trail := s.trail[rec.id - 1 := s.trail[rec.id - 1].(closing := Some(closing))])
  }

  function DoSeeUnscheduled(s: System, t: nat, resetInterval: int): System
  {
    if !Unscheduled(s.db, t) then s
    else
      var id := Latest(s.db.runs, t);
      s.(lateWrites := s.lateWrites + [LateWrite(t, LateDecision(s.db.RunOf(id), resetInterval), id, resetInterval)])
  }

  function DoWriteLate(s: System, k: nat): System
  {
    if k >= |s.lateWrites| then s
    else s.(db := WriteDecision(s.db, s.lateWrites[k].taskID, s.lateWrites[k].decision).0)
  }

  /** One step. An action that is not enabled changes nothing. */
  function Next(s: System, a: Action): System
  {
    match a
    case AddTask => s.(db := s.db.(tasks := s.db.tasks + [Task(Todo, NoContinuation)]))
    case SetClock(time) => s.(now := time, steady := s.steady && s.now <= time)
    case Execute(t, h, count, title, feedback, budget, failAt) =>
        DoExecute(s, t, h, count, title, feedback, budget, failAt)
    case Resume(t, kind, expected, time) => DoResume(s, t, kind, expected, time)
    case Claim(k, startedAt, lease, token) => DoClaim(s, k, startedAt, lease, token)
    case Bind(i) => DoBind(s, i)
    case Save(i) => DoSave(s, i)
    case PublishBinding(i) => DoPublishBinding(s, i)
    case Renew(i, duration) => DoRenew(s, i, duration)
    case Commit(i, cancelled, time) => DoCommit(s, i, cancelled, time)
    case Finish(i, time, resetInterval, text) => DoFinish(s, i, time, resetInterval, text)
    case Crash(i) => if i < |s.owners| then s.(owners := s.owners[i := Gone]) else s
    case Sight(i) => DoSight(s, i)
    case Load(r) => DoLoad(s, r)
    case SaveRecovery(r) => DoSaveRecovery(s, r)
    case Recover(r, time, resetInterval) => DoRecover(s, r, time, resetInterval)
    case SeeUnscheduled(t, resetInterval) => DoSeeUnscheduled(s, t, resetInterval)
    case WriteLate(k) => DoWriteLate(s, k)
  }

  /** The state after a whole history of actions. */
  function Play(s: System, actions: seq<Action>): System
  {
    if |actions| == 0 then s else Next(Play(s, actions[..|actions| - 1]), actions[|actions| - 1])
  }
}
