/** Every action keeps the invariant. */
module Preservation {
  import opened Base
  import opened Domain
  import opened Plans
  import opened Agent
  import opened Driving
  import opened Store
  import opened Runner
  import opened Protocol
  import opened Invariant

  // ---- what steps never change ----

  /** Rows are only added; a row keeps its identity, its birth
      and the fact of having a checkpoint; a finalized row and its
      history never change; plans and tasks are only added. */
  predicate Evolves(s: System, t: System)
    requires Shape(s) && Shape(t)
  {
    && |s.db.runs| <= |t.db.runs|
    && (forall i :: 0 <= i < |s.db.runs| ==> KeepsRun(s.db.runs[i], s.trail[i], t.db.runs[i], t.trail[i]))
    && s.plans <= t.plans
    && |s.db.tasks| <= |t.db.tasks|
  }

  predicate KeepsRun(a: Run, at: Trail, b: Run, bt: Trail)
  {
    && a.of == b.of && at.birth == bt.birth && (a.checkpoint.Some? ==> b.checkpoint.Some?)
    && (!a.status.RunRunning? ==> a == b && at == bt)
  }

  lemma LinkEvolves(s: System, t: System, i: nat)
    requires Shape(s) && Shape(t) && Evolves(s, t)
    requires i < |s.db.runs| && LinkOk(s, i)
    ensures LinkOk(t, i)
  {
    hide Succeeds, FirstAttempt;
    var task := s.db.runs[i].of.taskID;
    assert KeepsRun(s.db.runs[i], s.trail[i], t.db.runs[i], t.trail[i]);
    forall j | 0 <= j < i ensures s.db.runs[..i][j].of.taskID == t.db.runs[..i][j].of.taskID {
      assert KeepsRun(s.db.runs[j], s.trail[j], t.db.runs[j], t.trail[j]);
    }
    LatestAgrees(s.db.runs[..i], t.db.runs[..i], task);
    var pred := s.trail[i].birth.pred;
    if pred != 0 {
      assert KeepsRun(s.db.runs[pred - 1], s.trail[pred - 1], t.db.runs[pred - 1], t.trail[pred - 1]);
      SucceedsFinalized(s.db.runs[i].of, s.trail[i].birth, s.db.runs[pred - 1], s.trail[pred - 1],
          s.plans[s.db.runs[i].of.sessionID]);
    }
  }

  lemma SucceedsFinalized(of: Identity, birth: Birth, pred: Run, predTrail: Trail, plan: Plan)
    requires Succeeds(of, birth, pred, predTrail, plan)
    ensures !pred.status.RunRunning?
  {
  }

  lemma FileEvolves(s: System, t: System, x: nat)
    requires Shape(s) && Shape(t) && Evolves(s, t)
    requires x < |s.files| && FileOk(s, x) && t.files[x] == s.files[x]
    ensures FileOk(t, x)
  {
    hide Accounted, Credible;
    var f := s.files[x];
    if f.runID > 0 {
      assert KeepsRun(s.db.runs[f.runID - 1], s.trail[f.runID - 1], t.db.runs[f.runID - 1], t.trail[f.runID - 1]);
    }
  }

  lemma SnapshotEvolves(s: System, t: System, k: nat)
    requires Shape(s) && Shape(t) && Evolves(s, t)
    requires k < |s.snapshots| && k < |t.snapshots| && t.snapshots[k] == s.snapshots[k] && SnapshotOk(s, k)
    ensures SnapshotOk(t, k)
  {
    hide Ready, Granted, Start;
    var id := s.snapshots[k].previousRun;
    if s.snapshots[k].status.Failed? {
      assert KeepsRun(s.db.runs[id - 1], s.trail[id - 1], t.db.runs[id - 1], t.trail[id - 1]);
    }
  }

  lemma RecoveryEvolves(s: System, t: System, r: nat)
    requires Shape(s) && Shape(t) && Evolves(s, t)
    requires r < |s.recoveries| && r < |t.recoveries| && t.recoveries[r] == s.recoveries[r] && RecoveryOk(s, r)
    ensures RecoveryOk(t, r)
  {
    hide OwnState, Credible, Reconcile;
    var i := s.recoveries[r].id - 1;
    assert KeepsRun(s.db.runs[i], s.trail[i], t.db.runs[i], t.trail[i]);
  }

  // ---- steps that leave the tables alone ----

  predicate SameTables(s: System, t: System)
  {
    s.db == t.db && s.trail == t.trail && s.plans <= t.plans && |s.owners| == |t.owners|
  }

  /** The parts of the invariant about tables survive any step that leaves them alone, once
      the changed owner is accounted for. */
  lemma TablesKept(s: System, t: System)
    requires Inv(s) && Shape(t) && SameTables(s, t)
    requires forall i :: 0 <= i < |s.db.runs| ==> s.owners[i] == t.owners[i] || OwnerFits(t, i)
    ensures Evolves(s, t)
    ensures forall i :: 0 <= i < |t.db.runs| ==> RunOk(t, i)
    ensures forall i :: 0 <= i < |t.db.runs| ==> LinkOk(t, i)
    ensures forall u :: 1 <= u <= |t.db.tasks| ==> TaskOk(t, u)
  {
    hide RowOk, OwnerOk;
    forall i | 0 <= i < |t.db.runs| ensures RunOk(t, i) && LinkOk(t, i) {
      assert RunOk(s, i);
      assert LinkOk(s, i);
      LinkEvolves(s, t, i);
    }
    forall u | 1 <= u <= |t.db.tasks| ensures TaskOk(t, u) {
      assert TaskOk(s, u);
    }
  }

  predicate OwnerFits(s: System, i: nat)
    requires i < |s.db.runs| == |s.owners| == |s.trail|
  {
    s.db.runs[i].of.sessionID < |s.plans| &&
    OwnerOk(s.owners[i], s.db.runs[i], i + 1, s.trail[i].birth, s.plans[s.db.runs[i].of.sessionID])
  }

  /** A step that leaves the tables alone keeps the invariant once what it added is in order. */
  lemma QuietStep(s: System, t: System)
    requires Inv(s) && Shape(t) && SameTables(s, t) && PlansOk(t)
    requires forall i :: 0 <= i < |s.db.runs| ==> s.owners[i] == t.owners[i] || OwnerFits(t, i)
    requires forall x :: 0 <= x < |t.files| ==> (x < |s.files| && s.files[x] == t.files[x]) || FileOk(t, x)
    requires forall k :: 0 <= k < |t.snapshots| ==>
               (k < |s.snapshots| && s.snapshots[k] == t.snapshots[k]) || SnapshotOk(t, k)
    requires forall r :: 0 <= r < |t.recoveries| ==>
               (r < |s.recoveries| && s.recoveries[r] == t.recoveries[r]) || RecoveryOk(t, r)
    ensures Inv(t)
  {
    TablesKept(s, t);
    hide RunOk, LinkOk, TaskOk, FileOk, SnapshotOk, RecoveryOk, Evolves, OwnerFits;
    forall x | 0 <= x < |t.files| ensures FileOk(t, x) {
      if x < |s.files| && s.files[x] == t.files[x] {
        FileEvolves(s, t, x);
      }
    }
    forall k | 0 <= k < |t.snapshots| ensures SnapshotOk(t, k) {
      if k < |s.snapshots| && s.snapshots[k] == t.snapshots[k] {
        SnapshotEvolves(s, t, k);
      }
    }
    forall r | 0 <= r < |t.recoveries| ensures RecoveryOk(t, r) {
      if r < |s.recoveries| && s.recoveries[r] == t.recoveries[r] {
        assert RecoveryOk(s, r);
        RecoveryRunExists(s, r);
        RecoveryEvolves(s, t, r);
      }
    }
  }

  lemma RecoveryRunExists(s: System, r: nat)
    requires r < |s.recoveries| && |s.db.runs| == |s.trail| && RecoveryOk(s, r)
    ensures 1 <= s.recoveries[r].id <= |s.db.runs|
  {
  }

  // ---- steps that rewrite one running row ----

  /** t is s with row i, its owner and its history rewritten, and at most its task. */
  predicate Rewrites(s: System, t: System, i: nat)
    requires Shape(s) && i < |s.db.runs|
  {
    && Shape(t) && |t.db.runs| == |s.db.runs|
    && t.db.runs == s.db.runs[i := t.db.runs[i]]
    && t.trail == s.trail[i := t.trail[i]]
    && t.owners == s.owners[i := t.owners[i]]
    && t.plans == s.plans && t.files == s.files && t.snapshots == s.snapshots && t.recoveries == s.recoveries
    && s.db.runs[i].status.RunRunning?
    && (s.db.runs[i].checkpoint.Some? ==> t.db.runs[i].checkpoint.Some?)
    && t.db.runs[i].of == s.db.runs[i].of && t.trail[i].birth == s.trail[i].birth
    && |t.db.tasks| == |s.db.tasks|
    && (forall u :: 1 <= u <= |s.db.tasks| && u != s.db.runs[i].of.taskID ==> t.db.TaskOf(u) == s.db.TaskOf(u))
  }

  lemma RewriteEvolves(s: System, t: System, i: nat)
    requires Shape(s) && i < |s.db.runs| && Rewrites(s, t, i)
    ensures Evolves(s, t)
    ensures forall u :: Latest(s.db.runs, u) == Latest(t.db.runs, u)
  {
    forall u ensures Latest(s.db.runs, u) == Latest(t.db.runs, u) {
      LatestAgrees(s.db.runs, t.db.runs, u);
    }
  }

  lemma RowStep(s: System, t: System, i: nat)
    requires Inv(s) && i < |s.db.runs| && Rewrites(s, t, i)
    requires t.db.runs[i].of.sessionID < |s.plans|
    requires RowOk(t.db.runs[i], i + 1, t.trail[i], t.plans[t.db.runs[i].of.sessionID])
    requires OwnerFits(t, i)
    requires t.db.HasTask(t.db.runs[i].of.taskID) && TaskOk(t, t.db.runs[i].of.taskID)
    ensures Inv(t)
  {
    RewriteEvolves(s, t, i);
    RowStepRuns(s, t, i);
    RowStepTasks(s, t, i);
    hide RunOk, LinkOk, TaskOk, FileOk, SnapshotOk, RecoveryOk, Evolves, OwnerFits, RowOk, OwnerOk;
    forall x | 0 <= x < |t.files| ensures FileOk(t, x) {
      FileEvolves(s, t, x);
    }
    forall k | 0 <= k < |t.snapshots| ensures SnapshotOk(t, k) {
      SnapshotEvolves(s, t, k);
    }
    forall r | 0 <= r < |t.recoveries| ensures RecoveryOk(t, r) {
      assert RecoveryOk(s, r);
      RecoveryRunExists(s, r);
      RecoveryEvolves(s, t, r);
    }
  }

  lemma RowStepRuns(s: System, t: System, i: nat)
    requires Inv(s) && i < |s.db.runs| && Rewrites(s, t, i) && Evolves(s, t)
    requires forall u :: Latest(s.db.runs, u) == Latest(t.db.runs, u)
    requires t.db.runs[i].of.sessionID < |s.plans|
    requires RowOk(t.db.runs[i], i + 1, t.trail[i], t.plans[t.db.runs[i].of.sessionID])
    requires OwnerFits(t, i)
    ensures forall j :: 0 <= j < |t.db.runs| ==> RunOk(t, j)
    ensures forall j :: 0 <= j < |t.db.runs| ==> LinkOk(t, j)
  {
    hide RowOk, OwnerOk, LinkOk, Evolves;
    forall j | 0 <= j < |t.db.runs| ensures RunOk(t, j) && LinkOk(t, j) {
      assert RunOk(s, j);
      assert LinkOk(s, j);
      LinkEvolves(s, t, j);
    }
  }

  lemma RowStepTasks(s: System, t: System, i: nat)
    requires Inv(s) && i < |s.db.runs| && Rewrites(s, t, i)
    requires forall u :: Latest(s.db.runs, u) == Latest(t.db.runs, u)
    requires t.db.HasTask(t.db.runs[i].of.taskID) && TaskOk(t, t.db.runs[i].of.taskID)
    ensures forall u :: 1 <= u <= |t.db.tasks| ==> TaskOk(t, u)
  {
    hide RunOk, LinkOk;
    forall u | 1 <= u <= |t.db.tasks| ensures TaskOk(t, u) {
      if u != s.db.runs[i].of.taskID {
        assert TaskOk(s, u);
        var id := Latest(s.db.runs, u);
        assert Latest(t.db.runs, u) == id != i + 1;
        assert id > 0 ==> t.db.runs[id - 1] == s.db.runs[id - 1] && t.trail[id - 1] == s.trail[id - 1];
        assert t.db.TaskOf(u) == s.db.TaskOf(u);
      }
    }
  }
}
