/** The chain of attempts of one task, over whole histories: who succeeds whom, which steps
    each attempt did, and where the tokens of a provider window went. */
module Lineage {
  import opened Base
  import opened Domain
  import opened Plans
  import opened Agent
  import opened Store
  import opened Runner
  import opened Protocol
  import opened Invariant
  import opened Steps
  import opened Fencing

  // ---- the k-th attempt at a task ----

  function Attempts(s: System, t: nat): seq<nat>
  {
    Ids(s.db.runs, t)
  }

  /** k counts the task's attempts from 0, oldest first. */
  predicate IsAttempt(s: System, t: nat, k: nat)
  {
    k < |Attempts(s, t)| && s.db.HasRun(Attempts(s, t)[k]) && |s.trail| == |s.db.runs|
    && s.db.RunOf(Attempts(s, t)[k]).of.sessionID < |s.plans|
  }

  function Row(s: System, t: nat, k: nat): Run
    requires IsAttempt(s, t, k)
  {
    s.db.RunOf(Attempts(s, t)[k])
  }

  function History(s: System, t: nat, k: nat): Trail
    requires IsAttempt(s, t, k)
  {
    s.trail[Attempts(s, t)[k] - 1]
  }

  function PlanAt(s: System, t: nat, k: nat): Plan
    requires IsAttempt(s, t, k)
  {
    s.plans[Row(s, t, k).of.sessionID]
  }

  /** The step an attempt has reached according to the store. */
  function EndOf(row: Run): nat
  {
    match row.checkpoint
    case None => row.of.startStep
    case Some(c) => c.next
  }

  /** The allowance an attempt has left according to the store. */
  function Remaining(row: Run): int
  {
    match row.checkpoint
    case None => row.of.tokenBudget
    case Some(c) => c.remaining
  }

  /** The invariant, seen from the k-th attempt. */
  lemma AttemptFacts(s: System, t: nat, k: nat)
    requires Inv(s) && k < |Attempts(s, t)|
    ensures IsAttempt(s, t, k) && Row(s, t, k).of.taskID == t
    ensures RowOk(Row(s, t, k), Attempts(s, t)[k], History(s, t, k), PlanAt(s, t, k))
    ensures Priced(PlanAt(s, t, k).steps)
    ensures k == 0 ==> FirstAttempt(Row(s, t, k).of, History(s, t, k).birth, PlanAt(s, t, k))
    ensures k == 0 ==> History(s, t, k).birth.pred == 0
    ensures k > 0 ==> IsAttempt(s, t, k - 1) && History(s, t, k).birth.pred == Attempts(s, t)[k - 1]
                      && Succeeds(Row(s, t, k).of, History(s, t, k).birth, Row(s, t, k - 1),
                          History(s, t, k - 1), PlanAt(s, t, k))
  {
    hide TaskOk, FileOk, SnapshotOk, RecoveryOk, RowOk, OwnerOk, Succeeds, FirstAttempt, Latest, Ids;
    var ids := Attempts(s, t);
    IdsAreTheRuns(s.db.runs, t);
    LatestBefore(s.db.runs, t, k);
    assert RunOk(s, ids[k] - 1);
    assert LinkOk(s, ids[k] - 1);
    if k > 0 {
      assert RunOk(s, ids[k - 1] - 1);
    }
  }

  /** All attempts at a task belong to one session and so to one plan. */
  lemma {:induction false} OnePlan(s: System, t: nat, k: nat)
    requires Inv(s) && k < |Attempts(s, t)|
    ensures IsAttempt(s, t, 0) && IsAttempt(s, t, k) && PlanAt(s, t, k) == PlanAt(s, t, 0)
  {
    hide Inv, RowOk, FirstAttempt;
    AttemptFacts(s, t, k);
    if k > 0 {
      OnePlan(s, t, k - 1);
    }
  }

  // ---- linear succession ----

  /** Each claim took over exactly the task's previous run, which had been finalized as a
      failure; no failure is ever taken over by two attempts, whatever stale snapshots manual,
      scheduled and interrupted resumes acted on. */
  lemma LinearSuccession(actions: seq<Action>, t: nat, k: nat)
    requires k < |Attempts(After(actions), t)|
    ensures var s := After(actions);
            && IsAttempt(s, t, k)
            && (k == 0 ==> History(s, t, k).birth.pred == 0)
            && (k > 0 ==> IsAttempt(s, t, k - 1) && History(s, t, k).birth.pred == Attempts(s, t)[k - 1]
                          && TaskStatusAfter(Row(s, t, k - 1).exit).Failed? && !Row(s, t, k - 1).status.RunRunning?)
            && (forall i :: 0 <= i < |s.trail| && i != Attempts(s, t)[k] - 1
                  && s.trail[i].birth.pred == History(s, t, k).birth.pred
                  ==> s.trail[i].birth.pred == 0 && s.db.runs[i].of.taskID != t)
  {
    var s := After(actions);
    InvariantAlways(actions);
    hide Play, RowOk, FirstAttempt;
    AttemptFacts(s, t, k);
    var j := Attempts(s, t)[k] - 1;
    forall i | 0 <= i < |s.trail| && i != j && s.trail[i].birth.pred == s.trail[j].birth.pred
      ensures s.trail[i].birth.pred == 0 && s.db.runs[i].of.taskID != t
    {
      SharedPredecessor(s, i, j);
    }
  }

  lemma SharedPredecessor(s: System, i: nat, j: nat)
    requires Inv(s) && i < |s.trail| && j < |s.trail| && i != j && s.trail[i].birth.pred == s.trail[j].birth.pred
    ensures s.trail[i].birth.pred == 0 && s.db.runs[i].of.taskID != s.db.runs[j].of.taskID
  {
    hide TaskOk, FileOk, SnapshotOk, RecoveryOk, RunOk, Succeeds, FirstAttempt, Latest;
    assert LinkOk(s, i) && LinkOk(s, j);
    var pred := s.trail[i].birth.pred;
    var lo, hi := if i < j then i else j, if i < j then j else i;
    if s.db.runs[i].of.taskID == s.db.runs[j].of.taskID {
      LatestIsNewest(s.db.runs[..hi], s.db.runs[hi].of.taskID, lo);
      assert false;
    }
  }

  /** A snapshot never goes wrong, it only becomes useless: for as long as it is kept, the
      session it prepared is still the one its predecessor's row gives, so an accepted claim
      never starts from a superseded checkpoint. */
  lemma SnapshotsStayTrue(actions: seq<Action>, k: nat)
    requires k < |After(actions).snapshots| && After(actions).snapshots[k].status.Failed?
    ensures var s := After(actions);
            var snap := s.snapshots[k];
            && s.db.HasRun(snap.previousRun)
            && var pred := s.db.RunOf(snap.previousRun);
            && !pred.status.RunRunning? && pred.of.taskID == snap.taskID && pred.checkpoint.Some?
            && Granted(pred.checkpoint.value, pred.exit) == Ok(snap.session)
  {
    InvariantAlways(actions);
    hide TaskOk, FileOk, LinkOk, RecoveryOk, RunOk, Ready, Start, Play;
    assert SnapshotOk(After(actions), k);
  }

  // ---- eligibility over whole histories ----

  /** An attempt that follows an exhausted one, finalized with a positive reset interval,
      starts no earlier than the recorded time of exhaustion plus that interval. Automatic
      attempts follow only exhaustion or interruption, each through its own kind of claim,
      and never a failure that was finalized as stopped. */
  lemma ResetTimeIsHonoured(actions: seq<Action>, t: nat, k: nat)
    requires 0 < k < |Attempts(After(actions), t)|
    ensures var s := After(actions);
            && IsAttempt(s, t, k) && IsAttempt(s, t, k - 1)
            && var pred, closing := Row(s, t, k - 1), History(s, t, k - 1).closing;
            && pred.checkpoint.Some? && closing.Some?
            && (pred.exit.ExitTokenBudgetExhausted? && closing.value.resetInterval > 0 ==>
                  && pred.checkpoint.value.haltedAt.Some?
                  && pred.checkpoint.value.haltedAt.value + closing.value.resetInterval <= Row(s, t, k).of.startedAt)
            && (match History(s, t, k).birth.kind
                case ManualResume => true
                case ScheduledExhaustionResume => pred.exit.ExitTokenBudgetExhausted?
                    && !closing.value.continuation.Stopped?
                case InterruptedRecoveryResume => pred.exit.ExitInterrupted?)
  {
    var s := After(actions);
    InvariantAlways(actions);
    hide Play, Inv, AttemptOutput, FirstAttempt;
    AttemptFacts(s, t, k);
    AttemptFacts(s, t, k - 1);
    var c := Row(s, t, k - 1).checkpoint.value;
    if c.halt.Terminal() {
      CredibleHalt(c, Attempts(s, t)[k - 1], Row(s, t, k - 1).of, History(s, t, k - 1).birth, PlanAt(s, t, k - 1));
    }
  }

  /** A halted state is the executor's own, and it says when it halted. */
  lemma CredibleHalt(c: SessionState, id: nat, of: Identity, birth: Birth, plan: Plan)
    requires Credible(c, id, of, birth, plan) && c.halt.Terminal()
    ensures OwnState(c, id, of, birth, plan) && c.haltedAt.Some?
  {
  }

  // ---- token windows ----

  /** The tokens the store has recorded for attempt k and the attempts whose window it
      continued: back to the last attempt that started a fresh window. */
  function WindowSpent(s: System, t: nat, k: nat): int
    requires forall j :: 0 <= j <= k ==> IsAttempt(s, t, j)
  {
    Row(s, t, k).tokensUsed +
    if k > 0 && Row(s, t, k - 1).exit.ExitInterrupted? then WindowSpent(s, t, k - 1) else 0
  }

  /** Conservation: what the attempts of a window have used and what the newest of them has
      left is the configured window, through graceful interruptions, crashes, recoveries and
      attempts that never got to publish anything. No hypothesis on the compatibility file. */
  lemma {:induction false} WindowIsConserved(s: System, t: nat, k: nat)
    requires Inv(s) && k < |Attempts(s, t)|
    ensures forall j :: 0 <= j <= k ==> IsAttempt(s, t, j)
    ensures WindowSpent(s, t, k) + Remaining(Row(s, t, k)) == PlanAt(s, t, k).budget
    ensures 0 <= Remaining(Row(s, t, k))
  {
    hide Inv, AttemptOutput;
    AttemptFacts(s, t, k);
    AttemptBooks(Row(s, t, k), Attempts(s, t)[k], History(s, t, k), PlanAt(s, t, k));
    if k > 0 {
      WindowIsConserved(s, t, k - 1);
      AttemptFacts(s, t, k - 1);
    }
  }

  lemma AttemptBooks(row: Run, id: nat, trail: Trail, plan: Plan)
    requires RowOk(row, id, trail, plan)
    ensures row.tokensUsed + Remaining(row) == row.of.tokenBudget
    ensures row.checkpoint.Some? ==> 0 <= Remaining(row)
  {
  }

  lemma WindowConservation(actions: seq<Action>, t: nat, k: nat)
    requires k < |Attempts(After(actions), t)|
    ensures var s := After(actions);
            && (forall j :: 0 <= j <= k ==> IsAttempt(s, t, j))
            && WindowSpent(s, t, k) + Remaining(Row(s, t, k)) == PlanAt(s, t, 0).budget
            && 0 <= WindowSpent(s, t, k) <= PlanAt(s, t, 0).budget
  {
    InvariantAlways(actions);
    hide Inv, Play;
    WindowIsConserved(After(actions), t, k);
    OnePlan(After(actions), t, k);
    SpentIsNatural(After(actions), t, k);
  }

  lemma {:induction false} SpentIsNatural(s: System, t: nat, k: nat)
    requires Inv(s) && k < |Attempts(s, t)|
    requires forall j :: 0 <= j <= k ==> IsAttempt(s, t, j)
    ensures 0 <= WindowSpent(s, t, k)
  {
    hide Inv, AttemptOutput;
    AttemptFacts(s, t, k);
    if k > 0 {
      SpentIsNatural(s, t, k - 1);
    }
  }
}
