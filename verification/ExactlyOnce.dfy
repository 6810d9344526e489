/** Which steps the attempts at a task record, and when together they record each step once. */
module ExactlyOnce {
  import opened Base
  import opened Domain
  import opened Plans
  import opened Agent
  import opened Store
  import opened Runner
  import opened Protocol
  import opened Invariant
  import opened Steps
  import opened Fencing
  import opened Lineage

  /** A server may recover a run that has no checkpoint from the compatibility file. The file
      matches when it stands where the run was claimed: at its start step, or, if it is already
      bound to this run, bound there. The server has both values in hand before it finalizes. */
  predicate FileMatches(file: SessionState, id: nat, of: Identity)
  {
    (if file.runID == id then file.start else file.next) == of.startStep
  }

  /** The run was not finalized from a compatibility file that fails to match. */
  predicate SoundlyClosed(trail: Trail, id: nat, of: Identity)
  {
    trail.closing.Some? && trail.closing.value.file.Some? ==> FileMatches(trail.closing.value.file.value, id, of)
  }

  function CompletionLine(row: Run, plan: Plan): seq<string>
  {
    if row.checkpoint.Some? && row.checkpoint.value.halt.HaltCompleted? then [SummaryLine(|plan.steps|, plan.title)]
        else []
  }

  /** The run's output is exactly the lines of the steps from its start step to where its
      checkpoint stands, in order, and the summary line if it completed. */
  predicate RecordsItsInterval(row: Run, plan: Plan)
  {
    && row.of.startStep <= EndOf(row) <= |plan.steps|
    && row.output == Join(PlanLines(plan.steps, row.of.startStep, EndOf(row)) + CompletionLine(row, plan), "\n")
  }

  /** One run records exactly its interval if and only if the file it may have been recovered
      from matched. */
  lemma RecordsIffFileMatches(row: Run, id: nat, trail: Trail, plan: Plan)
    requires RowOk(row, id, trail, plan) && (row.checkpoint.None? ==> row.of.startStep <= |plan.steps|)
    ensures RecordsItsInterval(row, plan) <==> SoundlyClosed(trail, id, row.of)
  {
    hide Accounted;
    if row.checkpoint.Some? {
      var c := row.checkpoint.value;
      CredibleLines(c, id, row.of, trail.birth, plan);
      if c.start != row.of.startStep && RecordsItsInterval(row, plan) && row.of.startStep < c.next {
        JoinOfTextIsText(PlanLines(plan.steps, row.of.startStep, c.next), "\n");
      }
      FileDecides(row, id, trail, c, plan);
    }
  }

  /** Where the checkpoint of a run begins tells whether the file matched. */
  lemma FileDecides(row: Run, id: nat, trail: Trail, c: SessionState, plan: Plan)
    requires RowOk(row, id, trail, plan) && row.checkpoint == Some(c)
    ensures SoundlyClosed(trail, id, row.of) <==> c.start == row.of.startStep
  {
    hide Accounted, AttemptOutput;
  }

  lemma CredibleLines(c: SessionState, id: nat, of: Identity, birth: Birth, plan: Plan)
    requires Credible(c, id, of, birth, plan)
    ensures c.next <= |plan.steps|
    ensures AttemptLines(c) == PlanLines(plan.steps, c.start, c.next) +
                               if c.halt.HaltCompleted? then [SummaryLine(|plan.steps|, plan.title)] else []
    ensures c.start == of.startStep || (c.start == c.next && !c.halt.HaltCompleted? && AttemptOutput(c) == "")
  {
    LinesOf(c, plan);
  }

  /** Every attempt begins where the one before it ended, and the first at step 0: this holds
      whatever the compatibility file says. */
  lemma AttemptsAreLinked(s: System, t: nat, k: nat)
    requires Inv(s) && k < |Attempts(s, t)|
    ensures IsAttempt(s, t, k)
    ensures k == 0 ==> Row(s, t, k).of.startStep == 0
    ensures k > 0 ==> IsAttempt(s, t, k - 1) && Row(s, t, k).of.startStep == EndOf(Row(s, t, k - 1))
    ensures k > 0 ==> EndOf(Row(s, t, k - 1)) <= |PlanAt(s, t, k).steps|
  {
    hide Inv, RowOk;
    AttemptFacts(s, t, k);
    if k > 0 {
      AttemptFacts(s, t, k - 1);
      EndIsInPlan(Row(s, t, k - 1), Attempts(s, t)[k - 1], History(s, t, k - 1), PlanAt(s, t, k - 1));
    }
  }

  lemma EndIsInPlan(row: Run, id: nat, trail: Trail, plan: Plan)
    requires RowOk(row, id, trail, plan) && row.checkpoint.Some?
    ensures EndOf(row) <= |plan.steps|
  {
    hide AttemptOutput;
  }

  /** Attempt j is there and stands within the plan. */
  predicate Within(s: System, t: nat, j: nat, plan: Plan)
  {
    IsAttempt(s, t, j) && EndOf(Row(s, t, j)) <= |plan.steps|
  }

  /** The step lines of the first n attempts, one attempt after the other. */
  function LinesSoFar(s: System, t: nat, n: nat, plan: Plan): seq<string>
    requires forall j :: 0 <= j < n ==> Within(s, t, j, plan)
  {
    if n == 0 then []
    else
      assert Within(s, t, n - 1, plan);
      LinesSoFar(s, t, n - 1, plan) + PlanLines(plan.steps, Row(s, t, n - 1).of.startStep, EndOf(Row(s, t, n - 1)))
  }

  /** Attempt j begins where attempt j - 1 ended, and attempt 0 at the first step. */
  predicate Linked(s: System, t: nat, j: nat)
  {
    && IsAttempt(s, t, j)
    && if j == 0 then Row(s, t, j).of.startStep == 0
       else IsAttempt(s, t, j - 1) && Row(s, t, j).of.startStep == EndOf(Row(s, t, j - 1))
  }

  predicate Recorded(s: System, t: nat, j: nat, plan: Plan)
  {
    IsAttempt(s, t, j) && RecordsItsInterval(Row(s, t, j), plan)
  }

  predicate Sound(s: System, t: nat, j: nat)
  {
    IsAttempt(s, t, j) && SoundlyClosed(History(s, t, j), Attempts(s, t)[j], Row(s, t, j).of)
  }

  lemma AttemptRecords(s: System, t: nat, k: nat, plan: Plan)
    requires Inv(s) && k < |Attempts(s, t)|
    requires IsAttempt(s, t, 0) && plan == PlanAt(s, t, 0)
    ensures Within(s, t, k, plan)
    ensures Recorded(s, t, k, plan) <==> Sound(s, t, k)
    ensures Sound(s, t, k) ==> Row(s, t, k).of.startStep <= EndOf(Row(s, t, k))
  {
    hide Inv, RowOk, SoundlyClosed, RecordsItsInterval, Succeeds, FirstAttempt;
    AttemptFacts(s, t, k);
    OnePlan(s, t, k);
    AttemptsAreLinked(s, t, k);
    var row := Row(s, t, k);
    if row.checkpoint.Some? {
      EndIsInPlan(row, Attempts(s, t)[k], History(s, t, k), plan);
    }
    RecordsIffFileMatches(row, Attempts(s, t)[k], History(s, t, k), plan);
    if Sound(s, t, k) {
      IntervalIsForward(row, plan);
    }
  }

  lemma {:induction false} SoundAttemptsTile(s: System, t: nat, k: nat, plan: Plan)
    requires Inv(s) && k < |Attempts(s, t)|
    requires IsAttempt(s, t, 0) && plan == PlanAt(s, t, 0)
    requires forall j :: 0 <= j <= k ==> Within(s, t, j, plan) && Sound(s, t, j)
    ensures Within(s, t, k, plan) && LinesSoFar(s, t, k + 1, plan) == PlanLines(plan.steps, 0, EndOf(Row(s, t, k)))
  {
    hide Inv, Sound, Recorded, PlanLines, RowOk;
    assert Within(s, t, k, plan) && Sound(s, t, k);
    AttemptRecords(s, t, k, plan);
    AttemptsAreLinked(s, t, k);
    PlanLinesJoin(plan.steps, Row(s, t, k).of.startStep, EndOf(Row(s, t, k)));
    if k > 0 {
      SoundAttemptsTile(s, t, k - 1, plan);
    } else {
      assert LinesSoFar(s, t, 0, plan) == [];
    }
  }

  lemma IntervalIsForward(row: Run, plan: Plan)
    requires RecordsItsInterval(row, plan)
    ensures row.of.startStep <= EndOf(row) <= |plan.steps|
  {
  }

  lemma PlanLinesJoin(steps: seq<PlannedStep>, mid: nat, hi: nat)
    requires mid <= hi <= |steps|
    ensures PlanLines(steps, 0, hi) == PlanLines(steps, 0, mid) + PlanLines(steps, mid, hi)
  {
    hide StepOutput;
    assert |PlanLines(steps, 0, hi)| == |PlanLines(steps, 0, mid) + PlanLines(steps, mid, hi)|;
  }

  /** Exactly once. After every history of claims, crashes, takeovers and resumes, every
      attempt at a task begins where the one before it ended. The attempts record exactly
      their intervals, forwards and in full, if and only if every recovery from a
      compatibility file found a matching file; and then the stored step lines of all
      attempts, put together, are each completed step once, in order. */
  lemma ExactlyOnceProgress(actions: seq<Action>, t: nat)
    requires |Attempts(After(actions), t)| > 0
    ensures var s := After(actions);
            var n := |Attempts(s, t)|;
            && IsAttempt(s, t, 0)
            && var plan := PlanAt(s, t, 0);
            && (forall j :: 0 <= j < n ==> Linked(s, t, j))
            && (forall j :: 0 <= j < n ==> Within(s, t, j, plan)) && Within(s, t, n - 1, plan)
            && ((forall j :: 0 <= j < n ==> Recorded(s, t, j, plan)) <==> (forall j :: 0 <= j < n ==> Sound(s, t, j)))
            && ((forall j :: 0 <= j < n ==> Sound(s, t, j)) ==>
                  LinesSoFar(s, t, n, plan) == PlanLines(plan.steps, 0, EndOf(Row(s, t, n - 1))))
  {
    var s := After(actions);
    var n := |Attempts(s, t)|;
    InvariantAlways(actions);
    hide Play, Inv, Sound, Recorded;
    AttemptFacts(s, t, 0);
    var plan := PlanAt(s, t, 0);
    forall j | 0 <= j < n
      ensures Within(s, t, j, plan) && (Recorded(s, t, j, plan) <==> Sound(s, t, j))
      ensures Linked(s, t, j)
    {
      AttemptRecords(s, t, j, plan);
      AttemptsAreLinked(s, t, j);
    }
    if forall j :: 0 <= j < n ==> Sound(s, t, j) {
      SoundAttemptsTile(s, t, n - 1, plan);
    }
  }

  // ---- the fire-once error ----

  /** If attempt j was finalized from a compatibility file, that file carried the armed error
      the attempt was claimed with. */
  predicate ErrorMatches(s: System, t: nat, j: nat)
  {
    IsAttempt(s, t, j) && History(s, t, j).closing.Some? && History(s, t, j).closing.value.file.Some? ==>
      History(s, t, j).closing.value.file.value.erroredAt == History(s, t, j).birth.armed
  }

  /** After an agent error the error stays disarmed, attempt after attempt. */
  lemma {:induction false} ErrorStaysDisarmed(s: System, t: nat, a: nat, b: nat)
    requires Inv(s) && a < b < |Attempts(s, t)|
    requires IsAttempt(s, t, a) && Row(s, t, a).exit.ExitAgentError?
    requires forall j :: a < j < b ==> ErrorMatches(s, t, j)
    ensures IsAttempt(s, t, b) && History(s, t, b).birth.armed == 0
  {
    hide Inv, AttemptOutput, Accounted;
    AttemptFacts(s, t, b);
    AttemptFacts(s, t, b - 1);
    if a < b - 1 {
      ErrorStaysDisarmed(s, t, a, b - 1);
      assert ErrorMatches(s, t, b - 1);
    } else {
      ErrorDisarms(Row(s, t, a), Attempts(s, t)[a], History(s, t, a), PlanAt(s, t, a));
    }
  }

  lemma ErrorDisarms(row: Run, id: nat, trail: Trail, plan: Plan)
    requires RowOk(row, id, trail, plan) && row.exit.ExitAgentError?
    ensures row.checkpoint.Some? && row.checkpoint.value.erroredAt == 0 && trail.birth.armed > 0
  {
    hide AttemptOutput;
  }

  /** Attempt j was claimed with no error armed. */
  predicate Disarmed(s: System, t: nat, j: nat)
  {
    IsAttempt(s, t, j) && History(s, t, j).birth.armed == 0
  }

  lemma DisarmedSuccessor(s: System, t: nat, j: nat)
    requires Inv(s) && j + 1 < |Attempts(s, t)| && Disarmed(s, t, j) && Disarmed(s, t, j + 1)
    ensures ErrorMatches(s, t, j)
  {
    hide Inv, AttemptOutput, Accounted;
    AttemptFacts(s, t, j + 1);
    AttemptFacts(s, t, j);
  }

  /** After attempt a ends in the planned error, the error stays disarmed up to attempt b if
      and only if every compatibility file used for a recovery in between was disarmed too. */
  lemma DisarmedIffFilesMatch(actions: seq<Action>, t: nat, a: nat, b: nat)
    requires a < b < |Attempts(After(actions), t)|
    ensures IsAttempt(After(actions), t, a)
    ensures Row(After(actions), t, a).exit.ExitAgentError? ==>
      ((forall j :: a < j <= b ==> Disarmed(After(actions), t, j)) <==>
       (forall j :: a < j < b ==> ErrorMatches(After(actions), t, j)))
  {
    var s := After(actions);
    InvariantAlways(actions);
    hide Play, Inv, RowOk;
    AttemptFacts(s, t, a);
    if Row(s, t, a).exit.ExitAgentError? {
      if forall j :: a < j <= b ==> Disarmed(s, t, j) {
        forall j | a < j < b ensures ErrorMatches(s, t, j) {
          assert Disarmed(s, t, j + 1);
          DisarmedSuccessor(s, t, j);
        }
      }
      if forall j :: a < j < b ==> ErrorMatches(s, t, j) {
        forall j | a < j <= b ensures Disarmed(s, t, j) {
          ErrorStaysDisarmed(s, t, a, j);
        }
      }
    }
  }

  /** The planned error fires at most once per task: no two attempts end in an agent error,
      provided no attempt in between was recovered from a file with the error still armed. */
  lemma ErrorFiresOnce(actions: seq<Action>, t: nat, a: nat, b: nat)
    requires a < b < |Attempts(After(actions), t)|
    requires forall j :: a < j < b ==> ErrorMatches(After(actions), t, j)
    ensures var s := After(actions);
            && IsAttempt(s, t, a) && IsAttempt(s, t, b)
            && !(Row(s, t, a).exit.ExitAgentError? && Row(s, t, b).exit.ExitAgentError?)
  {
    var s := After(actions);
    InvariantAlways(actions);
    hide Play, Inv, RowOk;
    AttemptFacts(s, t, a);
    AttemptFacts(s, t, b);
    if Row(s, t, a).exit.ExitAgentError? && Row(s, t, b).exit.ExitAgentError? {
      ErrorStaysDisarmed(s, t, a, b);
      ErrorDisarms(Row(s, t, b), Attempts(s, t)[b], History(s, t, b), PlanAt(s, t, b));
    }
  }
}
