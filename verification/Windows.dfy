/** Automatic retry over whole histories: what a stopped failure proves, how many attempts a
    server makes, and how many token windows a task takes. */
module Windows {
  import opened Base
  import opened Domain
  import opened Plans
  import opened Agent
  import opened FreshWindows
  import opened Store
  import opened Runner
  import opened Protocol
  import opened Invariant
  import opened Steps
  import opened Fencing
  import opened Lineage
  import opened ExactlyOnce

  // ---- exhausted attempts ----

  /** What a finalized exhausted row says. */
  lemma ExhaustedFacts(row: Run, id: nat, trail: Trail, plan: Plan)
    requires RowOk(row, id, trail, plan) && row.exit.ExitTokenBudgetExhausted? && Priced(plan.steps)
    ensures row.checkpoint.Some? && trail.closing.Some? && row.finishedAt.Some?
    ensures var c := row.checkpoint.value;
            && row.of.startStep <= c.next < |plan.steps|
            && c.start == row.of.startStep && c.origin == trail.birth.origin
            && c.used == row.tokensUsed == Cost(plan.steps, row.of.startStep, c.next)
            && c.used + c.remaining == row.of.tokenBudget && 0 <= c.remaining < plan.steps[c.next].cost
            && c.haltedAt.Some?
            && (c.origin.WindowFresh? ==> row.of.tokenBudget == plan.budget)
            && trail.closing.value.continuation ==
               CompletionFor(c, row.of.startStep, row.finishedAt.value, trail.closing.value.resetInterval).continuation
            && c.halt.HaltTokenExhausted?
  {
    hide AttemptOutput, CompletionFor;
  }

  /** The two progress tests agree: an exhausted attempt has used tokens, which is what late
      scheduling looks at, exactly if it has completed a step, which is what finalization and
      recovery look at. */
  lemma ProgressTestsAgree(actions: seq<Action>, t: nat, k: nat)
    requires k < |Attempts(After(actions), t)|
    ensures var s := After(actions);
            && IsAttempt(s, t, k)
            && var row := Row(s, t, k);
            && (row.exit.ExitTokenBudgetExhausted? ==>
                  row.checkpoint.Some? && (row.tokensUsed > 0 <==> row.checkpoint.value.next > row.of.startStep))
  {
    var s := After(actions);
    InvariantAlways(actions);
    hide Play, Inv, RowOk;
    AttemptFacts(s, t, k);
    var row := Row(s, t, k);
    if row.exit.ExitTokenBudgetExhausted? {
      ExhaustedFacts(row, Attempts(s, t)[k], History(s, t, k), PlanAt(s, t, k));
      CostBounds(PlanAt(s, t, k).steps, row.of.startStep, row.checkpoint.value.next);
    }
  }

  /** The attempt's first step costs more than the whole configured budget. */
  predicate Oversized(of: Identity, plan: Plan)
  {
    of.startStep < |plan.steps| && plan.steps[of.startStep].cost > plan.budget
  }

  /** A failure is finalized as stopped exactly if it is an exhaustion of a fresh window under
      a positive reset interval and the attempt's first step costs more than the whole
      configured budget. So stopped is never a false alarm, and a step that can never fit is
      never retried. */
  lemma StoppedIsExact(actions: seq<Action>, t: nat, k: nat)
    requires k < |Attempts(After(actions), t)|
    ensures var s := After(actions);
            && IsAttempt(s, t, k)
            && var row, trail, plan := Row(s, t, k), History(s, t, k), PlanAt(s, t, k);
            && (row.status.RunRunning? || trail.closing.Some?)
            && (trail.closing.Some? ==>
                  (trail.closing.value.continuation.Stopped? <==>
                     && row.exit.ExitTokenBudgetExhausted? && trail.birth.origin.WindowFresh?
                     && trail.closing.value.resetInterval > 0
                     && Oversized(row.of, plan)))
  {
    var s := After(actions);
    InvariantAlways(actions);
    hide Play, Inv;
    AttemptFacts(s, t, k);
    StoppedFacts(Row(s, t, k), Attempts(s, t)[k], History(s, t, k), PlanAt(s, t, k));
  }

  lemma StoppedFacts(row: Run, id: nat, trail: Trail, plan: Plan)
    requires RowOk(row, id, trail, plan) && Priced(plan.steps)
    ensures row.status.RunRunning? || trail.closing.Some?
    ensures trail.closing.Some? ==>
      (trail.closing.value.continuation.Stopped? <==>
         && row.exit.ExitTokenBudgetExhausted? && trail.birth.origin.WindowFresh?
         && trail.closing.value.resetInterval > 0
         && Oversized(row.of, plan))
  {
    hide AttemptOutput, OwnState, AdoptedState, Reconcile;
    if row.exit.ExitTokenBudgetExhausted? {
      ExhaustedFacts(row, id, trail, plan);
      var c := row.checkpoint.value;
      if row.of.startStep < c.next {
        CostSplits(plan.steps, row.of.startStep, row.of.startStep + 1, c.next);
        assert Cost(plan.steps, row.of.startStep, row.of.startStep + 1)
            == Cost(plan.steps, row.of.startStep, row.of.startStep) + plan.steps[row.of.startStep].cost;
      }
    }
  }

  /** Late scheduling decides without the checkpoint: it takes the window as fresh and counts
      from the time of finalization. It stops a task where finalization would have, and only
      there, exactly if the attempt used tokens or did start a fresh window; and it names the
      time finalization would have named exactly if the run was finalized when it halted. */
  lemma LateDecisionAgrees(actions: seq<Action>, t: nat, k: nat, resetInterval: int)
    requires k < |Attempts(After(actions), t)| && resetInterval > 0
    ensures var s := After(actions);
            && IsAttempt(s, t, k)
            && var row := Row(s, t, k);
            && (row.exit.ExitTokenBudgetExhausted? ==>
                  && row.checkpoint.Some? && row.finishedAt.Some?
                  && var late := LateDecision(row, resetInterval);
                  && var prompt := CompletionFor(row.checkpoint.value, row.of.startStep,
                      row.finishedAt.value, resetInterval).continuation;
                  && (late.Stopped? == prompt.Stopped? <==>
                        row.tokensUsed > 0 || History(s, t, k).birth.origin.WindowFresh?)
                  && (late.EligibleAt() == prompt.EligibleAt() <==> row.checkpoint.value.haltedAt == row.finishedAt))
  {
    var s := After(actions);
    ProgressTestsAgree(actions, t, k);
    InvariantAlways(actions);
    hide Play, Inv, RowOk, LateDecision, CompletionFor;
    AttemptFacts(s, t, k);
    var row := Row(s, t, k);
    if row.exit.ExitTokenBudgetExhausted? {
      LateAndPrompt(row, Attempts(s, t)[k], History(s, t, k), PlanAt(s, t, k), resetInterval);
    }
  }

  lemma LateAndPrompt(row: Run, id: nat, trail: Trail, plan: Plan, resetInterval: int)
    requires RowOk(row, id, trail, plan) && row.exit.ExitTokenBudgetExhausted? && Priced(plan.steps)
        && resetInterval > 0
    requires row.checkpoint.Some? && (row.tokensUsed > 0 <==> row.checkpoint.value.next > row.of.startStep)
    ensures row.finishedAt.Some?
    ensures var late := LateDecision(row, resetInterval);
            var prompt :=
                CompletionFor(row.checkpoint.value, row.of.startStep, row.finishedAt.value, resetInterval).continuation;
            && (late.Stopped? == prompt.Stopped? <==> row.tokensUsed > 0 || trail.birth.origin.WindowFresh?)
            && (late.EligibleAt() == prompt.EligibleAt() <==> row.checkpoint.value.haltedAt == row.finishedAt)
  {
    hide RowOk;
    ExhaustedFacts(row, id, trail, plan);
  }

  /** When late scheduling stops a task: whenever its next step is oversized, so none is
      missed; and besides, wrongly, whenever the attempt had only the rest of a window and
      used none of it. */
  lemma LateStopIsExact(actions: seq<Action>, t: nat, k: nat, resetInterval: int)
    requires k < |Attempts(After(actions), t)| && resetInterval > 0
    ensures var s := After(actions);
            && IsAttempt(s, t, k)
            && var row := Row(s, t, k);
            && (row.exit.ExitTokenBudgetExhausted? ==>
                  && row.finishedAt.Some?
                  && (LateDecision(row, resetInterval).Stopped? <==>
                        || Oversized(row.of, PlanAt(s, t, k))
                        || (row.tokensUsed == 0 && !History(s, t, k).birth.origin.WindowFresh?)))
  {
    var s := After(actions);
    ProgressTestsAgree(actions, t, k);
    InvariantAlways(actions);
    hide Play, Inv, RowOk;
    AttemptFacts(s, t, k);
    AllowanceFits(s, t, k);
    var row, plan := Row(s, t, k), PlanAt(s, t, k);
    if row.exit.ExitTokenBudgetExhausted? {
      ExhaustedFacts(row, Attempts(s, t)[k], History(s, t, k), plan);
      FirstStepFits(plan.steps, row.of.startStep, row.checkpoint.value.next);
    }
  }

  lemma FirstStepFits(steps: seq<PlannedStep>, start: nat, next: nat)
    requires start <= next <= |steps|
    ensures start < next ==> steps[start].cost <= Cost(steps, start, next)
    ensures start == next ==> Cost(steps, start, next) == 0
  {
    if start < next {
      CostSplits(steps, start, start + 1, next);
      assert Cost(steps, start, start + 1) == Cost(steps, start, start) + steps[start].cost;
    }
  }

  /** No attempt is ever granted more than the configured budget. */
  lemma AllowanceFits(s: System, t: nat, k: nat)
    requires Inv(s) && k < |Attempts(s, t)|
    ensures IsAttempt(s, t, k) && Row(s, t, k).of.tokenBudget <= PlanAt(s, t, k).budget
  {
    hide Inv, RowOk;
    AttemptFacts(s, t, k);
    WindowIsConserved(s, t, k);
    AttemptBooks(Row(s, t, k), Attempts(s, t)[k], History(s, t, k), PlanAt(s, t, k));
    if k > 0 {
      SpentIsNatural(s, t, k - 1);
    }
  }

  // ---- how often a server retries ----

  /** Attempt j was claimed by the scheduler. */
  predicate Automatic(s: System, t: nat, j: nat)
  {
    IsAttempt(s, t, j) && !History(s, t, j).birth.kind.ManualResume?
  }

  /** Attempt j was finalized by a server: not interrupted, and with a positive interval. */
  predicate RanToItsEnd(s: System, t: nat, j: nat)
  {
    && IsAttempt(s, t, j) && !Row(s, t, j).exit.ExitInterrupted?
    && History(s, t, j).closing.Some? && History(s, t, j).closing.value.resetInterval > 0
  }

  /** 1 if attempt a was interrupted: then the next attempt only has the rest of a window. */
  function PartialWindow(s: System, t: nat, a: nat): nat
    requires IsAttempt(s, t, a)
  {
    if Row(s, t, a).exit.ExitInterrupted? then 1 else 0
  }

  /** An attempt between two automatic claims was an exhaustion that, unless it only had the
      rest of a window, completed a step. */
  lemma RetriedAttemptAdvances(s: System, t: nat, k: nat)
    requires Inv(s) && 0 < k && k + 1 < |Attempts(s, t)|
    requires Automatic(s, t, k + 1) && RanToItsEnd(s, t, k)
    ensures IsAttempt(s, t, k - 1) && IsAttempt(s, t, k + 1)
    ensures Row(s, t, k).exit.ExitTokenBudgetExhausted?
    ensures EndOf(Row(s, t, k)) < |PlanAt(s, t, k).steps|
    ensures Row(s, t, k + 1).of.startStep == EndOf(Row(s, t, k))
    ensures EndOf(Row(s, t, k)) >= EndOf(Row(s, t, k - 1)) + 1 - PartialWindow(s, t, k - 1)
  {
    hide Inv, RowOk, FirstAttempt;
    AttemptFacts(s, t, k + 1);
    AttemptFacts(s, t, k);
    AttemptsAreLinked(s, t, k);
    AttemptsAreLinked(s, t, k + 1);
    ExhaustedFacts(Row(s, t, k), Attempts(s, t)[k], History(s, t, k), PlanAt(s, t, k));
  }

  lemma {:induction false} RetriesAdvance(s: System, t: nat, a: nat, b: nat)
    requires Inv(s) && a < b < |Attempts(s, t)|
    requires forall j :: a < j <= b ==> Automatic(s, t, j)
    requires forall j :: a < j < b ==> RanToItsEnd(s, t, j)
    ensures IsAttempt(s, t, a) && IsAttempt(s, t, b - 1)
    ensures EndOf(Row(s, t, b - 1)) >= EndOf(Row(s, t, a)) + (b - 1 - a) - PartialWindow(s, t, a)
    ensures b - 1 > a ==> EndOf(Row(s, t, b - 1)) >= EndOf(Row(s, t, a)) + (b - 1 - a) - PartialWindow(s, t, a)
                          && Row(s, t, b - 1).exit.ExitTokenBudgetExhausted?
                          && EndOf(Row(s, t, b - 1)) < |PlanAt(s, t, b - 1).steps|
    ensures b - 1 == a ==> EndOf(Row(s, t, b - 1)) == EndOf(Row(s, t, a))
  {
    hide Inv, RowOk, Succeeds, FirstAttempt;
    AttemptFacts(s, t, a);
    AttemptFacts(s, t, b - 1);
    if a < b - 1 {
      assert Automatic(s, t, b) && RanToItsEnd(s, t, b - 1);
      RetriesAdvance(s, t, a, b - 1);
      RetriedAttemptAdvances(s, t, b - 1);
    }
  }

  /** Bounded automatic retry. Take any attempt a that failed with m steps remaining, and let
      the scheduler alone claim the attempts a + 1 to b, each run to its end by a server, only
      the last of them still free to go either way. Then there are at most m of them, or m + 1
      if attempt a was interrupted, when the first of them has only the rest of a window. */
  lemma BoundedAutomaticRetry(actions: seq<Action>, t: nat, a: nat, b: nat)
    requires a < b < |Attempts(After(actions), t)|
    requires forall j :: a < j <= b ==> Automatic(After(actions), t, j)
    requires forall j :: a < j < b ==> RanToItsEnd(After(actions), t, j)
    ensures var s := After(actions);
            && IsAttempt(s, t, a)
            && b - a <= |PlanAt(s, t, a).steps| - EndOf(Row(s, t, a)) + PartialWindow(s, t, a)
  {
    var s := After(actions);
    InvariantAlways(actions);
    hide Play, Inv, RowOk, FirstAttempt;
    AttemptFacts(s, t, a);
    OnePlan(s, t, a);
    OnePlan(s, t, b - 1);
    RetriesAdvance(s, t, a, b);
    if b - 1 == a {
      assert Automatic(s, t, b);
      AttemptFacts(s, t, b);
      AttemptsAreLinked(s, t, b);
      if !Row(s, t, a).exit.ExitInterrupted? {
        ExhaustedFacts(Row(s, t, a), Attempts(s, t)[a], History(s, t, a), PlanAt(s, t, a));
      }
    }
  }

  // ---- how many windows a task takes ----

  predicate Exhausted(s: System, t: nat, j: nat)
  {
    IsAttempt(s, t, j) && Row(s, t, j).exit.ExitTokenBudgetExhausted?
  }

  lemma {:induction false} WindowsAdvance(s: System, t: nat, k: nat)
    requires Inv(s) && k < |Attempts(s, t)|
    requires forall j :: 0 <= j < k ==> Exhausted(s, t, j)
    ensures IsAttempt(s, t, k) && IsAttempt(s, t, 0)
    ensures var budget := PlanAt(s, t, 0).budget;
            k * (budget / 400) <= Row(s, t, k).of.startStep <= k * (budget / 150)
    ensures History(s, t, k).birth.origin.WindowFresh? && Row(s, t, k).of.tokenBudget == PlanAt(s, t, 0).budget
    ensures k > 0 ==> Row(s, t, k).of.startStep < |PlanAt(s, t, 0).steps|
  {
    hide Inv, RowOk;
    OnePlan(s, t, k);
    AttemptFacts(s, t, k);
    if k > 0 {
      assert Exhausted(s, t, k - 1);
      WindowsAdvance(s, t, k - 1);
      AttemptFacts(s, t, k - 1);
      OnePlan(s, t, k - 1);
      AttemptsAreLinked(s, t, k);
      var row, plan := Row(s, t, k - 1), PlanAt(s, t, 0);
      ExhaustedFacts(row, Attempts(s, t)[k - 1], History(s, t, k - 1), plan);
      WindowYield(plan.steps, plan.budget, row.of.startStep, row.checkpoint.value.next);
      Distribute(k, plan.budget / 400);
      Distribute(k, plan.budget / 150);
    }
  }

  /** No error was planned and no attempt but the newest may have been interrupted. */
  predicate Undisturbed(s: System, t: nat)
  {
    && IsAttempt(s, t, 0) && PlanAt(s, t, 0).failAt == 0
    && forall j :: 0 <= j < |Attempts(s, t)| - 1 ==> IsAttempt(s, t, j) && !Row(s, t, j).exit.ExitInterrupted?
  }

  /** Without planned errors and interruptions, every attempt before the newest has exhausted
      its window, and no attempt carries an armed error. */
  lemma {:induction false} UndisturbedAttemptsExhaust(s: System, t: nat, k: nat)
    requires Inv(s) && k < |Attempts(s, t)| && Undisturbed(s, t)
    ensures forall j :: 0 <= j < k ==> Exhausted(s, t, j)
    ensures IsAttempt(s, t, k) && History(s, t, k).birth.armed == 0
  {
    hide Inv, AttemptOutput, Accounted;
    AttemptFacts(s, t, k);
    if k > 0 {
      UndisturbedAttemptsExhaust(s, t, k - 1);
      AttemptFacts(s, t, k - 1);
      var row := Row(s, t, k - 1);
      assert IsAttempt(s, t, k - 1) && !row.exit.ExitInterrupted?;
      DisarmedStays(row, Attempts(s, t)[k - 1], History(s, t, k - 1), PlanAt(s, t, k - 1));
    }
  }

  lemma DisarmedStays(row: Run, id: nat, trail: Trail, plan: Plan)
    requires RowOk(row, id, trail, plan) && trail.birth.armed == 0 && row.checkpoint.Some?
    ensures !row.exit.ExitAgentError?
    ensures row.exit.ExitTokenBudgetExhausted? ==> row.checkpoint.value.erroredAt == 0
  {
    hide AttemptOutput;
  }

  /** Window count over whole histories, from above: with a budget of at least 400, no planned
      error and no interruption before its newest attempt, a task of n steps is on at most its
      ceil(n / (B div 400))-th attempt, whatever else happens around it. */
  lemma WindowsSuffice(actions: seq<Action>, t: nat)
    requires |Attempts(After(actions), t)| > 0
    requires Undisturbed(After(actions), t)
    ensures var s := After(actions);
            && IsAttempt(s, t, 0)
            && var plan := PlanAt(s, t, 0);
            && (plan.budget >= 400 && |plan.steps| >= 1 ==>
                  |Attempts(s, t)| <= CeilDiv(|plan.steps|, plan.budget / 400))
  {
    var s := After(actions);
    InvariantAlways(actions);
    hide Play, Inv;
    var m := |Attempts(s, t)|;
    UndisturbedAttemptsExhaust(s, t, m - 1);
    WindowsAdvance(s, t, m - 1);
    var plan := PlanAt(s, t, 0);
    if plan.budget >= 400 && |plan.steps| >= 1 {
      assert (m - 1) * (plan.budget / 400) < |plan.steps|;
      CeilDivUpper(m, plan.budget / 400, |plan.steps|);
    }
  }

  /** Window count, from below: when such a task is done, it has taken at least
      ceil(n / (B div 150)) attempts. */
  lemma WindowsAreNeeded(actions: seq<Action>, t: nat)
    requires |Attempts(After(actions), t)| > 0
    requires Undisturbed(After(actions), t)
    requires After(actions).db.HasTask(t) && After(actions).db.TaskOf(t).status.Done?
    ensures var s := After(actions);
            && IsAttempt(s, t, 0)
            && var plan := PlanAt(s, t, 0);
            && (plan.budget >= 150 ==> CeilDiv(|plan.steps|, plan.budget / 150) <= |Attempts(s, t)|)
  {
    DoneMeansCompleted(actions, t);
    InvariantAlways(actions);
    hide Play, Inv, CeilDiv;
    UndisturbedAttemptsExhaust(After(actions), t, |Attempts(After(actions), t)| - 1);
    WindowsAreNeededIn(After(actions), t);
  }

  lemma WindowsAreNeededIn(s: System, t: nat)
    requires Inv(s) && |Attempts(s, t)| > 0
    requires forall j :: 0 <= j < |Attempts(s, t)| - 1 ==> Exhausted(s, t, j)
    requires IsAttempt(s, t, |Attempts(s, t)| - 1) && Row(s, t, |Attempts(s, t)| - 1).exit.ExitCompleted?
    ensures IsAttempt(s, t, 0)
    ensures var plan := PlanAt(s, t, 0);
            plan.budget >= 150 ==> CeilDiv(|plan.steps|, plan.budget / 150) <= |Attempts(s, t)|
  {
    hide Inv, CeilDiv;
    var m := |Attempts(s, t)|;
    WindowsAdvance(s, t, m - 1);
    CompletedLast(s, t, m - 1);
    var plan := PlanAt(s, t, 0);
    if plan.budget >= 150 {
      LastWindow(plan, m, Row(s, t, m - 1).of.startStep);
    }
  }

  lemma CompletedLast(s: System, t: nat, k: nat)
    requires Inv(s) && IsAttempt(s, t, k) && Row(s, t, k).exit.ExitCompleted?
    ensures IsAttempt(s, t, 0) && Priced(PlanAt(s, t, 0).steps)
    ensures var steps := PlanAt(s, t, 0).steps;
            Row(s, t, k).of.startStep <= |steps|
            && Cost(steps, Row(s, t, k).of.startStep, |steps|) <= Row(s, t, k).of.tokenBudget
  {
    hide Inv, RowOk, FirstAttempt, Succeeds;
    AttemptFacts(s, t, k);
    OnePlan(s, t, k);
    CompletedFacts(Row(s, t, k), Attempts(s, t)[k], History(s, t, k), PlanAt(s, t, k));
  }

  lemma LastWindow(plan: Plan, m: nat, start: nat)
    requires Priced(plan.steps) && plan.budget >= 150 && m > 0 && start <= |plan.steps|
    requires start <= (m - 1) * (plan.budget / 150) && Cost(plan.steps, start, |plan.steps|) <= plan.budget
    ensures CeilDiv(|plan.steps|, plan.budget / 150) <= m
  {
    CostBounds(plan.steps, start, |plan.steps|);
    Distribute(m, plan.budget / 150);
    CeilDivLower(m, plan.budget / 150, |plan.steps|);
  }

  lemma DoneMeansCompleted(actions: seq<Action>, t: nat)
    requires After(actions).db.HasTask(t) && After(actions).db.TaskOf(t).status.Done?
    ensures var s := After(actions);
            var m := |Attempts(s, t)|;
            m > 0 && IsAttempt(s, t, m - 1) && Row(s, t, m - 1).exit.ExitCompleted?
  {
    var s := After(actions);
    TasksAndRunsAgree(actions, t);
    InvariantAlways(actions);
    hide Play, Inv, RowOk;
    AttemptFacts(s, t, |Attempts(s, t)| - 1);
  }

  lemma CompletedFacts(row: Run, id: nat, trail: Trail, plan: Plan)
    requires RowOk(row, id, trail, plan) && row.exit.ExitCompleted?
    ensures row.checkpoint.Some? && row.of.startStep <= row.checkpoint.value.next == |plan.steps|
    ensures Cost(plan.steps, row.of.startStep, |plan.steps|) <= row.of.tokenBudget
  {
    hide AttemptOutput, CompletionFor;
  }
}
