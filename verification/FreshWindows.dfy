/** How far fresh provider windows carry a session when nothing interferes. */
module FreshWindows {
  import opened Base
  import opened Domain
  import opened Plans
  import opened Agent
  import opened Driving

  function CeilDiv(n: nat, d: nat): nat
    requires d > 0
  {
    (n + d - 1) / d
  }

  lemma Distribute(k: nat, q: nat)
    requires k > 0
    ensures k * q == (k - 1) * q + q
  {
  }

  lemma CeilDivUpper(m: nat, q: nat, n: nat)
    requires q > 0 && m > 0 && n > 0 && (m - 1) * q < n
    ensures m <= CeilDiv(n, q)
  {
    Distribute(m, q);
    if CeilDiv(n, q) < m {
      var c := CeilDiv(n, q);
      assert n + q - 1 < (c + 1) * q;
      assert (c + 1) * q <= m * q by {
        Monotone(c + 1, m, q);
      }
    }
  }

  lemma CeilDivLower(m: nat, p: nat, n: nat)
    requires p > 0 && n <= m * p
    ensures CeilDiv(n, p) <= m
  {
    if m < CeilDiv(n, p) {
      var c := CeilDiv(n, p);
      assert c * p <= n + p - 1;
      Distribute(m + 1, p);
      Monotone(m + 1, c, p);
    }
  }

  lemma Monotone(a: nat, b: nat, q: nat)
    requires a <= b
    ensures a * q <= b * q
  {
  }

  /** One exhausted fresh window completes between B div 400 and B div 150 steps. */
  lemma WindowYield(steps: seq<PlannedStep>, budget: nat, start: nat, next: nat)
    requires Priced(steps) && start <= next < |steps|
    requires Cost(steps, start, next) <= budget < Cost(steps, start, next) + steps[next].cost
    ensures budget / 400 <= next - start <= budget / 150
  {
    CostBounds(steps, start, next);
  }

  /** Undisturbed and with no error ahead, an attempt ends of its own accord: completed, or
      halted before a step that costs more than what is left. */
  lemma {:induction false} CalmRunEnds(b: Bench, replies: nat -> Reply, noDelay: bool, j: nat, plan: Plan)
    requires Calm(replies) && Accounted(b.state, plan) && b.state.halt.HaltRunning? && b.state.erroredAt == 0
    ensures var (after, end) := Drive(b, replies, noDelay, j);
            && end.Returned? && Accounted(after.state, plan) && after.state.erroredAt == 0
            && (after.state.halt.HaltCompleted? || after.state.halt.HaltTokenExhausted?)
            && after.state.start == b.state.start && after.state.allowance == b.state.allowance
    decreases |b.state.steps| - b.state.next
  {
    hide StepOutput, SummaryLine, HaltExplained;
    AdvanceKeepsBooks(b.state, plan, false, replies(j).now);
    var (after, end) := DriveOnce(b, replies(j), noDelay);
    if end.None? {
      CalmRunEnds(after, replies, noDelay, j + 1, plan);
    }
  }

  /** What resuming an exhausted session and binding it to its new run makes of it. */
  function FreshAttempt(s: SessionState, runID: nat, token: Token): SessionState
    requires 0 <= s.budget
  {
    BindAttempt(BeginAttempt(s, s.budget, WindowFresh).value, runID, token)
  }

  /** One fresh window of a session, from its claim to the end of its run loop. */
  function Window(s: SessionState, runID: nat, token: Token, replies: nat -> Reply, noDelay: bool): SessionState
    requires s.next <= |s.steps|
  {
    Drive(Bench(FreshAttempt(s, runID, token), None, [], [], [], false), replies, noDelay, 0).0.state
  }

  lemma OneWindow(s: SessionState, plan: Plan, runID: nat, token: Token, replies: nat -> Reply, noDelay: bool)
    requires Priced(plan.steps) && Calm(replies) && Follows(s, plan) && s.erroredAt == 0
    ensures var after := Window(s, runID, token, replies, noDelay);
            && Accounted(after, plan) && after.erroredAt == 0
            && after.next <= s.next + plan.budget / 150
            && (after.halt.HaltCompleted? ||
                (after.halt.HaltTokenExhausted? && after.next < |plan.steps|
                    && s.next + plan.budget / 400 <= after.next))
  {
    var first := FreshAttempt(s, runID, token);
    BeginIsReady(s, plan, s.budget, WindowFresh);
    BindIsAccounted(BeginAttempt(s, s.budget, WindowFresh).value, plan, runID, token);
    CalmRunEnds(Bench(first, None, [], [], [], false), replies, noDelay, 0, plan);
    var after := Window(s, runID, token, replies, noDelay);
    hide Drive;
    CostBounds(plan.steps, s.next, after.next);
    if after.halt.HaltTokenExhausted? {
      WindowYield(plan.steps, plan.budget, s.next, after.next);
    }
  }

  /** Every window meets a world that does not interfere. */
  ghost predicate AllCalm(world: nat -> nat -> Reply)
  {
    forall k: nat :: Calm(world(k))
  }

  /** The session after m windows, each run to its end; world(k) is how the world answers
      during window k, and a completed session is left alone. */
  ghost function AfterWindows(plan: Plan, world: nat -> nat -> Reply, noDelay: bool, m: nat): (r: SessionState)
    requires Priced(plan.steps) && plan.failAt == 0 && AllCalm(world)
    ensures Accounted(r, plan) && r.erroredAt == 0
  {
    if m == 0 then
      StartIsReady(0, plan);
      Start(0, plan)
    else
      var s := AfterWindows(plan, world, noDelay, m - 1);
      if s.halt.HaltCompleted? then s
      else
        OneWindow(s, plan, m, m, world(m), noDelay);
        Window(s, m, m, world(m), noDelay)
  }

  lemma {:induction false} WindowsCarry(plan: Plan, world: nat -> nat -> Reply, noDelay: bool, m: nat)
    requires Priced(plan.steps) && plan.failAt == 0 && AllCalm(world)
    ensures var s := AfterWindows(plan, world, noDelay, m);
            && s.next <= m * (plan.budget / 150)
            && (s.halt.HaltCompleted? || (m * (plan.budget / 400) <= s.next && (m > 0 ==> s.next < |plan.steps|)))
  {
    hide Window, Accounted;
    if m > 0 {
      WindowsCarry(plan, world, noDelay, m - 1);
      var s := AfterWindows(plan, world, noDelay, m - 1);
      Distribute(m, plan.budget / 150);
      if !s.halt.HaltCompleted? {
        assert Follows(s, plan) by {
          FollowsOf(s, plan);
        }
        OneWindow(s, plan, m, m, world(m), noDelay);
        Distribute(m, plan.budget / 400);
      }
    }
  }

  lemma FollowsOf(s: SessionState, plan: Plan)
    requires Accounted(s, plan)
    ensures Follows(s, plan)
  {
  }

  /** How many fresh windows a task of n steps takes when nothing interferes and no error is
      planned: ceil(n / (B div 400)) always complete it, and fewer than ceil(n / (B div 150))
      never do. */
  lemma FreshWindowsComplete(plan: Plan, world: nat -> nat -> Reply, noDelay: bool, m: nat)
    requires Priced(plan.steps) && plan.failAt == 0 && AllCalm(world) && |plan.steps| >= 1
    ensures var s := AfterWindows(plan, world, noDelay, m);
            && (plan.budget >= 400 && m >= CeilDiv(|plan.steps|, plan.budget / 400) ==> s.halt.HaltCompleted?)
            && (plan.budget >= 150 && m < CeilDiv(|plan.steps|, plan.budget / 150) ==> !s.halt.HaltCompleted?)
            && (s.halt.HaltCompleted? ==> s.next == |plan.steps|)
  {
    hide AfterWindows, CeilDiv;
    WindowsCarry(plan, world, noDelay, m);
    if plan.budget >= 400 && m >= CeilDiv(|plan.steps|, plan.budget / 400) {
      CeilDivCovers(|plan.steps|, plan.budget / 400);
      Monotone(CeilDiv(|plan.steps|, plan.budget / 400), m, plan.budget / 400);
    }
    if plan.budget >= 150 && |plan.steps| <= m * (plan.budget / 150) {
      CeilDivLower(m, plan.budget / 150, |plan.steps|);
    }
  }

  lemma CeilDivCovers(n: nat, q: nat)
    requires n > 0 && q > 0
    ensures CeilDiv(n, q) > 0 && n <= CeilDiv(n, q) * q
  {
    var c := CeilDiv(n, q);
    assert n + q - 1 == c * q + (n + q - 1) % q;
  }
}
