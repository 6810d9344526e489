/** Session states as values and the transitions of the step machine
    (internal/agent/agent.go). Module SessionObject holds the mutable session. */
module Agent {
  import opened Base
  import opened Domain
  import opened Plans

  type SessionId = nat
  type Token = nat

  datatype Step = Step(name: string, cost: nat, done: bool, output: string)

  datatype HaltReason = HaltUnset | HaltRunning | HaltCompleted | HaltAgentError | HaltTokenExhausted | HaltInterrupted
  {
    predicate Terminal()
    {
      !HaltUnset? && !HaltRunning?
    }
  }

  datatype SessionState = SessionState(
    id: SessionId,
    title: string,
    feedback: seq<string>,
    steps: seq<Step>,
    budget: nat,
    allowance: int,
    origin: WindowOrigin,
    remaining: int,
    used: int,
    next: nat,
    completed: bool,
    erroredAt: nat,
    errorMessage: string,
    budgetHalted: bool,
    runID: nat,
    token: Token,
    start: nat,
    halt: HaltReason,
    haltedAt: Option<int>)

  // ---- texts ----

  function StepOutput(number: nat, count: nat, name: string): (r: string)
    ensures r != ""
  {
    "[step " + Decimal(number) + "/" + Decimal(count) + "] " + name + ": processed"
  }

  function SummaryLine(count: nat, title: string): (r: string)
    ensures r != ""
  {
    "completed all " + Decimal(count) + " steps for: " + title
  }

  function ErrorText(number: nat, name: string): (r: string)
    ensures r != ""
  {
    "agent error at step " + Decimal(number) + ": " + name
  }

  function DoneCount(steps: seq<Step>): nat
  {
    if |steps| == 0 then 0
    else DoneCount(steps[..|steps| - 1]) + if steps[|steps| - 1].done then 1 else 0
  }

  /** agent.Summary, the comment left by a completed attempt. */
  function Summary(s: SessionState): (r: string)
    ensures r != ""
  {
    var status :=
      if s.completed then ["status: completed"]
      else if s.budgetHalted then ["status: budget exhausted"]
      else if s.errorMessage != "" then ["status: errored"]
      else [];
    var feedback := Join(s.feedback, "; ");
    var addressed := if feedback != "" then ["feedback addressed: " + Truncate(feedback, 60)] else [];
    var parts := [Decimal(DoneCount(s.steps)) + "/" + Decimal(|s.steps|) + " steps completed"] + status + addressed;
    assert parts[0] != "";
    JoinOfTextIsText(parts, ", ");
    Join(parts, ", ")
  }

  // ---- starting, continuing and binding an attempt ----

  function FreshSteps(plan: Plan): seq<Step>
  {
    Executed(plan.steps, 0)
  }

  function Start(id: SessionId, plan: Plan): SessionState
  {
    SessionState(id, plan.title, plan.feedback, FreshSteps(plan), plan.budget, plan.budget, WindowFresh,
                 plan.budget, 0, 0, false, plan.failAt, "", false, 0, 0, 0, HaltUnset, None)
  }

  function BeginAttempt(s: SessionState, allowance: int, origin: WindowOrigin): Result<SessionState, string>
  {
    if allowance < 0 then Err("attempt allowance must be non-negative")
    else Ok(s.(allowance := allowance, origin := origin, remaining := allowance, used := 0, budgetHalted := false))
  }

  function ContinueAttempt(s: SessionState): SessionState
  {
    s.(allowance := s.remaining, origin := WindowContinued, used := 0, budgetHalted := false)
  }

  function BindAttempt(s: SessionState, runID: nat, token: Token): SessionState
  {
    s.(runID := runID, token := token, start := s.next, halt := HaltRunning, haltedAt := None, errorMessage := "")
  }

  // ---- what an attempt has produced ----

  /** The non-empty outputs of steps lo to hi, in order. */
  function Outputs(steps: seq<Step>, lo: nat, hi: nat): seq<string>
    requires hi <= |steps|
  {
    if hi <= lo then []
    else Outputs(steps, lo, hi - 1) + if steps[hi - 1].output != "" then [steps[hi - 1].output] else []
  }

  /** The lines AttemptCheckpoint rebuilds from the steps array. */
  function AttemptLines(s: SessionState): seq<string>
    requires s.next <= |s.steps|
  {
    Outputs(s.steps, s.start, s.next) +
    if s.halt.HaltCompleted? then [SummaryLine(|s.steps|, s.title)] else []
  }

  function AttemptOutput(s: SessionState): string
    requires s.next <= |s.steps|
  {
    Join(AttemptLines(s), "\n")
  }

  // ---- the step machine ----

  /** One transition of the run loop and the line it shows the user, if any. */
  datatype Move = Move(state: SessionState, line: Option<string>)

  function Halt(s: SessionState, reason: HaltReason, now: int): SessionState
  {
    s.(halt := reason, haltedAt := if s.haltedAt.None? then Some(now) else s.haltedAt)
  }

  /** The loop would leave here for a reason of its own, without cancellation. */
  predicate Stops(s: SessionState)
    requires s.next <= |s.steps|
  {
    s.next == |s.steps| || (s.erroredAt > 0 && s.next + 1 == s.erroredAt) || s.steps[s.next].cost > s.remaining
  }

  /** The loop tries its exits in this order: all steps done, cancellation, the fire-once
      error, exhaustion, and otherwise the next step. */
  function Advance(s: SessionState, cancelled: bool, now: int): (move: Move)
    requires s.next <= |s.steps| && !s.halt.Terminal()
    ensures |move.state.steps| == |s.steps| && s.next <= move.state.next <= |s.steps|
    ensures move.state.halt.Terminal() <==> cancelled || Stops(s)
    ensures move.state.halt.Terminal() || (move.state.halt == s.halt && move.state.next == s.next + 1)
    ensures move.state.halt.Terminal() ==> move.state.haltedAt.Some?
  {
    if s.next == |s.steps| then
      Move(Halt(s.(completed := true), HaltCompleted, now), Some(SummaryLine(|s.steps|, s.title)))
    else if cancelled then
      Move(Halt(s, HaltInterrupted, now), None)
    else
      var step := s.steps[s.next];
      if s.erroredAt > 0 && s.next + 1 == s.erroredAt then
        Move(Halt(s.(errorMessage := ErrorText(s.next + 1, step.name), erroredAt := 0), HaltAgentError, now), None)
      else if step.cost > s.remaining then
        Move(Halt(s.(budgetHalted := true), HaltTokenExhausted, now), None)
      else
        var output := StepOutput(s.next + 1, |s.steps|, step.name);
        Move(s.(steps := s.steps[s.next := Step(step.name, step.cost, true, output)],
                used := s.used + step.cost,
                remaining := s.remaining - step.cost,
                next := s.next + 1),
             Some(output))
  }

  // ---- the session invariant ----

  /** The steps array of a session that has completed its first next steps. */
  function Executed(steps: seq<PlannedStep>, next: nat): (r: seq<Step>)
    ensures |r| == |steps|
    ensures forall i :: 0 <= i < |r| ==> r[i] == ExecutedStep(steps, next, i)
  {
    seq(|steps|, i requires 0 <= i < |steps| => ExecutedStep(steps, next, i))
  }

  function ExecutedStep(steps: seq<PlannedStep>, next: nat, i: nat): Step
    requires i < |steps|
  {
    Step(steps[i].name, steps[i].cost, i < next, if i < next then StepOutput(i + 1, |steps|, steps[i].name) else "")
  }

  /** The state belongs to a session with this plan and has done exactly its first steps. */
  predicate Follows(s: SessionState, plan: Plan)
  {
    && s.title == plan.title
    && s.feedback == plan.feedback
    && s.budget == plan.budget
    && s.next <= |plan.steps|
    && s.steps == Executed(plan.steps, s.next)
    && 0 <= s.remaining
    && (s.origin.WindowFresh? ==> s.allowance == s.budget)
  }

  /** Ready to be claimed: an allowance has been granted and nothing of it is spent. */
  predicate Ready(s: SessionState, plan: Plan)
  {
    Follows(s, plan) && s.used == 0 && s.remaining == s.allowance && !s.budgetHalted
  }

  /** What holding a halt reason says about the state. */
  predicate HaltExplained(s: SessionState, plan: Plan)
    requires s.next <= |plan.steps|
  {
    match s.halt
    case HaltUnset => s.runID == 0
    case HaltRunning => s.haltedAt.None? && s.errorMessage == "" && !s.budgetHalted
    case HaltCompleted => s.next == |plan.steps| && s.haltedAt.Some? && s.completed
    case HaltAgentError =>
      && s.next < |plan.steps| && s.haltedAt.Some? && s.erroredAt == 0
      && s.errorMessage == ErrorText(s.next + 1, plan.steps[s.next].name)
    case HaltTokenExhausted =>
      && s.next < |plan.steps| && s.haltedAt.Some? && plan.steps[s.next].cost > s.remaining && s.budgetHalted
      && s.erroredAt != s.next + 1 && s.errorMessage == ""
    case HaltInterrupted => s.next < |plan.steps| && s.haltedAt.Some?
  }

  /** The attempt's books balance: what is used is the cost of the steps done since the
      attempt began, and used plus remaining is what was granted. */
  predicate Accounted(s: SessionState, plan: Plan): (r: bool)
    ensures r ==> s.start <= s.next <= |s.steps|
  {
    && Follows(s, plan)
    && s.start <= s.next
    && s.used == Cost(plan.steps, s.start, s.next)
    && s.used + s.remaining == s.allowance
    && HaltExplained(s, plan)
  }

  lemma StartIsReady(id: SessionId, plan: Plan)
    ensures Ready(Start(id, plan), plan) && Accounted(Start(id, plan), plan)
    ensures var s := Start(id, plan);
            s.next == 0 && !s.completed && s.erroredAt == plan.failAt && s.origin.WindowFresh? && s.id == id
  {
  }

  lemma BeginIsReady(s: SessionState, plan: Plan, allowance: int, origin: WindowOrigin)
    requires Follows(s, plan) && 0 <= allowance
    requires origin.WindowFresh? ==> allowance == plan.budget
    ensures BeginAttempt(s, allowance, origin).Ok? && Ready(BeginAttempt(s, allowance, origin).value, plan)
  {
  }

  lemma BindIsAccounted(s: SessionState, plan: Plan, runID: nat, token: Token)
    requires Ready(s, plan)
    ensures Accounted(BindAttempt(s, runID, token), plan)
    ensures AttemptLines(BindAttempt(s, runID, token)) == []
  {
  }

  lemma ExecuteNext(steps: seq<PlannedStep>, next: nat)
    requires next < |steps|
    ensures Executed(steps, next)[next := ExecutedStep(steps, next + 1, next)] == Executed(steps, next + 1)
  {
  }

  /** Every transition keeps the books. */
  lemma AdvanceKeepsBooks(s: SessionState, plan: Plan, cancelled: bool, now: int)
    requires Accounted(s, plan) && s.halt.HaltRunning?
    ensures Accounted(Advance(s, cancelled, now).state, plan)
  {
    hide StepOutput, SummaryLine, ErrorText;
    var after := Advance(s, cancelled, now).state;
    if after.next != s.next {
      ExecuteStep(s, plan, cancelled, now);
      assert s.steps[s.next].cost == plan.steps[s.next].cost;
    } else {
      assert after.steps == s.steps;
    }
  }

  lemma ExecuteStep(s: SessionState, plan: Plan, cancelled: bool, now: int)
    requires s.steps == Executed(plan.steps, s.next) && s.next <= |plan.steps| && s.halt.HaltRunning?
    requires Advance(s, cancelled, now).state.next != s.next
    ensures Advance(s, cancelled, now).state.steps == Executed(plan.steps, s.next + 1)
    ensures Advance(s, cancelled, now).line == Some(StepOutput(s.next + 1, |plan.steps|, plan.steps[s.next].name))
  {
    hide StepOutput, SummaryLine;
    ExecuteNext(plan.steps, s.next);
  }

  /** The lines of the steps of a plan, wherever the session that ran them stands now. */
  function PlanLines(steps: seq<PlannedStep>, lo: nat, hi: nat): (r: seq<string>)
    requires hi <= |steps|
    ensures |r| == if lo < hi then hi - lo else 0
    ensures forall k :: 0 <= k < |r| ==> r[k] == StepOutput(lo + k + 1, |steps|, steps[lo + k].name)
  {
    if hi <= lo then [] else PlanLines(steps, lo, hi - 1) + [StepOutput(hi, |steps|, steps[hi - 1].name)]
  }

  /** The line of a step tells which one it is. */
  lemma StepLinesDiffer(a: nat, b: nat, count: nat, x: string, y: string)
    requires a != b
    ensures StepOutput(a, count, x) != StepOutput(b, count, y)
  {
    hide Decimal;
    var restX, restY := Decimal(count) + "] " + x + ": processed", Decimal(count) + "] " + y + ": processed";
    if StepOutput(a, count, x) == StepOutput(b, count, y) {
      assert StepOutput(a, count, x)[6..] == Decimal(a) + "/" + restX;
      assert StepOutput(b, count, y)[6..] == Decimal(b) + "/" + restY;
      NumbersSeparate(a, b, restX, restY);
    }
  }

  /** No two steps of a plan share a line, so what is listed once was done once. */
  lemma PlanLinesDiffer(steps: seq<PlannedStep>, lo: nat, hi: nat, i: nat, j: nat)
    requires hi <= |steps| && i < j < |PlanLines(steps, lo, hi)|
    ensures PlanLines(steps, lo, hi)[i] != PlanLines(steps, lo, hi)[j]
  {
    hide PlanLines, StepOutput;
    StepLinesDiffer(lo + i + 1, lo + j + 1, |steps|, steps[lo + i].name, steps[lo + j].name);
  }

  lemma {:induction false} OutputsArePlanLines(steps: seq<PlannedStep>, next: nat, lo: nat, hi: nat)
    requires hi <= next <= |steps|
    ensures Outputs(Executed(steps, next), lo, hi) == PlanLines(steps, lo, hi)
    decreases hi
  {
    if lo < hi {
      OutputsArePlanLines(steps, next, lo, hi - 1);
    }
  }

  lemma LinesOf(s: SessionState, plan: Plan)
    requires Accounted(s, plan)
    ensures AttemptLines(s) == PlanLines(plan.steps, s.start, s.next) +
                               if s.halt.HaltCompleted? then [SummaryLine(|plan.steps|, plan.title)] else []
  {
    OutputsArePlanLines(plan.steps, s.next, s.start, s.next);
  }

  /** The line a transition shows is exactly what the rebuilt output gains by it. */
  lemma AdvanceAddsItsLine(s: SessionState, plan: Plan, cancelled: bool, now: int)
    requires Accounted(s, plan) && s.halt.HaltRunning?
    ensures var move := Advance(s, cancelled, now);
            Accounted(move.state, plan) &&
            AttemptLines(move.state) == AttemptLines(s) + if move.line.Some? then [move.line.value] else []
  {
    hide StepOutput, SummaryLine, Executed, HaltExplained, AttemptLines;
    var move := Advance(s, cancelled, now);
    AdvanceKeepsBooks(s, plan, cancelled, now);
    LinesOf(s, plan);
    LinesOf(move.state, plan);
    if move.state.next != s.next {
      ExecuteStep(s, plan, cancelled, now);
    }
  }
}
