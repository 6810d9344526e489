/** Plan construction (internal/agent/agent.go: Start, boundedHash, buildSteps). The FNV
    hash of title and description is an arbitrary 32-bit value here. */
module Plans {
  import opened Base

  const DEFAULT_TOKEN_BUDGET: nat := 3500

  datatype PlannedStep = PlannedStep(name: string, cost: nat)

  /** What every state of one session has in common, whatever attempt it belongs to. */
  datatype Plan = Plan(title: string, feedback: seq<string>, steps: seq<PlannedStep>, budget: nat, failAt: nat)

  const STEP_NAMES: seq<string> := [
    "analyze", "research", "design", "draft", "implement",
    "refine", "test", "verify", "document", "review"]

  /** A uint32. */
  type Word = n: nat | n < 0x1_0000_0000

  /** Bitwise exclusive or. */
  function Xor(a: nat, b: nat): nat
    decreases a + b
  {
    if a == 0 && b == 0 then 0 else (a + b) % 2 + 2 * Xor(a / 2, b / 2)
  }

  lemma {:induction false} XorZero(b: nat)
    ensures Xor(0, b) == b && Xor(b, 0) == b
  {
    if b > 0 {
      XorZero(b / 2);
    }
  }

  /** Applying the same bits twice gives back what was there, as with no other bit operation. */
  lemma {:induction false} XorCancels(a: nat, b: nat)
    ensures Xor(Xor(a, b), b) == a
    decreases a + b
  {
    if a > 0 || b > 0 {
      XorCancels(a / 2, b / 2);
      var x, half := Xor(a, b), Xor(a / 2, b / 2);
      assert x == (a + b) % 2 + 2 * half;
      Halves((a + b) % 2, half);
      XorUnfolds(x, b);
      LowBits(a, b, x);
    }
  }

  lemma XorUnfolds(a: nat, b: nat)
    ensures Xor(a, b) == (a + b) % 2 + 2 * Xor(a / 2, b / 2)
  {
  }

  lemma Halves(bit: nat, half: nat)
    requires bit < 2
    ensures (bit + 2 * half) / 2 == half && (bit + 2 * half) % 2 == bit
  {
  }

  lemma LowBits(a: nat, b: nat, x: nat)
    requires x % 2 == (a + b) % 2
    ensures (x + b) % 2 + 2 * (a / 2) == a
  {
  }

  /** Go converts salt*2654435761 to uint32, which keeps the low 32 bits. */
  function BoundedHash(h: Word, salt: nat, lo: nat, hi: nat): (r: nat)
    requires lo <= hi
    ensures lo <= r <= hi
  {
    var mixed := Xor(h, (salt * 2654435761) % 0x1_0000_0000);
    lo + mixed % (hi - lo + 1)
  }

  function FeedbackStep(h: Word, index: nat, feedback: string): PlannedStep
  {
    PlannedStep("revise per feedback: " + Quote(Truncate(feedback, 40)), BoundedHash(h, index + 100, 150, 300))
  }

  function BodyStep(h: Word, count: nat, i: nat): PlannedStep
  {
    var name := STEP_NAMES[i % |STEP_NAMES|];
    PlannedStep(if count > |STEP_NAMES| then name + " step " + Decimal(i + 1) else name, BoundedHash(h, i, 150, 400))
  }

  /** The plan: one step for each piece of feedback, then the numbered steps. */
  function PlannedSteps(h: Word, count: nat, feedback: seq<string>): (steps: seq<PlannedStep>)
    ensures |steps| == |feedback| + count
    ensures forall k :: 0 <= k < |feedback| ==> steps[k] == FeedbackStep(h, k, feedback[k])
    ensures forall k :: |feedback| <= k < |steps| ==> steps[k] == BodyStep(h, count, k - |feedback|)
  {
    seq(|feedback| + count, k requires 0 <= k < |feedback| + count =>
      if k < |feedback| then FeedbackStep(h, k, feedback[k]) else BodyStep(h, count, k - |feedback|))
  }

  method BuildSteps(h: Word, count: nat, feedback: seq<string>) returns (steps: seq<PlannedStep>)
    ensures steps == PlannedSteps(h, count, feedback)
  {
    hide FeedbackStep, BodyStep;
    steps := [];
    for k := 0 to |feedback|
      invariant |steps| == k
      invariant forall m :: 0 <= m < k ==> steps[m] == FeedbackStep(h, m, feedback[m])
    {
      steps := steps + [FeedbackStep(h, |steps|, feedback[k])];
    }
    for i := 0 to count
      invariant |steps| == |feedback| + i
      invariant forall m :: 0 <= m < |feedback| ==> steps[m] == FeedbackStep(h, m, feedback[m])
      invariant forall m :: |feedback| <= m < |steps| ==> steps[m] == BodyStep(h, count, m - |feedback|)
    {
      steps := steps + [BodyStep(h, count, i)];
    }
  }

  /** Total cost of the steps from lo up to hi. */
  function Cost(steps: seq<PlannedStep>, lo: nat, hi: nat): nat
    requires hi <= |steps|
  {
    if hi <= lo then 0 else Cost(steps, lo, hi - 1) + steps[hi - 1].cost
  }

  /** Every planned step costs between 150 and 400 tokens. */
  predicate Priced(steps: seq<PlannedStep>)
  {
    forall k :: 0 <= k < |steps| ==> 150 <= steps[k].cost <= 400
  }

  lemma PlansArePriced(h: Word, count: nat, feedback: seq<string>)
    ensures Priced(PlannedSteps(h, count, feedback))
  {
    var steps := PlannedSteps(h, count, feedback);
    forall k | 0 <= k < |steps| ensures 150 <= steps[k].cost <= 400 {
      if k < |feedback| {
        assert steps[k] == FeedbackStep(h, k, feedback[k]);
      } else {
        assert steps[k] == BodyStep(h, count, k - |feedback|);
      }
    }
  }

  lemma {:induction false} CostBounds(steps: seq<PlannedStep>, lo: nat, hi: nat)
    requires Priced(steps) && lo <= hi <= |steps|
    ensures 150 * (hi - lo) <= Cost(steps, lo, hi) <= 400 * (hi - lo)
    decreases hi - lo
  {
    if lo < hi {
      CostBounds(steps, lo, hi - 1);
    }
  }

  lemma {:induction false} CostSplits(steps: seq<PlannedStep>, lo: nat, mid: nat, hi: nat)
    requires lo <= mid <= hi <= |steps|
    ensures Cost(steps, lo, hi) == Cost(steps, lo, mid) + Cost(steps, mid, hi)
    decreases hi - mid
  {
    if mid < hi {
      CostSplits(steps, lo, mid, hi - 1);
    }
  }

  /** The default number of steps. */
  function DefaultStepCount(h: Word): nat
  {
    BoundedHash(h, 0, 4, 8)
  }

  /** By default a plan has 4 to 8 steps, and the hash decides among all of these. */
  lemma DefaultStepCounts(h: Word)
    ensures DefaultStepCount(h) == 4 + h % 5
  {
    hide Xor;
    XorZero(h);
    assert (0 * 2654435761) % 0x1_0000_0000 == 0;
  }

  /** The promise in the comment on DefaultTokenBudget: with no directive and at most one
      piece of feedback, the whole plan fits in the default budget, for every hash. */
  lemma DefaultPlanFitsBudget(h: Word, feedback: seq<string>)
    requires |feedback| <= 1
    ensures var steps := PlannedSteps(h, DefaultStepCount(h), feedback);
            Cost(steps, 0, |steps|) <= DEFAULT_TOKEN_BUDGET
  {
    var steps := PlannedSteps(h, DefaultStepCount(h), feedback);
    PlansArePriced(h, DefaultStepCount(h), feedback);
    CostSplits(steps, 0, |feedback|, |steps|);
    CostBounds(steps, |feedback|, |steps|);
    if |feedback| == 1 {
      assert steps[0] == FeedbackStep(h, 0, feedback[0]);
      assert Cost(steps, 0, 1) == Cost(steps, 0, 0) + steps[0].cost;
    }
  }
}
