/** The texts and numbers of small cases, written out. */
module Samples {
  import opened Base
  import opened Plans
  import opened Agent

  lemma SampleDecimals()
    ensures Decimal(1) == "1" && Decimal(2) == "2" && Decimal(3) == "3" && Decimal(5) == "5" && Decimal(11) == "11"
  {
  }

  lemma SampleStepLine()
    ensures StepOutput(2, 5, "research") == "[step 2/5] research: processed"
  {
    SampleDecimals();
    hide Decimal;
  }

  lemma SampleSummaryLine()
    ensures SummaryLine(5, "Fix it") == "completed all 5 steps for: Fix it"
  {
    SampleDecimals();
    hide Decimal;
  }

  lemma SampleErrorText()
    ensures ErrorText(3, "design") == "agent error at step 3: design"
  {
    SampleDecimals();
    hide Decimal;
  }

  lemma SampleJoin()
    ensures Join(["a", "b", "c"], ", ") == "a, b, c"
  {
    assert ["a", "b", "c"][..2] == ["a", "b"] && ["a", "b"][..1] == ["a"];
    assert Join(["a", "b"], ", ") == "a, b";
  }

  /** With hash 0 the price of a step depends only on its salt. */
  lemma PriceOf(salt: nat, turns: nat, low: nat, lo: nat, hi: nat)
    requires lo <= hi && salt * 2654435761 == turns * 0x1_0000_0000 + low && low < 0x1_0000_0000
    ensures BoundedHash(0, salt, lo, hi) == lo + low % (hi - lo + 1)
  {
    hide Xor;
    assert salt * 2654435761 % 0x1_0000_0000 == low;
    XorZero(low);
  }

  /** A step that addresses a piece of feedback quotes it, cut after 40 characters. */
  lemma SampleFeedback(feedback: string)
    ensures FeedbackStep(0, 0, feedback).name ==
            "revise per feedback: " + "\"" + (if |feedback| <= 40 then feedback else feedback[..40] + "...") + "\""
    ensures FeedbackStep(0, 0, feedback).cost == 150 + 3450571044 % 151
  {
    hide BoundedHash;
    PriceOf(100, 61, 3450571044, 150, 300);
  }

  /** In a plan of up to ten steps each name is used once; in a longer one the names are used
      in turn, and numbered. */
  lemma SampleSteps()
    ensures BodyStep(0, 10, 2).name == STEP_NAMES[2] && BodyStep(0, 12, 10).name == STEP_NAMES[0] + " step " + "11"
  {
    SampleDecimals();
    hide BoundedHash, Decimal;
  }

  lemma SamplePrices()
    ensures BodyStep(0, 10, 2).cost == 150 + 1013904226 % 251 && BodyStep(0, 12, 10).cost == 150 + 774553834 % 251
  {
    hide BoundedHash, Decimal;
    PriceOf(2, 1, 1013904226, 150, 400);
    PriceOf(10, 6, 774553834, 150, 400);
  }
}
