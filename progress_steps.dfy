/**
 * The wizard's progress indicator: for steps 1..totalSteps, whether each is
 * completed, current or upcoming, whether its circle shows a check or its
 * number, and whether the connector after it is highlighted.
 */
module ProgressSteps {
  import opened Common

  /** What one step renders. `connector` is absent after the last step, else whether it is highlighted. */
  datatype StepView = StepView(
    number: int,
    isCompleted: bool,
    isCurrent: bool,
    isUpcoming: bool,
    showsCheck: bool,
    connector: Option<bool>)

  /** `Array.from({ length: totalSteps })` creates no entries for a negative length. */
  function StepCount(totalSteps: int): nat {
    if totalSteps < 0 then 0 else totalSteps
  }

  function StepAt(stepNumber: int, currentStep: int, totalSteps: int): StepView {
    var isCompleted := stepNumber < currentStep;
    StepView(
      stepNumber,
      isCompleted,
      stepNumber == currentStep,
      stepNumber > currentStep,
      isCompleted,
      if stepNumber < totalSteps then Some(stepNumber < currentStep) else None)
  }

  function Steps(currentStep: int, totalSteps: int): seq<StepView> {
    seq(StepCount(totalSteps), i => StepAt(i + 1, currentStep, totalSteps))
  }

  /** The number of entries of `s` that satisfy `p`. */
  function CountIf(s: seq<StepView>, p: StepView -> bool): nat {
    if s == [] then 0
    else CountIf(s[..|s| - 1], p) + (if p(s[|s| - 1]) then 1 else 0)
  }

  function Clamp(x: int, lo: int, hi: int): int
    requires lo <= hi
  {
    if x < lo then lo else if x > hi then hi else x
  }

  /** The steps are numbered 1..totalSteps in order; each is in exactly one of the three states. */
  lemma StepsShape(currentStep: int, totalSteps: int)
    ensures var r := Steps(currentStep, totalSteps);
      |r| == StepCount(totalSteps)
      && forall k :: 0 <= k < |r| ==>
           && r[k].number == k + 1
           && (r[k].isCompleted <==> k + 1 < currentStep)
           && (r[k].isCurrent <==> k + 1 == currentStep)
           && (r[k].isUpcoming <==> k + 1 > currentStep)
           && (if r[k].isCompleted then !r[k].isCurrent && !r[k].isUpcoming
               else if r[k].isCurrent then !r[k].isUpcoming
               else r[k].isUpcoming)
           && (r[k].showsCheck <==> r[k].isCompleted)
  {
  }

  /** A connector follows every step but the last, highlighted exactly when that step is completed. */
  lemma ConnectorRule(currentStep: int, totalSteps: int)
    ensures var r := Steps(currentStep, totalSteps);
      forall k :: 0 <= k < |r| ==>
        && (r[k].connector.Some? <==> k + 1 < |r|)
        && (r[k].connector.Some? ==> (r[k].connector.value <==> r[k].isCompleted))
  {
  }

  /** Among the first m steps, Clamp(currentStep - 1, 0, m) are completed. */
  lemma {:induction false} CompletedPrefix(currentStep: int, totalSteps: int, m: nat)
    requires m <= StepCount(totalSteps)
    ensures CountIf(Steps(currentStep, totalSteps)[..m], (s: StepView) => s.isCompleted) == Clamp(currentStep - 1, 0, m)
  {
    var r := Steps(currentStep, totalSteps);
    if m > 0 {
      CompletedPrefix(currentStep, totalSteps, m - 1);
      assert r[..m][..m - 1] == r[..m - 1];
    }
  }

  /** Among the first m steps, one is current when 1 <= currentStep <= m, and none otherwise. */
  lemma {:induction false} CurrentPrefix(currentStep: int, totalSteps: int, m: nat)
    requires m <= StepCount(totalSteps)
    ensures CountIf(Steps(currentStep, totalSteps)[..m], (s: StepView) => s.isCurrent)
            == if 1 <= currentStep <= m then 1 else 0
  {
    var r := Steps(currentStep, totalSteps);
    if m > 0 {
      CurrentPrefix(currentStep, totalSteps, m - 1);
      assert r[..m][..m - 1] == r[..m - 1];
    }
  }

  /** Among the first m steps, those before the last step overall carry a connector. */
  lemma {:induction false} ConnectorPrefix(currentStep: int, totalSteps: int, m: nat)
    requires m <= StepCount(totalSteps)
    ensures CountIf(Steps(currentStep, totalSteps)[..m], (s: StepView) => s.connector.Some?)
            == if m == StepCount(totalSteps) && m > 0 then m - 1 else m
  {
    var r := Steps(currentStep, totalSteps);
    if m > 0 {
      ConnectorPrefix(currentStep, totalSteps, m - 1);
      assert r[..m][..m - 1] == r[..m - 1];
    }
  }

  /**
   * currentStep - 1 steps, clamped to [0, totalSteps], are completed; exactly
   * one is current when currentStep is in range and none otherwise; there are
   * totalSteps - 1 connectors.
   */
  lemma StepCounts(currentStep: int, totalSteps: int)
    ensures var r := Steps(currentStep, totalSteps);
      && CountIf(r, (s: StepView) => s.isCompleted) == Clamp(currentStep - 1, 0, |r|)
      && CountIf(r, (s: StepView) => s.isCurrent) == (if 1 <= currentStep <= totalSteps then 1 else 0)
      && CountIf(r, (s: StepView) => s.connector.Some?) == (if totalSteps <= 0 then 0 else totalSteps - 1)
  {
    var r := Steps(currentStep, totalSteps);
    assert r[..|r|] == r;
    CompletedPrefix(currentStep, totalSteps, |r|);
    CurrentPrefix(currentStep, totalSteps, |r|);
    ConnectorPrefix(currentStep, totalSteps, |r|);
  }

  /** The three wizard pages render the indicator for steps 1, 2 and 3 of 3. */
  lemma WizardIndicators()
    ensures Steps(1, 3)[0].isCurrent && Steps(1, 3)[1].isUpcoming && Steps(1, 3)[2].isUpcoming
    ensures Steps(2, 3)[0].showsCheck && Steps(2, 3)[0].connector == Some(true)
      && Steps(2, 3)[1].isCurrent && Steps(2, 3)[1].connector == Some(false)
    ensures Steps(3, 3)[1].isCompleted && Steps(3, 3)[2].isCurrent && Steps(3, 3)[2].connector == None
  {
  }
}
