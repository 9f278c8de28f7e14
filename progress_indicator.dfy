/**
 * The step-progress strip: `totalSteps` numbered circles joined by
 * `totalSteps - 1` lines. A circle is current, completed or pending by
 * comparing its 1-based position with the current step; completed circles
 * show a check mark and a line is highlighted when the circle before it is
 * completed.
 */
module ProgressIndicator {

  datatype CircleState = Current | Completed | Pending

  datatype CircleLabel = CheckMark | StepNumber(n: int)

  /** The state of the circle at 0-based `index`: its three style conditions, exactly one of which holds. */
  function CircleStateAt(index: int, currentStep: int): (c: CircleState)
    ensures c == Current <==> index + 1 == currentStep
    ensures c == Completed <==> index + 1 < currentStep
    ensures c == Pending <==> index + 1 > currentStep
  {
    if index + 1 == currentStep then Current
    else if index + 1 < currentStep then Completed
    else Pending
  }

  /** Completed circles show a check mark; all others show their 1-based number. */
  function Label(index: int, currentStep: int): (l: CircleLabel)
    ensures l == CheckMark <==> CircleStateAt(index, currentStep) == Completed
    ensures l != CheckMark ==> l == StepNumber(index + 1)
  {
    if index + 1 < currentStep then CheckMark else StepNumber(index + 1)
  }

  /** The connector after circle `index` is highlighted when that circle is completed. */
  predicate ConnectorHighlighted(index: int, currentStep: int)
  {
    index + 1 < currentStep
  }

  function Circles(currentStep: int, totalSteps: nat): (r: seq<CircleState>)
    ensures |r| == totalSteps
    ensures forall i :: 0 <= i < totalSteps ==> r[i] == CircleStateAt(i, currentStep)
  {
    seq(totalSteps, i requires 0 <= i => CircleStateAt(i, currentStep))
  }

  /** A line follows every circle but the last. */
  function Connectors(currentStep: int, totalSteps: nat): (r: seq<bool>)
    ensures |r| == if totalSteps == 0 then 0 else totalSteps - 1
    ensures forall i :: 0 <= i < |r| ==> (r[i] <==> CircleStateAt(i, currentStep) == Completed)
  {
    var n := if totalSteps == 0 then 0 else totalSteps - 1;
    seq(n, i requires 0 <= i => ConnectorHighlighted(i, currentStep))
  }

  function Count(s: seq<CircleState>, c: CircleState): nat
  {
    if s == [] then 0
    else Count(s[..|s| - 1], c) + (if s[|s| - 1] == c then 1 else 0)
  }

  function Clamp(x: int, lo: int, hi: int): int
  {
    if x < lo then lo else if x > hi then hi else x
  }

  lemma CirclesPrefix(currentStep: int, n: nat)
    ensures Circles(currentStep, n + 1)[..n] == Circles(currentStep, n)
  {
  }

  /** Among the first `n` circles, `currentStep - 1` are completed, clamped to the range 0..n. */
  lemma {:induction false} CompletedCount(currentStep: int, n: nat)
    ensures Count(Circles(currentStep, n), Completed) == Clamp(currentStep - 1, 0, n)
  {
    if n > 0 {
      CirclesPrefix(currentStep, n - 1);
      CompletedCount(currentStep, n - 1);
    }
  }

  /** At most one circle is current, and one is exactly when the step is in range. */
  lemma {:induction false} CurrentCount(currentStep: int, n: nat)
    ensures Count(Circles(currentStep, n), Current) == if 1 <= currentStep <= n then 1 else 0
  {
    if n > 0 {
      CirclesPrefix(currentStep, n - 1);
      CurrentCount(currentStep, n - 1);
    }
  }

  /** With the step in range: one current circle, `currentStep - 1` completed, the rest pending. */
  lemma InRangeCounts(currentStep: int, totalSteps: nat)
    requires 1 <= currentStep <= totalSteps
    ensures Count(Circles(currentStep, totalSteps), Current) == 1
    ensures Count(Circles(currentStep, totalSteps), Completed) == currentStep - 1
  {
    CurrentCount(currentStep, totalSteps);
    CompletedCount(currentStep, totalSteps);
  }

  /** Completion is downward closed: every circle before a completed one is completed. */
  lemma CompletedDownwardClosed(currentStep: int, totalSteps: nat, i: nat, j: nat)
    requires j < i < totalSteps
    requires Circles(currentStep, totalSteps)[i] == Completed
    ensures Circles(currentStep, totalSteps)[j] == Completed
  {
  }
}
