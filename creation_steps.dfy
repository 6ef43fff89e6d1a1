/** The pipeline-step status rule of the creation lobe
    (frontend/src/components/creation/CreationLobe.tsx, `getStepStatus`):
    a step is complete once the production has moved past it, active while
    the production is in it, and pending before. */
module CreationSteps {
  import opened Common

  datatype StepStatus = Pending | Active | Complete

  /** The stages in pipeline order. */
  const StageOrder: seq<string> := ["planning", "scripting", "visualizing", "rendering", "qa", "complete"]

  /** The four steps the lobe renders, top to bottom. */
  const RenderedSteps: seq<string> := ["scripting", "visualizing", "rendering", "qa"]

  /** `xs.indexOf(x)`: the first position of `x`, or -1. */
  function IndexOf(xs: seq<string>, x: string): (i: int)
    ensures -1 <= i < |xs|
    ensures i == -1 <==> x !in xs
    ensures i >= 0 ==> xs[i] == x && forall j :: 0 <= j < i ==> xs[j] != x
  {
    if xs == [] then -1
    else if xs[0] == x then 0
    else
      var r := IndexOf(xs[1..], x);
      if r == -1 then -1 else r + 1
  }

  /** `getStepStatus(step, currentStage)`; the stage is compared in lower case. */
  function GetStepStatus(step: string, currentStage: string): (status: StepStatus)
    ensures step == Lower(currentStage) ==> status == Active
    ensures Lower(currentStage) == "complete" && step in StageOrder && step != "complete" ==> status == Complete
  {
    var stepIdx := IndexOf(StageOrder, step);
    var currentIdx := IndexOf(StageOrder, Lower(currentStage));
    if currentIdx > stepIdx then Complete
    else if currentIdx == stepIdx then Active
    else Pending
  }

  /** The status compares positions in the stage order: complete exactly
      when the current stage comes later, active exactly when it is the
      same, pending otherwise. */
  lemma StatusByPosition(step: string, currentStage: string)
    ensures var s := IndexOf(StageOrder, step);
            var c := IndexOf(StageOrder, Lower(currentStage));
            && (GetStepStatus(step, currentStage) == Complete <==> c > s)
            && (GetStepStatus(step, currentStage) == Active <==> c == s)
            && (GetStepStatus(step, currentStage) == Pending <==> c < s)
  {
  }

  /** Lower-casing twice is lower-casing once. */
  lemma {:induction false} LowerIdempotent(s: string)
    ensures Lower(Lower(s)) == Lower(s)
  {
    var l := Lower(s);
    assert forall i :: 0 <= i < |l| ==> Lower(l)[i] == l[i];
  }

  /** The stage is compared case-insensitively. */
  lemma CaseInsensitive(step: string, currentStage: string)
    ensures GetStepStatus(step, currentStage) == GetStepStatus(step, Lower(currentStage))
  {
    LowerIdempotent(currentStage);
  }

  /** A stage outside the order leaves every known step pending. */
  lemma UnknownStageIsPending(step: string, currentStage: string)
    requires Lower(currentStage) !in StageOrder
    requires step in StageOrder
    ensures GetStepStatus(step, currentStage) == Pending
  {
  }

  /** Every stage name starts with a letter of its own. */
  lemma StageInitials()
    ensures forall m :: 0 <= m < |StageOrder| ==> |StageOrder[m]| > 0 && StageOrder[m][0] == "psvrqc"[m]
  {
  }

  /** The k-th rendered step is stage k + 1 of the order. */
  lemma RenderedIndex(k: int)
    requires 0 <= k < |RenderedSteps|
    ensures IndexOf(StageOrder, RenderedSteps[k]) == k + 1
  {
    var x := RenderedSteps[k];
    assert StageOrder[k + 1] == x;
    StageInitials();
    forall m | 0 <= m < k + 1
      ensures StageOrder[m] != x
    {
      assert StageOrder[m][0] != StageOrder[k + 1][0];
    }
  }

  /** For a known stage, the rendered steps read complete up to some point,
      then at most one active, then pending: an earlier step is complete
      whenever a later one is not pending, and two steps are never both
      active. */
  lemma {:induction false} RenderedStepsAreOrdered(currentStage: string, i: int, j: int)
    requires Lower(currentStage) in StageOrder
    requires 0 <= i < j < |RenderedSteps|
    ensures GetStepStatus(RenderedSteps[j], currentStage) != Pending ==>
              GetStepStatus(RenderedSteps[i], currentStage) == Complete
    ensures !(GetStepStatus(RenderedSteps[i], currentStage) == Active
              && GetStepStatus(RenderedSteps[j], currentStage) == Active)
  {
    RenderedIndex(i);
    RenderedIndex(j);
    StatusByPosition(RenderedSteps[i], currentStage);
    StatusByPosition(RenderedSteps[j], currentStage);
  }
}
