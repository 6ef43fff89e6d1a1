/** The post-production ROI gate of app/agents/strategist.py. */
module Strategist {
  import opened Common

  const RoiThreshold: real := 50.0

  /** The `ZeroDivisionError` a zero cost raises. */
  datatype RoiError = ZeroDivision

  /** `evaluate_roi`: the investment was worth it when the virality score per
      unit of cost exceeds 50. */
  function EvaluateRoi(vvsScore: real, actualCost: real): (r: Result<bool, RoiError>)
    ensures r.Err? <==> actualCost == 0.0
  {
    if actualCost == 0.0 then Err(ZeroDivision)
    else Ok(vvsScore / actualCost > RoiThreshold)
  }

  /** `evaluate_production_roi`: the same gate under another name. */
  function EvaluateProductionRoi(vvsScore: real, actualCost: real): (r: Result<bool, RoiError>)
    ensures r == EvaluateRoi(vvsScore, actualCost)
  {
    EvaluateRoi(vvsScore, actualCost)
  }

  /** For a positive cost the gate passes exactly when the score exceeds
      fifty times the cost. */
  lemma {:induction false} RoiPositiveCost(vvsScore: real, actualCost: real)
    requires actualCost > 0.0
    ensures EvaluateRoi(vvsScore, actualCost) == Ok(true) <==> vvsScore > RoiThreshold * actualCost
  {
    var ratio := vvsScore / actualCost;
    assert vvsScore == ratio * actualCost;
    if ratio > RoiThreshold {
      assert (ratio - RoiThreshold) * actualCost > 0.0;
    } else {
      assert (RoiThreshold - ratio) * actualCost >= 0.0;
    }
  }

  /** A negative cost reverses the comparison. */
  lemma {:induction false} RoiNegativeCost(vvsScore: real, actualCost: real)
    requires actualCost < 0.0
    ensures EvaluateRoi(vvsScore, actualCost) == Ok(true) <==> vvsScore < RoiThreshold * actualCost
  {
    var ratio := vvsScore / actualCost;
    assert vvsScore == ratio * actualCost;
    if ratio > RoiThreshold {
      assert (ratio - RoiThreshold) * actualCost < 0.0;
    } else {
      assert (RoiThreshold - ratio) * actualCost <= 0.0;
    }
  }

  /** The bound is strict: a ratio of exactly fifty fails the gate. */
  lemma RoiStrictAtThreshold(actualCost: real)
    requires actualCost != 0.0
    ensures EvaluateRoi(RoiThreshold * actualCost, actualCost) == Ok(false)
  {
    assert (RoiThreshold * actualCost) / actualCost == RoiThreshold;
  }

  /** A non-positive score never passes at a positive cost. */
  lemma NoScoreNoReturn(vvsScore: real, actualCost: real)
    requires vvsScore <= 0.0 && actualCost > 0.0
    ensures EvaluateRoi(vvsScore, actualCost) == Ok(false)
  {
    RoiPositiveCost(vvsScore, actualCost);
  }
}
