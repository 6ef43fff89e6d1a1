/** The Critic's identity-consistency rule (app/agents/critic_agent.py).
    The face-similarity comparator is a parameter: its behaviour is not
    part of this model. */
module Critic {
  import opened Common

  /** Cosine-similarity threshold at or above which identity is preserved. */
  const IdentityThreshold: real := 0.75

  /** The simulated semantic score every report carries. */
  const SemanticScore: real := 0.85

  datatype Decision = Approved | RepairRequired | Rejected

  datatype QAFailure = QAFailure(area: string, severity: real, description: string, actionType: string)

  datatype QAReport = QAReport(
    isConsistent: bool,
    identityDriftScore: real,
    clipSemanticScore: real,
    failures: seq<QAFailure>,
    finalDecision: Decision)

  /** `calculate_face_similarity(generated, reference)` */
  type Comparator = (Bytes, Bytes) -> real

  const DriftDescription: string := "The facial structure deviates from the Muse's Signature Assets."

  /** `verify_consistency(generated_image_bytes, reference_face_bytes)`.
      The severity is the exact `1 - score` (the source rounds it to four
      places). */
  function VerifyConsistency(compare: Comparator, generated: Bytes, referenceFace: Bytes): (r: QAReport)
    ensures r.identityDriftScore == compare(generated, referenceFace)
    ensures r.clipSemanticScore == SemanticScore
    ensures r.isConsistent <==> compare(generated, referenceFace) >= IdentityThreshold
    ensures r.isConsistent ==> r.failures == [] && r.finalDecision == Approved
    ensures !r.isConsistent ==>
              && |r.failures| == 1
              && r.failures[0].area == "face"
              && r.failures[0].actionType == "inpaint"
              && r.failures[0].severity == 1.0 - r.identityDriftScore
              && r.finalDecision == RepairRequired
    ensures r.finalDecision != Rejected
  {
    var drift := compare(generated, referenceFace);
    var consistent := drift >= IdentityThreshold;
    var failures := if consistent then [] else [QAFailure("face", 1.0 - drift, DriftDescription, "inpaint")];
    QAReport(consistent, drift, SemanticScore, failures,
             if consistent then Approved else RepairRequired)
  }

  /** A reported failure's severity lies in (1 - threshold, 1] whenever the
      comparator's score lies in [0, 1]. */
  lemma FailureSeverityBounds(compare: Comparator, generated: Bytes, referenceFace: Bytes)
    requires 0.0 <= compare(generated, referenceFace) <= 1.0
    ensures forall f :: f in VerifyConsistency(compare, generated, referenceFace).failures ==>
              1.0 - IdentityThreshold < f.severity <= 1.0
  {
  }

  /** The decision alone tells whether the image passed. */
  lemma DecisionDeterminesConsistency(compare: Comparator, generated: Bytes, referenceFace: Bytes)
    ensures var r := VerifyConsistency(compare, generated, referenceFace);
            r.isConsistent <==> r.finalDecision == Approved
  {
  }
}
