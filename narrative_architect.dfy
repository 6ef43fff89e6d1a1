/** The script record the narrative agent produces, and the Narrative
    Architect's decomposition of a script into production nodes
    (app/agents/narrative_architect.py). */
module NarrativeArchitect {

  /** Retention markers of a script. */
  datatype AttentionDynamics = AttentionDynamics(
    hookIntensity: real,
    patternInterrupts: seq<string>,
    tempoCurve: seq<real>)

  /** `ScriptOutput`: what the narrative agent returns. */
  datatype ScriptOutput = ScriptOutput(
    title: string,
    script: string,
    caption: string,
    estimatedDuration: int,
    attentionDynamics: AttentionDynamics)

  /** Seconds between two pattern interrupts. */
  const InterruptPeriod: int := 8

  datatype ProductionNode =
    | VisualGen(prompt: string, vvsBoost: real)
    | PatternInterrupt(triggerTime: int, action: string, severity: string)
    | MotionGen(duration: int, tempoCurve: seq<real>)

  /** The node the i-th interrupt yields, if its trigger time falls before
      the end of the script. */
  function InterruptNode(interrupts: seq<string>, i: nat): ProductionNode
    requires i < |interrupts|
  {
    PatternInterrupt((i + 1) * InterruptPeriod, interrupts[i], "high")
  }

  /** The interrupt nodes for interrupts 0 .. n-1, in order, keeping those
      whose trigger time is strictly before `duration`. */
  function InterruptNodes(interrupts: seq<string>, duration: int, n: nat): seq<ProductionNode>
    requires n <= |interrupts|
  {
    if n == 0 then []
    else InterruptNodes(interrupts, duration, n - 1)
         + (if n * InterruptPeriod < duration then [InterruptNode(interrupts, n - 1)] else [])
  }

  /** How many interrupts fit strictly before `duration`: those with
      (i + 1) * 8 < duration. */
  function FittingInterrupts(count: nat, duration: int): (k: nat)
    ensures k <= count
  {
    var fit := if duration <= 0 then 0 else (duration - 1) / InterruptPeriod;
    if fit < count then fit else count
  }

  /** The kept interrupts are exactly a prefix of the list: the i-th
      interrupt is emitted, with trigger time (i + 1) * 8, iff that time is
      before the end. */
  lemma {:induction false} InterruptNodesArePrefix(interrupts: seq<string>, duration: int, n: nat)
    requires n <= |interrupts|
    ensures |InterruptNodes(interrupts, duration, n)| == FittingInterrupts(n, duration)
    ensures forall i :: 0 <= i < FittingInterrupts(n, duration) ==>
              InterruptNodes(interrupts, duration, n)[i] == InterruptNode(interrupts, i)
              && (i + 1) * InterruptPeriod < duration
  {
    if n > 0 {
      InterruptNodesArePrefix(interrupts, duration, n - 1);
      var fit := if duration <= 0 then 0 else (duration - 1) / InterruptPeriod;
      assert n * InterruptPeriod < duration <==> n <= fit;
    }
  }

  /** Trigger times of the emitted interrupts strictly increase. */
  lemma TriggerTimesIncrease(interrupts: seq<string>, duration: int)
    ensures var nodes := InterruptNodes(interrupts, duration, |interrupts|);
            forall i, j :: 0 <= i < j < |nodes| ==>
              nodes[i].PatternInterrupt? && nodes[j].PatternInterrupt? &&
              nodes[i].triggerTime < nodes[j].triggerTime
  {
    InterruptNodesArePrefix(interrupts, duration, |interrupts|);
  }

  /** `plan_production_nodes(script)` */
  method PlanProductionNodes(script: ScriptOutput) returns (nodes: seq<ProductionNode>)
    ensures |nodes| == 2 + FittingInterrupts(|script.attentionDynamics.patternInterrupts|, script.estimatedDuration)
    ensures nodes[0] == VisualGen(script.title, script.attentionDynamics.hookIntensity)
    ensures nodes[|nodes| - 1] == MotionGen(script.estimatedDuration, script.attentionDynamics.tempoCurve)
    ensures nodes[1..|nodes| - 1] == InterruptNodes(script.attentionDynamics.patternInterrupts,
                                                     script.estimatedDuration,
                                                     |script.attentionDynamics.patternInterrupts|)
  {
    var dyn := script.attentionDynamics;
    nodes := [VisualGen(script.title, dyn.hookIntensity)];
    var i := 0;
    while i < |dyn.patternInterrupts|
      invariant 0 <= i <= |dyn.patternInterrupts|
      invariant nodes == [VisualGen(script.title, dyn.hookIntensity)]
                         + InterruptNodes(dyn.patternInterrupts, script.estimatedDuration, i)
    {
      var timestamp := (i + 1) * InterruptPeriod;
      if timestamp < script.estimatedDuration {
        nodes := nodes + [PatternInterrupt(timestamp, dyn.patternInterrupts[i], "high")];
      }
      i := i + 1;
    }
    InterruptNodesArePrefix(dyn.patternInterrupts, script.estimatedDuration, |dyn.patternInterrupts|);
    nodes := nodes + [MotionGen(script.estimatedDuration, dyn.tempoCurve)];
  }
}
