/** Intent decomposition of app/agents/orchestrator.py: a fixed heuristic
    that plans a strategy task (for campaigns and launches), a narrative
    task and a visual task, each depending on the one before it. */
module Orchestrator {
  import opened Common

  datatype SubTask = SubTask(taskId: string, agentType: string, instruction: string, dependencies: seq<string>)

  datatype TaskPlan = TaskPlan(originalIntent: string, subtasks: seq<SubTask>)

  /** `SubTask(...)` without dependencies: the list defaults to empty. */
  function NewSubTask(taskId: string, agentType: string, instruction: string): (t: SubTask)
    ensures t.dependencies == [] && t.taskId == taskId && t.agentType == agentType && t.instruction == instruction
  {
    SubTask(taskId, agentType, instruction, [])
  }

  /** The lower-cased intent mentions a campaign or a launch. */
  predicate NeedsStrategy(intent: string)
  {
    Contains(Lower(intent), "campaign") || Contains(Lower(intent), "launch")
  }

  /** Some task before position `i` carries the id. */
  predicate DefinedBefore(tasks: seq<SubTask>, i: int, id: string)
  {
    exists j | 0 <= j < i && j < |tasks| :: tasks[j].taskId == id
  }

  /** Every dependency names a task earlier in the list, so running the
      tasks in list order respects every dependency and no cycle exists. */
  predicate DependenciesPointBackward(tasks: seq<SubTask>)
  {
    forall i, k :: 0 <= i < |tasks| && 0 <= k < |tasks[i].dependencies| ==>
      DefinedBefore(tasks, i, tasks[i].dependencies[k])
  }

  /** No two tasks share an id. */
  predicate DistinctIds(tasks: seq<SubTask>)
  {
    forall i, j :: 0 <= i < j < |tasks| ==> tasks[i].taskId != tasks[j].taskId
  }

  /** `decompose_intent`. */
  method DecomposeIntent(intent: string) returns (plan: TaskPlan)
    ensures plan.originalIntent == intent
    ensures |plan.subtasks| == (if NeedsStrategy(intent) then 3 else 2)
    ensures NeedsStrategy(intent) <==> plan.subtasks[0].agentType == "cso"
    ensures NeedsStrategy(intent) ==>
              plan.subtasks[0] == SubTask("task_1", "cso", "Define campaign strategy and key messaging.", [])
    ensures var n := |plan.subtasks|;
            plan.subtasks[n - 2] == SubTask("task_2", "narrative", "Write script/copy for: " + intent,
                                            if NeedsStrategy(intent) then ["task_1"] else [])
    ensures plan.subtasks[|plan.subtasks| - 1] == SubTask("task_3", "visual", "Generate key visuals/frames.", ["task_2"])
    ensures DependenciesPointBackward(plan.subtasks)
    ensures DistinctIds(plan.subtasks)
  {
    var subtasks: seq<SubTask> := [];
    var intentLower := Lower(intent);

    // 1. Strategy layer
    if Contains(intentLower, "campaign") || Contains(intentLower, "launch") {
      subtasks := subtasks + [NewSubTask("task_1", "cso", "Define campaign strategy and key messaging.")];
    }

    // 2. Narrative layer
    subtasks := subtasks + [SubTask("task_2", "narrative", "Write script/copy for: " + intent,
                                    if |subtasks| > 0 then ["task_1"] else [])];

    // 3. Visual layer
    subtasks := subtasks + [SubTask("task_3", "visual", "Generate key visuals/frames.", ["task_2"])];

    plan := TaskPlan(intent, subtasks);
    var n := |subtasks|;
    assert subtasks[n - 1].taskId == "task_3" && subtasks[n - 2].taskId == "task_2";
    assert DefinedBefore(subtasks, n - 1, "task_2");
    if n == 3 {
      assert subtasks[0].taskId == "task_1";
      assert DefinedBefore(subtasks, 1, "task_1");
      assert "task_1"[5] != "task_2"[5] && "task_1"[5] != "task_3"[5];
    }
    assert "task_2"[5] != "task_3"[5];
    assert "cso"[0] != "narrative"[0];
  }
}
