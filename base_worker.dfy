/** The worker contract of app/agents/base_worker.py: a worker knows its id
    and the one skill (agent type) it serves. Task execution is abstract in
    the source and is not part of this model. */
module Workers {

  /** The concrete worker implementation a skill is served by, by name. */
  type WorkerClass = string

  /** A worker instance: its implementation, its id and its agent type. */
  datatype Worker = Worker(cls: WorkerClass, agentId: string, agentType: string)

  /** `worker_cls(agent_id=..., agent_type=...)`: both fields are stored as
      given. */
  function NewWorker(cls: WorkerClass, agentId: string, agentType: string): (w: Worker)
    ensures w.cls == cls && w.agentId == agentId && w.agentType == agentType
  {
    Worker(cls, agentId, agentType)
  }

  /** `validate_capability`: a worker handles exactly its own agent type. */
  function ValidateCapability(w: Worker, requiredSkill: string): (ok: bool)
    ensures ok <==> requiredSkill == w.agentType
  {
    requiredSkill == w.agentType
  }

  /** A worker serves a single skill: two skills it both validates are equal. */
  lemma CapabilityIsUnique(w: Worker, s1: string, s2: string)
    requires ValidateCapability(w, s1) && ValidateCapability(w, s2)
    ensures s1 == s2
  {
  }

  /** Every worker built for a skill validates that skill and no other. */
  lemma NewWorkerValidatesItsType(cls: WorkerClass, agentId: string, skill: string, other: string)
    requires other != skill
    ensures ValidateCapability(NewWorker(cls, agentId, skill), skill)
    ensures !ValidateCapability(NewWorker(cls, agentId, skill), other)
  {
  }

  datatype WorkerOutput = WorkerOutput(status: string, data: map<string, string>, artifacts: seq<string>)

  /** `WorkerOutput(status=..., data=...)`: no artifacts. */
  function NewWorkerOutput(status: string, data: map<string, string>): (o: WorkerOutput)
    ensures o.artifacts == [] && o.status == status && o.data == data
  {
    WorkerOutput(status, data, [])
  }
}
