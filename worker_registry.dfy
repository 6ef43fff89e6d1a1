/** The skill registry of app/agents/registry.py: which worker
    implementation serves each skill, and instantiation of workers. */
module Registry {
  import opened Common
  import opened Workers

  datatype RegistryError = NoWorkerForSkill(skill: string)

  class WorkerRegistry {
    var workers: map<string, WorkerClass>

    constructor ()
      ensures workers == map[]
    {
      workers := map[];
    }

    /** `register_worker`: the skill is now served by `cls`, replacing any
        earlier registration; other skills are unchanged. */
    method RegisterWorker(skill: string, cls: WorkerClass)
      modifies this
      ensures workers == old(workers)[skill := cls]
      ensures forall s :: s in old(workers) && s != skill ==> s in workers && workers[s] == old(workers)[s]
    {
      workers := workers[skill := cls];
    }

    /** `get_worker_instance`: a worker of the registered implementation,
        carrying the given id and the skill as its agent type, or an error
        for an unregistered skill. */
    method GetWorkerInstance(skill: string, agentId: string) returns (r: Result<Worker, RegistryError>)
      ensures r.Err? <==> skill !in workers
      ensures r.Err? ==> r.error == NoWorkerForSkill(skill)
      ensures r.Ok? ==> r.value.cls == workers[skill] && r.value.agentId == agentId
                        && r.value.agentType == skill
      ensures r.Ok? ==> ValidateCapability(r.value, skill)
    {
      if skill !in workers {
        return Err(NoWorkerForSkill(skill));
      }
      var cls := workers[skill];
      r := Ok(NewWorker(cls, agentId, skill));
    }
  }

  /** Registering a skill and then asking for a worker of it yields a
      worker of that implementation which validates the skill. */
  method RegisterThenInstantiate(registry: WorkerRegistry, skill: string, cls: WorkerClass, agentId: string)
    returns (r: Result<Worker, RegistryError>)
    modifies registry
    ensures r == Ok(Worker(cls, agentId, skill))
    ensures ValidateCapability(r.value, skill)
  {
    registry.RegisterWorker(skill, cls);
    r := registry.GetWorkerInstance(skill, agentId);
  }
}
