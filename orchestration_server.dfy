/**
 * The tool handlers of the agent-orchestration server: the rules that glue the
 * agent registry and the task queue to the tool inputs and responses.
 */
module OrchestrationServer {
  import opened Common
  import opened Agents
  import TQ = TaskQueue

  // ---------------------------------------------------------------------------
  // execute_agent
  // ---------------------------------------------------------------------------

  datatype ExecuteAgentInput = ExecuteAgentInput(agentType: AgentType, prompt: string, brandContext: Option<string>)

  datatype ExecuteAgentResponse = ExecuteAgentResponse(
    success: bool,
    output: Option<string>,
    error: Option<string>,
    usage: Option<Usage>,
    duration: Option<nat>,
    agentId: Option<string>)

  function NoIdleAgent(t: AgentType): ExecuteAgentResponse {
    ExecuteAgentResponse(false, None, Some("No idle agents available of type " + TypeName(t)), None, None, None)
  }

  /** The response fields copied from an execution result. */
  function PassThrough(r: ExecutionResult): (resp: ExecuteAgentResponse)
    ensures resp.success == r.success && resp.output == r.output && resp.error == r.error
    ensures resp.usage == r.usage && resp.duration == r.duration && resp.agentId == Some(r.agentId)
  {
    ExecuteAgentResponse(r.success, r.output, r.error, r.usage, r.duration, Some(r.agentId))
  }

  /**
   * The first agent of `candidates` that is idle, as `filter(idle)[0]` picks it:
   * it is idle, every candidate before it is not, and there is none exactly
   * when no candidate is idle.
   */
  function FirstIdle(candidates: seq<Agent>): (r: Option<Agent>)
    ensures r.None? <==> forall a :: a in candidates ==> a.status != Idle
    ensures r.Some? ==> r.value == IdleOnly(candidates)[0]
  {
    var idle := IdleOnly(candidates);
    if |idle| == 0 then None
    else
      assert idle[0] in idle;
      Some(idle[0])
  }

  /** No agent before position `j` is idle. */
  predicate NoIdleBefore(candidates: seq<Agent>, j: int)
    requires 0 <= j <= |candidates|
  {
    forall i :: 0 <= i < j ==> candidates[i].status != Idle
  }

  /** The agent `FirstIdle` picks sits at a position with no idle agent before it. */
  lemma {:induction false} FirstIdleIsEarliest(candidates: seq<Agent>)
    requires FirstIdle(candidates).Some?
    ensures exists j :: 0 <= j < |candidates| && candidates[j] == FirstIdle(candidates).value
              && candidates[j].status == Idle && NoIdleBefore(candidates, j)
  {
    if candidates[0].status == Idle {
      assert IdleOnly(candidates)[0] == candidates[0];
      assert NoIdleBefore(candidates, 0);
    } else {
      var rest := candidates[1..];
      assert IdleOnly(candidates) == IdleOnly(rest);
      FirstIdleIsEarliest(rest);
      var j :| 0 <= j < |rest| && rest[j] == FirstIdle(rest).value && rest[j].status == Idle
               && NoIdleBefore(rest, j);
      assert candidates[j + 1] == rest[j];
      assert NoIdleBefore(candidates, j + 1) by {
        forall i | 0 < i < j + 1 ensures candidates[i].status != Idle {
          assert candidates[i] == rest[i - 1];
        }
      }
    }
  }

  /**
   * The agent the tool runs: the first idle agent of the requested type in
   * registration order. It is registered, of that type and idle; when there is
   * none, no registered agent of the type is idle.
   */
  lemma PickedAgentIsIdleOfType(m: AgentManager, t: AgentType)
    requires m.Valid()
    ensures var p := FirstIdle(m.FindAgentsByType(t));
            && (p.None? <==> forall a :: m.Registered(a) && a.agentType == t ==> a.status != Idle)
            && (p.Some? ==> m.Registered(p.value) && p.value.agentType == t && p.value.status == Idle)
  {
    var p := FirstIdle(m.FindAgentsByType(t));
    if p.Some? {
      assert p.value in IdleOnly(m.FindAgentsByType(t));
    }
  }

  method ExecuteAgentTool(m: AgentManager, input: ExecuteAgentInput, now: int, external: ProviderOutcome, duration: nat)
    returns (resp: ExecuteAgentResponse)
    requires m.Valid()
    modifies m
    ensures m.Valid()
    ensures var picked := FirstIdle(old(m.FindAgentsByType(input.agentType)));
            && (picked.None? ==> resp == NoIdleAgent(input.agentType) && m.agents == old(m.agents))
            && (picked.Some? ==>
                  var a := picked.value;
                  var request := ExecutionRequest(a.id, input.prompt, input.brandContext);
                  var running := a.(status := Busy, lastActive := now);
                  var outcome := m.RunProvider(running, request, external);
                  && resp == PassThrough(Completed(running, request, outcome, duration))
                  && resp.agentId == Some(a.id)
                  && (resp.success <==> outcome.Ok?)
                  && (resp.duration.Some? <==> !outcome.Throws?)
                  && m.agents == old(m.agents)[a.id := running.(status := if outcome.Throws? then Error else Idle)])
    ensures m.order == old(m.order) && m.capabilityIndex == old(m.capabilityIndex)
    ensures m.typeIndex == old(m.typeIndex) && m.providerIndex == old(m.providerIndex)
  {
    var agents := m.FindAgentsByType(input.agentType);
    var picked := FirstIdle(agents);
    if picked.None? {
      return NoIdleAgent(input.agentType);
    }
    var agent := picked.value;
    PickedAgentIsIdleOfType(m, input.agentType);
    var request := ExecutionRequest(agent.id, input.prompt, input.brandContext);
    var running := agent.(status := Busy, lastActive := now);
    CompletedOutcome(running, request, m.RunProvider(running, request, external), duration);
    var result := m.ExecuteAgent(request, now, external, duration);
    resp := PassThrough(result);
  }

  // ---------------------------------------------------------------------------
  // add_task_to_queue, get_task_status, get_task_result
  // ---------------------------------------------------------------------------

  /** The tool's priority strings. */
  function PriorityName(p: TQ.TaskPriority): string {
    match p
    case Low => "low"
    case Medium => "medium"
    case High => "high"
    case Critical => "critical"
  }

  /** The priority switch: the four names map to their levels, and anything else, or nothing, to medium. */
  function PriorityOf(priority: Option<string>): (p: TQ.TaskPriority)
    ensures priority.None? ==> p == TQ.Medium
    ensures priority.Some? && priority.value !in {"low", "medium", "high", "critical"} ==> p == TQ.Medium
  {
    if priority.None? || priority.value == "" then TQ.Medium
    else if priority.value == "low" then TQ.Low
    else if priority.value == "medium" then TQ.Medium
    else if priority.value == "high" then TQ.High
    else if priority.value == "critical" then TQ.Critical
    else TQ.Medium
  }

  /** Naming a priority and reading it back gives it again; the levels are 1, 5, 10 and 20. */
  lemma PriorityRoundTrip(p: TQ.TaskPriority)
    ensures PriorityOf(Some(PriorityName(p))) == p
    ensures PriorityOf(Some("low")).Level() == 1 && PriorityOf(Some("medium")).Level() == 5
    ensures PriorityOf(Some("high")).Level() == 10 && PriorityOf(Some("critical")).Level() == 20
    ensures PriorityOf(None).Level() == 5
  {
    match p
    case Low =>
    case Medium => assert PriorityName(p)[0] == 'm';
    case High => assert PriorityName(p)[0] == 'h';
    case Critical => assert PriorityName(p)[0] == 'c';
  }

  datatype AddTaskInput = AddTaskInput(
    taskType: TQ.TaskType,
    payload: map<string, Json>,
    brandContext: Option<string>,
    priority: Option<string>,
    dependsOn: Option<seq<string>>,
    timeout: Option<int>)

  datatype AddTaskResponse = AddTaskResponse(success: bool, taskId: string)

  /** The task data the tool forwards: every input field unchanged. */
  function ForwardedTask(input: AddTaskInput): (d: TQ.TaskData)
    ensures d.taskType == input.taskType && d.payload == input.payload
    ensures d.brandContext == input.brandContext && d.timeout == input.timeout && d.dependsOn == input.dependsOn
  {
    TQ.TaskData(input.taskType, input.payload, input.brandContext, input.timeout, input.dependsOn)
  }

  method AddTaskToQueueTool(q: TQ.TaskQueueSystem, input: AddTaskInput, seed: IdSeed) returns (resp: AddTaskResponse)
    requires ValidSeed(seed) && TQ.TaskId(input.taskType, seed) !in q.jobs
    modifies q
    ensures resp == AddTaskResponse(true, TQ.TaskId(input.taskType, seed))
    ensures q.jobs == old(q.jobs)[resp.taskId := TQ.NewJob(ForwardedTask(input), Some(PriorityOf(input.priority)), None, seed)]
    ensures q.workers == old(q.workers) && q.workerOrder == old(q.workerOrder)
  {
    var taskId := q.AddTask(ForwardedTask(input), Some(PriorityOf(input.priority)), None, seed);
    resp := AddTaskResponse(true, taskId);
  }

  /** A task the tool adds is never delayed: it waits at the level its priority names. */
  lemma AddedTaskWaits(input: AddTaskInput, seed: IdSeed)
    ensures var job := TQ.NewJob(ForwardedTask(input), Some(PriorityOf(input.priority)), None, seed);
            && job.state == TQ.Waiting && job.opts.delay == 0
            && job.opts.priority == PriorityOf(input.priority).Level()
            && job.opts.priority in {1, 5, 10, 20}
  {
  }

  datatype StatusResponse = StatusResponse(success: bool, status: Option<TQ.TaskStatus>, error: Option<string>)

  function TaskNotFound(taskId: string): string {
    "Task with ID " + taskId + " not found"
  }

  /** A null status becomes a not-found failure; any other is returned with success. */
  function GetTaskStatusTool(q: TQ.TaskQueueSystem, taskId: string): (resp: StatusResponse)
    reads q
    ensures resp.success <==> TQ.StatusOf(q.jobs, taskId).Some?
    ensures resp.success ==> resp.status == TQ.StatusOf(q.jobs, taskId) && resp.error.None?
    ensures !resp.success ==> resp.status.None? && resp.error == Some(TaskNotFound(taskId))
  {
    var status := q.GetTaskStatus(taskId);
    if status.None? then StatusResponse(false, None, Some(TaskNotFound(taskId)))
    else StatusResponse(true, status, None)
  }

  datatype ResultResponse = ResultResponse(success: bool, result: Option<TQ.TaskResult>, error: Option<string>)

  /** A null result becomes a not-found failure; any other, successful or not, is wrapped in a success. */
  function GetTaskResultTool(q: TQ.TaskQueueSystem, taskId: string): (resp: ResultResponse)
    reads q
    ensures resp.success <==> taskId in q.jobs
    ensures resp.success ==> resp.result == TQ.ResultOf(q.jobs, taskId) && resp.error.None?
    ensures !resp.success ==> resp.result.None? && resp.error == Some(TaskNotFound(taskId))
  {
    var result := q.GetTaskResult(taskId);
    if result.None? then ResultResponse(false, None, Some(TaskNotFound(taskId)))
    else ResultResponse(true, result, None)
  }

  /**
   * The outer success of `get_task_result` only says a job with that id exists: for a
   * task that has not completed it is true while the wrapped result is false.
   */
  lemma OuterSuccessIsNotTaskSuccess(q: TQ.TaskQueueSystem, taskId: string)
    requires taskId in q.jobs && q.jobs[taskId].state != TQ.CompletedState
    ensures GetTaskResultTool(q, taskId).success
    ensures !GetTaskResultTool(q, taskId).result.value.success
  {
  }

  /**
   * A task id is found by `get_task_status` only if `get_task_result` finds it
   * too; the converse fails for states the status switch does not know.
   */
  lemma StatusFoundImpliesResultFound(q: TQ.TaskQueueSystem, taskId: string)
    ensures GetTaskStatusTool(q, taskId).success ==> GetTaskResultTool(q, taskId).success
  {
  }

  // ---------------------------------------------------------------------------
  // register_agent, get_agent_stats
  // ---------------------------------------------------------------------------

  datatype RegisterAgentInput = RegisterAgentInput(
    name: string, agentType: AgentType, capabilities: seq<AgentCapability>,
    modelProvider: ModelProvider, modelName: string)

  datatype RegisterAgentResponse = RegisterAgentResponse(success: bool, agentId: string, name: string, agentType: AgentType)

  /** The registration request the tool forwards: no metadata. */
  function ForwardedRegistration(input: RegisterAgentInput): (r: RegistrationRequest)
    ensures r.name == input.name && r.agentType == input.agentType && r.capabilities == input.capabilities
    ensures r.modelProvider == input.modelProvider && r.modelName == input.modelName && r.metadata.None?
  {
    RegistrationRequest(input.name, input.agentType, input.capabilities, input.modelProvider, input.modelName, None)
  }

  method RegisterAgentTool(m: AgentManager, input: RegisterAgentInput, seed: IdSeed) returns (resp: RegisterAgentResponse)
    requires m.Valid() && ValidSeed(seed) && AgentId(input.agentType, seed) !in m.agents
    modifies m
    ensures m.Valid()
    ensures resp == RegisterAgentResponse(true, AgentId(input.agentType, seed), input.name, input.agentType)
    ensures m.agents == old(m.agents)[resp.agentId := NewAgent(ForwardedRegistration(input), seed)]
    ensures m.order == old(m.order) + [resp.agentId]
  {
    var agent := m.RegisterAgent(ForwardedRegistration(input), seed);
    resp := RegisterAgentResponse(true, agent.id, agent.name, agent.agentType);
  }

  datatype StatsResponse = StatsResponse(success: bool, stats: AgentStats)

  function GetAgentStatsTool(m: AgentManager): (resp: StatsResponse)
    requires m.Valid()
    reads m
    ensures resp.success && resp.stats == m.GetAgentStats()
    ensures resp.stats.totalAgents == |m.agents|
    ensures forall st :: st in resp.stats.agentsByStatus
  {
    StatsResponse(true, m.GetAgentStats())
  }

  // ---------------------------------------------------------------------------
  // orchestrate_workflow
  // ---------------------------------------------------------------------------

  datatype WorkflowStep = WorkflowStep(agentType: AgentType, instruction: string, outputKey: string, condition: Option<string>)

  datatype WorkflowInput = WorkflowInput(
    workflowType: string,
    steps: seq<WorkflowStep>,
    context: map<string, Json>,
    brandContext: Option<string>,
    timeout: Option<int>)

  datatype WorkflowResponse = WorkflowResponse(success: bool, message: string, taskId: string, estimatedSteps: nat)

  function StepJson(s: WorkflowStep): Json {
    var fields := map["agentType" := JString(TypeName(s.agentType)), "instruction" := JString(s.instruction),
                      "outputKey" := JString(s.outputKey)];
    JObject(if s.condition.Some? then fields["condition" := JString(s.condition.value)] else fields)
  }

  function StepsJson(steps: seq<WorkflowStep>): (j: seq<Json>)
    ensures |j| == |steps|
    ensures forall i :: 0 <= i < |steps| ==> j[i] == StepJson(steps[i])
  {
    if steps == [] then [] else [StepJson(steps[0])] + StepsJson(steps[1..])
  }

  /** The single task a workflow becomes. */
  function WorkflowTask(input: WorkflowInput): (d: TQ.TaskData)
    ensures d.taskType == TQ.WorkflowExecution
    ensures d.payload.Keys == {"workflowType", "steps", "context"}
    ensures d.payload["workflowType"] == JString(input.workflowType)
    ensures d.payload["steps"] == JArray(StepsJson(input.steps)) && d.payload["context"] == JObject(input.context)
    ensures d.brandContext == input.brandContext && d.timeout == input.timeout && d.dependsOn.None?
  {
    TQ.TaskData(TQ.WorkflowExecution,
                map["workflowType" := JString(input.workflowType), "steps" := JArray(StepsJson(input.steps)),
                    "context" := JObject(input.context)],
                input.brandContext, input.timeout, None)
  }

  method OrchestrateWorkflowTool(q: TQ.TaskQueueSystem, input: WorkflowInput, seed: IdSeed) returns (resp: WorkflowResponse)
    requires ValidSeed(seed) && TQ.TaskId(TQ.WorkflowExecution, seed) !in q.jobs
    modifies q
    ensures resp == WorkflowResponse(true, "Workflow orchestration initiated", TQ.TaskId(TQ.WorkflowExecution, seed), |input.steps|)
    ensures q.jobs == old(q.jobs)[resp.taskId := TQ.NewJob(WorkflowTask(input), Some(TQ.High), None, seed)]
    ensures q.workers == old(q.workers) && q.workerOrder == old(q.workerOrder)
  {
    var taskId := q.AddTask(WorkflowTask(input), Some(TQ.High), None, seed);
    resp := WorkflowResponse(true, "Workflow orchestration initiated", taskId, |input.steps|);
  }

  /** The workflow job is a waiting `workflow_execution` job at level 10 carrying one step per input step. */
  lemma WorkflowBecomesOneHighJob(input: WorkflowInput, seed: IdSeed)
    ensures var job := TQ.NewJob(WorkflowTask(input), Some(TQ.High), None, seed);
            && job.name == "workflow_execution" && job.opts.priority == 10 && job.state == TQ.Waiting
            && StartsWith(job.opts.jobId, "workflow_execution-")
            && job.data.payload["steps"].items == StepsJson(input.steps)
            && |job.data.payload["steps"].items| == |input.steps|
  {
  }

  // ---------------------------------------------------------------------------
  // Resources
  // ---------------------------------------------------------------------------

  datatype AgentsResource = AgentsResource(count: nat, agents: seq<Agent>)

  /** The `agents` resource: every registered agent, with metadata dropped, and their number. */
  function AgentsResourceOf(m: AgentManager): (r: AgentsResource)
    requires m.Valid()
    reads m
    ensures r.count == |r.agents| == |m.agents|
    ensures forall a :: a in r.agents ==> a.metadata == map[]
    ensures forall a :: m.Registered(a) ==> a.(metadata := map[]) in r.agents
  {
    var all := m.GetAllAgents();
    var summaries := WithoutMetadata(all);
    assert forall a :: m.Registered(a) ==> a in all;
    AgentsResource(|summaries|, summaries)
  }

  function WithoutMetadata(agents: seq<Agent>): (r: seq<Agent>)
    ensures |r| == |agents|
    ensures forall i :: 0 <= i < |agents| ==> r[i] == agents[i].(metadata := map[])
  {
    if agents == [] then [] else [agents[0].(metadata := map[])] + WithoutMetadata(agents[1..])
  }

  datatype QueueStats = QueueStats(activeCount: nat, waitingCount: nat, completedCount: nat, failedCount: nat, avgProcessingTime: nat)

  /** The `queue_stats` resource returns fixed figures; it does not look at the queue. */
  const QueueStatsResource := QueueStats(5, 12, 87, 3, 1250)
}
