/**
 * A task-queue facade over a priority job broker. The broker itself is
 * abstract: a ledger from job id to the job it holds (name, data, options,
 * broker state and return value). The facade's own logic is what is modelled:
 * the state-to-status mapping, the result rule, cancellation of waiting and
 * delayed jobs only, the type guard in front of every processor, the option
 * defaults of `addTask` and the order in which `shutdown` closes things.
 */
module TaskQueue {
  import opened Common

  datatype TaskType =
    | ContentGeneration
    | ContextValidation
    | AssetManagement
    | AnalyticsProcessing
    | WorkflowExecution
    | AgentCommunication

  /** The enum's string values, which are also the job names and id prefixes. */
  function TaskTypeName(t: TaskType): string {
    match t
    case ContentGeneration => "content_generation"
    case ContextValidation => "context_validation"
    case AssetManagement => "asset_management"
    case AnalyticsProcessing => "analytics_processing"
    case WorkflowExecution => "workflow_execution"
    case AgentCommunication => "agent_communication"
  }

  datatype TaskPriority = Low | Medium | High | Critical {
    /** The numeric level the broker receives. */
    function Level(): (n: int)
      ensures n > 0
    {
      match this
      case Low => 1
      case Medium => 5
      case High => 10
      case Critical => 20
    }
  }

  datatype TaskStatus = Pending | Processing | Completed | Failed | Retrying | Cancelled

  datatype TaskData = TaskData(
    taskType: TaskType,
    payload: map<string, Json>,
    brandContext: Option<string>,
    timeout: Option<int>,
    dependsOn: Option<seq<string>>)

  datatype TaskResult = TaskResult(success: bool, data: Option<Json>, error: Option<string>)

  /** The broker states the facade tests for; any other string is possible too. */
  const Waiting := "waiting"
  const Delayed := "delayed"
  const Active := "active"
  const CompletedState := "completed"
  const FailedState := "failed"
  const RetryingState := "retrying"

  datatype JobOptions = JobOptions(priority: int, delay: int, timeout: int, jobId: string)

  datatype Job = Job(name: string, data: TaskData, opts: JobOptions, state: string, returnValue: Json)

  /** Options every job inherits from the queue: attempts, exponential backoff and retention. */
  datatype DefaultJobOptions = DefaultJobOptions(attempts: nat, backoffDelay: nat, removeOnComplete: nat, removeOnFail: nat)

  const QueueDefaults := DefaultJobOptions(3, 1000, 100, 200)
  const DefaultRedisUrl := "redis://localhost:6379"
  const WorkerLockDuration := 30000
  const DefaultTimeout := 60000

  /** `taskData.timeout || 60000`: a missing or zero timeout becomes the default. */
  function EffectiveTimeout(timeout: Option<int>): (t: int)
    ensures timeout.Some? && timeout.value != 0 ==> t == timeout.value
    ensures timeout.None? || timeout.value == 0 ==> t == DefaultTimeout
    ensures t != 0
  {
    match timeout
    case Some(v) => if v != 0 then v else DefaultTimeout
    case None => DefaultTimeout
  }

  /**
   * The state the broker gives a job it has just accepted: delayed when it
   * must wait `delay` milliseconds first, waiting otherwise.
   */
  function InitialState(delay: int): string {
    if delay > 0 then Delayed else Waiting
  }

  function TaskId(t: TaskType, seed: IdSeed): string {
    GeneratedId(TaskTypeName(t), seed)
  }

  /** The job `addTask` hands to the broker. */
  function NewJob(taskData: TaskData, priority: Option<TaskPriority>, delay: Option<int>, seed: IdSeed): (j: Job)
    ensures j.name == TaskTypeName(taskData.taskType) && j.data == taskData
    ensures j.opts.priority == priority.GetOr(Medium).Level() && j.opts.delay == delay.GetOr(0)
    ensures j.opts.timeout == EffectiveTimeout(taskData.timeout)
    ensures StartsWith(j.opts.jobId, TaskTypeName(taskData.taskType) + "-")
    ensures j.state in {Waiting, Delayed} && (j.state == Delayed <==> delay.GetOr(0) > 0)
  {
    var d := delay.GetOr(0);
    var id := TaskId(taskData.taskType, seed);
    GeneratedIdPrefix(TaskTypeName(taskData.taskType), seed);
    Job(TaskTypeName(taskData.taskType), taskData,
        JobOptions(priority.GetOr(Medium).Level(), d, EffectiveTimeout(taskData.timeout), id),
        InitialState(d), JNull)
  }

  /**
   * The `getTaskStatus` switch over broker states: every status but `Cancelled`
   * comes from exactly the broker states listed for it, and any other state has none.
   */
  function StatusOfState(state: string): (r: Option<TaskStatus>)
    ensures r == Some(Pending) <==> state == Waiting || state == Delayed
    ensures r == Some(Processing) <==> state == Active
    ensures r == Some(Completed) <==> state == CompletedState
    ensures r == Some(Failed) <==> state == FailedState
    ensures r == Some(Retrying) <==> state == RetryingState
    ensures r != Some(Cancelled)
    ensures r == None <==> state !in {Waiting, Delayed, Active, CompletedState, FailedState, RetryingState}
  {
    if state == Waiting || state == Delayed then Some(Pending)
    else if state == Active then Some(Processing)
    else if state == CompletedState then Some(Completed)
    else if state == FailedState then Some(Failed)
    else if state == RetryingState then Some(Retrying)
    else None
  }

  function StatusOf(jobs: map<string, Job>, jobId: string): Option<TaskStatus> {
    if jobId !in jobs then None else StatusOfState(jobs[jobId].state)
  }

  /**
   * `getTaskResult`: the result is absent exactly for absent jobs, succeeds exactly
   * for completed ones and then carries the job's return value; otherwise it names the state.
   */
  function ResultOf(jobs: map<string, Job>, jobId: string): (r: Option<TaskResult>)
    ensures r.None? <==> jobId !in jobs
    ensures r.Some? ==> (r.value.success <==> jobs[jobId].state == CompletedState)
    ensures r.Some? && r.value.success ==> r.value.data == Some(jobs[jobId].returnValue) && r.value.error.None?
    ensures r.Some? && !r.value.success ==>
              r.value.data.None? && r.value.error == Some("Job is not completed. Current state: " + jobs[jobId].state)
  {
    if jobId !in jobs then None
    else
      var job := jobs[jobId];
      if job.state != CompletedState then
        Some(TaskResult(false, None, Some("Job is not completed. Current state: " + job.state)))
      else Some(TaskResult(true, Some(job.returnValue), None))
  }

  /** A completed status and a successful result go together. */
  lemma CompletedStatusIffSuccess(jobs: map<string, Job>, jobId: string)
    ensures StatusOf(jobs, jobId) == Some(Completed) <==>
              ResultOf(jobs, jobId).Some? && ResultOf(jobs, jobId).value.success
  {
  }

  /**
   * Status and result are not null together: a job in a state the switch does
   * not know has no status but does have a (failed) result.
   */
  lemma StatusNullDoesNotMeanResultNull(jobs: map<string, Job>, jobId: string)
    requires jobId in jobs
    requires jobs[jobId].state !in {Waiting, Delayed, Active, CompletedState, FailedState, RetryingState}
    ensures StatusOf(jobs, jobId).None?
    ensures ResultOf(jobs, jobId).Some? && !ResultOf(jobs, jobId).value.success
  {
  }

  /** Jobs `cancelTask` removes. */
  predicate Cancellable(jobs: map<string, Job>, jobId: string) {
    jobId in jobs && (jobs[jobId].state == Waiting || jobs[jobId].state == Delayed)
  }

  /** The jobs a cancellable task may be in are exactly those reported as pending. */
  lemma CancellableIffPending(jobs: map<string, Job>, jobId: string)
    ensures Cancellable(jobs, jobId) <==> StatusOf(jobs, jobId) == Some(Pending)
  {
  }

  /** The worker body: run the processor on jobs of its own type, throw on any other. */
  function WorkerHandle(taskType: TaskType, processor: TaskData -> Result<Json, string>, job: Job): (r: Result<Json, string>)
    ensures job.data.taskType == taskType ==> r == processor(job.data)
    ensures job.data.taskType != taskType ==>
              r == Failure("Worker for " + TaskTypeName(taskType) + " received job of type " + TaskTypeName(job.data.taskType))
  {
    if job.data.taskType == taskType then processor(job.data)
    else Failure("Worker for " + TaskTypeName(taskType) + " received job of type " + TaskTypeName(job.data.taskType))
  }

  /** Distinct task types have distinct names, so the worker's guard compares types. */
  lemma TaskTypeNameInjective(t: TaskType, u: TaskType)
    ensures TaskTypeName(t) == TaskTypeName(u) <==> t == u
  {
    if t != u {
      assert TaskTypeName(t)[0] != TaskTypeName(u)[0] || |TaskTypeName(t)| != |TaskTypeName(u)|
        || TaskTypeName(t)[5] != TaskTypeName(u)[5];
    }
  }

  /** A processor only ever sees jobs of the type it was registered for. */
  lemma WorkerOnlyRunsOwnType(taskType: TaskType, processor: TaskData -> Result<Json, string>, job: Job)
    ensures WorkerHandle(taskType, processor, job).Success? ==>
              job.data.taskType == taskType && processor(job.data).Success?
    ensures job.data.taskType != taskType ==> WorkerHandle(taskType, processor, job).Failure?
  {
  }

  datatype Worker = Worker(taskType: TaskType, processor: TaskData -> Result<Json, string>,
                           concurrency: nat, lockDuration: nat)

  /** Things `shutdown` closes. */
  datatype Closed = WorkerClosed(taskType: TaskType) | QueueClosed | RedisClosed

  /** Every worker in registration order, then the queue, then the connection. */
  function ShutdownOrder(workerOrder: seq<TaskType>): (r: seq<Closed>)
    ensures |r| == |workerOrder| + 2
  {
    WorkersClosed(workerOrder) + [QueueClosed, RedisClosed]
  }

  function WorkersClosed(workerOrder: seq<TaskType>): (r: seq<Closed>)
    ensures |r| == |workerOrder|
    ensures forall i :: 0 <= i < |r| ==> r[i] == WorkerClosed(workerOrder[i])
  {
    if workerOrder == [] then [] else [WorkerClosed(workerOrder[0])] + WorkersClosed(workerOrder[1..])
  }

  /**
   * In the shutdown sequence every registered worker is closed exactly once,
   * before the queue, which is closed before the connection, which comes last.
   */
  lemma ShutdownClosesWorkersFirst(workerOrder: seq<TaskType>)
    requires NoDuplicates(workerOrder)
    ensures var r := ShutdownOrder(workerOrder);
            && (forall t :: WorkerClosed(t) in r <==> t in workerOrder)
            && (forall i, j :: 0 <= i < j < |r| ==> r[i] != r[j])
            && r[|r| - 2] == QueueClosed && r[|r| - 1] == RedisClosed
            && (forall i :: 0 <= i < |r| - 2 ==> r[i].WorkerClosed?)
  {
    var r := ShutdownOrder(workerOrder);
    var w := WorkersClosed(workerOrder);
    assert r == w + [QueueClosed, RedisClosed];
    forall t ensures WorkerClosed(t) in r <==> t in workerOrder {
      if t in workerOrder {
        var i :| 0 <= i < |workerOrder| && workerOrder[i] == t;
        assert r[i] == WorkerClosed(t);
      }
    }
  }

  class TaskQueueSystem {
    const redisUrl: string
    const defaults: DefaultJobOptions
    /** The broker's ledger of jobs by id. */
    var jobs: map<string, Job>
    /** `workers`, with its keys in insertion order. */
    var workers: map<TaskType, Worker>
    var workerOrder: seq<TaskType>
    var processors: map<TaskType, TaskData -> Result<Json, string>>
    /** What has been closed so far, in order. */
    var closed: seq<Closed>
    /**
     * Workers that a later registration for the same type pushed out of
     * `workers`. Nothing closes them: they keep consuming the queue with their
     * old processor.
     */
    var orphaned: seq<Worker>

    ghost predicate Valid()
      reads this
    {
      && NoDuplicates(workerOrder)
      && (forall t :: t in workers <==> t in workerOrder)
      && workers.Keys == processors.Keys
      && (forall t :: t in workers ==> workers[t].taskType == t && workers[t].processor == processors[t])
    }

    constructor (redisUrlEnv: Option<string>)
      ensures Valid()
      ensures redisUrl == OptionalEnv(redisUrlEnv, DefaultRedisUrl) && defaults == QueueDefaults
      ensures jobs == map[] && workers == map[] && workerOrder == [] && processors == map[] && closed == []
      ensures orphaned == []
    {
      orphaned := [];
      redisUrl := OptionalEnv(redisUrlEnv, DefaultRedisUrl);
      defaults := QueueDefaults;
      jobs := map[];
      workers := map[];
      workerOrder := [];
      processors := map[];
      closed := [];
    }

    method RegisterProcessor(taskType: TaskType, processor: TaskData -> Result<Json, string>, concurrency: Option<nat>)
      requires Valid()
      modifies this
      ensures Valid()
      ensures processors == old(processors)[taskType := processor]
      ensures workers == old(workers)[taskType := Worker(taskType, processor, concurrency.GetOr(1), WorkerLockDuration)]
      ensures workerOrder == AddIfAbsent(old(workerOrder), taskType)
      ensures orphaned == old(orphaned) + (if taskType in old(workers) then [old(workers[taskType])] else [])
      ensures jobs == old(jobs) && closed == old(closed)
    {
      if taskType in workers {
        orphaned := orphaned + [workers[taskType]];
      }
      processors := processors[taskType := processor];
      workers := workers[taskType := Worker(taskType, processor, concurrency.GetOr(1), WorkerLockDuration)];
      assert NoDuplicates(AddIfAbsent(workerOrder, taskType)) by {
        if taskType !in workerOrder {
          var o := workerOrder + [taskType];
          assert forall i :: 0 <= i < |workerOrder| ==> o[i] == workerOrder[i] != taskType;
        }
      }
      workerOrder := AddIfAbsent(workerOrder, taskType);
    }

    method AddTask(taskData: TaskData, priority: Option<TaskPriority>, delay: Option<int>, seed: IdSeed) returns (jobId: string)
      requires ValidSeed(seed) && TaskId(taskData.taskType, seed) !in jobs
      modifies this
      ensures jobId == TaskId(taskData.taskType, seed)
      ensures jobs == old(jobs)[jobId := NewJob(taskData, priority, delay, seed)]
      ensures workers == old(workers) && workerOrder == old(workerOrder)
      ensures processors == old(processors) && closed == old(closed) && orphaned == old(orphaned)
    {
      var job := NewJob(taskData, priority, delay, seed);
      jobs := jobs[job.opts.jobId := job];
      jobId := job.opts.jobId;
    }

    function GetTaskStatus(jobId: string): (r: Option<TaskStatus>)
      reads this
      ensures r == StatusOf(jobs, jobId)
    {
      if jobId !in jobs then None else StatusOfState(jobs[jobId].state)
    }

    function GetTaskResult(jobId: string): (r: Option<TaskResult>)
      reads this
      ensures r == ResultOf(jobs, jobId)
    {
      ResultOf(jobs, jobId)
    }

    method CancelTask(jobId: string) returns (cancelled: bool)
      modifies this
      ensures cancelled <==> Cancellable(old(jobs), jobId)
      ensures jobs == if cancelled then old(jobs) - {jobId} else old(jobs)
      ensures workers == old(workers) && workerOrder == old(workerOrder)
      ensures processors == old(processors) && closed == old(closed) && orphaned == old(orphaned)
    {
      if jobId !in jobs {
        return false;
      }
      var state := jobs[jobId].state;
      if state == Waiting || state == Delayed {
        jobs := jobs - {jobId};
        return true;
      }
      return false;
    }

    method Shutdown()
      modifies this
      ensures closed == old(closed) + ShutdownOrder(workerOrder)
      ensures jobs == old(jobs) && workers == old(workers) && workerOrder == old(workerOrder)
      ensures processors == old(processors) && orphaned == old(orphaned)
    {
      var i := 0;
      while i < |workerOrder|
        invariant 0 <= i <= |workerOrder|
        invariant closed == old(closed) + WorkersClosed(workerOrder[..i])
        invariant jobs == old(jobs) && workers == old(workers) && workerOrder == old(workerOrder)
        invariant processors == old(processors) && orphaned == old(orphaned)
      {
        assert WorkersClosed(workerOrder[..i + 1]) == WorkersClosed(workerOrder[..i]) + [WorkerClosed(workerOrder[i])];
        closed := closed + [WorkerClosed(workerOrder[i])];
        i := i + 1;
      }
      assert workerOrder[..i] == workerOrder;
      closed := closed + [QueueClosed];
      closed := closed + [RedisClosed];
    }
  }

  /** A task that was just added is pending and has an unfinished result naming its state. */
  lemma AddedTaskIsPending(jobs: map<string, Job>, taskData: TaskData, priority: Option<TaskPriority>,
                           delay: Option<int>, seed: IdSeed)
    ensures var job := NewJob(taskData, priority, delay, seed);
            var jobs2 := jobs[job.opts.jobId := job];
            && StatusOf(jobs2, job.opts.jobId) == Some(Pending)
            && Cancellable(jobs2, job.opts.jobId)
            && ResultOf(jobs2, job.opts.jobId)
               == Some(TaskResult(false, None, Some("Job is not completed. Current state: " + InitialState(delay.GetOr(0)))))
  {
    var job := NewJob(taskData, priority, delay, seed);
    assert job.state != CompletedState by {
      assert job.state[0] != CompletedState[0];
    }
  }

  /** After a successful cancel the job is gone, so a second cancel fails and status and result are null. */
  lemma CancelIsFinal(jobs: map<string, Job>, jobId: string)
    requires Cancellable(jobs, jobId)
    ensures !Cancellable(jobs - {jobId}, jobId)
    ensures StatusOf(jobs - {jobId}, jobId).None? && ResultOf(jobs - {jobId}, jobId).None?
    ensures forall other :: other != jobId ==> StatusOf(jobs - {jobId}, other) == StatusOf(jobs, other)
  {
  }

  /**
   * Registering a type twice leaves the first worker running: it is pushed
   * out of the map, and shutdown closes only the one worker the map holds.
   */
  method RegisterTwiceLeaksWorker(q: TaskQueueSystem, t: TaskType,
                                  first: TaskData -> Result<Json, string>, second: TaskData -> Result<Json, string>)
    requires q.Valid() && q.workers == map[] && q.workerOrder == [] && q.closed == [] && q.orphaned == []
    modifies q
    ensures |q.orphaned| == 1 && q.orphaned[0].taskType == t && q.orphaned[0].processor == first
    ensures t in q.workers && q.workers[t].processor == second
    ensures q.closed == [WorkerClosed(t), QueueClosed, RedisClosed]
  {
    q.RegisterProcessor(t, first, None);
    q.RegisterProcessor(t, second, None);
    q.Shutdown();
  }

  class TaskQueueSlot {
    var instance: TaskQueueSystem?

    constructor ()
      ensures instance == null
    {
      instance := null;
    }

    /** Creates the system on first use and hands back the same one ever after. */
    method InitializeTaskQueue(redisUrlEnv: Option<string>) returns (q: TaskQueueSystem)
      modifies this
      ensures instance == q
      ensures old(instance) != null ==> q == old(instance)
      ensures old(instance) == null ==> fresh(q) && q.Valid() && q.jobs == map[] && q.workers == map[]
                                        && q.redisUrl == OptionalEnv(redisUrlEnv, DefaultRedisUrl)
    {
      if instance == null {
        instance := new TaskQueueSystem(redisUrlEnv);
      }
      q := instance;
    }

    function GetTaskQueueSystem(): (r: Result<TaskQueueSystem, string>)
      reads this
      ensures r.Success? <==> instance != null
      ensures r.Success? ==> r.value == instance
    {
      if instance == null then Result<TaskQueueSystem, string>.Failure("Task Queue System not initialized. Call initializeTaskQueue() first.")
      else Success(instance)
    }
  }

  /** Initialising twice gives the same system. */
  method InitializeTwice(slot: TaskQueueSlot, redisUrlEnv: Option<string>) returns (q1: TaskQueueSystem, q2: TaskQueueSystem)
    modifies slot
    ensures q1 == q2 && slot.instance == q1
  {
    q1 := slot.InitializeTaskQueue(redisUrlEnv);
    q2 := slot.InitializeTaskQueue(redisUrlEnv);
  }
}
