# Multi-brand agent system: verified model of the orchestration and brand-context core

This project is a Dafny model of the core of a multi-brand AI agent system. It covers:

- **The agent registry** (`AgentManager`). It keeps a directory of agents and three secondary indices: by capability, by agent type and by model provider. It also runs the per-agent status machine around an execution: look up, refuse a busy agent, mark busy, run the provider, then end idle or in error.
- **The task-queue facade** (`TaskQueueSystem`). It puts jobs into a priority job broker. It maps broker job states to public task statuses and results, and cancels only waiting or delayed jobs. Each worker refuses jobs of another task type, and shutdown closes the registered workers before the queue and the Redis connection. A worker replaced by a second registration for its type is never closed.
- **The agent-orchestration tool handlers**:
  - the first idle agent of the requested type runs;
  - a priority name becomes a numeric level;
  - a missing task becomes a "not found" response;
  - a workflow becomes exactly one high-priority `workflow_execution` job.
- **The brand-context record** (`createBrandContext`, `updateBrandContext`). It is checked against its schema and carries versioned metadata. An update is a shallow merge that bumps the version.
- **The brand-context tool handlers**:
  - the slug and id guards of create, update and delete, over a store of contexts;
  - `validate_content`: avoided terms are matched case-insensitively, paragraphs over the style's word limit draw warnings, and words and sentences are counted the way the JavaScript splits count them.
- **The brand-id helpers** `formatBrandName` and `isValidBrandId`.

Modules, one per file:

- `Common` (common.dfy): option and result types, the JSON value type, and the generated `<prefix>-<timestamp>-<random>` ids.
- `Agents` (agent_manager.dfy): the registry as a class over a map, an insertion-order sequence and three index maps, plus the singleton slot.
- `TaskQueue` (task_queue.dfy): the facade as a class over an abstract ledger of broker jobs, workers, processors and a log of closed resources, plus its singleton slot.
- `OrchestrationServer` (orchestration_server.dfy): the seven tools and two resources of the agent-orchestration server.
- `Text` (text.dfy): the JavaScript string operations the brand code relies on. These are `split` on a character, on runs of `\s` or `[.!?]`, and on `\n\s*\n`; `join`; ASCII `toLowerCase` and `toUpperCase`; and `includes`.
- `BrandContextModel` (brand_context.dfy): the record, its schema, creation and update.
- `BrandContextServer` (brand_context_server.dfy): the create, update, delete and validate tools over a store class.
- `CoreUtils` (core_utils.dfy): the brand-id helpers.

Clocks, random numbers, generated uuids, provider calls, broker answers and database write results are parameters of the operations that use them. Where the source draws a fresh id, the model requires the id to be unused, because a collision would silently overwrite an entry.

Three behaviours of the code are easy to misread and are stated outright:

- **Task results.** A task can have a result but no status. `getTaskResult` answers for every job that exists. A job in a broker state the status switch does not list (such as `waiting-children`) has no status but does have a failed result. See `TaskQueue.StatusNullDoesNotMeanResultNull`.
- **Status updates.** A status sent to `update_brand_context` lands as a top-level key of the stored record. `metadata.status` keeps its old value (`BrandContextModel.UpdateStatusStaysTopLevel`).
- **Display names.** `formatBrandName("saithavys")` is `"Saithavys"`, while the display-name table in packages/core/src/constants.ts gives `"SaithavyS"` (`CoreUtils.FormatDiffersFromDisplayName`).

## Model

| member | source | states |
|---|---|---|
| Common.OptionalEnv | mcp-servers/agent-orchestration/src/queue/taskQueue.ts:58 | `value \|\| default`: the default iff the value is unset, empty or the default itself; otherwise the value |
| Common.NatToString | mcp-servers/agent-orchestration/src/agents/agentManager.ts:187 | the decimal rendering of a number used in generated ids is non-empty and made of digits only |
| Common.GeneratedIdPrefix | mcp-servers/agent-orchestration/src/agents/agentManager.ts:187 | a generated id `<prefix>-<ts>-<rnd>` starts with `<prefix>-` |
| Common.GeneratedIdPrefixUnique | mcp-servers/agent-orchestration/src/agents/agentManager.ts:187 | two generated ids over dash-free prefixes are equal only if the prefixes are equal |
| Common.RemoveAll | mcp-servers/agent-orchestration/src/agents/agentManager.ts:557-565 | deleting an id from an index never makes it longer |
| Common.RemoveAllMembership | mcp-servers/agent-orchestration/src/agents/agentManager.ts:557-565 | after deleting `x` from an index, an element is in it iff it was there before and is not `x` |
| Common.RemoveAllNoDuplicates | mcp-servers/agent-orchestration/src/agents/agentManager.ts:557-565 | deleting from a duplicate-free index (a Set) leaves it duplicate-free |
| Agents.EnumsListed | mcp-servers/agent-orchestration/src/agents/agentManager.ts:12-55 | the listed enum values cover every capability, status, type and provider, as `Object.values` does |
| Agents.TypeNameHasNoDash | mcp-servers/agent-orchestration/src/agents/agentManager.ts:36-45 | no agent-type name contains a dash |
| Agents.AgentIdDeterminesType | mcp-servers/agent-orchestration/src/agents/agentManager.ts:187 | equal generated agent ids imply equal agent types |
| Agents.SelectMembership | mcp-servers/agent-orchestration/src/agents/agentManager.ts:201-209 | an id is in the selection of an index iff it is listed, registered, and its agent meets the criterion |
| Agents.SelectNoDuplicates | mcp-servers/agent-orchestration/src/agents/agentManager.ts:201-209 | selecting from a duplicate-free id list gives a duplicate-free list |
| Agents.SelectAppend | mcp-servers/agent-orchestration/src/agents/agentManager.ts:201-209 | selection distributes over concatenation, keeping insertion order |
| Agents.SelectFrame | mcp-servers/agent-orchestration/src/agents/agentManager.ts:201-209 | a selection only depends on the listed agents' registration and match |
| Agents.SelectAfterInsert | mcp-servers/agent-orchestration/src/agents/agentManager.ts:201-209 | registering a new agent appends its id to exactly the selections it matches |
| Agents.SelectAfterRemove | mcp-servers/agent-orchestration/src/agents/agentManager.ts:557-565 | removing an agent removes its id from every selection and leaves the rest in order |
| Agents.StatusChangeKeepsSelection | mcp-servers/agent-orchestration/src/agents/agentManager.ts:532-544 | a status change keeps every capability, type and provider selection |
| Agents.LookupMembership | mcp-servers/agent-orchestration/src/agents/agentManager.ts:225-240 | `ids.map(get).filter(defined)` holds exactly the registered agents whose ids are listed |
| Agents.LookupLength | mcp-servers/agent-orchestration/src/agents/agentManager.ts:225-240 | when every listed id is registered, the lookup drops nothing |
| Agents.CountLookup | mcp-servers/agent-orchestration/src/agents/agentManager.ts:588-593 | counting matching agents after lookup equals the size of the selection |
| Agents.CountAppend | mcp-servers/agent-orchestration/src/agents/agentManager.ts:588-593 | counts add up over concatenation |
| Agents.CountsPartition | mcp-servers/agent-orchestration/src/agents/agentManager.ts:581-605 | the per-status, per-type and per-provider counts each sum to the number of agents |
| Agents.DistinctElementsCardinality | mcp-servers/agent-orchestration/src/agents/agentManager.ts:582 | a duplicate-free id list is as long as its set of ids, so `agents.size` equals the order length |
| Agents.UnregisteredNotIndexed | mcp-servers/agent-orchestration/src/agents/agentManager.ts:201-209 | under the index invariant, an unregistered id appears in no index |
| Agents.RegisterKeepsConsistent | mcp-servers/agent-orchestration/src/agents/agentManager.ts:201-209 | adding a fresh agent to the map and its id to each matching index keeps every index equal to the ids of matching agents |
| Agents.InsertKeepsOrder | mcp-servers/agent-orchestration/src/agents/agentManager.ts:201 | inserting a fresh agent keeps map keys and insertion order in step |
| Agents.InsertKeepsCapabilityIndex | mcp-servers/agent-orchestration/src/agents/agentManager.ts:204-206 | the capability index update of `registerAgent` keeps each capability entry exact |
| Agents.InsertKeepsTypeIndex | mcp-servers/agent-orchestration/src/agents/agentManager.ts:208 | the type index update of `registerAgent` keeps each type entry exact |
| Agents.InsertKeepsProviderIndex | mcp-servers/agent-orchestration/src/agents/agentManager.ts:209 | the provider index update of `registerAgent` keeps each provider entry exact |
| Agents.RemoveKeepsConsistent | mcp-servers/agent-orchestration/src/agents/agentManager.ts:557-565 | deleting an agent from the map and its id from its own entries keeps the invariant, and the id leaves every entry |
| Agents.RemoveKeepsOrder | mcp-servers/agent-orchestration/src/agents/agentManager.ts:565 | deleting from the map keeps keys and insertion order in step |
| Agents.RemoveKeepsEntry | mcp-servers/agent-orchestration/src/agents/agentManager.ts:557-562 | an entry the removed agent did not match is unchanged by the deletion |
| Agents.RemoveKeepsCapabilityIndex | mcp-servers/agent-orchestration/src/agents/agentManager.ts:557-559 | the capability deletions leave each capability entry exact |
| Agents.RemoveKeepsTypeIndex | mcp-servers/agent-orchestration/src/agents/agentManager.ts:561 | the type deletion leaves each type entry exact |
| Agents.RemoveKeepsProviderIndex | mcp-servers/agent-orchestration/src/agents/agentManager.ts:562 | the provider deletion leaves each provider entry exact |
| Agents.StatusChangeKeepsConsistent | mcp-servers/agent-orchestration/src/agents/agentManager.ts:532-544 | replacing an agent by one differing only in status and last-active time keeps the invariant |
| Agents.CustomOutcome | mcp-servers/agent-orchestration/src/agents/agentManager.ts:513-526 | the custom provider succeeds with `[Custom Model] Processed: <prompt> with model <model>`; prompt tokens are the prompt's length in UTF-16 code units, completion tokens floor(that / 5), total their sum; the metadata holds the model name and the brand |
| Agents.Utf16Length | mcp-servers/agent-orchestration/src/agents/agentManager.ts:518 | a string's `length` lies between its character count and twice that, and equals the character count iff every character is in the Basic Multilingual Plane |
| Agents.CompletedOutcome | mcp-servers/agent-orchestration/src/agents/agentManager.ts:287-327 | the finished result of a run: success iff the provider returned a successful result, with its output, usage and model/brand metadata and the duration; a handled failure keeps its error and gains the duration; a thrown error gives a failure with its message and no duration |
| Agents.StatusCounts | mcp-servers/agent-orchestration/src/agents/agentManager.ts:588-593 | every status has an entry holding the number of agents with that status |
| Agents.AgentManager.constructor | mcp-servers/agent-orchestration/src/agents/agentManager.ts:139-181 | the directory starts empty with an empty entry for every enum value; a provider client is configured iff its key is non-empty |
| Agents.AgentManager.RegisterAgent | mcp-servers/agent-orchestration/src/agents/agentManager.ts:186-212 | the new agent is idle, its id starts with `<type>-`, it is added to the map and appended to the order, and the index invariant holds |
| Agents.AgentManager.AddToCapabilityIndex | mcp-servers/agent-orchestration/src/agents/agentManager.ts:204-206 | the loop adds the id to exactly the listed capabilities' entries and touches nothing else |
| Agents.AgentManager.RemoveFromCapabilityIndex | mcp-servers/agent-orchestration/src/agents/agentManager.ts:557-559 | the loop deletes the id from exactly the listed capabilities' entries and touches nothing else |
| Agents.AgentManager.GetAgent | mcp-servers/agent-orchestration/src/agents/agentManager.ts:218-220 | the answer is present iff the id is registered, and is then exactly the map entry for the id |
| Agents.AgentManager.FindAgentsByCapability | mcp-servers/agent-orchestration/src/agents/agentManager.ts:225-230 | an agent is returned iff it is registered and has the capability, in registration order |
| Agents.AgentManager.FindAgentsByType | mcp-servers/agent-orchestration/src/agents/agentManager.ts:235-240 | an agent is returned iff it is registered and of the type, in registration order |
| Agents.AgentManager.FindIdleAgentsByCapability | mcp-servers/agent-orchestration/src/agents/agentManager.ts:245-249 | the idle agents with the capability, in the capability index's insertion order; an agent is returned iff it is registered, has the capability and is idle |
| Agents.IdleOnlyAppend | mcp-servers/agent-orchestration/src/agents/agentManager.ts:246-248 | filtering for idle agents distributes over concatenation |
| Agents.IdleOnlyLookup | mcp-servers/agent-orchestration/src/agents/agentManager.ts:245-249 | filtering looked-up agents for idleness equals looking up the ids selected for idleness, in the same order |
| Agents.LookupAppend | mcp-servers/agent-orchestration/src/agents/agentManager.ts:225-240 | looking up ids distributes over concatenation |
| Agents.AgentManager.GetAllAgents | mcp-servers/agent-orchestration/src/agents/agentManager.ts:574-576 | the registered agents in registration order (the insertion order of the map), one entry per agent |
| Agents.AgentManager.GetAgentStats | mcp-servers/agent-orchestration/src/agents/agentManager.ts:581-605 | total is the number of agents; every type, status and provider has an entry equal to the number of matching agents; each family of counts sums to the total |
| Agents.AgentManager.TypeCounts | mcp-servers/agent-orchestration/src/agents/agentManager.ts:583-586 | the per-type sizes of the type index equal the number of agents of each type |
| Agents.AgentManager.ProviderCounts | mcp-servers/agent-orchestration/src/agents/agentManager.ts:595-598 | the per-provider sizes of the provider index equal the number of agents per provider |
| Agents.AgentManager.UpdateAgentStatus | mcp-servers/agent-orchestration/src/agents/agentManager.ts:532-544 | returns true iff the id is registered; then only that agent's status and last-active time change, else nothing does |
| Agents.AgentManager.SetStatus | mcp-servers/agent-orchestration/src/agents/agentManager.ts:275-276 | assigning an agent's status and last-active time in place keeps the invariant and every index |
| Agents.AgentManager.RemoveAgent | mcp-servers/agent-orchestration/src/agents/agentManager.ts:549-569 | an unknown id returns false and changes nothing; otherwise true, and the agent leaves the map, the order and every index |
| Agents.AgentManager.StartExecution | mcp-servers/agent-orchestration/src/agents/agentManager.ts:254-276 | unknown id and busy agent are refused with their messages and no change; any other status proceeds and the agent becomes busy |
| Agents.AgentManager.FinishExecution | mcp-servers/agent-orchestration/src/agents/agentManager.ts:287-327 | the result is the completed provider result (see `Agents.CompletedOutcome`); a returned result leaves the agent idle, a thrown error leaves it in error |
| Agents.AgentManager.ExecuteAgent | mcp-servers/agent-orchestration/src/agents/agentManager.ts:254-328 | the whole status machine: refusals change nothing; otherwise the result is the completed provider result and the agent ends idle or in error according to the provider outcome; nothing else changes |
| Agents.IdleOnly | mcp-servers/agent-orchestration/src/agents/agentManager.ts:246-248 | keeps exactly the idle agents |
| Agents.BusyGuardSerialisesStarts | mcp-servers/agent-orchestration/src/agents/agentManager.ts:265-276 | of two starts on the same non-busy agent, the first proceeds and marks it busy, the second is refused as busy |
| Agents.DistinctTypesDistinctIds | mcp-servers/agent-orchestration/src/agents/agentManager.ts:187 | registrations of pairwise different types get pairwise different ids |
| Agents.RegisterDefaultAgents | mcp-servers/agent-orchestration/src/agents/agentManager.ts:623-682 | registering the default table in order yields exactly those agents, in that order |
| Agents.AgentManagerSlot.InitializeAgentManager | mcp-servers/agent-orchestration/src/agents/agentManager.ts:615-691 | a second call returns the first instance; the first call registers the five default agents unless the flag is not `true` |
| Agents.AgentManagerSlot.GetAgentManager | mcp-servers/agent-orchestration/src/agents/agentManager.ts:696-702 | fails before initialisation and returns the instance after |
| TaskQueue.TaskPriority.Level | mcp-servers/agent-orchestration/src/queue/taskQueue.ts:17-22 | every priority level is a positive number |
| TaskQueue.EffectiveTimeout | mcp-servers/agent-orchestration/src/queue/taskQueue.ts:131 | `timeout \|\| 60000`: a given non-zero timeout is kept, otherwise 60000 |
| TaskQueue.NewJob | mcp-servers/agent-orchestration/src/queue/taskQueue.ts:123-137 | the job is named by its type, carries the data, the priority (medium by default), the delay (0 by default), the timeout default and a `<type>-` id; it is delayed iff the delay is positive |
| TaskQueue.StatusOfState | mcp-servers/agent-orchestration/src/queue/taskQueue.ts:149-166 | waiting and delayed map to pending, active to processing, completed, failed and retrying to themselves; cancelled is never reported; any other state gives no status |
| TaskQueue.ResultOf | mcp-servers/agent-orchestration/src/queue/taskQueue.ts:171-191 | absent iff the job is absent; success iff completed, then with the return value; otherwise a failure with `Job is not completed. Current state: <state>` |
| TaskQueue.CompletedStatusIffSuccess | mcp-servers/agent-orchestration/src/queue/taskQueue.ts:149-191 | the status is completed iff the result reports success |
| TaskQueue.StatusNullDoesNotMeanResultNull | mcp-servers/agent-orchestration/src/queue/taskQueue.ts:164-191 | a job in an unlisted state has no status but has a failed result |
| TaskQueue.CancellableIffPending | mcp-servers/agent-orchestration/src/queue/taskQueue.ts:196-213 | a job can be cancelled iff its status is pending |
| TaskQueue.WorkerHandle | mcp-servers/agent-orchestration/src/queue/taskQueue.ts:93-99 | a worker runs the processor on jobs of its own type and fails every other job |
| TaskQueue.TaskTypeNameInjective | mcp-servers/agent-orchestration/src/queue/taskQueue.ts:7-14 | distinct task types have distinct names |
| TaskQueue.WorkerOnlyRunsOwnType | mcp-servers/agent-orchestration/src/queue/taskQueue.ts:93-99 | a worker's success implies the job was of its type; a job of another type always fails |
| TaskQueue.ShutdownOrder | mcp-servers/agent-orchestration/src/queue/taskQueue.ts:218-234 | shutdown closes one resource per worker plus the queue and the connection |
| TaskQueue.WorkersClosed | mcp-servers/agent-orchestration/src/queue/taskQueue.ts:220-222 | the workers are closed one by one in registration order |
| TaskQueue.ShutdownClosesWorkersFirst | mcp-servers/agent-orchestration/src/queue/taskQueue.ts:218-234 | every worker is closed before the queue, and the queue before the connection |
| TaskQueue.TaskQueueSystem.constructor | mcp-servers/agent-orchestration/src/queue/taskQueue.ts:57-78 | the Redis URL is the environment value unless it is unset or empty, then `redis://localhost:6379`; the queue defaults are 3 attempts, 1000 ms backoff, keep 100 completed and 200 failed jobs, and nothing is registered |
| TaskQueue.TaskQueueSystem.RegisterProcessor | mcp-servers/agent-orchestration/src/queue/taskQueue.ts:83-118 | the processor and its worker (concurrency 1 by default, 30000 ms lock) replace any earlier one for the type, and the replaced worker is kept as orphaned (never closed); the jobs are untouched |
| TaskQueue.RegisterTwiceLeaksWorker | mcp-servers/agent-orchestration/src/queue/taskQueue.ts:83-118 | registering twice for one type and shutting down closes only the second worker; the first is left orphaned |
| TaskQueue.TaskQueueSystem.AddTask | mcp-servers/agent-orchestration/src/queue/taskQueue.ts:123-137 | the job is added under a fresh `<type>-` id with the defaults above and nothing else changes |
| TaskQueue.TaskQueueSystem.GetTaskStatus | mcp-servers/agent-orchestration/src/queue/taskQueue.ts:142-166 | an absent job gives no status; otherwise the state-to-status mapping |
| TaskQueue.TaskQueueSystem.GetTaskResult | mcp-servers/agent-orchestration/src/queue/taskQueue.ts:171-191 | the result rule above, read from the current jobs |
| TaskQueue.TaskQueueSystem.CancelTask | mcp-servers/agent-orchestration/src/queue/taskQueue.ts:196-213 | returns true and removes the job iff it is waiting or delayed; otherwise false and nothing changes |
| TaskQueue.TaskQueueSystem.Shutdown | mcp-servers/agent-orchestration/src/queue/taskQueue.ts:218-234 | appends the closings of the registered workers in order, then the queue, then the connection; orphaned workers are not closed |
| TaskQueue.AddedTaskIsPending | mcp-servers/agent-orchestration/src/queue/taskQueue.ts:123-166 | a freshly added task reports pending and can be cancelled |
| TaskQueue.CancelIsFinal | mcp-servers/agent-orchestration/src/queue/taskQueue.ts:196-213 | after a cancel that job is not found and cannot be cancelled again; other tasks keep their status |
| TaskQueue.TaskQueueSlot.InitializeTaskQueue | mcp-servers/agent-orchestration/src/queue/taskQueue.ts:243-260 | a second call returns the first instance; the first call makes a fresh, empty one whose Redis URL is the environment value unless unset or empty |
| TaskQueue.TaskQueueSlot.GetTaskQueueSystem | mcp-servers/agent-orchestration/src/queue/taskQueue.ts:265-271 | fails before initialisation and returns the instance after |
| TaskQueue.InitializeTwice | mcp-servers/agent-orchestration/src/queue/taskQueue.ts:243-260 | two initialisations hand out the same instance |
| OrchestrationServer.PassThrough | mcp-servers/agent-orchestration/src/mcp/server.ts:82-89 | the tool response copies success, output, error, usage, duration and agent id from the execution result |
| OrchestrationServer.FirstIdle | mcp-servers/agent-orchestration/src/mcp/server.ts:60-71 | no pick iff no candidate is idle; otherwise the first of the idle candidates |
| OrchestrationServer.FirstIdleIsEarliest | mcp-servers/agent-orchestration/src/mcp/server.ts:60-71 | the picked agent is idle and no idle candidate comes before it |
| OrchestrationServer.PickedAgentIsIdleOfType | mcp-servers/agent-orchestration/src/mcp/server.ts:60-71 | the picked agent is registered, of the requested type and idle; there is no pick iff no such agent is idle |
| OrchestrationServer.ExecuteAgentTool | mcp-servers/agent-orchestration/src/mcp/server.ts:56-90 | without an idle agent of the type, `No idle agents available of type <t>` and no change; otherwise the first idle agent of the type runs, the response passes its completed result through, its record is the running one with status idle or error, and the order and indices are unchanged |
| OrchestrationServer.PriorityOf | mcp-servers/agent-orchestration/src/mcp/server.ts:116-133 | a missing or unknown priority gives medium; each known name gives its level |
| OrchestrationServer.PriorityRoundTrip | mcp-servers/agent-orchestration/src/mcp/server.ts:116-133 | naming a priority and mapping it back gives it again; the levels are 1, 5, 10, 20 and medium by default |
| OrchestrationServer.ForwardedTask | mcp-servers/agent-orchestration/src/mcp/server.ts:136-143 | the queued task carries the tool's type, payload, brand, timeout and dependencies |
| OrchestrationServer.AddTaskToQueueTool | mcp-servers/agent-orchestration/src/mcp/server.ts:112-151 | one job is added with the mapped priority and no delay; the response holds its id |
| OrchestrationServer.AddedTaskWaits | mcp-servers/agent-orchestration/src/mcp/server.ts:136-145 | a task added by the tool starts waiting, not delayed |
| OrchestrationServer.GetTaskStatusTool | mcp-servers/agent-orchestration/src/mcp/server.ts:161-177 | succeeds iff the facade reports a status; otherwise `Task with ID <id> not found` |
| OrchestrationServer.GetTaskResultTool | mcp-servers/agent-orchestration/src/mcp/server.ts:187-203 | succeeds iff the job exists; otherwise `Task with ID <id> not found` |
| OrchestrationServer.OuterSuccessIsNotTaskSuccess | mcp-servers/agent-orchestration/src/mcp/server.ts:187-203 | for an existing, unfinished task the tool succeeds while the job's own result is a failure |
| OrchestrationServer.StatusFoundImpliesResultFound | mcp-servers/agent-orchestration/src/mcp/server.ts:161-203 | whenever the status tool finds a task, the result tool finds it too |
| OrchestrationServer.ForwardedRegistration | mcp-servers/agent-orchestration/src/mcp/server.ts:240-246 | the registration request carries the tool's fields and no metadata |
| OrchestrationServer.RegisterAgentTool | mcp-servers/agent-orchestration/src/mcp/server.ts:237-254 | registers one agent and answers with its id, name and type |
| OrchestrationServer.GetAgentStatsTool | mcp-servers/agent-orchestration/src/mcp/server.ts:262-271 | succeeds with exactly the registry's statistics: the total is the number of agents and every status has an entry |
| OrchestrationServer.StepsJson | mcp-servers/agent-orchestration/src/mcp/server.ts:313 | each workflow step becomes one JSON object, in order |
| OrchestrationServer.WorkflowTask | mcp-servers/agent-orchestration/src/mcp/server.ts:308-318 | the workflow job is of type `workflow_execution` with exactly the keys workflowType, steps and context |
| OrchestrationServer.OrchestrateWorkflowTool | mcp-servers/agent-orchestration/src/mcp/server.ts:296-328 | adds exactly one high-priority job and reports the number of steps |
| OrchestrationServer.WorkflowBecomesOneHighJob | mcp-servers/agent-orchestration/src/mcp/server.ts:308-320 | the workflow job has level 10 and starts waiting |
| OrchestrationServer.AgentsResourceOf | mcp-servers/agent-orchestration/src/mcp/server.ts:343-362 | the resource lists every registered agent once, without metadata, with a matching count |
| OrchestrationServer.WithoutMetadata | mcp-servers/agent-orchestration/src/mcp/server.ts:347-356 | each agent is listed as itself minus its metadata, in order |
| Text.Lower | mcp-servers/brand-context/src/mcp/server.ts:346 | lower-casing keeps the length and maps each character on its own |
| Text.LowerIdempotent | mcp-servers/brand-context/src/mcp/server.ts:346 | lower-casing twice is lower-casing once |
| Text.ContainsIffOccurs | mcp-servers/brand-context/src/mcp/server.ts:346 | `includes` holds iff the term occurs at some position |
| Text.SkipRun | mcp-servers/brand-context/src/mcp/server.ts:329-330 | skipping a separator run drops only separators and stops at a non-separator |
| Text.SplitRuns | mcp-servers/brand-context/src/mcp/server.ts:329-330 | a split always yields at least one piece |
| Text.WithoutSkipRun | mcp-servers/brand-context/src/mcp/server.ts:329-330 | skipping a run loses no non-separator character |
| Text.SplitRunsNoSeparator | mcp-servers/brand-context/src/mcp/server.ts:329-330 | no piece contains a separator |
| Text.SplitRunsConcat | mcp-servers/brand-context/src/mcp/server.ts:329-330 | the pieces joined together are the input without its separators |
| Text.NoSeparatorOnePiece | mcp-servers/brand-context/src/mcp/server.ts:329-330 | text without a separator is a single piece |
| Text.WordCount | mcp-servers/brand-context/src/mcp/server.ts:329 | the word count is at least 1 |
| Text.SplitRunsCount | mcp-servers/brand-context/src/mcp/server.ts:329-330 | splitting on maximal separator runs gives one piece more than the number of runs, counted by an independent scan |
| Text.CountsAreRunCounts | mcp-servers/brand-context/src/mcp/server.ts:329-330 | the word count is 1 + the number of whitespace runs; the sentence count is the number of runs of `.`, `!` and `?` |
| Text.WordCountExamples | mcp-servers/brand-context/src/mcp/server.ts:329-330 | empty content counts 1 word and 0 sentences; a lone blank counts 2 words |
| Text.BlankLineEnd | mcp-servers/brand-context/src/mcp/server.ts:355 | a `\n\s*\n` match runs over whitespace only and ends on a newline |
| Text.Paragraphs | mcp-servers/brand-context/src/mcp/server.ts:355 | a paragraph split always yields at least one paragraph |
| Text.NoNewlineOneParagraph | mcp-servers/brand-context/src/mcp/server.ts:355 | text without a newline is one paragraph |
| Text.NoBlankLineOneParagraph | mcp-servers/brand-context/src/mcp/server.ts:355 | text in which `\n\s*\n` matches nowhere is one paragraph |
| Text.ParagraphsCutAtFirstBlankLine | mcp-servers/brand-context/src/mcp/server.ts:355 | `split(/\n\s*\n/)` cuts at the first match: the first paragraph is the text before it, the rest is the split of the text after the match |
| Text.ParagraphExample | mcp-servers/brand-context/src/mcp/server.ts:355 | two newlines split into two empty paragraphs; one newline does not split |
| Text.SplitOn | packages/core/src/utils.ts:10 | splitting on a character yields at least one piece |
| Text.SplitJoinRoundTrip | packages/core/src/utils.ts:10-12 | joining the pieces of a split with the same character gives the input back |
| BrandContextModel.InitialStatus | mcp-servers/brand-context/src/models/brandContext.ts:80 | a given non-empty status is kept; an absent or empty one becomes `draft` |
| BrandContextModel.CreateBrandContext | mcp-servers/brand-context/src/models/brandContext.ts:71-92 | a created record passes the schema, has createdAt = updatedAt = now, version 1, the initial status, and the input's fields including the extra status key; a failure carries the creation error |
| BrandContextModel.CreateSucceedsIff | mcp-servers/brand-context/src/models/brandContext.ts:7-63 | creation succeeds iff the input meets every schema constraint; otherwise it fails with the creation error |
| BrandContextModel.CreateRejects | mcp-servers/brand-context/src/models/brandContext.ts:10-11 | an empty name, a slug character outside `[a-z0-9-]`, or a primary colour of the wrong length is refused |
| BrandContextModel.CreateStatus | mcp-servers/brand-context/src/models/brandContext.ts:74-81 | without a status the record is a draft; a given status also survives as a top-level key |
| BrandContextModel.UpdateBrandContext | mcp-servers/brand-context/src/models/brandContext.ts:97-119 | succeeds iff the merged record with bumped metadata passes the schema, and is then that record: version + 1, updatedAt = now, id, createdAt and metadata status kept; a failure carries the update error |
| BrandContextModel.UpdateIsShallowMerge | mcp-servers/brand-context/src/models/brandContext.ts:101-104 | each of name, slug, description, voice, visual and content guidelines is unchanged when absent from the updates and replaced as a whole when present |
| BrandContextModel.PartialVoiceUpdateRejected | mcp-servers/brand-context/src/models/brandContext.ts:101-118 | an update carrying a voice without tone or personality is refused, because the voice is replaced whole |
| BrandContextModel.UpdateStatusStaysTopLevel | mcp-servers/brand-context/src/models/brandContext.ts:101-109 | a status in the updates lands as a top-level key and the metadata status stays |
| BrandContextModel.ApplyUpdatesVersion | mcp-servers/brand-context/src/models/brandContext.ts:107 | along a chain of successful updates the version grows by one per update; id and createdAt stay |
| BrandContextModel.CreateThenUpdatesVersion | mcp-servers/brand-context/src/models/brandContext.ts:60-107 | after creation and n successful updates the version is 1 + n and the record passes the schema |
| BrandContextServer.AvoidedIssues | mcp-servers/brand-context/src/mcp/server.ts:343-351 | at most one issue per term; no issue iff no term occurs in the content ignoring case; each issue names an occurring term and its reason |
| BrandContextServer.ParagraphThreshold | mcp-servers/brand-context/src/mcp/server.ts:356-366 | a word limit exists iff the style is `short` (30) or `medium` (100) |
| BrandContextServer.ParagraphWarnings | mcp-servers/brand-context/src/mcp/server.ts:359-367 | at most one warning per paragraph; none without a limit; none iff every paragraph is within the limit |
| BrandContextServer.TermOccursIgnoresCase | mcp-servers/brand-context/src/mcp/server.ts:346 | lower-casing content or term first changes no match; a match is an occurrence in the lower-cased content |
| BrandContextServer.SingleParagraphWarnings | mcp-servers/brand-context/src/mcp/server.ts:354-367 | content on one line draws at most one warning, numbered 1 |
| BrandContextServer.CheckAvoidedTerms | mcp-servers/brand-context/src/mcp/server.ts:343-351 | the loop's issues are the avoided-term issues, and it passes iff no term occurs |
| BrandContextServer.CheckParagraphs | mcp-servers/brand-context/src/mcp/server.ts:353-368 | the loop's warnings are the paragraph warnings for the style's limit |
| BrandContextServer.BrandContextStore.constructor | mcp-servers/brand-context/src/mcp/server.ts:16-22 | the store starts empty and consistent |
| BrandContextServer.BrandContextStore.CreateBrandContextTool | mcp-servers/brand-context/src/mcp/server.ts:127-170 | a taken slug is refused with `already exists`, nothing created; otherwise a validation or save failure changes nothing, and a success stores the new record under its fresh id, keeping slugs unique |
| BrandContextServer.BrandContextStore.UpdateBrandContextTool | mcp-servers/brand-context/src/mcp/server.ts:221-259 | an unknown id is refused as not found without writing; otherwise the merged record is stored only when it is valid and saved |
| BrandContextServer.BrandContextStore.DeleteBrandContextTool | mcp-servers/brand-context/src/mcp/server.ts:269-296 | an unknown id is refused as not found without writing; otherwise the context is removed when the delete goes through, with the name-and-slug message |
| BrandContextServer.BrandContextStore.ValidateContent | mcp-servers/brand-context/src/mcp/server.ts:308-378 | an unknown brand is refused as not found; otherwise the issues, the pass verdict (iff no avoided term occurs), the warnings and the word and sentence counts as specified above |
| CoreUtils.FormatFrom | packages/core/src/utils.ts:8-13 | the character-wise reference: a dash becomes a space, the first character of each piece is upper-cased, others are kept |
| CoreUtils.SplitCapitalizeJoin | packages/core/src/utils.ts:8-13 | split, capitalize and join equals the character-wise reference |
| CoreUtils.FormatBrandNamePointwise | packages/core/src/utils.ts:8-13 | `formatBrandName` keeps the length, turns dashes into spaces and upper-cases exactly the piece-initial characters |
| CoreUtils.FormatBrandNameCounts | packages/core/src/utils.ts:8-13 | the result has no dash, and its spaces are the input's dashes plus its spaces |
| CoreUtils.FormatBrandNameIdempotent | packages/core/src/utils.ts:8-13 | formatting a formatted name changes nothing |
| CoreUtils.FormatTwoPieces | packages/core/src/utils.ts:8-13 | `a-b` with dash-free pieces formats to `Capitalize(a) Capitalize(b)` |
| CoreUtils.FormatPartlyOffice | packages/core/src/utils.ts:8-13 | `partly-office` formats to `Partly Office` |
| CoreUtils.FormatGPrismo | packages/core/src/utils.ts:8-13 | `g-prismo` formats to `G Prismo` |
| CoreUtils.FormatDiffersFromDisplayName | packages/core/src/constants.ts:13 | `saithavys` formats to `Saithavys`, not the display name `SaithavyS` |
| CoreUtils.ValidBrandIds | packages/core/src/utils.ts:18-21 | exactly `saithavys`, `partly-office` and `g-prismo` are valid; `default` is not, though the brand table lists it |

## Left out

- Provider SDK and network calls (OpenAI, Anthropic, Ollama HTTP): the model passes their answer in as an abstract outcome. The outcome is a result, a handled failure, or a thrown error. The three SDK routines catch their own exceptions (agentManager.ts:376-382, 430-436, 490-496) and return a handled failure, so a thrown error from them is an over-approximation: it covers only exceptions outside those blocks.
- Provider result metadata: the OpenAI `finishReason` and Anthropic `stopReason` keys come from the SDK answer and are not modelled; the model keeps the model name and the brand.
- Agents.AgentManager.RegisterAgent: `new Date()` for `lastActive` and `Date.now()` inside the id are two clock readings; the model uses one reading for both.
- The `temperature`, `maxTokens`, `systemInstructions` and `tools` fields of an execution request (agentManager.ts:88-91), and the defaults the providers put in their place: only the provider calls read them, and provider calls are not modelled.
- Timing: the simulated 500 ms latency of the custom provider, the wall-clock duration measurement, `Date.now()`, `new Date()` and `Math.random()`. Durations, timestamps and random draws are parameters.
- Clock readings as `Date` objects are integers in the model. ISO timestamps of brand contexts are opaque strings.
- Id collisions: a generated id that clashes with an existing one would overwrite a map entry. The model requires generated ids to be fresh.
- Agent records are values held in the map. Aliasing between an agent object handed out by a query and the registry entry is not modelled.
- The job broker: claim order by priority, the `prioritized` state of newer broker versions, retries with exponential backoff, locks, concurrency and retention eviction. They are kept as constants and an abstract job ledger.
- Worker event logging and the processor's own work: the processor is an abstract function.
- Redis connection handling: the model keeps only the order in which resources are closed.
- `avgSentenceLength`: floating-point division.
- The validation library's `uuid()`, `url()` and `datetime()` checks: abstract predicates passed as a parameter.
- Non-integer numbers where the schema asks for an integer: numbers are `int`.
- BrandContextServer.ToolUpdates, BrandContextServer.CreateDataOf: the servers register their tools with `@modelcontextprotocol/runtime`, which is not part of this model. The model assumes that runtime parses each input against the tool's schema before the handler runs. So ToolUpdates drops a `slug` sent to `update_brand_context`, which keeps slugs unique in the store, and CreateDataOf keeps the fresh uuid as the `id`. The repository's own runtime (packages/runtime/src/index.ts:85-87) hands the body to the handler unparsed. Under that runtime a `slug` in the updates reaches the merge (brandContext.ts:103) and slug uniqueness is not kept, and an `id` in the create input overrides the uuid (server.ts:141-144); neither case is modelled.
- Supabase persistence: lookups are reads of the store. Whether a create, update or delete write succeeds is a parameter. The record the database returns is taken to be the one written.
- The `get_brand_context` and `list_brand_contexts` tools and the brand-context resources: plain reads of the store.
- `Object.keys` ordering of avoided terms: keys are modelled in insertion order. JavaScript's integer-like keys first rule is not modelled.
- Case mapping: `toLowerCase` and `toUpperCase` are modelled on ASCII letters only. Other characters are kept unchanged.
- `generateId`, `delay` and `safeJsonParse` in packages/core/src/utils.ts: randomness, a timer and JSON parsing.
- Loggers, environment loading other than the flags modelled, and transport.
