/**
 * The agent registry of the agent-orchestration service
 * (mcp-servers/agent-orchestration/src/agents/agentManager.ts).
 *
 * `AgentManager` keeps one map of agents and three secondary indices (by
 * capability, by type, by model provider). JavaScript maps and sets iterate in
 * insertion order, and the dispatch layer relies on that order ("first idle
 * agent wins"), so the map's key order is the field `order` and every index is
 * an insertion-ordered sequence without duplicates. The object invariant
 * `Valid` says that each index is exactly the registered ids, in registration
 * order, whose agent has that capability, type or provider.
 *
 * `executeAgent` is split at its only suspension point: `StartExecution` runs
 * the guards and marks the agent busy, `FinishExecution` takes the provider's
 * outcome and settles the final status.
 */
module Agents {
  import opened Common

  datatype AgentCapability =
    | ContentGeneration
    | ContextValidation
    | AssetManagement
    | Analytics
    | WorkflowOrchestration
    | Reasoning
    | Planning
    | CodeGeneration

  datatype AgentStatus = Idle | Busy | Offline | Error

  datatype AgentType =
    | BrandContext
    | ContentGeneration
    | Analytics
    | AssetManagement
    | WorkflowOrchestration

  datatype ModelProvider = OpenAI | Anthropic | Ollama | Custom

  /** `Object.values(...)` of each enum, in declaration order. */
  const AllCapabilities: seq<AgentCapability> := [
    AgentCapability.ContentGeneration, AgentCapability.ContextValidation,
    AgentCapability.AssetManagement, AgentCapability.Analytics,
    AgentCapability.WorkflowOrchestration, Reasoning, Planning, CodeGeneration]
  const AllStatuses: seq<AgentStatus> := [Idle, Busy, Offline, Error]
  const AllTypes: seq<AgentType> := [
    BrandContext, AgentType.ContentGeneration, AgentType.Analytics,
    AgentType.AssetManagement, AgentType.WorkflowOrchestration]
  const AllProviders: seq<ModelProvider> := [OpenAI, Anthropic, Ollama, Custom]

  lemma EnumsListed()
    ensures forall c: AgentCapability :: c in AllCapabilities
    ensures forall s: AgentStatus :: s in AllStatuses
    ensures forall t: AgentType :: t in AllTypes
    ensures forall p: ModelProvider :: p in AllProviders
  {
    forall c: AgentCapability ensures c in AllCapabilities {
      match c
      case ContentGeneration => assert AllCapabilities[0] == c;
      case ContextValidation => assert AllCapabilities[1] == c;
      case AssetManagement => assert AllCapabilities[2] == c;
      case Analytics => assert AllCapabilities[3] == c;
      case WorkflowOrchestration => assert AllCapabilities[4] == c;
      case Reasoning => assert AllCapabilities[5] == c;
      case Planning => assert AllCapabilities[6] == c;
      case CodeGeneration => assert AllCapabilities[7] == c;
    }
    forall s: AgentStatus ensures s in AllStatuses {
      match s
      case Idle => assert AllStatuses[0] == s;
      case Busy => assert AllStatuses[1] == s;
      case Offline => assert AllStatuses[2] == s;
      case Error => assert AllStatuses[3] == s;
    }
    forall t: AgentType ensures t in AllTypes {
      match t
      case BrandContext => assert AllTypes[0] == t;
      case ContentGeneration => assert AllTypes[1] == t;
      case Analytics => assert AllTypes[2] == t;
      case AssetManagement => assert AllTypes[3] == t;
      case WorkflowOrchestration => assert AllTypes[4] == t;
    }
    forall p: ModelProvider ensures p in AllProviders {
      match p
      case OpenAI => assert AllProviders[0] == p;
      case Anthropic => assert AllProviders[1] == p;
      case Ollama => assert AllProviders[2] == p;
      case Custom => assert AllProviders[3] == p;
    }
  }

  /** The enum's string value, used as the prefix of an agent id. */
  function TypeName(t: AgentType): string {
    match t
    case BrandContext => "brand_context"
    case ContentGeneration => "content_generation"
    case Analytics => "analytics"
    case AssetManagement => "asset_management"
    case WorkflowOrchestration => "workflow_orchestration"
  }

  datatype Agent = Agent(
    id: string,
    name: string,
    agentType: AgentType,
    capabilities: seq<AgentCapability>,
    status: AgentStatus,
    modelProvider: ModelProvider,
    modelName: string,
    lastActive: int,
    metadata: map<string, Json>)

  datatype RegistrationRequest = RegistrationRequest(
    name: string,
    agentType: AgentType,
    capabilities: seq<AgentCapability>,
    modelProvider: ModelProvider,
    modelName: string,
    metadata: Option<map<string, Json>>)

  /** `${request.type}-${Date.now()}-${Math.floor(Math.random() * 1000)}` */
  function AgentId(t: AgentType, seed: IdSeed): string {
    GeneratedId(TypeName(t), seed)
  }

  /**
   * The record `registerAgent` builds. The source reads the clock twice, once
   * for the id and once for `lastActive`; the model uses the id's reading for
   * both.
   */
  function NewAgent(request: RegistrationRequest, seed: IdSeed): Agent {
    Agent(AgentId(request.agentType, seed), request.name, request.agentType,
          request.capabilities, Idle, request.modelProvider, request.modelName,
          seed.timestamp, request.metadata.GetOr(map[]))
  }

  lemma TypeNameHasNoDash(t: AgentType)
    ensures '-' !in TypeName(t)
  {
    var n := TypeName(t);
    assert forall i :: 0 <= i < |n| ==> n[i] != '-';
  }

  /** An agent id names its type: ids generated for different types never collide. */
  lemma AgentIdDeterminesType(t1: AgentType, s1: IdSeed, t2: AgentType, s2: IdSeed)
    requires AgentId(t1, s1) == AgentId(t2, s2)
    ensures t1 == t2
  {
    TypeNameHasNoDash(t1);
    TypeNameHasNoDash(t2);
    GeneratedIdPrefixUnique(TypeName(t1), TypeName(t2), s1, s2);
    assert TypeName(t1) == TypeName(t2);
  }

  // ---------------------------------------------------------------------------
  // Selections: which ids of a sequence name an agent with a given attribute.
  // ---------------------------------------------------------------------------

  datatype Criterion =
    | HasCapability(capability: AgentCapability)
    | OfType(agentType: AgentType)
    | UsesProvider(provider: ModelProvider)
    | InStatus(status: AgentStatus)

  predicate Matches(a: Agent, k: Criterion) {
    match k
    case HasCapability(c) => c in a.capabilities
    case OfType(t) => a.agentType == t
    case UsesProvider(p) => a.modelProvider == p
    case InStatus(s) => a.status == s
  }

  /** The ids of `ids`, in their order, that name an agent meeting `k`. */
  function Select(ids: seq<string>, agents: map<string, Agent>, k: Criterion): seq<string> {
    if ids == [] then []
    else (if ids[0] in agents && Matches(agents[ids[0]], k) then [ids[0]] else [])
         + Select(ids[1..], agents, k)
  }

  /** `ids.map(id => agents.get(id)).filter(agent => agent !== undefined)` */
  function Lookup(ids: seq<string>, agents: map<string, Agent>): seq<Agent> {
    if ids == [] then []
    else (if ids[0] in agents then [agents[ids[0]]] else []) + Lookup(ids[1..], agents)
  }

  /** `agents.filter(agent => <agent meets k>).length` */
  function CountMatching(agents: seq<Agent>, k: Criterion): nat {
    if agents == [] then 0
    else (if Matches(agents[0], k) then 1 else 0) + CountMatching(agents[1..], k)
  }

  ghost predicate KeysAreIds(agents: map<string, Agent>) {
    forall id :: id in agents ==> agents[id].id == id
  }

  lemma {:induction false} SelectMembership(ids: seq<string>, agents: map<string, Agent>, k: Criterion, x: string)
    ensures x in Select(ids, agents, k) <==> x in ids && x in agents && Matches(agents[x], k)
  {
    if ids != [] {
      SelectMembership(ids[1..], agents, k, x);
      assert ids == [ids[0]] + ids[1..];
    }
  }

  lemma {:induction false} SelectNoDuplicates(ids: seq<string>, agents: map<string, Agent>, k: Criterion)
    requires NoDuplicates(ids)
    ensures NoDuplicates(Select(ids, agents, k))
  {
    if ids != [] {
      assert NoDuplicates(ids[1..]);
      SelectNoDuplicates(ids[1..], agents, k);
      SelectMembership(ids[1..], agents, k, ids[0]);
      assert ids[0] !in ids[1..];
    }
  }

  lemma {:induction false} SelectAppend(s: seq<string>, t: seq<string>, agents: map<string, Agent>, k: Criterion)
    ensures Select(s + t, agents, k) == Select(s, agents, k) + Select(t, agents, k)
  {
    if s == [] {
      assert s + t == t;
    } else {
      assert (s + t)[0] == s[0];
      assert (s + t)[1..] == s[1..] + t;
      SelectAppend(s[1..], t, agents, k);
    }
  }

  /** A selection only looks at the agents its ids name, and only at the attribute asked for. */
  lemma {:induction false} SelectFrame(ids: seq<string>, m1: map<string, Agent>, m2: map<string, Agent>, k: Criterion)
    requires forall id :: id in ids ==> (id in m1 <==> id in m2)
    requires forall id :: id in ids && id in m1 ==> (Matches(m1[id], k) <==> Matches(m2[id], k))
    ensures Select(ids, m1, k) == Select(ids, m2, k)
  {
    if ids != [] {
      SelectFrame(ids[1..], m1, m2, k);
    }
  }

  /** Registering a fresh id appends it to exactly the selections its agent meets. */
  lemma SelectAfterInsert(ids: seq<string>, agents: map<string, Agent>, id: string, a: Agent, k: Criterion)
    requires id !in ids
    ensures Select(ids + [id], agents[id := a], k)
         == Select(ids, agents, k) + (if Matches(a, k) then [id] else [])
  {
    SelectAppend(ids, [id], agents[id := a], k);
    SelectFrame(ids, agents[id := a], agents, k);
    assert [id][1..] == [];
  }

  /** Removing an agent from the map and its id from the order removes it from every selection. */
  lemma {:induction false} SelectAfterRemove(ids: seq<string>, agents: map<string, Agent>, x: string, k: Criterion)
    ensures Select(RemoveAll(ids, x), agents - {x}, k) == RemoveAll(Select(ids, agents, k), x)
  {
    if ids != [] {
      SelectAfterRemove(ids[1..], agents, x, k);
      var rest := Select(ids[1..], agents, k);
      if ids[0] == x {
        assert RemoveAll(ids, x) == RemoveAll(ids[1..], x);
        if x in agents && Matches(agents[x], k) {
          assert Select(ids, agents, k) == [x] + rest;
          assert ([x] + rest)[0] == x && ([x] + rest)[1..] == rest;
        } else {
          assert Select(ids, agents, k) == rest;
        }
      } else {
        var r := RemoveAll(ids, x);
        assert r == [ids[0]] + RemoveAll(ids[1..], x);
        assert r[0] == ids[0] && r[1..] == RemoveAll(ids[1..], x);
        if ids[0] in agents && Matches(agents[ids[0]], k) {
          assert Select(ids, agents, k) == [ids[0]] + rest;
          assert ([ids[0]] + rest)[0] == ids[0] && ([ids[0]] + rest)[1..] == rest;
        } else {
          assert Select(ids, agents, k) == rest;
        }
      }
    }
  }

  /** Changing an agent's status (and activity time) leaves the capability, type and provider selections alone. */
  lemma StatusChangeKeepsSelection(ids: seq<string>, agents: map<string, Agent>, id: string, a: Agent, k: Criterion)
    requires id in agents
    requires a.capabilities == agents[id].capabilities && a.agentType == agents[id].agentType
    requires a.modelProvider == agents[id].modelProvider
    requires !k.InStatus?
    ensures Select(ids, agents[id := a], k) == Select(ids, agents, k)
  {
    SelectFrame(ids, agents[id := a], agents, k);
  }

  lemma {:induction false} LookupMembership(ids: seq<string>, agents: map<string, Agent>, a: Agent)
    requires KeysAreIds(agents)
    ensures a in Lookup(ids, agents) <==> a.id in ids && a.id in agents && agents[a.id] == a
  {
    if ids != [] {
      LookupMembership(ids[1..], agents, a);
      assert ids == [ids[0]] + ids[1..];
    }
  }

  lemma {:induction false} LookupLength(ids: seq<string>, agents: map<string, Agent>)
    requires forall id :: id in ids ==> id in agents
    ensures |Lookup(ids, agents)| == |ids|
  {
    if ids != [] {
      LookupLength(ids[1..], agents);
    }
  }

  /** Counting the looked-up agents that meet `k` is counting the selected ids. */
  lemma {:induction false} CountLookup(ids: seq<string>, agents: map<string, Agent>, k: Criterion)
    ensures CountMatching(Lookup(ids, agents), k) == |Select(ids, agents, k)|
  {
    if ids != [] {
      CountLookup(ids[1..], agents, k);
      var head := if ids[0] in agents then [agents[ids[0]]] else [];
      CountAppend(head, Lookup(ids[1..], agents), k);
    }
  }

  lemma {:induction false} CountAppend(s: seq<Agent>, t: seq<Agent>, k: Criterion)
    ensures CountMatching(s + t, k) == CountMatching(s, k) + CountMatching(t, k)
  {
    if s == [] {
      assert s + t == t;
    } else {
      assert (s + t)[0] == s[0];
      assert (s + t)[1..] == s[1..] + t;
      CountAppend(s[1..], t, k);
    }
  }

  /** Every agent has exactly one status, one type and one provider: the per-value counts add up. */
  lemma {:induction false} CountsPartition(agents: seq<Agent>)
    ensures CountMatching(agents, InStatus(Idle)) + CountMatching(agents, InStatus(Busy))
          + CountMatching(agents, InStatus(Offline)) + CountMatching(agents, InStatus(Error)) == |agents|
    ensures CountMatching(agents, OfType(BrandContext)) + CountMatching(agents, OfType(AgentType.ContentGeneration))
          + CountMatching(agents, OfType(AgentType.Analytics)) + CountMatching(agents, OfType(AgentType.AssetManagement))
          + CountMatching(agents, OfType(AgentType.WorkflowOrchestration)) == |agents|
    ensures CountMatching(agents, UsesProvider(OpenAI)) + CountMatching(agents, UsesProvider(Anthropic))
          + CountMatching(agents, UsesProvider(Ollama)) + CountMatching(agents, UsesProvider(Custom)) == |agents|
  {
    if agents != [] {
      CountsPartition(agents[1..]);
    }
  }

  lemma {:induction false} DistinctElementsCardinality(s: seq<string>)
    requires NoDuplicates(s)
    ensures |set x | x in s| == |s|
  {
    if s != [] {
      assert NoDuplicates(s[1..]);
      DistinctElementsCardinality(s[1..]);
      assert s[0] !in s[1..];
      assert (set x | x in s) == (set x | x in s[1..]) + {s[0]};
    }
  }

  // ---------------------------------------------------------------------------
  // The registry's consistency condition, on plain values.
  // ---------------------------------------------------------------------------

  /** The key order lists each registered id once, and every record sits under its own id. */
  ghost predicate OrderMatches(order: seq<string>, agents: map<string, Agent>) {
    && NoDuplicates(order)
    && (forall id :: id in agents <==> id in order)
    && KeysAreIds(agents)
  }

  /** Every index has an entry for every enum value, holding exactly the matching ids in key order. */
  ghost predicate IndexesMatch(order: seq<string>, agents: map<string, Agent>,
                               ci: map<AgentCapability, seq<string>>, ti: map<AgentType, seq<string>>,
                               pi: map<ModelProvider, seq<string>>)
  {
    && (forall c :: c in ci && ci[c] == Select(order, agents, HasCapability(c)))
    && (forall t :: t in ti && ti[t] == Select(order, agents, OfType(t)))
    && (forall p :: p in pi && pi[p] == Select(order, agents, UsesProvider(p)))
  }

  ghost predicate Consistent(order: seq<string>, agents: map<string, Agent>,
                             ci: map<AgentCapability, seq<string>>, ti: map<AgentType, seq<string>>,
                             pi: map<ModelProvider, seq<string>>)
  {
    OrderMatches(order, agents) && IndexesMatch(order, agents, ci, ti, pi)
  }

  /** An id that is not registered appears in no index. */
  lemma UnregisteredNotIndexed(order: seq<string>, agents: map<string, Agent>,
                               ci: map<AgentCapability, seq<string>>, ti: map<AgentType, seq<string>>,
                               pi: map<ModelProvider, seq<string>>, id: string)
    requires Consistent(order, agents, ci, ti, pi) && id !in agents
    ensures forall c :: id !in ci[c]
    ensures forall t :: id !in ti[t]
    ensures forall p :: id !in pi[p]
  {
    forall k: Criterion ensures id !in Select(order, agents, k) {
      SelectMembership(order, agents, k, id);
    }
  }

  /** Registering a fresh agent, as `registerAgent` does it, keeps the registry consistent. */
  lemma RegisterKeepsConsistent(order: seq<string>, agents: map<string, Agent>,
                                ci: map<AgentCapability, seq<string>>, ti: map<AgentType, seq<string>>,
                                pi: map<ModelProvider, seq<string>>, a: Agent,
                                ci2: map<AgentCapability, seq<string>>)
    requires Consistent(order, agents, ci, ti, pi) && a.id !in agents
    requires forall c :: c in ci2 && ci2[c] == if c in a.capabilities then ci[c] + [a.id] else ci[c]
    ensures Consistent(order + [a.id], agents[a.id := a], ci2,
                       ti[a.agentType := AddIfAbsent(ti[a.agentType], a.id)],
                       pi[a.modelProvider := AddIfAbsent(pi[a.modelProvider], a.id)])
  {
    assert a.id !in order;
    InsertKeepsOrder(order, agents, a);
    InsertKeepsCapabilityIndex(order, agents, ci, a, ci2);
    InsertKeepsTypeIndex(order, agents, ti, a);
    InsertKeepsProviderIndex(order, agents, pi, a);
    var ti2 := ti[a.agentType := AddIfAbsent(ti[a.agentType], a.id)];
    var pi2 := pi[a.modelProvider := AddIfAbsent(pi[a.modelProvider], a.id)];
    assert IndexesMatch(order + [a.id], agents[a.id := a], ci2, ti2, pi2);
  }

  lemma InsertKeepsOrder(order: seq<string>, agents: map<string, Agent>, a: Agent)
    requires OrderMatches(order, agents) && a.id !in agents
    ensures OrderMatches(order + [a.id], agents[a.id := a])
  {
    var order2 := order + [a.id];
    assert NoDuplicates(order2) by {
      assert forall i :: 0 <= i < |order| ==> order2[i] == order[i] != a.id;
    }
  }

  lemma InsertKeepsCapabilityIndex(order: seq<string>, agents: map<string, Agent>,
                                   ci: map<AgentCapability, seq<string>>, a: Agent,
                                   ci2: map<AgentCapability, seq<string>>)
    requires a.id !in order
    requires forall c :: c in ci && ci[c] == Select(order, agents, HasCapability(c))
    requires forall c :: c in ci2 && ci2[c] == if c in a.capabilities then ci[c] + [a.id] else ci[c]
    ensures forall c :: c in ci2 && ci2[c] == Select(order + [a.id], agents[a.id := a], HasCapability(c))
  {
    forall c ensures ci2[c] == Select(order + [a.id], agents[a.id := a], HasCapability(c)) {
      SelectAfterInsert(order, agents, a.id, a, HasCapability(c));
    }
  }

  lemma InsertKeepsTypeIndex(order: seq<string>, agents: map<string, Agent>,
                             ti: map<AgentType, seq<string>>, a: Agent)
    requires a.id !in order
    requires forall t :: t in ti && ti[t] == Select(order, agents, OfType(t))
    ensures var ti2 := ti[a.agentType := AddIfAbsent(ti[a.agentType], a.id)];
            forall t :: t in ti2 && ti2[t] == Select(order + [a.id], agents[a.id := a], OfType(t))
  {
    SelectMembership(order, agents, OfType(a.agentType), a.id);
    forall t ensures Select(order + [a.id], agents[a.id := a], OfType(t))
                     == Select(order, agents, OfType(t)) + (if t == a.agentType then [a.id] else []) {
      SelectAfterInsert(order, agents, a.id, a, OfType(t));
    }
  }

  lemma InsertKeepsProviderIndex(order: seq<string>, agents: map<string, Agent>,
                                 pi: map<ModelProvider, seq<string>>, a: Agent)
    requires a.id !in order
    requires forall p :: p in pi && pi[p] == Select(order, agents, UsesProvider(p))
    ensures var pi2 := pi[a.modelProvider := AddIfAbsent(pi[a.modelProvider], a.id)];
            forall p :: p in pi2 && pi2[p] == Select(order + [a.id], agents[a.id := a], UsesProvider(p))
  {
    SelectMembership(order, agents, UsesProvider(a.modelProvider), a.id);
    forall p ensures Select(order + [a.id], agents[a.id := a], UsesProvider(p))
                     == Select(order, agents, UsesProvider(p)) + (if p == a.modelProvider then [a.id] else []) {
      SelectAfterInsert(order, agents, a.id, a, UsesProvider(p));
    }
  }

  /** Removing a registered agent, as `removeAgent` does it, keeps the registry consistent. */
  lemma RemoveKeepsConsistent(order: seq<string>, agents: map<string, Agent>,
                              ci: map<AgentCapability, seq<string>>, ti: map<AgentType, seq<string>>,
                              pi: map<ModelProvider, seq<string>>, id: string,
                              ci2: map<AgentCapability, seq<string>>)
    requires Consistent(order, agents, ci, ti, pi) && id in agents
    requires forall c :: c in ci2 && ci2[c] == if c in agents[id].capabilities then RemoveAll(ci[c], id) else ci[c]
    ensures var ti2 := ti[agents[id].agentType := RemoveAll(ti[agents[id].agentType], id)];
            var pi2 := pi[agents[id].modelProvider := RemoveAll(pi[agents[id].modelProvider], id)];
            && Consistent(RemoveAll(order, id), agents - {id}, ci2, ti2, pi2)
            && (forall c :: ci2[c] == RemoveAll(ci[c], id))
            && (forall t :: ti2[t] == RemoveAll(ti[t], id))
            && (forall p :: pi2[p] == RemoveAll(pi[p], id))
  {
    RemoveKeepsOrder(order, agents, id);
    forall k: Criterion
      ensures Select(RemoveAll(order, id), agents - {id}, k) == RemoveAll(Select(order, agents, k), id)
      ensures !Matches(agents[id], k) ==> RemoveAll(Select(order, agents, k), id) == Select(order, agents, k)
    {
      RemoveKeepsEntry(order, agents, id, k);
    }
    RemoveKeepsCapabilityIndex(order, agents, ci, id, ci2);
    RemoveKeepsTypeIndex(order, agents, ti, id);
    RemoveKeepsProviderIndex(order, agents, pi, id);
  }

  lemma RemoveKeepsOrder(order: seq<string>, agents: map<string, Agent>, id: string)
    requires OrderMatches(order, agents)
    ensures OrderMatches(RemoveAll(order, id), agents - {id})
  {
    RemoveAllNoDuplicates(order, id);
    forall x
      ensures x in RemoveAll(order, id) <==> x in order && x != id
    {
      RemoveAllMembership(order, id, x);
    }
  }

  /** The index entry for one criterion after a removal: the id is dropped, and an entry it did not match is untouched. */
  lemma RemoveKeepsEntry(order: seq<string>, agents: map<string, Agent>, id: string, k: Criterion)
    requires id in agents
    ensures Select(RemoveAll(order, id), agents - {id}, k) == RemoveAll(Select(order, agents, k), id)
    ensures !Matches(agents[id], k) ==> RemoveAll(Select(order, agents, k), id) == Select(order, agents, k)
  {
    SelectAfterRemove(order, agents, id, k);
    SelectMembership(order, agents, k, id);
    if !Matches(agents[id], k) {
      RemoveAllAbsent(Select(order, agents, k), id);
    }
  }

  lemma RemoveKeepsCapabilityIndex(order: seq<string>, agents: map<string, Agent>,
                                   ci: map<AgentCapability, seq<string>>, id: string,
                                   ci2: map<AgentCapability, seq<string>>)
    requires id in agents
    requires forall c :: c in ci && ci[c] == Select(order, agents, HasCapability(c))
    requires forall c :: c in ci2 && ci2[c] == if c in agents[id].capabilities then RemoveAll(ci[c], id) else ci[c]
    ensures forall c :: c in ci2 && ci2[c] == RemoveAll(ci[c], id) == Select(RemoveAll(order, id), agents - {id}, HasCapability(c))
  {
    forall c ensures ci2[c] == RemoveAll(ci[c], id) == Select(RemoveAll(order, id), agents - {id}, HasCapability(c)) {
      RemoveKeepsEntry(order, agents, id, HasCapability(c));
    }
  }

  lemma RemoveKeepsTypeIndex(order: seq<string>, agents: map<string, Agent>,
                             ti: map<AgentType, seq<string>>, id: string)
    requires id in agents
    requires forall t :: t in ti && ti[t] == Select(order, agents, OfType(t))
    ensures var ti2 := ti[agents[id].agentType := RemoveAll(ti[agents[id].agentType], id)];
            forall t :: t in ti2 && ti2[t] == RemoveAll(ti[t], id) == Select(RemoveAll(order, id), agents - {id}, OfType(t))
  {
    forall t ensures Select(RemoveAll(order, id), agents - {id}, OfType(t)) == RemoveAll(Select(order, agents, OfType(t)), id)
                 && (t != agents[id].agentType ==> RemoveAll(Select(order, agents, OfType(t)), id) == Select(order, agents, OfType(t))) {
      RemoveKeepsEntry(order, agents, id, OfType(t));
    }
  }

  lemma RemoveKeepsProviderIndex(order: seq<string>, agents: map<string, Agent>,
                                 pi: map<ModelProvider, seq<string>>, id: string)
    requires id in agents
    requires forall p :: p in pi && pi[p] == Select(order, agents, UsesProvider(p))
    ensures var pi2 := pi[agents[id].modelProvider := RemoveAll(pi[agents[id].modelProvider], id)];
            forall p :: p in pi2 && pi2[p] == RemoveAll(pi[p], id) == Select(RemoveAll(order, id), agents - {id}, UsesProvider(p))
  {
    forall p ensures Select(RemoveAll(order, id), agents - {id}, UsesProvider(p)) == RemoveAll(Select(order, agents, UsesProvider(p)), id)
                 && (p != agents[id].modelProvider ==> RemoveAll(Select(order, agents, UsesProvider(p)), id) == Select(order, agents, UsesProvider(p))) {
      RemoveKeepsEntry(order, agents, id, UsesProvider(p));
    }
  }


  /** Rewriting an agent's status and activity time keeps the registry consistent. */
  lemma StatusChangeKeepsConsistent(order: seq<string>, agents: map<string, Agent>,
                                    ci: map<AgentCapability, seq<string>>, ti: map<AgentType, seq<string>>,
                                    pi: map<ModelProvider, seq<string>>, id: string, a: Agent)
    requires Consistent(order, agents, ci, ti, pi) && id in agents
    requires a == agents[id].(status := a.status, lastActive := a.lastActive)
    ensures Consistent(order, agents[id := a], ci, ti, pi)
  {
    forall k: Criterion | !k.InStatus?
      ensures Select(order, agents[id := a], k) == Select(order, agents, k)
    {
      StatusChangeKeepsSelection(order, agents, id, a, k);
    }
  }

  // ---------------------------------------------------------------------------
  // Execution results and provider outcomes.
  // ---------------------------------------------------------------------------

  datatype ExecutionRequest = ExecutionRequest(agentId: string, prompt: string, brandContext: Option<string>)

  datatype Usage = Usage(promptTokens: nat, completionTokens: nat, totalTokens: nat)

  /** The `metadata` a successful provider routine attaches: the model and the brand asked for. */
  datatype ResultMetadata = ResultMetadata(model: string, brand: Option<string>)

  datatype ExecutionResult = ExecutionResult(
    agentId: string,
    success: bool,
    output: Option<string>,
    error: Option<string>,
    usage: Option<Usage>,
    duration: Option<nat>,
    metadata: Option<ResultMetadata>)

  /**
   * What a provider routine does once called: it returns a successful result,
   * returns a failure it caught itself, or lets an exception escape.
   */
  datatype ProviderOutcome =
    | Ok(output: string, usage: Usage)
    | HandledFailure(message: string)
    | Throws(message: string)

  function Failed(agentId: string, message: string): ExecutionResult {
    ExecutionResult(agentId, false, None, Some(message), None, None, None)
  }

  /** The result record a provider routine returns. */
  function ProviderResult(agent: Agent, request: ExecutionRequest, o: ProviderOutcome): ExecutionResult
    requires !o.Throws?
  {
    match o
    case Ok(output, usage) =>
      ExecutionResult(agent.id, true, Some(output), None, Some(usage), None,
                      Some(ResultMetadata(agent.modelName, request.brandContext)))
    case HandledFailure(message) => Failed(agent.id, message)
  }

  /**
   * What `executeAgent` returns once the provider routine has run on the
   * agent marked busy: an escaped exception becomes a failure without
   * duration, a returned result gets the measured duration.
   */
  function Completed(running: Agent, request: ExecutionRequest, outcome: ProviderOutcome, duration: nat): ExecutionResult {
    if outcome.Throws? then Failed(request.agentId, outcome.message)
    else ProviderResult(running, request, outcome).(duration := Some(duration))
  }

  /**
   * An execution succeeds exactly when the provider produced output; then it
   * carries output, usage, the model and brand metadata and no error. A
   * duration is present exactly when no exception escaped.
   */
  lemma CompletedOutcome(running: Agent, request: ExecutionRequest, outcome: ProviderOutcome, duration: nat)
    requires running.id == request.agentId
    ensures var r := Completed(running, request, outcome, duration);
            && r.agentId == request.agentId
            && (r.success <==> outcome.Ok?)
            && (r.error.None? <==> outcome.Ok?)
            && (r.duration == if outcome.Throws? then None else Some(duration))
            && (outcome.Ok? ==> r.output == Some(outcome.output) && r.usage == Some(outcome.usage)
                                && r.metadata == Some(ResultMetadata(running.modelName, request.brandContext)))
            && (!outcome.Ok? ==> r.output.None? && r.usage.None? && r.metadata.None? && r.error == Some(outcome.message))
  {
  }

  /** How many UTF-16 code units JavaScript's `length` counts for a character. */
  function Utf16Units(c: char): nat {
    if c as int < 0x1_0000 then 1 else 2
  }

  /** JavaScript's `string.length`: characters outside the basic plane count twice. */
  function Utf16Length(s: string): (n: nat)
    ensures |s| <= n <= 2 * |s|
    ensures n == |s| <==> forall i :: 0 <= i < |s| ==> s[i] as int < 0x1_0000
  {
    if s == [] then 0
    else
      var rest := Utf16Length(s[1..]);
      assert forall i :: 0 < i < |s| ==> s[i] == s[1..][i - 1];
      Utf16Units(s[0]) + rest
  }

  /** The custom provider's deterministic echo (`executeCustom`), after its simulated latency. */
  function CustomOutcome(agent: Agent, request: ExecutionRequest): (o: ProviderOutcome)
    ensures o.Ok?
    ensures o.output == "[Custom Model] Processed: " + request.prompt + " with model " + agent.modelName
    ensures o.usage.promptTokens == Utf16Length(request.prompt)
    ensures o.usage.completionTokens * 5 <= o.usage.promptTokens < (o.usage.completionTokens + 1) * 5
    ensures o.usage.totalTokens == o.usage.promptTokens + o.usage.completionTokens
  {
    var n := Utf16Length(request.prompt);
    Ok("[Custom Model] Processed: " + request.prompt + " with model " + agent.modelName,
       Usage(n, n / 5, n + n / 5))
  }

  datatype StartOutcome = Rejected(result: ExecutionResult) | Started(agent: Agent)

  datatype AgentStats = AgentStats(
    totalAgents: nat,
    agentsByType: map<AgentType, nat>,
    agentsByStatus: map<AgentStatus, nat>,
    agentsByModelProvider: map<ModelProvider, nat>)

  datatype AgentEnvironment = AgentEnvironment(
    openAIKey: Option<string>,
    anthropicKey: Option<string>,
    registerDefaultAgents: Option<string>)

  /** For every status, how many of `agents` have it. */
  function StatusCounts(agents: seq<Agent>): (m: map<AgentStatus, nat>)
    ensures forall st :: st in m && m[st] == CountMatching(agents, InStatus(st))
  {
    EnumsListed();
    map st | st in AllStatuses :: CountMatching(agents, InStatus(st))
  }

  class AgentManager {
    var agents: map<string, Agent>
    /** The key order of the `agents` Map, which JavaScript iterates in insertion order. */
    var order: seq<string>
    var capabilityIndex: map<AgentCapability, seq<string>>
    var typeIndex: map<AgentType, seq<string>>
    var providerIndex: map<ModelProvider, seq<string>>
    /** Whether an API key was present for the SDK clients when the manager was built. */
    const openAIConfigured: bool
    const anthropicConfigured: bool

    ghost predicate Valid()
      reads this
    {
      Consistent(order, agents, capabilityIndex, typeIndex, providerIndex)
    }

    /** An agent as registered: its id is a key and the map holds exactly this record. */
    ghost predicate Registered(a: Agent)
      reads this
    {
      a.id in agents && agents[a.id] == a
    }

    constructor (openAIKey: Option<string>, anthropicKey: Option<string>)
      ensures Valid()
      ensures agents == map[] && order == []
      ensures forall c :: capabilityIndex[c] == []
      ensures forall t :: typeIndex[t] == []
      ensures forall p :: providerIndex[p] == []
      ensures openAIConfigured == (OptionalEnv(openAIKey, "") != "")
      ensures anthropicConfigured == (OptionalEnv(anthropicKey, "") != "")
    {
      openAIConfigured := OptionalEnv(openAIKey, "") != "";
      anthropicConfigured := OptionalEnv(anthropicKey, "") != "";
      agents := map[];
      order := [];
      // One empty entry per enum value, as the constructor's three forEach loops create them.
      var capabilities: map<AgentCapability, seq<string>> := map[];
      var i := 0;
      while i < |AllCapabilities|
        invariant 0 <= i <= |AllCapabilities|
        invariant forall x :: x in AllCapabilities[..i] ==> x in capabilities
        invariant forall c :: c in capabilities ==> capabilities[c] == []
      {
        assert AllCapabilities[..i + 1] == AllCapabilities[..i] + [AllCapabilities[i]];
        capabilities := capabilities[AllCapabilities[i] := []];
        i := i + 1;
      }
      assert AllCapabilities[..i] == AllCapabilities;
      var types: map<AgentType, seq<string>> := map[];
      i := 0;
      while i < |AllTypes|
        invariant 0 <= i <= |AllTypes|
        invariant forall x :: x in AllTypes[..i] ==> x in types
        invariant forall t :: t in types ==> types[t] == []
      {
        assert AllTypes[..i + 1] == AllTypes[..i] + [AllTypes[i]];
        types := types[AllTypes[i] := []];
        i := i + 1;
      }
      assert AllTypes[..i] == AllTypes;
      var providers: map<ModelProvider, seq<string>> := map[];
      i := 0;
      while i < |AllProviders|
        invariant 0 <= i <= |AllProviders|
        invariant forall x :: x in AllProviders[..i] ==> x in providers
        invariant forall p :: p in providers ==> providers[p] == []
      {
        assert AllProviders[..i + 1] == AllProviders[..i] + [AllProviders[i]];
        providers := providers[AllProviders[i] := []];
        i := i + 1;
      }
      assert AllProviders[..i] == AllProviders;
      EnumsListed();
      assert forall k :: Select([], map[], k) == [];
      capabilityIndex := capabilities;
      typeIndex := types;
      providerIndex := providers;
    }

    method RegisterAgent(request: RegistrationRequest, seed: IdSeed) returns (agent: Agent)
      requires Valid() && ValidSeed(seed)
      requires AgentId(request.agentType, seed) !in agents
      modifies this
      ensures Valid()
      ensures agent == NewAgent(request, seed) && agent.status == Idle
      ensures StartsWith(agent.id, TypeName(request.agentType) + "-")
      ensures agents == old(agents)[agent.id := agent]
      ensures order == old(order) + [agent.id]
    {
      var agentId := AgentId(request.agentType, seed);
      GeneratedIdPrefix(TypeName(request.agentType), seed);
      agent := NewAgent(request, seed);
      UnregisteredNotIndexed(order, agents, capabilityIndex, typeIndex, providerIndex, agentId);
      agents := agents[agentId := agent];
      order := order + [agentId];
      AddToCapabilityIndex(agentId, agent.capabilities);
      typeIndex := typeIndex[agent.agentType := AddIfAbsent(typeIndex[agent.agentType], agentId)];
      providerIndex := providerIndex[agent.modelProvider := AddIfAbsent(providerIndex[agent.modelProvider], agentId)];
      RegisterKeepsConsistent(old(order), old(agents), old(capabilityIndex), old(typeIndex), old(providerIndex),
                              agent, capabilityIndex);
    }

    /** `capabilities.forEach(c => capabilityIndex.get(c)?.add(agentId))` */
    method AddToCapabilityIndex(agentId: string, caps: seq<AgentCapability>)
      requires forall c :: c in capabilityIndex && agentId !in capabilityIndex[c]
      modifies this
      ensures forall c :: c in capabilityIndex && capabilityIndex[c]
                == if c in caps then old(capabilityIndex[c]) + [agentId] else old(capabilityIndex[c])
      ensures agents == old(agents) && order == old(order)
      ensures typeIndex == old(typeIndex) && providerIndex == old(providerIndex)
    {
      var i := 0;
      while i < |caps|
        invariant 0 <= i <= |caps|
        invariant forall c :: c in capabilityIndex && capabilityIndex[c]
                    == if c in caps[..i] then old(capabilityIndex[c]) + [agentId] else old(capabilityIndex[c])
        invariant agents == old(agents) && order == old(order)
        invariant typeIndex == old(typeIndex) && providerIndex == old(providerIndex)
      {
        assert caps[..i + 1] == caps[..i] + [caps[i]];
        capabilityIndex := capabilityIndex[caps[i] := AddIfAbsent(capabilityIndex[caps[i]], agentId)];
        i := i + 1;
      }
      assert caps[..i] == caps;
    }

    /** `capabilities.forEach(c => capabilityIndex.get(c)?.delete(agentId))` */
    method RemoveFromCapabilityIndex(agentId: string, caps: seq<AgentCapability>)
      requires forall c :: c in capabilityIndex
      modifies this
      ensures forall c :: c in capabilityIndex && capabilityIndex[c]
                == if c in caps then RemoveAll(old(capabilityIndex[c]), agentId) else old(capabilityIndex[c])
      ensures agents == old(agents) && order == old(order)
      ensures typeIndex == old(typeIndex) && providerIndex == old(providerIndex)
    {
      var i := 0;
      while i < |caps|
        invariant 0 <= i <= |caps|
        invariant forall c :: c in capabilityIndex && capabilityIndex[c]
                    == if c in caps[..i] then RemoveAll(old(capabilityIndex[c]), agentId) else old(capabilityIndex[c])
        invariant agents == old(agents) && order == old(order)
        invariant typeIndex == old(typeIndex) && providerIndex == old(providerIndex)
      {
        assert caps[..i + 1] == caps[..i] + [caps[i]];
        var c := caps[i];
        if c in caps[..i] {
          RemoveAllMembership(old(capabilityIndex[c]), agentId, agentId);
          RemoveAllAbsent(capabilityIndex[c], agentId);
        }
        capabilityIndex := capabilityIndex[c := RemoveAll(capabilityIndex[c], agentId)];
        i := i + 1;
      }
      assert caps[..i] == caps;
    }

    function GetAgent(agentId: string): (r: Option<Agent>)
      requires Valid()
      reads this
      ensures r.Some? <==> agentId in agents
      ensures r.Some? ==> r.value == agents[agentId] && r.value.id == agentId && Registered(r.value)
    {
      if agentId in agents then Some(agents[agentId]) else None
    }

    /** The agents whose ids the index holds under `capability`, in registration order. */
    function FindAgentsByCapability(capability: AgentCapability): (r: seq<Agent>)
      requires Valid()
      reads this
      ensures r == Lookup(Select(order, agents, HasCapability(capability)), agents)
      ensures forall a :: a in r <==> Registered(a) && capability in a.capabilities
    {
      var ids := if capability in capabilityIndex then capabilityIndex[capability] else [];
      assert forall a :: a in Lookup(ids, agents) <==> Registered(a) && capability in a.capabilities by {
        forall a ensures a in Lookup(ids, agents) <==> Registered(a) && capability in a.capabilities {
          LookupMembership(ids, agents, a);
          SelectMembership(order, agents, HasCapability(capability), a.id);
        }
      }
      Lookup(ids, agents)
    }

    function FindAgentsByType(agentType: AgentType): (r: seq<Agent>)
      requires Valid()
      reads this
      ensures r == Lookup(Select(order, agents, OfType(agentType)), agents)
      ensures forall a :: a in r <==> Registered(a) && a.agentType == agentType
    {
      var ids := if agentType in typeIndex then typeIndex[agentType] else [];
      assert forall a :: a in Lookup(ids, agents) <==> Registered(a) && a.agentType == agentType by {
        forall a ensures a in Lookup(ids, agents) <==> Registered(a) && a.agentType == agentType {
          LookupMembership(ids, agents, a);
          SelectMembership(order, agents, OfType(agentType), a.id);
        }
      }
      Lookup(ids, agents)
    }

    /** The idle agents with the capability, in registration order. */
    function FindIdleAgentsByCapability(capability: AgentCapability): (r: seq<Agent>)
      requires Valid()
      reads this
      ensures r == Lookup(Select(Select(order, agents, HasCapability(capability)), agents, InStatus(Idle)), agents)
      ensures forall a :: a in r <==> Registered(a) && capability in a.capabilities && a.status == Idle
    {
      IdleOnlyLookup(Select(order, agents, HasCapability(capability)), agents);
      IdleOnly(FindAgentsByCapability(capability))
    }

    /** `Array.from(agents.values())`: every registered agent once, in registration order. */
    function GetAllAgents(): (r: seq<Agent>)
      requires Valid()
      reads this
      ensures r == Lookup(order, agents)
      ensures |r| == |agents|
      ensures forall a :: a in r <==> Registered(a)
    {
      LookupLength(order, agents);
      DistinctElementsCardinality(order);
      assert agents.Keys == set x | x in order;
      assert forall a :: a in Lookup(order, agents) <==> Registered(a) by {
        forall a ensures a in Lookup(order, agents) <==> Registered(a) {
          LookupMembership(order, agents, a);
        }
      }
      Lookup(order, agents)
    }

    /** Counts per enum value (zero where no agent has it) and the total. */
    function GetAgentStats(): (s: AgentStats)
      requires Valid()
      reads this
      ensures s.totalAgents == |agents|
      ensures forall t :: t in s.agentsByType && s.agentsByType[t] == |Select(order, agents, OfType(t))|
      ensures forall st :: st in s.agentsByStatus && s.agentsByStatus[st] == |Select(order, agents, InStatus(st))|
      ensures forall p :: p in s.agentsByModelProvider && s.agentsByModelProvider[p] == |Select(order, agents, UsesProvider(p))|
      ensures s.agentsByStatus[Idle] + s.agentsByStatus[Busy] + s.agentsByStatus[Offline]
            + s.agentsByStatus[Error] == s.totalAgents
      ensures s.agentsByType[BrandContext] + s.agentsByType[AgentType.ContentGeneration]
            + s.agentsByType[AgentType.Analytics] + s.agentsByType[AgentType.AssetManagement]
            + s.agentsByType[AgentType.WorkflowOrchestration] == s.totalAgents
      ensures s.agentsByModelProvider[OpenAI] + s.agentsByModelProvider[Anthropic]
            + s.agentsByModelProvider[Ollama] + s.agentsByModelProvider[Custom] == s.totalAgents
    {
      var all := Lookup(order, agents);
      forall k: Criterion ensures CountMatching(all, k) == |Select(order, agents, k)| {
        CountLookup(order, agents, k);
      }
      CountsPartition(all);
      LookupLength(order, agents);
      DistinctElementsCardinality(order);
      assert agents.Keys == set x | x in order;
      AgentStats(|agents|, TypeCounts(), StatusCounts(all), ProviderCounts())
    }

    /** `typeIndex.get(type)?.size || 0` for every type. */
    function TypeCounts(): (m: map<AgentType, nat>)
      requires Valid()
      reads this
      ensures forall t :: t in m && m[t] == |Select(order, agents, OfType(t))|
    {
      EnumsListed();
      map t | t in AllTypes :: if t in typeIndex then |typeIndex[t]| else 0
    }

    /** `providerIndex.get(provider)?.size || 0` for every provider. */
    function ProviderCounts(): (m: map<ModelProvider, nat>)
      requires Valid()
      reads this
      ensures forall p :: p in m && m[p] == |Select(order, agents, UsesProvider(p))|
    {
      EnumsListed();
      map p | p in AllProviders :: if p in providerIndex then |providerIndex[p]| else 0
    }

    method UpdateAgentStatus(agentId: string, status: AgentStatus, now: int) returns (updated: bool)
      requires Valid()
      modifies this
      ensures Valid()
      ensures updated <==> agentId in old(agents)
      ensures updated ==> agents == old(agents)[agentId := old(agents[agentId]).(status := status, lastActive := now)]
      ensures !updated ==> agents == old(agents)
      ensures order == old(order) && capabilityIndex == old(capabilityIndex)
      ensures typeIndex == old(typeIndex) && providerIndex == old(providerIndex)
    {
      if agentId !in agents {
        return false;
      }
      SetStatus(agentId, agents[agentId].(status := status, lastActive := now));
      updated := true;
    }

    /** Replaces an agent's record by one that differs only in status and activity time. */
    method SetStatus(agentId: string, a: Agent)
      requires Valid() && agentId in agents
      requires a == agents[agentId].(status := a.status, lastActive := a.lastActive)
      modifies this
      ensures Valid()
      ensures agents == old(agents)[agentId := a]
      ensures order == old(order) && capabilityIndex == old(capabilityIndex)
      ensures typeIndex == old(typeIndex) && providerIndex == old(providerIndex)
    {
      StatusChangeKeepsConsistent(order, agents, capabilityIndex, typeIndex, providerIndex, agentId, a);
      agents := agents[agentId := a];
    }

    method RemoveAgent(agentId: string) returns (removed: bool)
      requires Valid()
      modifies this
      ensures Valid()
      ensures removed <==> agentId in old(agents)
      ensures !removed ==> unchanged(this)
      ensures removed ==> agents == old(agents) - {agentId} && order == RemoveAll(old(order), agentId)
      ensures removed ==> forall c :: capabilityIndex[c] == RemoveAll(old(capabilityIndex[c]), agentId)
      ensures removed ==> forall t :: typeIndex[t] == RemoveAll(old(typeIndex[t]), agentId)
      ensures removed ==> forall p :: providerIndex[p] == RemoveAll(old(providerIndex[p]), agentId)
      ensures agentId !in agents
      ensures forall c :: agentId !in capabilityIndex[c]
      ensures forall t :: agentId !in typeIndex[t]
      ensures forall p :: agentId !in providerIndex[p]
    {
      if agentId !in agents {
        UnregisteredNotIndexed(order, agents, capabilityIndex, typeIndex, providerIndex, agentId);
        return false;
      }
      var agent := agents[agentId];
      RemoveFromCapabilityIndex(agentId, agent.capabilities);
      typeIndex := typeIndex[agent.agentType := RemoveAll(typeIndex[agent.agentType], agentId)];
      providerIndex := providerIndex[agent.modelProvider := RemoveAll(providerIndex[agent.modelProvider], agentId)];
      agents := agents - {agentId};
      order := RemoveAll(order, agentId);
      removed := true;
      RemoveKeepsConsistent(old(order), old(agents), old(capabilityIndex), old(typeIndex), old(providerIndex),
                            agentId, capabilityIndex);
      UnregisteredNotIndexed(order, agents, capabilityIndex, typeIndex, providerIndex, agentId);
    }

    /**
     * The provider routine chosen by the agent's model provider. `external`
     * is what the SDK, the HTTP call or the runtime does; a routine whose
     * client was never configured answers without calling out, and the custom
     * routine computes its own answer unless an exception escapes it.
     */
    function RunProvider(agent: Agent, request: ExecutionRequest, external: ProviderOutcome): ProviderOutcome {
      match agent.modelProvider
      case OpenAI =>
        if !openAIConfigured then HandledFailure("OpenAI client not initialized. Missing API key.") else external
      case Anthropic =>
        if !anthropicConfigured then HandledFailure("Anthropic client not initialized. Missing API key.") else external
      case Ollama => external
      case Custom => if external.Throws? then external else CustomOutcome(agent, request)
    }

    /** `executeAgent` up to its first suspension: the two guards, then busy. */
    method StartExecution(request: ExecutionRequest, now: int) returns (start: StartOutcome)
      requires Valid()
      modifies this
      ensures Valid()
      ensures request.agentId !in old(agents) ==>
                start == Rejected(Failed(request.agentId, "Agent with ID " + request.agentId + " not found"))
      ensures request.agentId in old(agents) && old(agents[request.agentId].status) == Busy ==>
                start == Rejected(Failed(request.agentId, "Agent " + request.agentId + " is busy"))
      ensures start.Rejected? ==> agents == old(agents)
      ensures start.Started? <==> request.agentId in old(agents) && old(agents[request.agentId].status) != Busy
      ensures start.Started? ==>
                && start.agent == old(agents[request.agentId]).(status := Busy, lastActive := now)
                && agents == old(agents)[request.agentId := start.agent]
      ensures order == old(order) && capabilityIndex == old(capabilityIndex)
      ensures typeIndex == old(typeIndex) && providerIndex == old(providerIndex)
    {
      if request.agentId !in agents {
        return Rejected(Failed(request.agentId, "Agent with ID " + request.agentId + " not found"));
      }
      var agent := agents[request.agentId];
      if agent.status == Busy {
        return Rejected(Failed(request.agentId, "Agent " + request.agentId + " is busy"));
      }
      agent := agent.(status := Busy, lastActive := now);
      SetStatus(request.agentId, agent);
      start := Started(agent);
    }

    /**
     * `executeAgent` after the provider call: a returned result gets the
     * measured duration and the agent goes back to idle; an escaped exception
     * becomes a failure without duration and the agent goes to error. If the
     * agent was removed meanwhile, the status write lands on a record the
     * registry no longer holds.
     */
    method FinishExecution(agent: Agent, request: ExecutionRequest, outcome: ProviderOutcome, duration: nat)
      returns (result: ExecutionResult)
      requires Valid()
      modifies this
      ensures Valid()
      ensures result == Completed(agent, request, outcome, duration)
      ensures agent.id in old(agents) ==>
                agents == old(agents)[agent.id := old(agents[agent.id]).(status := if outcome.Throws? then Error else Idle)]
      ensures agent.id !in old(agents) ==> agents == old(agents)
      ensures order == old(order) && capabilityIndex == old(capabilityIndex)
      ensures typeIndex == old(typeIndex) && providerIndex == old(providerIndex)
    {
      var status := if outcome.Throws? then Error else Idle;
      if outcome.Throws? {
        result := Failed(request.agentId, outcome.message);
      } else {
        result := ProviderResult(agent, request, outcome).(duration := Some(duration));
      }
      if agent.id in agents {
        SetStatus(agent.id, agents[agent.id].(status := status));
      }
    }

    /** The whole of `executeAgent`, with the provider's behaviour, the clock and the duration as inputs. */
    method ExecuteAgent(request: ExecutionRequest, now: int, external: ProviderOutcome, duration: nat)
      returns (result: ExecutionResult)
      requires Valid()
      modifies this
      ensures Valid()
      ensures request.agentId !in old(agents) ==>
                result == Failed(request.agentId, "Agent with ID " + request.agentId + " not found") && agents == old(agents)
      ensures request.agentId in old(agents) && old(agents[request.agentId].status) == Busy ==>
                result == Failed(request.agentId, "Agent " + request.agentId + " is busy") && agents == old(agents)
      ensures request.agentId in old(agents) && old(agents[request.agentId].status) != Busy ==>
                var running := old(agents[request.agentId]).(status := Busy, lastActive := now);
                var outcome := RunProvider(running, request, external);
                && result == Completed(running, request, outcome, duration)
                && agents == old(agents)[request.agentId := running.(status := if outcome.Throws? then Error else Idle)]
      ensures order == old(order) && capabilityIndex == old(capabilityIndex)
      ensures typeIndex == old(typeIndex) && providerIndex == old(providerIndex)
    {
      var start := StartExecution(request, now);
      if start.Rejected? {
        return start.result;
      }
      var outcome := RunProvider(start.agent, request, external);
      result := FinishExecution(start.agent, request, outcome, duration);
    }
  }

  /** `agents.filter(agent => agent.status === AgentStatus.IDLE)` */
  function IdleOnly(agents: seq<Agent>): (r: seq<Agent>)
    ensures forall a :: a in r <==> a in agents && a.status == Idle
  {
    if agents == [] then []
    else (if agents[0].status == Idle then [agents[0]] else []) + IdleOnly(agents[1..])
  }

  /** The idle filter keeps order: filtering a concatenation concatenates the filtered parts. */
  lemma {:induction false} IdleOnlyAppend(s: seq<Agent>, t: seq<Agent>)
    ensures IdleOnly(s + t) == IdleOnly(s) + IdleOnly(t)
  {
    if s == [] {
      assert s + t == t;
    } else {
      assert (s + t)[0] == s[0];
      assert (s + t)[1..] == s[1..] + t;
      IdleOnlyAppend(s[1..], t);
    }
  }

  /** Filtering looked-up agents for idleness is looking up the ids whose agent is idle. */
  lemma {:induction false} IdleOnlyLookup(ids: seq<string>, agents: map<string, Agent>)
    ensures IdleOnly(Lookup(ids, agents)) == Lookup(Select(ids, agents, InStatus(Idle)), agents)
  {
    if ids != [] {
      IdleOnlyLookup(ids[1..], agents);
      var head := if ids[0] in agents then [agents[ids[0]]] else [];
      IdleOnlyAppend(head, Lookup(ids[1..], agents));
      var sel := if ids[0] in agents && Matches(agents[ids[0]], InStatus(Idle)) then [ids[0]] else [];
      LookupAppend(sel, Select(ids[1..], agents, InStatus(Idle)), agents);
    }
  }

  lemma {:induction false} LookupAppend(s: seq<string>, t: seq<string>, agents: map<string, Agent>)
    ensures Lookup(s + t, agents) == Lookup(s, agents) + Lookup(t, agents)
  {
    if s == [] {
      assert s + t == t;
    } else {
      assert (s + t)[0] == s[0];
      assert (s + t)[1..] == s[1..] + t;
      LookupAppend(s[1..], t, agents);
    }
  }

  /**
   * The busy guard serialises executions: of two starts on the same agent with
   * no finish between them, the first proceeds and the second is turned away.
   */
  method BusyGuardSerialisesStarts(m: AgentManager, first: ExecutionRequest, second: ExecutionRequest, t1: int, t2: int)
    returns (s1: StartOutcome, s2: StartOutcome)
    requires m.Valid()
    requires first.agentId == second.agentId && first.agentId in m.agents
    requires m.agents[first.agentId].status != Busy
    modifies m
    ensures m.Valid()
    ensures s1.Started? && s1.agent.status == Busy
    ensures s2 == Rejected(Failed(second.agentId, "Agent " + second.agentId + " is busy"))
    ensures first.agentId in m.agents && m.agents[first.agentId] == s1.agent
  {
    s1 := m.StartExecution(first, t1);
    s2 := m.StartExecution(second, t2);
  }

  // ---------------------------------------------------------------------------
  // The module-level singleton (`initializeAgentManager` / `getAgentManager`).
  // ---------------------------------------------------------------------------

  /** The five agents registered at start-up unless REGISTER_DEFAULT_AGENTS says otherwise. */
  const BrandContextManager :=
    RegistrationRequest("Brand Context Manager", BrandContext,
      [AgentCapability.ContextValidation, Reasoning], OpenAI, "gpt-4", None)
  const ContentGenerator :=
    RegistrationRequest("Content Generator", AgentType.ContentGeneration,
      [AgentCapability.ContentGeneration, CodeGeneration], Anthropic, "claude-3-opus-20240229", None)
  const WorkflowOrchestrator :=
    RegistrationRequest("Workflow Orchestrator", AgentType.WorkflowOrchestration,
      [AgentCapability.WorkflowOrchestration, Planning], OpenAI, "gpt-4-turbo", None)
  const AnalyticsAgent :=
    RegistrationRequest("Analytics Agent", AgentType.Analytics,
      [AgentCapability.Analytics, Reasoning], Anthropic, "claude-3-sonnet-20240229", None)
  const AssetManager :=
    RegistrationRequest("Asset Manager", AgentType.AssetManagement,
      [AgentCapability.AssetManagement], Ollama, "llama3", None)
  const DefaultAgentRequests: seq<RegistrationRequest> :=
    [BrandContextManager, ContentGenerator, WorkflowOrchestrator, AnalyticsAgent, AssetManager]

  function RegistersDefaults(env: AgentEnvironment): bool {
    OptionalEnv(env.registerDefaultAgents, "true") == "true"
  }

  /** Requests of pairwise different types generate pairwise different ids. */
  lemma DistinctTypesDistinctIds(requests: seq<RegistrationRequest>, seeds: seq<IdSeed>)
    requires |seeds| == |requests|
    requires forall i, j :: 0 <= i < j < |requests| ==> requests[i].agentType != requests[j].agentType
    ensures forall i, j :: 0 <= i < j < |requests| ==> AgentId(requests[i].agentType, seeds[i]) != AgentId(requests[j].agentType, seeds[j])
  {
    forall i, j | 0 <= i < j < |requests|
      ensures AgentId(requests[i].agentType, seeds[i]) != AgentId(requests[j].agentType, seeds[j])
    {
      if AgentId(requests[i].agentType, seeds[i]) == AgentId(requests[j].agentType, seeds[j]) {
        AgentIdDeterminesType(requests[i].agentType, seeds[i], requests[j].agentType, seeds[j]);
      }
    }
  }

  /**
   * The registrations `initializeAgentManager` performs one after the other, as a walk over the
   * table of requests; agent `i` gets the id drawn from `seeds[i]`.
   */
  method RegisterDefaultAgents(m: AgentManager, requests: seq<RegistrationRequest>, seeds: seq<IdSeed>)
    requires m.Valid() && m.agents == map[] && m.order == []
    requires |requests| == |seeds| && forall i :: 0 <= i < |seeds| ==> ValidSeed(seeds[i])
    requires forall i, j :: 0 <= i < j < |requests| ==> requests[i].agentType != requests[j].agentType
    modifies m
    ensures m.Valid() && |m.order| == |requests|
    ensures forall i :: 0 <= i < |requests| ==>
              m.order[i] == NewAgent(requests[i], seeds[i]).id && m.agents[m.order[i]] == NewAgent(requests[i], seeds[i])
  {
    DistinctTypesDistinctIds(requests, seeds);
    var k := 0;
    while k < |requests|
      invariant 0 <= k <= |requests| && m.Valid()
      invariant |m.order| == k
      invariant forall i :: 0 <= i < k ==>
                  m.order[i] == AgentId(requests[i].agentType, seeds[i]) && m.order[i] in m.agents
                  && m.agents[m.order[i]] == NewAgent(requests[i], seeds[i])
    {
      var _ := m.RegisterAgent(requests[k], seeds[k]);
      k := k + 1;
    }
  }


  class AgentManagerSlot {
    var instance: AgentManager?

    ghost predicate Valid()
      reads this, instance
    {
      instance != null ==> instance.Valid()
    }

    constructor ()
      ensures instance == null
    {
      instance := null;
    }

    method InitializeAgentManager(env: AgentEnvironment, seeds: seq<IdSeed>) returns (m: AgentManager)
      requires Valid()
      requires |seeds| == 5 && forall i :: 0 <= i < 5 ==> ValidSeed(seeds[i])
      modifies this
      ensures Valid() && instance == m
      ensures old(instance) != null ==> m == old(instance)
      ensures old(instance) == null ==> fresh(m)
      ensures old(instance) == null && !RegistersDefaults(env) ==> m.agents == map[] && m.order == []
      ensures old(instance) == null ==>
                && m.openAIConfigured == (OptionalEnv(env.openAIKey, "") != "")
                && m.anthropicConfigured == (OptionalEnv(env.anthropicKey, "") != "")
      ensures old(instance) == null && RegistersDefaults(env) ==>
                && |m.order| == 5
                && forall i :: 0 <= i < 5 ==>
                     m.order[i] == NewAgent(DefaultAgentRequests[i], seeds[i]).id
                     && m.agents[m.order[i]] == NewAgent(DefaultAgentRequests[i], seeds[i])
    {
      if instance != null {
        return instance;
      }
      m := new AgentManager(env.openAIKey, env.anthropicKey);
      if RegistersDefaults(env) {
        assert forall i, j :: 0 <= i < j < 5 ==>
                 DefaultAgentRequests[i].agentType != DefaultAgentRequests[j].agentType;
        RegisterDefaultAgents(m, DefaultAgentRequests, seeds);
      }
      instance := m;
    }

    function GetAgentManager(): (r: Result<AgentManager, string>)
      reads this
      ensures r.Success? <==> instance != null
      ensures r.Success? ==> r.value == instance
    {
      if instance == null then Result<AgentManager, string>.Failure("Agent Manager not initialized. Call initializeAgentManager() first.")
      else Success(instance)
    }
  }
}
