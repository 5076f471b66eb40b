/**
 * MASTERMIND.py: the agent registry, the security allow-list and the result
 * store. `execute_agents` starts one thread per agent and joins them; every
 * agent writes only its own key of the result store, so the model runs the
 * agents one after another in an order it does not fix, and proves that the
 * final store is the same for every order.
 */
module Mastermind {
  import opened Wrappers
  import opened Agents
  import opened Orderings
  import opened Maps

  /** The loaded config.json: top-level keys mapped to lists of names. */
  type Config = map<string, seq<string>>

  /** The key `validate_agent` reads the allow-list from. */
  const AllowedAgentsKey: string := "allowed_agents"

  /** The seed list `auto_configure` writes into a fresh config.json. */
  const DefaultAgents: seq<string> := ["SimpleCoder.py", "autonomize.py"]

  /** What `get_data` answers for a name that has no record. */
  const NotFound: Payload := Text("Data not found.")

  /** The configuration `auto_configure` writes, as written: the list sits under "agents". */
  function AutoConfigure(): Config {
    map["agents" := DefaultAgents]
  }

  /** The configuration `auto_configure` evidently means to write: the list under the key validation reads. */
  function AutoConfigureFixed(): Config {
    map[AllowedAgentsKey := DefaultAgents]
  }

  /** `config.get(key, default)`. */
  function Get(config: Config, key: string, default: seq<string>): seq<string> {
    if key in config then config[key] else default
  }

  /** `validate_agent`: the name is on the allow-list; a config without one permits nothing. */
  predicate ValidateAgent(config: Config, name: string)
    ensures ValidateAgent(config, name) <==> name in Get(config, AllowedAgentsKey, [])
  {
    AllowedAgentsKey in config && name in config[AllowedAgentsKey]
  }

  /** `validate_data`: the placeholder accepts every payload. */
  predicate ValidateData(data: Payload)
    ensures ValidateData(data)
  {
    true
  }

  /** The allow-list check fails closed: without the "allowed_agents" key no name passes. */
  lemma ValidationFailsClosed(config: Config, name: string)
    requires AllowedAgentsKey !in config
    ensures !ValidateAgent(config, name)
  {
  }

  /** As written, the generated default config admits no agent, not even the ones it seeds. */
  lemma DefaultConfigRejectsEveryAgent(name: string)
    ensures !ValidateAgent(AutoConfigure(), name)
    ensures DefaultAgents[0] in AutoConfigure()["agents"] && !ValidateAgent(AutoConfigure(), DefaultAgents[0])
  {
  }

  /** The corrected default config admits exactly the seeded agents. */
  lemma FixedDefaultConfigAdmitsSeeds(name: string)
    ensures ValidateAgent(AutoConfigureFixed(), name) <==> name == "SimpleCoder.py" || name == "autonomize.py"
  {
  }

  /** `accumulate_data` on the store itself: a valid payload overwrites the record for `name`. */
  function Accumulate(store: map<string, Payload>, name: string, data: Payload): (r: map<string, Payload>)
    ensures ValidateData(data) ==> r.Keys == store.Keys + {name} && r[name] == data
    ensures !ValidateData(data) ==> r == store
    ensures forall k :: k in store && k != name ==> k in r && r[k] == store[k]
  {
    if ValidateData(data) then store[name := data] else store
  }

  /** `get_data` on the store itself: the record, or the "Data not found." sentinel. */
  function Lookup(store: map<string, Payload>, name: string): (r: Payload)
    ensures name in store ==> r == store[name]
    ensures name !in store ==> r == NotFound
  {
    if name in store then store[name] else NotFound
  }

  /** Recording two payloads for one name leaves the second; other names keep their records. */
  lemma OverwriteLaw(store: map<string, Payload>, name: string, first: Payload, second: Payload, other: string)
    requires other != name
    ensures Lookup(Accumulate(Accumulate(store, name, first), name, second), name) == second
    ensures Lookup(Accumulate(Accumulate(store, name, first), name, second), other) == Lookup(store, other)
  {
  }

  /** An agent whose execute and get_data both return, with a payload the store accepts. */
  predicate Produces(agent: Agent) {
    agent.executes && agent.output.Some? && ValidateData(agent.output.value)
  }

  /** `execute_single_agent` on the store: only a run whose execute and get_data return records anything. */
  function RunAgent(store: map<string, Payload>, name: string, agent: Agent): (r: map<string, Payload>)
    ensures Produces(agent) ==> r == store[name := agent.output.value]
    ensures !Produces(agent) ==> r == store
  {
    if agent.executes && agent.output.Some? then Accumulate(store, name, agent.output.value) else store
  }

  /** The calls `execute_single_agent` makes: execute, then get_data only if execute returned. */
  function AgentTrace(name: string, agent: Agent): seq<Call> {
    [Call(name, Execute)] + if agent.executes then [Call(name, GetData)] else []
  }

  /** Running the agents named in `order`, one after another, starting from `store`. */
  function RunAll(order: seq<string>, agents: map<string, Agent>, store: map<string, Payload>): map<string, Payload>
    requires forall i :: 0 <= i < |order| ==> order[i] in agents
  {
    if order == [] then store
    else
      var last := order[|order| - 1];
      RunAgent(RunAll(order[..|order| - 1], agents, store), last, agents[last])
  }

  /** The calls made by running the agents named in `order`, one after another. */
  function RunTrace(order: seq<string>, agents: map<string, Agent>): seq<Call>
    requires forall i :: 0 <= i < |order| ==> order[i] in agents
  {
    if order == [] then []
    else
      var last := order[|order| - 1];
      RunTrace(order[..|order| - 1], agents) + AgentTrace(last, agents[last])
  }

  /** The records that the agents named in `names` produce. */
  function ResultsOf(agents: map<string, Agent>, names: set<string>): map<string, Payload> {
    map n | n in names && n in agents && Produces(agents[n]) :: agents[n].output.value
  }

  /** The records a whole run of the registry produces, one per agent that produces a payload. */
  function Results(agents: map<string, Agent>): map<string, Payload> {
    ResultsOf(agents, agents.Keys)
  }

  /** One more name adds that agent's record, if it produces one. */
  lemma ResultsOfAdd(agents: map<string, Agent>, names: set<string>, name: string)
    requires name in agents
    ensures Produces(agents[name]) ==>
              ResultsOf(agents, names + {name}) == ResultsOf(agents, names)[name := agents[name].output.value]
    ensures !Produces(agents[name]) ==> ResultsOf(agents, names + {name}) == ResultsOf(agents, names)
  {
  }

  /** A sequential run adds exactly the records of the agents it ran, whatever their order. */
  lemma {:induction false} RunAllCollects(order: seq<string>, agents: map<string, Agent>, store: map<string, Payload>)
    requires forall i :: 0 <= i < |order| ==> order[i] in agents
    ensures RunAll(order, agents, store) == store + ResultsOf(agents, set n | n in order)
  {
    if order != [] {
      var last := order[|order| - 1];
      var front := order[..|order| - 1];
      RunAllCollects(front, agents, store);
      assert (set n | n in order) == (set n | n in front) + {last};
      ResultsOfAdd(agents, (set n | n in front), last);
      if Produces(agents[last]) {
        UnionUpdate(store, ResultsOf(agents, set n | n in front), last, agents[last].output.value);
      }
    }
  }

  /**
   * Join completeness and order independence: every ordering of the registry
   * yields the same store, the old one overlaid with each producing agent's payload.
   */
  lemma ExecutionOrderIrrelevant(order1: seq<string>, order2: seq<string>, agents: map<string, Agent>, store: map<string, Payload>)
    requires IsOrdering(order1, agents.Keys) && IsOrdering(order2, agents.Keys)
    ensures RunAll(order1, agents, store) == RunAll(order2, agents, store) == store + Results(agents)
  {
    RunAllCollects(order1, agents, store);
    RunAllCollects(order2, agents, store);
  }

  /** An agent whose execute or get_data raises gets no record; one that produces gets its own payload. */
  lemma FailureIsolated(order: seq<string>, agents: map<string, Agent>, store: map<string, Payload>, name: string)
    requires IsOrdering(order, agents.Keys)
    requires name in agents
    ensures !Produces(agents[name]) ==> Lookup(RunAll(order, agents, store), name) == Lookup(store, name)
    ensures Produces(agents[name]) ==> Lookup(RunAll(order, agents, store), name) == agents[name].output.value
  {
    RunAllCollects(order, agents, store);
  }

  /** During a run each registered agent is executed, get_data follows only a returning execute, and nothing else is called. */
  lemma {:induction false} RunTraceCalls(order: seq<string>, agents: map<string, Agent>, c: Call)
    requires forall i :: 0 <= i < |order| ==> order[i] in agents
    ensures c in RunTrace(order, agents) <==>
              c.agent in order && (c.op == Execute || (c.op == GetData && agents[c.agent].executes))
  {
    if order != [] {
      var front := order[..|order| - 1];
      RunTraceCalls(front, agents, c);
      assert order == front + [order[|order| - 1]];
    }
  }

  /** How `load_agent` ends. ConfigError: config.json was never loaded, so the allow-list lookup raises to the caller. */
  datatype LoadStatus = Loaded | Rejected | LoadError | ConfigError

  /**
   * How `unload_agent` ends; both errors are caught and logged. A `shutdown`
   * that raises `KeyError` is caught by the not-found handler in the source;
   * the model reports every raising `shutdown` as ShutdownError, with the same
   * final registry.
   */
  datatype UnloadStatus = Unloaded | NotFoundError | ShutdownError

  class Mastermind {
    /** `agent_store`: the live registry. */
    var agentStore: map<string, Agent>
    /** `data_store`: the last accepted payload per agent name. */
    var dataStore: map<string, Payload>
    /** Every agent operation the controller has called, in order. */
    var calls: seq<Call>
    /** `self.config`; None when config.json could not be read. */
    const config: Option<Config>

    constructor(config: Option<Config>)
      ensures this.config == config
      ensures agentStore == map[] && dataStore == map[] && calls == []
    {
      this.config := config;
      agentStore := map[];
      dataStore := map[];
      calls := [];
    }

    /** `load_agent`: validate, construct, initialize, then register under `name`. */
    method LoadAgent(name: string, agentClass: Agent) returns (status: LoadStatus)
      modifies this`agentStore, this`calls
      ensures config.None? ==> status == ConfigError
      ensures config.Some? && !ValidateAgent(config.value, name) ==> status == Rejected
      ensures config.Some? && ValidateAgent(config.value, name) ==>
                status == if agentClass.constructs && agentClass.initializes then Loaded else LoadError
      ensures status == Loaded ==> agentStore == old(agentStore)[name := agentClass]
      ensures status != Loaded ==> agentStore == old(agentStore)
      ensures calls == old(calls) + if status in {Loaded, LoadError} && agentClass.constructs then [Call(name, Initialize)] else []
    {
      if config.None? {
        return ConfigError;
      }
      if !ValidateAgent(config.value, name) {
        return Rejected;
      }
      if !agentClass.constructs {
        return LoadError;
      }
      calls := calls + [Call(name, Initialize)];
      if !agentClass.initializes {
        return LoadError;
      }
      agentStore := agentStore[name := agentClass];
      status := Loaded;
    }

    /** `unload_agent`: remove the entry first, then shut the agent down. */
    method UnloadAgent(name: string) returns (status: UnloadStatus)
      modifies this`agentStore, this`calls
      ensures name !in old(agentStore) ==>
                status == NotFoundError && agentStore == old(agentStore) && calls == old(calls)
      ensures name in old(agentStore) ==>
                && agentStore == old(agentStore) - {name}
                && calls == old(calls) + [Call(name, Shutdown)]
                && status == if old(agentStore)[name].shutsDown then Unloaded else ShutdownError
    {
      if name !in agentStore {
        return NotFoundError;
      }
      var agent := agentStore[name];
      agentStore := agentStore - {name};
      calls := calls + [Call(name, Shutdown)];
      status := if agent.shutsDown then Unloaded else ShutdownError;
    }

    /** `execute_single_agent`: execute, get_data, accumulate; every failure is caught here. */
    method ExecuteSingleAgent(name: string, agent: Agent)
      modifies this`dataStore, this`calls
      ensures dataStore == RunAgent(old(dataStore), name, agent)
      ensures calls == old(calls) + AgentTrace(name, agent)
    {
      calls := calls + [Call(name, Execute)];
      if !agent.executes {
        return;
      }
      calls := calls + [Call(name, Op.GetData)];
      if agent.output.None? {
        return;
      }
      AccumulateData(name, agent.output.value);
    }

    /**
     * `execute_agents`, run sequentially: `order` is the order in which the
     * agents happened to run, any ordering of the registry.
     */
    method ExecuteAgents() returns (order: seq<string>)
      modifies this`dataStore, this`calls
      ensures IsOrdering(order, agentStore.Keys)
      ensures dataStore == RunAll(order, agentStore, old(dataStore))
      ensures dataStore == old(dataStore) + Results(agentStore)
      ensures calls == old(calls) + RunTrace(order, agentStore)
    {
      order := Enumerate(agentStore.Keys);
      for i := 0 to |order|
        invariant dataStore == RunAll(order[..i], agentStore, old(dataStore))
        invariant calls == old(calls) + RunTrace(order[..i], agentStore)
      {
        assert order[i] in agentStore;
        assert order[..i + 1][..i] == order[..i];
        ExecuteSingleAgent(order[i], agentStore[order[i]]);
      }
      assert order[..|order|] == order;
      ExecutionOrderIrrelevant(order, order, agentStore, old(dataStore));
    }

    /** `accumulate_data`: store a payload that passes validation, under its agent's name. */
    method AccumulateData(name: string, data: Payload)
      modifies this`dataStore
      ensures dataStore == Accumulate(old(dataStore), name, data)
    {
      if !ValidateData(data) {
        return;
      }
      dataStore := dataStore[name := data];
    }

    /** `get_data`: the stored payload, or the sentinel; never raises. */
    function GetData(name: string): (r: Payload)
      reads this
      ensures r == Lookup(dataStore, name)
    {
      Lookup(dataStore, name)
    }
  }
}
