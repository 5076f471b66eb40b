/**
 * controller.py: the directory-driven variant of MASTERMIND. It scans the
 * "agents" directory for `.py` files, loads every agent class a module
 * defines, and after execution promotes each agent whose execute, get_data
 * and shutdown all returned by copying its source file into "tools".
 *
 * The file system is a map from directory to the names of the files in it;
 * module loading is a parameter that yields a module's agent classes in
 * `dir()` order, or None when executing the module raises.
 */
module Controller {
  import opened Wrappers
  import opened Agents
  import opened Orderings
  import opened Maps

  const AgentsDir: string := "agents"
  const ToolsDir: string := "tools"
  const ExecutorDir: string := "executor"

  /** `self.directories`, in the order `_load_agents` walks them. */
  const Directories: seq<string> := [AgentsDir, ToolsDir, ExecutorDir]

  /** Directory name to the names of the files it holds. */
  type FileSystem = map<string, set<string>>

  /** Executes the module at a path and lists its agent classes; None when execution raises. */
  type Loader = string -> Option<seq<Agent>>

  /** A registry entry: the agent instance and the file it came from. */
  datatype Entry = Entry(instance: Agent, filename: string)

  /** `_setup_directories`: create every working directory that is missing and keep the others as they are. */
  function SetupDirectories(fs: FileSystem): (r: FileSystem)
    ensures forall d :: d in Directories ==> d in r
    ensures forall d :: d in fs ==> d in r && r[d] == fs[d]
    ensures forall d :: d in r && d !in fs ==> d in Directories && r[d] == {}
  {
    fs + map d | d in Directories && d !in fs :: {}
  }

  /** `filename.endswith('.py')`. */
  predicate IsAgentSource(filename: string) {
    |filename| >= 3 && filename[|filename| - 3..] == ".py"
  }

  /** `filename[:-3]`: the agent name is the file name without its ".py". */
  function AgentName(filename: string): (name: string)
    requires IsAgentSource(filename)
    ensures name + ".py" == filename
  {
    filename[..|filename| - 3]
  }

  /** Two agent sources with the same agent name are the same file. */
  lemma AgentNameInjective(f: string, g: string)
    requires IsAgentSource(f) && IsAgentSource(g)
    ensures AgentName(f) == AgentName(g) ==> f == g
  {
    if AgentName(f) == AgentName(g) {
      calc {
        f;
        AgentName(f) + ".py";
        AgentName(g) + ".py";
        g;
      }
    }
  }

  /** `os.path.join("agents", filename)`. */
  function ModulePath(filename: string): string {
    AgentsDir + "/" + filename
  }

  /** Executing the module and constructing and initializing each of its agent classes all return. */
  predicate ModuleLoads(load: Loader, filename: string) {
    && load(ModulePath(filename)).Some?
    && forall c :: c in load(ModulePath(filename)).value ==> c.constructs && c.initializes
  }

  /** The module defines at least one agent class, and all of them load. */
  predicate ModuleDefinesAgent(load: Loader, filename: string) {
    ModuleLoads(load, filename) && |load(ModulePath(filename)).value| > 0
  }

  /**
   * The registry entries a clean load of the files in `files` creates: one per
   * agent source that defines an agent class, holding the LAST such class, since
   * every class of a module is stored under the same name.
   */
  function DiscoveredIn(files: set<string>, load: Loader): (r: map<string, Entry>)
    ensures forall n :: n in r ==> r[n].filename in files && IsAgentSource(r[n].filename) && n + ".py" == r[n].filename
  {
    map f | f in files && IsAgentSource(f) && ModuleDefinesAgent(load, f)
      :: AgentName(f) := Entry(Last(load(ModulePath(f)).value), f)
  }

  function Last(classes: seq<Agent>): Agent
    requires |classes| > 0
  {
    classes[|classes| - 1]
  }

  /** Only ".py" files of the "agents" directory are ever loaded; "tools" and "executor" are not read. */
  function Discovered(fs: FileSystem, load: Loader): map<string, Entry>
    requires AgentsDir in fs
  {
    DiscoveredIn(fs[AgentsDir], load)
  }

  /** Every registry key names its own file: the key plus ".py". */
  predicate NamesMatchFiles(agents: map<string, Entry>) {
    forall n :: n in agents ==> agents[n].filename == n + ".py"
  }

  /** An agent whose execute, get_data and shutdown all return: the chain that earns promotion. */
  predicate Completes(agent: Agent) {
    agent.executes && agent.output.Some? && agent.shutsDown
  }

  /** `_save_agent_as_tool`: copy agents/<filename> to tools/<filename>; a missing source raises and copies nothing. */
  function Promote(fs: FileSystem, filename: string): (r: FileSystem)
    requires AgentsDir in fs && ToolsDir in fs
    ensures r.Keys == fs.Keys && r[AgentsDir] == fs[AgentsDir]
    ensures filename in fs[AgentsDir] ==> r[ToolsDir] == fs[ToolsDir] + {filename}
    ensures filename !in fs[AgentsDir] ==> r == fs
    ensures forall d :: d in fs && d != ToolsDir ==> r[d] == fs[d]
  {
    if filename in fs[AgentsDir] then fs[ToolsDir := fs[ToolsDir] + {filename}] else fs
  }

  /** `_execute_single_agent` on the file system: promotion only after the whole chain returned. */
  function RunAgent(fs: FileSystem, entry: Entry): FileSystem
    requires AgentsDir in fs && ToolsDir in fs
  {
    if Completes(entry.instance) then Promote(fs, entry.filename) else fs
  }

  /** The calls `_execute_single_agent` makes: each step only if the one before it returned. */
  function AgentTrace(name: string, agent: Agent): seq<Call> {
    [Call(name, Execute)]
    + (if agent.executes then [Call(name, GetData)] else [])
    + (if agent.executes && agent.output.Some? then [Call(name, Shutdown)] else [])
  }

  /** Running the registry entries named in `order`, one after another: no directory appears or vanishes, and "agents" keeps its files. */
  function RunAll(order: seq<string>, agents: map<string, Entry>, fs: FileSystem): (r: FileSystem)
    requires forall i :: 0 <= i < |order| ==> order[i] in agents
    requires AgentsDir in fs && ToolsDir in fs
    ensures r.Keys == fs.Keys && r[AgentsDir] == fs[AgentsDir]
  {
    if order == [] then fs
    else
      var last := order[|order| - 1];
      RunAgent(RunAll(order[..|order| - 1], agents, fs), agents[last])
  }

  /** The calls made by running the entries named in `order`, one after another. */
  function RunTrace(order: seq<string>, agents: map<string, Entry>): seq<Call>
    requires forall i :: 0 <= i < |order| ==> order[i] in agents
  {
    if order == [] then []
    else
      var last := order[|order| - 1];
      RunTrace(order[..|order| - 1], agents) + AgentTrace(last, agents[last].instance)
  }

  /** The files that running the entries named in `names` copies into "tools". */
  function PromotedAmong(agents: map<string, Entry>, names: set<string>, fs: FileSystem): set<string>
    requires AgentsDir in fs
  {
    set n | n in names && n in agents && Completes(agents[n].instance) && agents[n].filename in fs[AgentsDir]
      :: agents[n].filename
  }

  /** The files a whole run of the registry copies into "tools". */
  function Promoted(agents: map<string, Entry>, fs: FileSystem): set<string>
    requires AgentsDir in fs
  {
    PromotedAmong(agents, agents.Keys, fs)
  }

  /** A sequential run only adds to "tools" the files of the completed agents it ran, in any order. */
  lemma {:induction false} RunAllPromotes(order: seq<string>, agents: map<string, Entry>, fs: FileSystem)
    requires forall i :: 0 <= i < |order| ==> order[i] in agents
    requires AgentsDir in fs && ToolsDir in fs
    ensures RunAll(order, agents, fs) == fs[ToolsDir := fs[ToolsDir] + PromotedAmong(agents, (set n | n in order), fs)]
  {
    if order == [] {
      assert (set n | n in order) == {};
      PromotedAmongSplit(agents, {}, "", fs);
      assert fs[ToolsDir] + {} == fs[ToolsDir];
      assert fs[ToolsDir := fs[ToolsDir]] == fs;
    } else {
      var last := order[|order| - 1];
      var front := order[..|order| - 1];
      RunAllPromotes(front, agents, fs);
      var earlier := PromotedAmong(agents, (set n | n in front), fs);
      assert (set n | n in order) == (set n | n in front) + {last};
      PromotedAmongSplit(agents, (set n | n in front), last, fs);
      var mid := fs[ToolsDir := fs[ToolsDir] + earlier];
      assert RunAll(order, agents, fs) == RunAgent(mid, agents[last]);
      PromoteAfter(fs, earlier, agents[last]);
    }
  }

  /** The promoted files of one more agent name: its own file when it completed and its source exists, otherwise nothing more. */
  lemma PromotedAmongSplit(agents: map<string, Entry>, names: set<string>, last: string, fs: FileSystem)
    requires AgentsDir in fs
    ensures PromotedAmong(agents, {}, fs) == {}
    ensures PromotedAmong(agents, names + {last}, fs) ==
              PromotedAmong(agents, names, fs) +
              if last in agents && Completes(agents[last].instance) && agents[last].filename in fs[AgentsDir]
              then {agents[last].filename} else {}
  {
  }

  /** Running one entry after some files were copied into "tools" copies at most that entry's file on top. */
  lemma PromoteAfter(fs: FileSystem, earlier: set<string>, entry: Entry)
    requires AgentsDir in fs && ToolsDir in fs
    ensures var mid := fs[ToolsDir := fs[ToolsDir] + earlier];
            RunAgent(mid, entry) ==
              fs[ToolsDir := fs[ToolsDir] + (earlier +
                 if Completes(entry.instance) && entry.filename in fs[AgentsDir] then {entry.filename} else {})]
  {
    assert AgentsDir[0] != ToolsDir[0];
    var mid := fs[ToolsDir := fs[ToolsDir] + earlier];
    assert mid[AgentsDir] == fs[AgentsDir];
    if Completes(entry.instance) && entry.filename in fs[AgentsDir] {
      assert fs[ToolsDir] + earlier + {entry.filename} == fs[ToolsDir] + (earlier + {entry.filename});
    } else {
      assert earlier + {} == earlier;
    }
  }

  /**
   * Promotion law: after a run of the whole registry, a registered agent's file
   * is in "tools" exactly when it was there before or that agent completed;
   * the "agents" directory keeps every file, since promotion copies.
   */
  lemma PromotionLaw(order: seq<string>, agents: map<string, Entry>, fs: FileSystem, name: string)
    requires IsOrdering(order, agents.Keys)
    requires AgentsDir in fs && ToolsDir in fs
    requires name in agents && agents[name].filename in fs[AgentsDir]
    requires NamesMatchFiles(agents)
    ensures RunAll(order, agents, fs)[AgentsDir] == fs[AgentsDir]
    ensures agents[name].filename in RunAll(order, agents, fs)[ToolsDir] <==>
              agents[name].filename in fs[ToolsDir] || Completes(agents[name].instance)
  {
    RunAllPromotes(order, agents, fs);
    var f := agents[name].filename;
    if f in PromotedAmong(agents, agents.Keys, fs) {
      var n :| n in agents && Completes(agents[n].instance) && agents[n].filename in fs[AgentsDir] && agents[n].filename == f;
      assert n + ".py" == name + ".py";
      assert n == (n + ".py")[..|n|] == (name + ".py")[..|name|] == name;
    }
  }

  /**
   * Shutdown follows only a returning execute and get_data, and the run
   * calls nothing but execute, get_data and shutdown.
   */
  lemma {:induction false} RunTraceCalls(order: seq<string>, agents: map<string, Entry>, c: Call)
    requires forall i :: 0 <= i < |order| ==> order[i] in agents
    ensures c in RunTrace(order, agents) <==>
              && c.agent in order
              && var a := agents[c.agent].instance;
              || c.op == Execute
              || (c.op == GetData && a.executes)
              || (c.op == Shutdown && a.executes && a.output.Some?)
  {
    if order != [] {
      var front := order[..|order| - 1];
      RunTraceCalls(front, agents, c);
      assert order == front + [order[|order| - 1]];
    }
  }

  class Mastermind {
    /** `self.agents`: agent name to (instance, filename). */
    var agents: map<string, Entry>
    /** The directories the controller works in, and their files. */
    var fs: FileSystem
    /** The agent operations called while executing, in order. */
    var calls: seq<Call>

    ghost predicate Valid()
      reads this
    {
      && (forall d :: d in Directories ==> d in fs)
      && NamesMatchFiles(agents)
      && (forall n :: n in agents ==> agents[n].filename in fs[AgentsDir])
    }

    /** `__init__` up to `_load_agents`: set up the directories over the given file system, registry empty. */
    constructor(world: FileSystem)
      ensures Valid()
      ensures fs == SetupDirectories(world) && agents == map[] && calls == []
    {
      fs := SetupDirectories(world);
      agents := map[];
      calls := [];
    }

    /**
     * `_load_agents`: walk the three directories and load each ".py" file of
     * "agents". Nothing catches a failure here: `raised` means an exception
     * left the scan, which happens exactly when some agent source fails to load.
     */
    method LoadAgents(load: Loader) returns (raised: bool)
      requires Valid()
      modifies this`agents
      ensures raised <==> exists f :: f in fs[AgentsDir] && IsAgentSource(f) && !ModuleLoads(load, f)
      ensures !raised ==> Valid() && agents == old(agents) + Discovered(fs, load)
    {
      raised := false;
      var i := 0;
      while i < |Directories|
        invariant 0 <= i <= |Directories|
        invariant i > 0 ==> forall f :: f in fs[AgentsDir] && IsAgentSource(f) ==> ModuleLoads(load, f)
        invariant agents == old(agents) + if i == 0 then map[] else Discovered(fs, load)
      {
        raised := ScanDirectory(Directories[i], load);
        if raised {
          return;
        }
        i := i + 1;
      }
    }

    /** One pass of `_load_agents`' outer loop: only the "agents" directory loads anything. */
    method ScanDirectory(directory: string, load: Loader) returns (raised: bool)
      requires directory in Directories && directory in fs && AgentsDir in fs
      modifies this`agents
      ensures directory != AgentsDir ==> !raised && agents == old(agents)
      ensures directory == AgentsDir ==>
                (raised <==> exists f :: f in fs[AgentsDir] && IsAgentSource(f) && !ModuleLoads(load, f))
      ensures directory == AgentsDir && !raised ==> agents == old(agents) + Discovered(fs, load)
    {
      raised := false;
      var remaining := fs[directory];
      ghost var done: set<string> := {};
      while remaining != {}
        invariant remaining + done == fs[directory] && remaining !! done
        invariant !raised
        invariant directory == AgentsDir ==> forall f :: f in done && IsAgentSource(f) ==> ModuleLoads(load, f)
        invariant agents == old(agents) + if directory == AgentsDir then DiscoveredIn(done, load) else map[]
        decreases remaining
      {
        var filename :| filename in remaining;
        if IsAgentSource(filename) && directory == AgentsDir {
          raised := LoadAgentModule(directory, filename, load);
          if raised {
            assert filename in fs[AgentsDir] && IsAgentSource(filename) && !ModuleLoads(load, filename);
            return;
          }
        }
        if directory == AgentsDir {
          if IsAgentSource(filename) && ModuleDefinesAgent(load, filename) {
            DiscoveredInAddAgent(done, filename, load);
            UnionUpdate(old(agents), DiscoveredIn(done, load), AgentName(filename),
                        Entry(Last(load(ModulePath(filename)).value), filename));
          } else {
            DiscoveredInAddOther(done, filename, load);
          }
        }
        remaining := remaining - {filename};
        done := done + {filename};
      }
      assert done == fs[directory];
    }

    /**
     * `_load_agent_module`: construct and initialize every agent class of the
     * module and store each under the file's agent name, later classes
     * overwriting earlier ones. `raised` when the module or a class fails.
     */
    method LoadAgentModule(directory: string, filename: string, load: Loader) returns (raised: bool)
      requires directory == AgentsDir && IsAgentSource(filename)
      modifies this`agents
      ensures raised <==> !ModuleLoads(load, filename)
      ensures !raised && ModuleDefinesAgent(load, filename) ==>
                agents == old(agents)[AgentName(filename) := Entry(Last(load(ModulePath(filename)).value), filename)]
      ensures !raised && !ModuleDefinesAgent(load, filename) ==> agents == old(agents)
    {
      var name := AgentName(filename);
      var loaded := load(directory + "/" + filename);
      if loaded.None? {
        return true;
      }
      var classes := loaded.value;
      var j := 0;
      while j < |classes|
        invariant 0 <= j <= |classes|
        invariant forall k :: 0 <= k < j ==> classes[k].constructs && classes[k].initializes
        invariant agents == if j == 0 then old(agents) else old(agents)[name := Entry(classes[j - 1], filename)]
      {
        var agentClass := classes[j];
        if !agentClass.constructs || !agentClass.initializes {
          return true;
        }
        agents := agents[name := Entry(agentClass, filename)];
        j := j + 1;
      }
      raised := false;
    }

    /**
     * `execute_agents`, run sequentially: `order` is the order in which the
     * agents happened to run, any ordering of the registry.
     */
    method ExecuteAgents() returns (order: seq<string>)
      requires Valid()
      modifies this`fs, this`calls
      ensures Valid()
      ensures IsOrdering(order, agents.Keys)
      ensures fs == RunAll(order, agents, old(fs))
      ensures fs == old(fs)[ToolsDir := old(fs)[ToolsDir] + Promoted(agents, old(fs))]
      ensures calls == old(calls) + RunTrace(order, agents)
    {
      order := Enumerate(agents.Keys);
      assert forall j :: 0 <= j < |order| ==> order[j] in agents;
      for i := 0 to |order|
        invariant Valid()
        invariant fs == RunAll(order[..i], agents, old(fs))
        invariant calls == old(calls) + RunTrace(order[..i], agents)
      {
        ExecuteNext(order, i, old(fs), old(calls));
      }
      assert order[..|order|] == order;
      RunAllPromotes(order, agents, old(fs));
    }

    /** One iteration of the execution loop: run the next agent of `order` and extend the run by it. */
    method ExecuteNext(order: seq<string>, i: nat, ghost start: FileSystem, ghost before: seq<Call>)
      requires Valid()
      requires forall j :: 0 <= j < |order| ==> order[j] in agents
      requires i < |order| && AgentsDir in start && ToolsDir in start
      requires fs == RunAll(order[..i], agents, start)
      requires calls == before + RunTrace(order[..i], agents)
      modifies this`fs, this`calls
      ensures Valid()
      ensures fs == RunAll(order[..i + 1], agents, start)
      ensures calls == before + RunTrace(order[..i + 1], agents)
    {
      var name := order[i];
      var entry := agents[name];
      ghost var done := order[..i + 1];
      assert done[..i] == order[..i] && done[i] == name;
      ExecuteSingleAgent(name, entry.instance, entry.filename);
    }

    /** `_execute_single_agent`: execute, get_data, shutdown, then promote; every failure is caught here. */
    method ExecuteSingleAgent(name: string, agent: Agent, filename: string)
      requires Valid()
      modifies this`fs, this`calls
      ensures Valid()
      ensures fs == RunAgent(old(fs), Entry(agent, filename))
      ensures calls == old(calls) + AgentTrace(name, agent)
    {
      calls := calls + [Call(name, Execute)];
      if !agent.executes {
        return;
      }
      calls := calls + [Call(name, GetData)];
      if agent.output.None? {
        return;
      }
      calls := calls + [Call(name, Shutdown)];
      if !agent.shutsDown {
        return;
      }
      var copied := SaveAgentAsTool(name, filename);
    }

    /** `_save_agent_as_tool`: copy the source into "tools"; `copied` is false when the copy raised. */
    method SaveAgentAsTool(name: string, filename: string) returns (copied: bool)
      requires Valid()
      modifies this`fs
      ensures Valid()
      ensures copied <==> filename in old(fs)[AgentsDir]
      ensures fs == Promote(old(fs), filename)
    {
      copied := filename in fs[AgentsDir];
      if copied {
        fs := fs[ToolsDir := fs[ToolsDir] + {filename}];
      }
    }
  }

  /** Scanning one more agent source that defines agents adds its own entry, under its own agent name. */
  lemma DiscoveredInAddAgent(done: set<string>, filename: string, load: Loader)
    requires filename !in done && IsAgentSource(filename) && ModuleDefinesAgent(load, filename)
    ensures DiscoveredIn(done + {filename}, load)
              == DiscoveredIn(done, load)[AgentName(filename) := Entry(Last(load(ModulePath(filename)).value), filename)]
  {
    forall f | f in done && IsAgentSource(f) ensures AgentName(f) != AgentName(filename) {
      AgentNameInjective(f, filename);
    }
  }

  /** Scanning one more file that is no agent source, or defines no agent, adds nothing. */
  lemma DiscoveredInAddOther(done: set<string>, filename: string, load: Loader)
    requires !(IsAgentSource(filename) && ModuleDefinesAgent(load, filename))
    ensures DiscoveredIn(done + {filename}, load) == DiscoveredIn(done, load)
  {
    var before, after := DiscoveredIn(done, load), DiscoveredIn(done + {filename}, load);
    forall n | n in after ensures n in before && after[n] == before[n] {
      var f := after[n].filename;
      assert f != filename;
    }
    assert before.Keys <= after.Keys;
  }
}
