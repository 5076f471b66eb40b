# aglm core, modelled in Dafny

This project models the reasoning and orchestration core of the aglm
repository and proves properties of the model. It covers the agent
controller (`MASTERMIND.py`), the directory-driven controller
(`controller.py`), default logic (`nonmonotonic.py`), autoepistemic belief
revision (`epistemic.py`), Socratic reasoning (`reasoning.py`), truth tables
(`logic.py`), the retry-with-backoff loop (`autonomize.py`) and the model
type dispatch (`model_handler.py`).

Each source file has one Dafny module: `Mastermind`, `Controller`,
`Nonmonotonic`, `Epistemic`, `Reasoning`, `Logic`, `Autonomize` and
`ModelHandler`. A few small modules are shared:

- `Wrappers` holds `Option`.
- `Agents` holds the agent capability contract. An agent is described by which of
  its constructor, `initialize`, `execute`, `get_data` and `shutdown` raise, and
  by what `get_data` returns.
- `Orderings` lists a set or dict in some unspecified iteration order.
- `Powers`, `Strings` and `Maps` hold `2^n`, Python's substring test and a
  map-union identity.

Classes whose fields the source updates in place are Dafny classes:
`MASTERMIND`, the controller's `MASTERMIND`, `DefaultLogic`,
`AutoepistemicAgent`, `SocraticReasoning` and `LogicTables`.
`Autonomizer`, whose one field is fixed at construction, is a class with a
`const` field. The loops of these classes are Dafny loops, proved against a specification function
(`RunAll`, `Closure`, `Revised`, `ConclusionText`, `Substituted`,
`TruthTable`, `RetryTrace`). The one exception is the directory loop of
`_setup_directories` in controller.py: it only creates directories, so it is
modelled as the function `SetupDirectories` on the file-system map. The lemmas beside those functions state what
the source promises: order independence of the threaded execution, the
fixpoint reached by saturation, what revision retracts, the row order of
the truth table, and when the self-healing reset runs.

Foreign behaviour is a parameter of the model:

- agent code, as the `Agent` record;
- `importlib` module loading, as a `Loader` function;
- Python's `eval`, as `eval: string -> bool`;
- whether an attempt of the retried task raises, as `succeeds`;
- `hf_hub_download`, as `download`.

The file system of `controller.py` is a map from directory to file names.
Sleeps and the reset of `autonomize.py` are recorded as events. The agent
operations the controllers call are recorded in a call log.

## Model

| member | source | states |
|---|---|---|
| Mastermind.ValidateAgent | MASTERMIND.py:115-117 | a name passes exactly when it is in the list stored under "allowed_agents", an absent key counting as the empty list |
| Mastermind.ValidateData | MASTERMIND.py:119-121 | every payload passes |
| Mastermind.ValidationFailsClosed | MASTERMIND.py:115-117 | without an "allowed_agents" key no agent name passes validation |
| Mastermind.DefaultConfigRejectsEveryAgent | MASTERMIND.py:13-20 | the config that auto-configuration writes stores its list under "agents", so validation rejects every name, the seeded "SimpleCoder.py" included |
| Mastermind.FixedDefaultConfigAdmitsSeeds | MASTERMIND.py:115-117 | with the seed list under "allowed_agents", validation admits exactly "SimpleCoder.py" and "autonomize.py" |
| Mastermind.Accumulate | MASTERMIND.py:104-109 | an accepted payload becomes the record for its agent; every other record is kept |
| Mastermind.Lookup | MASTERMIND.py:111-113 | the stored record, or the "Data not found." sentinel for an absent name |
| Mastermind.OverwriteLaw | MASTERMIND.py:104-113 | of two payloads stored for one name the second is read back; other names are unaffected |
| Mastermind.RunAgent | MASTERMIND.py:95-102 | one agent's run records its payload when execute and get_data both return, and leaves the store unchanged otherwise |
| Mastermind.RunAllCollects | MASTERMIND.py:85-102 | running agents one after another adds exactly the payloads of the producing agents that ran, in any order |
| Mastermind.ExecutionOrderIrrelevant | MASTERMIND.py:85-93 | every order in which the threads can run gives the same store: the old one overlaid with each producing agent's payload |
| Mastermind.FailureIsolated | MASTERMIND.py:95-102 | an agent whose execute or get_data raises keeps its old record; a producing agent gets its own payload |
| Mastermind.RunTraceCalls | MASTERMIND.py:95-102 | a run calls execute on each agent and get_data only after a returning execute, and nothing else |
| Mastermind.Mastermind.constructor | MASTERMIND.py:51-61 | empty registry and data store; the config is the one read from config.json, or none when reading failed |
| Mastermind.Mastermind.LoadAgent | MASTERMIND.py:63-73 | a missing config raises to the caller, a name off the allow-list is rejected, a failing constructor or initialize is logged; only a full load registers the agent; initialize is called once the instance exists |
| Mastermind.Mastermind.UnloadAgent | MASTERMIND.py:75-83 | an unknown name changes nothing; a known one is removed before shutdown is called, and it stays removed even when shutdown raises |
| Mastermind.Mastermind.ExecuteSingleAgent | MASTERMIND.py:95-102 | the store becomes RunAgent of the old one and the calls are execute then, if it returned, get_data |
| Mastermind.Mastermind.ExecuteAgents | MASTERMIND.py:85-93 | every registered agent runs exactly once; the final store is the old one overlaid with every producing agent's payload |
| Mastermind.Mastermind.AccumulateData | MASTERMIND.py:104-109 | the store becomes Accumulate of the old one |
| Mastermind.Mastermind.GetData | MASTERMIND.py:111-113 | the stored payload or the sentinel, never an error |
| Controller.SetupDirectories | controller.py:43-47 | "agents", "tools" and "executor" exist afterwards; existing directories keep their files; nothing else is created |
| Controller.AgentName | controller.py:59 | the agent name is the file name without ".py" |
| Controller.AgentNameInjective | controller.py:56-68 | two agent files never share an agent name, so no load overwrites another file's entry |
| Controller.DiscoveredIn | controller.py:56-68 | every registry entry comes from a ".py" file of the scanned set and is keyed by that file's own agent name |
| Controller.Promote | controller.py:93-98 | the copy adds the file to "tools" when it exists in "agents" and otherwise changes nothing; "agents" keeps its files |
| Controller.RunAll | controller.py:81-91 | running agents never creates or removes a directory and never changes "agents" |
| Controller.RunAllPromotes | controller.py:70-91 | a run in any order adds to "tools" exactly the files of the agents it ran whose whole lifecycle returned |
| Controller.PromotionLaw | controller.py:81-98 | after executing the registry, an agent's file is in "tools" exactly when it was there before or the agent completed execute, get_data and shutdown |
| Controller.RunTraceCalls | controller.py:81-91 | get_data follows only a returning execute, and shutdown only a returning get_data; nothing else is called |
| Controller.Mastermind.constructor | controller.py:37-40 | the file system becomes SetupDirectories of the given one (lines 43-47) and the registry is empty; the load at line 41 is LoadAgents, which the caller runs after construction |
| Controller.Mastermind.LoadAgents | controller.py:49-54 | the scan raises exactly when some ".py" file of "agents" fails to load; otherwise every defining file of "agents" is registered and "tools" and "executor" are not read |
| Controller.Mastermind.ScanDirectory | controller.py:51-54 | only "agents" loads anything; a clean scan adds the entries discovered in it |
| Controller.Mastermind.LoadAgentModule | controller.py:56-68 | a failing module, constructor or initialize raises; otherwise the last agent class of the module is stored under the file's agent name |
| Controller.Mastermind.ExecuteAgents | controller.py:70-79 | every registered agent runs once; "tools" gains exactly the promoted files and "agents" is unchanged |
| Controller.Mastermind.ExecuteSingleAgent | controller.py:81-91 | promotion happens only after execute, get_data and shutdown all returned; every failure is caught |
| Controller.Mastermind.SaveAgentAsTool | controller.py:93-98 | the copy succeeds exactly when the source file exists, and then adds it to "tools" |
| Nonmonotonic.Rule.Applies | nonmonotonic.py:8-9 | a rule applies exactly when every one of its conditions is believed |
| Nonmonotonic.Default.Applies | nonmonotonic.py:18-19 | a default applies exactly when none of its conditions is believed |
| Nonmonotonic.RuleConclusions | nonmonotonic.py:43-45 | the rules loop adds only conclusions on record |
| Nonmonotonic.DefaultConclusions | nonmonotonic.py:47-49 | the defaults loop adds only conclusions on record |
| Nonmonotonic.Step | nonmonotonic.py:40-49 | one round yields only conclusions on record |
| Nonmonotonic.GapShrinks | nonmonotonic.py:51-54 | a round that adds something new narrows what is left to believe, so the loop terminates |
| Nonmonotonic.Closure | nonmonotonic.py:36-56 | the loop's final beliefs contain the start, hold only conclusions on record, and are a fixpoint of a round |
| Nonmonotonic.RuleConclusionsCover | nonmonotonic.py:43-45 | every applying rule's conclusions are among the round's new beliefs |
| Nonmonotonic.DefaultConclusionsCover | nonmonotonic.py:47-49 | every applying default's conclusions are among the round's new beliefs |
| Nonmonotonic.ClosureIsFixpoint | nonmonotonic.py:51-52 | on exit every rule and default that applies to the final beliefs has all its conclusions believed |
| Nonmonotonic.DefaultsAlwaysConcluded | nonmonotonic.py:36-49 | since saturation starts from no beliefs, every default fires in the first round and its conclusions are believed at the end |
| Nonmonotonic.NothingFromNothing | nonmonotonic.py:36-56 | with no rules and no defaults no query is concluded |
| Nonmonotonic.ExampleRun | nonmonotonic.py:58-63 | the example ends with beliefs {"E"}, so "C" is not concluded |
| Nonmonotonic.DefaultLogic.constructor | nonmonotonic.py:22-24 | no rules and no defaults |
| Nonmonotonic.DefaultLogic.AddRule | nonmonotonic.py:26-29 | the rule is appended |
| Nonmonotonic.DefaultLogic.AddDefault | nonmonotonic.py:31-34 | the default is appended |
| Nonmonotonic.DefaultLogic.Evaluate | nonmonotonic.py:36-56 | the answer is whether the query is in the saturation fixpoint |
| Nonmonotonic.DefaultLogic.Round | nonmonotonic.py:41-49 | the new beliefs of one round are the conclusions of the applying rules and defaults |
| Epistemic.AfterPrefix | epistemic.py:43 | slicing off four characters splits the string, and gives "" for strings shorter than four |
| Epistemic.Contradicts | epistemic.py:30-45 | the test raises KeyError exactly when the condition holds for a proposition that is not a key; without the condition it answers false |
| Epistemic.NegationRoundTrip | epistemic.py:43-44 | putting "not " back on the stripped negation gives the negated proposition itself |
| Epistemic.KeysNeverRaise | epistemic.py:21-27 | the test never raises for a key of the map, so revision cannot fail |
| Epistemic.NegationsNeverContradict | epistemic.py:43-44 | a negated key is never flagged, since it is compared with its own value |
| Epistemic.PlainKeyRetraction | epistemic.py:43-44 | a plain key is flagged exactly when its negation is a key and the probed entry is absent or holds the opposite value |
| Epistemic.Revised | epistemic.py:21-27 | revision never adds a key and never changes a kept value |
| Epistemic.NegationsSurvive | epistemic.py:21-44 | every negated key survives revision |
| Epistemic.RetractedHaveNegations | epistemic.py:21-44 | only a plain key whose negation is also a key can be retracted |
| Epistemic.NoNegationsNoChange | epistemic.py:21-44 | without negated keys revision changes nothing |
| Epistemic.ConsistentPairRetracted | epistemic.py:43-44 | "rain" true and "not rain" false still retracts "rain", because the probe is "not " + "rain"[4:] |
| Epistemic.AutoepistemicAgent.constructor | epistemic.py:2-9 | the beliefs are the initial beliefs |
| Epistemic.AutoepistemicAgent.AddInformation | epistemic.py:11-19 | new entries overwrite, every other entry is kept, and no other key appears |
| Epistemic.AutoepistemicAgent.ContradictsNewInformation | epistemic.py:30-45 | the test on the current beliefs |
| Epistemic.AutoepistemicAgent.ReviseBeliefs | epistemic.py:21-28 | every pop finds its key, and the beliefs become Revised of the beliefs before revision |
| Epistemic.DemoRun | epistemic.py:48-52 | the demonstration ends with "The sky is blue" false and "Grass is green" true |
| Reasoning.RemoveFirst | reasoning.py:39 | the list loses one element exactly when the premise is present, and keeps only premises it had |
| Reasoning.RemoveFirstSplices | reasoning.py:38-39 | removing a present premise cuts out exactly its first occurrence |
| Reasoning.RemoveFirstAbsent | reasoning.py:38-42 | an absent premise leaves the list unchanged |
| Reasoning.RemoveFirstOneCopy | reasoning.py:38-39 | removal takes away one copy of the premise and nothing else |
| Reasoning.BulletsAppend | reasoning.py:53-54 | the bullets of two lists joined are the two bullet texts joined |
| Reasoning.PremiseAtOffset | reasoning.py:52-55 | each premise appears after its "\n- " marker, in list order |
| Reasoning.ConclusionText | reasoning.py:52-55 | the conclusion opens with "Based on the premises: " and ends with the fixed closing sentence |
| Reasoning.SocraticReasoning.constructor | reasoning.py:12-15 | no premises |
| Reasoning.SocraticReasoning.AddPremise | reasoning.py:27-32 | the premise is appended, duplicates kept |
| Reasoning.SocraticReasoning.ChallengePremise | reasoning.py:34-42 | the removal message is chosen exactly when the premise was present; its first occurrence is removed, and an absent premise changes nothing |
| Reasoning.SocraticReasoning.DrawConclusion | reasoning.py:44-56 | no conclusion (the error) exactly when there are no premises; otherwise the conclusion text over all premises, and the list is unchanged |
| Logic.Replace | logic.py:20 | replacing a non-empty name that does not occur leaves the text unchanged |
| Logic.ReplaceBySelf | logic.py:20 | replacing a name by itself leaves the text unchanged, with the empty pattern included |
| Logic.Substituted | logic.py:17-21 | an expression that mentions no variable name reaches eval unchanged |
| Logic.SubstitutedDemo | logic.py:45-52 | "not P" with P true and Q false reaches eval as "not True" |
| Logic.SubstitutionIsTextual | logic.py:19-20 | substitution replaces text, not variables: "a" with a true and e false becomes "TruFalse" |
| Logic.Product | logic.py:31 | each row has one value per variable |
| Logic.Assignments | logic.py:31 | 2^n rows of n values each |
| Logic.AssignmentsInProductOrder | logic.py:31 | rows come in product order (True before False, leftmost first), so no row repeats |
| Logic.AssignmentsComplete | logic.py:31 | every assignment of n truth values is a row |
| Logic.FirstRowAllTrue | logic.py:31 | the first row is all True |
| Logic.LastRowAllFalse | logic.py:31 | the last row is all False |
| Logic.ZipKeys | logic.py:33 | with distinct variables, each variable keys exactly one pair of the value dictionary, and that pair carries its own value |
| Logic.TruthTable | logic.py:23-37 | the table has 1 + 2^n rows and its header names the variables, then the expressions |
| Logic.TableShape | logic.py:23-37 | the table has 1 + 2^n rows; the header names the variables then the expressions; each data row holds an assignment and then every expression's value under it |
| Logic.LogicTables.constructor | logic.py:5-7 | no variables and no expressions |
| Logic.LogicTables.AddVariable | logic.py:9-11 | set insertion; adding a variable twice changes nothing |
| Logic.LogicTables.AddExpression | logic.py:13-15 | the expression is appended |
| Logic.LogicTables.EvaluateExpression | logic.py:17-21 | eval of the text after every replacement, in order |
| Logic.LogicTables.GenerateTruthTable | logic.py:23-37 | the message when there are no variables or no expressions; otherwise the truth table for the variables' iteration order |
| Logic.LogicTables.TableRow | logic.py:31-36 | one row: the assignment, then each expression's value |
| Autonomize.RetryTrace | autonomize.py:24-38 | a run starts with the first call of `automate_task` (or the reset when there are no attempts) and ends with the reset or with a successful call |
| Autonomize.ExponentialBackoff | autonomize.py:12-14 | the backoff never exceeds 60 seconds and is 2^attempt or the cap |
| Autonomize.BackoffUncapped | autonomize.py:12-14 | attempts 0 to 5 wait exactly 2^attempt seconds |
| Autonomize.BackoffCapped | autonomize.py:12-14 | from attempt 6 on the wait is 60 seconds |
| Autonomize.BackoffMonotone | autonomize.py:12-14 | a later attempt never waits less |
| Autonomize.RunTaskBound | autonomize.py:28-35 | from a given attempt `automate_task` is called at most once per remaining attempt |
| Autonomize.TasksAtMostAttempts | autonomize.py:28-38 | `automate_task` is called at most `attempts` times |
| Autonomize.StopsAtFirstSuccess | autonomize.py:28-32 | the first successful attempt ends the run, with no reset |
| Autonomize.ResetIffAllFail | autonomize.py:28-38 | self-healing runs exactly when every attempt failed, and it is then the last event |
| Autonomize.SleepAfterFailure | autonomize.py:33-35 | each failed attempt is followed at once by a sleep of its backoff |
| Autonomize.AllFailTrace | autonomize.py:24-38 | with three failures: task, 2 s, task, 4 s, task, 8 s, reset |
| Autonomize.AsWrittenRun | autonomize.py:16-32 | `automate_task` as written always returns, so a run is a single call |
| Autonomize.Autonomizer.constructor | autonomize.py:9-10 | three attempts |
| Autonomize.Autonomizer.SelfHealingProcedure | autonomize.py:40-56 | self-healing is one system reset |
| Autonomize.Autonomizer.ResilientFunction | autonomize.py:24-38 | the events of a run are RetryTrace of the attempt outcomes |
| ModelHandler.Lower | model_handler.py:13 | lowercasing maps every character and keeps the length |
| ModelHandler.GetModelType | model_handler.py:12-18 | GPTQ exactly when "gptq" occurs in the lowercased name; full precision only when "ggml" does not occur |
| ModelHandler.InitAutoModelAndTokenizer | model_handler.py:32-41 | loading fails exactly for a GGML model whose config lacks "models_folder" or "default_tokenizer"; a successful load created a folder exactly when the model is GGML |
| ModelHandler.ModelTypePrecedence | model_handler.py:12-18 | GPTQ exactly when "gptq" occurs in the lowercased name; GGML when "ggml" occurs but "gptq" does not; full precision otherwise |
| ModelHandler.ModelTypeIgnoresCase | model_handler.py:12-18 | names equal up to case get the same type |
| ModelHandler.BothFormatsIsGptq | model_handler.py:12-18 | "GGML-GPTQ" is a GPTQ model: "gptq" wins |
| ModelHandler.InitializeGpuModelAndTokenizer | model_handler.py:23-30 | the GPU loader never creates a folder |
| ModelHandler.FullPrecisionLoadsLlama | model_handler.py:27-29 | a full-precision model is loaded as a Llama model with the GPT-2 tokenizer |
| ModelHandler.LoaderBranches | model_handler.py:32-41 | the download branch runs exactly for GGML, fails with KeyError when "models_folder" or "default_tokenizer" is missing, and otherwise loads the downloaded file with the configured tokenizer; every other type goes to the GPU loader |

Some members are the specification functions of the rows above and have no
row of their own, because their meaning is stated by the lemmas and methods
that use them:
- `Mastermind.AutoConfigure` is `auto_configure`'s config (MASTERMIND.py:13-20), used by `DefaultConfigRejectsEveryAgent`.
- `Mastermind.RunAll` is the sequential `execute_agents` (MASTERMIND.py:85-102), used by `RunAllCollects`, `ExecutionOrderIrrelevant` and `ExecuteAgents`.
- `Controller.RunAgent` is `_execute_single_agent` on the file system (controller.py:81-91), used by `Controller.RunAll` and `RunAllPromotes`.
- `Autonomize.Run` is the retry loop (autonomize.py:28-38), used by `RetryTrace` and the lemmas about it.
- `Strings.Occurs` is Python's `in` on strings, used by `Replace`, `GetModelType` and `ModelTypePrecedence`.

## Left out

- Threads: `execute_agents` in both controllers runs agents sequentially in an unspecified order. This is exact for the stores because each agent writes only its own key. Interleavings inside one agent's lifecycle are not modelled.
- File I/O, `json` and `psutil` are left out. This covers `load_config`, `auto_configure`'s existence check, `save_data_store`, `monitor_resources`, `os.chmod` and `create_folder_if_not_exists`. The config arrives as a constructor argument; a failed read is `None`.
- The config is taken to be a map of lists. A config.json of another shape, on which `.get` or `in` would fail, is not modelled.
- `importlib` loading and `dir(module)` are a `Loader` parameter. A module that imports `AgentInterface` itself is a loader result whose constructor raises.
- In controller.py the `initialize` calls during loading and the order of log messages are not recorded.
- controller.py does no allow-list check (MASTERMIND.py's `validate_agent` does); the model follows the code.
- Mastermind.Mastermind.UnloadAgent: in the source a KeyError raised by the agent's `shutdown` is caught by the not-found handler and logged as "Agent not found". The model reports it as a shutdown error. The registry afterwards is the same in both.
- Controller.Mastermind.LoadAgents: after an exception leaves the scan, the registry contents are not stated. The source's `__init__` does not survive that exception anyway.
- `eval` is a parameter `string -> bool`. Texts on which Python's eval raises or returns a non-bool are not modelled.
- `display_truth_table`, `log`, `interact`, `print` and `logging` are output and interaction only, so they are left out.
- ModelHandler.Lower: only ASCII letters are lowercased. Python's Unicode case mapping is not modelled.
- Autonomize.ExponentialBackoff: attempt numbers are natural. For a negative attempt Python's `2 ** attempt` is a float, and the loop never passes one.
- The one-second sleeps inside `automate_task` and `reset_system_state` are folded into the `Task` and `Reset` events.
- `hf_hub_download`, `AutoModelForCausalLM`, `AutoTokenizer` and `LlamaModel` are foreign calls, modelled by the arguments they receive.
- ModelHandler.LoaderBranches: when "default_tokenizer" is missing, the folder creation and the download that happen before the KeyError are not recorded.
- Epistemic.AutoepistemicAgent.constructor: the source shares the caller's dictionary, so later updates are visible to the caller. Dafny maps are values, so this aliasing is not modelled.
- `Rule`, `Default`, `add_rule` and `add_default` raise ValueError for arguments of the wrong type. Dafny's types rule these out.
- Iteration order of Python sets and dicts is left open (`Orderings.IsOrdering`). Every proved result holds for every order.

## Findings

| source | as written | input that shows it | evidently intended | confidence | as-written member | corrected member |
|---|---|---|---|---|---|---|
| MASTERMIND.py:17 | `auto_configure` writes the seed agents under the key "agents", while `validate_agent` (line 117) reads "allowed_agents" | a fresh config.json, then `load_agent("SimpleCoder.py", ...)` is rejected | the seed list stored under "allowed_agents", so the seeded agents pass validation | high; not executed | Mastermind.DefaultConfigRejectsEveryAgent | Mastermind.FixedDefaultConfigAdmitsSeeds |
