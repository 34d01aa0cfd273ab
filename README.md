# Rule-chain interpreter

A model of the rule engine's executors in `core/usecases/rule_engine.py`.

A rule chain is a list of typed nodes: SOURCE, SCRIPT, SWITCH and ACTION.
The executor indexes the nodes by id. It starts at the first SOURCE node and
dispatches one node at a time along the active edge, carrying a single
intermediate value. ACTION nodes write into the context's nested
`devices[device][parameter]` table and report every write to the
device-update operation. The batch runner runs every stored chain, in listing
order, against one shared context.

Modules:

- `Wrappers` (`wrappers.dfy`): the Option type.
- `Values` (`values.dfy`): the JSON values that nodes read and write.
  - `PyEquals` is Python's `==` on them, so `True == 1` and `False == 0`.
- `Chains` (`chain.dfy`): chains and nodes, plus the node dictionary the executor builds.
  - `Keys` is the dictionary's iteration order: each id at its first occurrence (`KeysFirstOccurrence`).
  - `Index` is its contents: the last node listed with an id wins (`IndexLastWins`).
  - `FirstSource` is the search for the start node.
- `Interpreter` (`interpreter.dfy`): the meaning of a run, as functions on values.
  - `Step` dispatches one node.
  - `Run` is the traversal loop, under a step budget.
  - `RunChain` adds the search for the start node.
  - `RunAll` is the batch.
  - The Python exceptions that abort a run are the `Error` cases.
  - The traversal ends when the next id is `None` or the empty string, following Python truthiness.
- `InterpreterFacts` (`interpreter_facts.dfy`): what each node kind promises, and properties of whole runs and batches.
- `Executor` (`executor.dfy`): the two executor classes, with fields that stand for the source's.
  - The context is an object that ACTION nodes change in place.
  - The device-update operation is an object that keeps a ghost list of its calls.
  - Each method is proved to compute exactly what the corresponding `Interpreter` function says.

  The fields differ from the source's in four ways:
  - `RuleChainExecutor.sandbox` stands for the JavaScript interpreter that the source creates anew on every SCRIPT call (`core/usecases/rule_engine.py:199`).
  - `RuleChainExecutor` keeps only the chain's `integrationId`, not the whole chain entity (`core/usecases/rule_engine.py:152`).
  - The source's single node dictionary (`core/usecases/rule_engine.py:153`) is two fields: `order`, its iteration order, and `nodes`, its contents.
  - `AllRuleChainsExecutor` has no repository field (`core/usecases/rule_engine.py:244`). The listing of chains is a parameter of `Execute`.
- `Scenarios` (`scenarios.dfy`): concrete chains.
  - A thermostat chain: SOURCE, then SWITCH, then one of two ACTIONs.
  - A heater chain: SOURCE, then ACTION.
  - Together they show that the listing order of a batch decides whether one chain's write is visible to the next chain.

Two checks the code does not make, and the model does not make either:

- The code does not check that a chain has exactly one SOURCE node. It starts at the first id, in dictionary order, whose node is a SOURCE.
- The code does not check that a SWITCH has as many targets as conditions. It raises only when the first match falls past the end of the targets (`SwitchTargetMissing`).

## Model

| member | source | states |
|---|---|---|
| Values.PyEquals | core/usecases/rule_engine.py:212 | Python's `==` on JSON values: booleans and integers compare by number, everything else compares structurally. Its properties are stated by `Values.PyEqualsFacts`. |
| Values.PyEqualsFacts | core/usecases/rule_engine.py:212 | `==` is reflexive, symmetric and transitive. `True == 1` and `False == 0`. A string equals only the same string. |
| Chains.Index | core/usecases/rule_engine.py:153 | Every entry of the node dictionary is filed under its own node's id. Every listed node's id is a key. |
| Chains.IndexHoldsListedNodes | core/usecases/rule_engine.py:153 | Every entry of the node dictionary is one of the listed nodes. |
| Chains.IndexLastWins | core/usecases/rule_engine.py:153 | Whatever ids repeat, the entry under an id is a listed node, and no later node has that id: the last assignment wins. |
| Chains.Keys | core/usecases/rule_engine.py:153 | The iteration order holds exactly the dictionary's keys, each once. |
| Chains.KeysFirstOccurrence | core/usecases/rule_engine.py:153 | Whatever ids repeat, when node `j` is the first with its id and an earlier node `i` has another id, `i`'s id comes before `j`'s in the iteration order. |
| Chains.FirstSource | core/usecases/rule_engine.py:158-161 | The start is the first id in iteration order whose node is a SOURCE. None means no id leads to a SOURCE (the `StopIteration` case). |
| Chains.UniqueIdsKeys | core/usecases/rule_engine.py:153 | With unique ids, the iteration order is the listing order: one key per node, in the same positions. |
| Chains.UniqueIdsIndex | core/usecases/rule_engine.py:153 | With unique ids, no node is shadowed: each node is the one its id looks up. |
| Chains.StartIsFirstListedSource | core/usecases/rule_engine.py:158-161 | With unique ids, the start exists iff the chain lists a SOURCE node. It is then the first SOURCE node of the listing. |
| Chains.NoSourceNodeNoStart | core/usecases/rule_engine.py:158-161 | A chain that lists no SOURCE node has no start, even with repeated ids. |
| Interpreter.Continues | core/usecases/rule_engine.py:162 | The loop test `while current_node_id`: true exactly for a present, non-empty id (Python truthiness of `None` and `""`). |
| Interpreter.Lookup | core/usecases/rule_engine.py:186-191 | `devices[d][p]`, or None when the context has no `devices` or either key is missing (the `KeyError` the SOURCE catches). Used by `SourceMissStops`/`SourceHitAdvances`. |
| Interpreter.Upsert | core/usecases/rule_engine.py:218-219 | One `setdefault(d, {})[p] = value` write on the device table. Its effect is stated by `InterpreterFacts.UpsertSemantics`. |
| Interpreter.ApplyActions | core/usecases/rule_engine.py:217-219 | The writes of an ACTION in order. Their effect is stated by `ApplyActionsLookup` (against the independent `LastWrite`) and `ApplyActionsDevices`. |
| Interpreter.Step | core/usecases/rule_engine.py:167-225 | Dispatching one node: the next id and new state, or the error it raises. Per node kind it is characterised by the `InterpreterFacts` lemmas below, and `ExecuteNode` is proved to agree with it. |
| Interpreter.Run | core/usecases/rule_engine.py:162-164 | The traversal loop under a step budget: dispatches while `Continues`, fails on an id missing from the table (`KeyError`). Stated by `RunNeverMissesInput` and `RunExtendsLog`; `Execute`'s loop is proved to compute it. |
| Interpreter.RunChain | core/usecases/rule_engine.py:157-165 | A chain run from the `FirstSource` start, or `NoSourceNode`. Stated by `NoSourceFailsWithoutEffect`, `StartSourceMissLeavesContext` and `RunChainNeverMissesInput`. |
| Interpreter.RunAll | core/usecases/rule_engine.py:249-260 | The batch: chains in listing order, sharing the device table and call log, each starting with no intermediate value, stopping at the first chain that does not complete. Stated by `RunAllAppend` and `RunAllExtendsLog`. |
| Interpreter.FirstMatch | core/usecases/rule_engine.py:210-214 | Returns the first condition, in declaration order, whose operator is `==` and whose value equals the input. No earlier condition matches. None iff no condition matches. |
| Interpreter.LastWrite | core/usecases/rule_engine.py:217-219 | Reference for ACTION writes: the position of a triple that writes the device/parameter pair, with no later triple writing it. None iff no triple writes it. |
| Interpreter.Calls | core/usecases/rule_engine.py:220-234 | One device-update call per triple, in order, each carrying the chain's integration id and the triple's device, key and value. |
| InterpreterFacts.UpsertSemantics | core/usecases/rule_engine.py:218-219 | One write creates the device's table when it is missing and sets the written parameter. Every other parameter of that device and every other device keep their values. |
| InterpreterFacts.ApplyActionsLookup | core/usecases/rule_engine.py:217-219 | After an ACTION, every `devices[d][p]` holds the value of the last write to it if there was one, and otherwise what it held before. |
| InterpreterFacts.ApplyActionsDevices | core/usecases/rule_engine.py:217-219 | An ACTION adds exactly the devices its triples name (the `setdefault`). Every device it does not name keeps its whole parameter map. |
| InterpreterFacts.ActionUpserts | core/usecases/rule_engine.py:216-225 | On a context with a device table, an ACTION node upserts its triples and appends their calls to the log. It keeps the intermediate value and returns no next node. |
| InterpreterFacts.ActionIsTerminal | core/usecases/rule_engine.py:216-225 | An ACTION never yields a next node. It can fail only with a non-empty action list on a context without `devices`. |
| InterpreterFacts.SourceMissStops | core/usecases/rule_engine.py:186-191 | A SOURCE whose device or parameter is absent returns no next node and leaves the state unchanged. |
| InterpreterFacts.SourceHitAdvances | core/usecases/rule_engine.py:183-193 | A SOURCE whose keys are present sets the intermediate value to `devices[device][parameter]` and advances to its target. |
| InterpreterFacts.StartSourceMissLeavesContext | core/usecases/rule_engine.py:157-191 | A run whose start SOURCE misses ends with the state it started from: devices, input and calls. |
| InterpreterFacts.ScriptReplacesInput | core/usecases/rule_engine.py:199-204 | A SCRIPT replaces the intermediate value with the sandbox's result and advances to its target. A failing script aborts with that script's error. |
| InterpreterFacts.SwitchFollowsFirstMatch | core/usecases/rule_engine.py:210-213 | A SWITCH follows the target of the first matching condition, whatever later conditions also match, and changes nothing. |
| InterpreterFacts.SwitchWithoutMatchStops | core/usecases/rule_engine.py:210-214 | A SWITCH with no matching condition returns no next node and changes nothing. |
| InterpreterFacts.NoSourceFailsWithoutEffect | core/usecases/rule_engine.py:158-161 | A chain without a SOURCE node fails before any node is dispatched. The state is unchanged. |
| InterpreterFacts.UnknownTypeAborts | core/usecases/rule_engine.py:176-177 | Reaching a node with an unknown type aborts the run with that type and changes nothing. |
| InterpreterFacts.RunNeverMissesInput | core/usecases/rule_engine.py:162-214 | From any reachable point of a traversal, a run never reads the intermediate value before a SOURCE has set it. |
| InterpreterFacts.RunChainNeverMissesInput | core/usecases/rule_engine.py:157-214 | A whole chain run never fails on a missing intermediate value, whatever the chain. |
| InterpreterFacts.RunExtendsLog | core/usecases/rule_engine.py:162-234 | A run only appends device-update calls. A run that makes no call leaves the device table as it was. |
| InterpreterFacts.RunAllAppend | core/usecases/rule_engine.py:253-260 | Running a batch of `first + rest` is running `first`, then running `rest` against the device table and calls it left, unless `first` stopped the batch. |
| InterpreterFacts.RunAllExtendsLog | core/usecases/rule_engine.py:253-260 | A batch only appends device-update calls. |
| Executor.DeviceUpdateSink.Apply | core/usecases/rule_engine.py:228-234 | The external device-update operation records one call. |
| Executor.RuleChainExecutor.constructor | core/usecases/rule_engine.py:148-149 | Keeps the device-update operation. The executor starts with no context and no intermediate value. |
| Executor.RuleChainExecutor.SetParams | core/usecases/rule_engine.py:151-155 | Loads the chain's node dictionary (order and contents), its integration id and the context. Clears the intermediate value. |
| Executor.RuleChainExecutor.Execute | core/usecases/rule_engine.py:157-165 | The outcome and the new context, intermediate value and call log are exactly `RunChain` on the loaded chain. Returns the same context object. |
| Executor.RuleChainExecutor.ExecuteNode | core/usecases/rule_engine.py:167-177 | Dispatching by type agrees with `Step`: on success it moves to Step's next id and state; on failure it raises Step's error and changes nothing. |
| Executor.RuleChainExecutor.ExecuteSource | core/usecases/rule_engine.py:179-193 | Agrees with `Step` on a SOURCE node. |
| Executor.RuleChainExecutor.ExecuteScript | core/usecases/rule_engine.py:195-204 | Agrees with `Step` on a SCRIPT node. |
| Executor.RuleChainExecutor.ExecuteSwitch | core/usecases/rule_engine.py:206-214 | Its scan agrees with `Step` on a SWITCH node (the first match, through `FirstMatch`) and changes nothing. |
| Executor.RuleChainExecutor.ExecuteAction | core/usecases/rule_engine.py:216-225 | The in-place writes and calls, triple by triple, agree with `Step` on an ACTION node: the table becomes `ApplyActions` of the old one, and the log grows by `Calls`. |
| Executor.RuleChainExecutor.PerformAction | core/usecases/rule_engine.py:227-234 | Appends exactly one call, with the loaded chain's integration id and the given device, key and value. |
| Executor.AllRuleChainsExecutor.constructor | core/usecases/rule_engine.py:238-244 | Keeps the single-chain executor. No context is set yet. |
| Executor.AllRuleChainsExecutor.SetParams | core/usecases/rule_engine.py:246-247 | Stores the shared context. |
| Executor.AllRuleChainsExecutor.Execute | core/usecases/rule_engine.py:249-260 | The outcome, the shared context's device table and the call log are exactly `RunAll` over the listing. Returns the shared context. |
| Scenarios.ThermostatIsShaped | core/usecases/rule_engine.py:153-161 | The thermostat chain's dictionary starts at its SOURCE n1 and holds its SWITCH and first ACTION under their ids. |
| Scenarios.HeaterIsShaped | core/usecases/rule_engine.py:153-161 | The heater chain's dictionary starts at its SOURCE s and holds its ACTION under its id. |
| Scenarios.UpsertWrites | core/usecases/rule_engine.py:218-219 | After one write, the written entry holds the written value. |
| Scenarios.ThermostatReads | core/usecases/rule_engine.py:158-193 | With `d1.temp` set, the thermostat run reads it and moves on to the SWITCH n4 with that value. |
| Scenarios.ThermostatHotRun | core/usecases/rule_engine.py:157-225 | With `d1.temp = "HOT"`, the run completes after the first branch's ACTION: fan d2 is on and exactly one call is made. |
| Scenarios.ThermostatQuietRun | core/usecases/rule_engine.py:206-214 | A reading equal to neither `"HOT"` nor `"COLD"` matches no condition. The run completes with the table and the calls unchanged. |
| Scenarios.ThermostatGraphMiss | core/usecases/rule_engine.py:186-191 | Without `d1.temp`, the thermostat run completes at its SOURCE with nothing changed. |
| Scenarios.HotReadingTakesFirstBranch | core/usecases/rule_engine.py:186-225 | With `d1.temp = "HOT"`, the first branch runs: the fan is turned on and one call is made. |
| Scenarios.MissingReadingChangesNothing | core/usecases/rule_engine.py:186-191 | With `d1` present but no `temp`, the run completes after the SOURCE with nothing changed. |
| Scenarios.ActionOnEmptyTable | core/usecases/rule_engine.py:217-224 | An ACTION on an empty table creates the device with the written parameter and makes one call. |
| Scenarios.HeaterGraphRun | core/usecases/rule_engine.py:157-225 | The heater chain on a table where `d0.trigger` is set writes `d1.temp = "HOT"` and makes one call. |
| Scenarios.RunAllPair | core/usecases/rule_engine.py:253-260 | A two-chain batch runs the second chain against what the first left, if the first completed. |
| Scenarios.HeaterThenThermostat | core/usecases/rule_engine.py:253-260 | Heater first: the thermostat reads the heater's write and turns the fan on. |
| Scenarios.ThermostatThenHeater | core/usecases/rule_engine.py:253-260 | Thermostat first: it finds no reading and the fan is never set. |
| Scenarios.BatchOrderDecidesVisibility | core/usecases/rule_engine.py:253-260 | The listing order of a batch decides whether the later chain sees the earlier chain's write. |

## Left out

- List, retrieve, delete and bulk-delete use cases (`core/usecases/rule_engine.py:19-67`): thin wrappers over the database repository.
- `GenerateRuleChainUseCase` (`core/usecases/rule_engine.py:70-144`): prompt assembly around an external language-model API.
- `core/services/ai.py`, the React dashboard and the schema migration: no rule-engine logic.
- JavaScript evaluation in MiniRacer: an uninterpreted `Sandbox` parameter. It returns the script's `executeScript` result, or None when the script raises. The sandbox is taken to be a function of the script and the input that always returns. A fresh interpreter per call isolates scripts from each other, but does not make them deterministic. A script that reads `Math.random` or `Date`, or that never returns (the call has no timeout), is not modelled. In the model, a cycle that re-runs a script on the same input repeats itself, where the source's might not.
- SCRIPT order of checks: the source evaluates the script before it reads the intermediate value, and the model checks the value first. The two orders differ only in which error is raised, and `RunChainNeverMissesInput` shows that the missing-value error never occurs in a run.
- `UpdateDeviceAttributeUsecase`: only its calls are recorded. The model takes every call to succeed. A failure that it raises is not modelled.
- `RuleChainRepo.get_all_entries` and `RuleChainEntity.from_dict`/`to_dict`: the listing is a parameter of the batch, and chains come already parsed. A type tag outside the four node kinds is the `Unknown` case. A target that is absent in storage is whatever string the entity layer gives it, such as `"None"`.
- Values are integers, strings, booleans and null. Floats, lists and objects in device tables and conditions are not modelled.
- `Executor.RuleChainExecutor.Execute` / `Executor.AllRuleChainsExecutor.Execute`: `fuel` bounds the number of nodes a run dispatches. A traversal that is still going when the fuel runs out (for example, one on a cyclic chain that would loop forever) ends as `OutOfFuel` instead of diverging.
- The device table is a value inside the context object. If the caller's table shared one parameter dictionary between two device ids, a Python write through one would show through the other. The model does not capture that aliasing.
- Other entries of the context dictionary: only `devices` is read or written.
- The per-chain result list that the batch builds and discards: it has no observable effect.
- Python exceptions become outcomes (`Failed(error)`) together with the context as the failing node left it. The exception class and message are not modelled.
