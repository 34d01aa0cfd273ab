/**
 * The executors as objects that change state in place: the shared context
 * whose device table ACTION nodes update, the device-update collaborator
 * (only its calls are recorded), the single-chain executor and the batch
 * runner. Every method is proved to do what the functions of `Interpreter`
 * say.
 */
module Executor {
  import opened Wrappers
  import opened Values
  import opened Chains
  import opened Interpreter
  import opened InterpreterFacts

  /** The caller's context dictionary; `devices` is None when it has no "devices" entry. */
  class Context {
    var devices: Option<Devices>

    constructor (devices: Option<Devices>)
      ensures this.devices == devices
    {
      this.devices := devices;
    }
  }

  /** The external device-update operation; the model keeps the list of its calls. */
  class DeviceUpdateSink {
    ghost var calls: seq<DeviceUpdate>

    constructor ()
      ensures calls == []
    {
      calls := [];
    }

    method Apply(update: DeviceUpdate)
      modifies this
      ensures calls == old(calls) + [update]
    {
      calls := calls + [update];
    }
  }

  /** What one executor method reports: the next node id, or the error it raised. */
  datatype NodeResult = Ok(next: Option<NodeId>) | Err(error: Error)

  /** A method's result and state change agree with a Step: advance to its state, or fail leaving the state as it was. */
  ghost predicate Agrees(r: NodeResult, step: StepResult, pre: State, post: State)
  {
    match step
    case Advance(next, s) => r == Ok(next) && post == s
    case Fault(e) => r == Err(e) && post == pre
  }

  class RuleChainExecutor {
    const sink: DeviceUpdateSink
    const sandbox: Sandbox
    var integrationId: int
    var order: seq<NodeId>
    var nodes: map<NodeId, Node>
    var context: Context?
    var intermediate: Option<Value>

    constructor (sink: DeviceUpdateSink, sandbox: Sandbox)
      ensures this.sink == sink && this.sandbox == sandbox
      ensures context == null && intermediate == None
    {
      this.sink := sink;
      this.sandbox := sandbox;
      integrationId := 0;
      order := [];
      nodes := map[];
      context := null;
      intermediate := None;
    }

    /** The chain being executed, as the interpreter functions see it. */
    function CurrentGraph(): Graph
      reads this
    {
      Graph(order, nodes, integrationId)
    }

    /** The run state: the context's device table, the intermediate value, the calls made. */
    ghost function Snapshot(): State
      requires context != null
      reads this, context, sink
    {
      State(context.devices, intermediate, sink.calls)
    }

    /** Loads a chain and the context to run it against, with no intermediate value yet. */
    method SetParams(chain: Chain, ctx: Context)
      modifies this
      ensures CurrentGraph() == GraphOf(chain)
      ensures context == ctx && intermediate == None
    {
      integrationId := chain.integrationId;
      nodes := Index(chain.nodes);
      order := Keys(chain.nodes);
      context := ctx;
      intermediate := None;
    }

    /** Runs the loaded chain from its first SOURCE node, dispatching at most `fuel` nodes. */
    method Execute(fuel: nat) returns (outcome: Outcome, result: Context)
      requires context != null
      modifies this`intermediate, context, sink
      ensures result == context
      ensures RunResult(outcome, Snapshot()) == RunChain(CurrentGraph(), sandbox, old(Snapshot()), fuel)
    {
      result := context;
      var start := FirstSource(order, nodes);
      if start.None? {
        return Failed(NoSourceNode), result;
      }
      var current: Option<NodeId> := Some(order[start.value]);
      var left := fuel;
      while Continues(current)
        invariant Run(CurrentGraph(), sandbox, current, Snapshot(), left)
               == RunChain(CurrentGraph(), sandbox, old(Snapshot()), fuel)
        decreases left
      {
        if left == 0 {
          return OutOfFuel, result;
        }
        if current.value !in nodes {
          return Failed(MissingNode(current.value)), result;
        }
        var r := ExecuteNode(nodes[current.value]);
        if r.Err? {
          return Failed(r.error), result;
        }
        current := r.next;
        left := left - 1;
      }
      outcome := Completed;
    }

    /** Dispatches a node by its type tag. */
    method ExecuteNode(node: Node) returns (r: NodeResult)
      requires context != null
      modifies this`intermediate, context, sink
      ensures Agrees(r, Step(integrationId, sandbox, node, old(Snapshot())), old(Snapshot()), Snapshot())
    {
      match node.body
      case Source(_, _, _) => r := ExecuteSource(node);
      case Script(_, _) => r := ExecuteScript(node);
      case Switch(_, _) => r := ExecuteSwitch(node);
      case Action(_) => r := ExecuteAction(node);
      case Unknown(tag) => r := Err(UnknownNodeType(tag));
    }

    /** Reads `devices[device][parameter]` into the intermediate value, or stops when it is missing. */
    method ExecuteSource(node: Node) returns (r: NodeResult)
      requires context != null && node.body.Source?
      modifies this`intermediate
      ensures Agrees(r, Step(integrationId, sandbox, node, old(Snapshot())), old(Snapshot()), Snapshot())
    {
      var d, p := node.body.deviceId, node.body.parameterId;
      if context.devices.Some? && d in context.devices.value && p in context.devices.value[d] {
        intermediate := Some(context.devices.value[d][p]);
        r := Ok(Some(node.body.target));
      } else {
        r := Ok(None);
      }
    }

    /** Replaces the intermediate value by the script's result on it. */
    method ExecuteScript(node: Node) returns (r: NodeResult)
      requires context != null && node.body.Script?
      modifies this`intermediate
      ensures Agrees(r, Step(integrationId, sandbox, node, old(Snapshot())), old(Snapshot()), Snapshot())
    {
      if intermediate.None? {
        return Err(MissingInput);
      }
      var output := sandbox(node.body.script, intermediate.value);
      if output.None? {
        return Err(ScriptFailed(node.body.script));
      }
      intermediate := output;
      r := Ok(Some(node.body.target));
    }

    /** Follows the target of the first "==" condition equal to the intermediate value. */
    method ExecuteSwitch(node: Node) returns (r: NodeResult)
      requires context != null && node.body.Switch?
      ensures Agrees(r, Step(integrationId, sandbox, node, Snapshot()), Snapshot(), Snapshot())
    {
      if intermediate.None? {
        return Err(MissingInput);
      }
      var input := intermediate.value;
      var conditions := node.body.conditions;
      var i := 0;
      while i < |conditions|
        invariant 0 <= i <= |conditions|
        invariant forall j :: 0 <= j < i ==> !Matches(conditions[j], input)
      {
        if conditions[i].operator == "==" && PyEquals(conditions[i].value, input) {
          if i < |node.body.targets| {
            return Ok(Some(node.body.targets[i]));
          }
          return Err(SwitchTargetMissing(i));
        }
        i := i + 1;
      }
      r := Ok(None);
    }

    /** Writes every triple into the device table and reports it, in order; never continues. */
    method ExecuteAction(node: Node) returns (r: NodeResult)
      requires context != null && node.body.Action?
      modifies context, sink
      ensures Agrees(r, Step(integrationId, sandbox, node, old(Snapshot())), old(Snapshot()), Snapshot())
    {
      var actions := node.body.actions;
      var i := 0;
      while i < |actions|
        invariant 0 <= i <= |actions|
        invariant i > 0 ==> old(context.devices).Some?
        invariant context.devices == if old(context.devices).None? then None
                                     else Some(ApplyActions(old(context.devices).value, actions[..i]))
        invariant sink.calls == old(sink.calls) + Calls(integrationId, actions[..i])
      {
        if context.devices.None? {
          return Err(MissingDevices);
        }
        var a := actions[i];
        var devices := context.devices.value;
        var device := if a.deviceId in devices then devices[a.deviceId] else map[];
        context.devices := Some(devices[a.deviceId := device[a.parameterId := a.value]]);
        PerformAction(a.deviceId, a.parameterId, a.value);
        ActionsPrefixStep(integrationId, old(context.devices).value, actions, i);
        i := i + 1;
      }
      assert actions[..i] == actions;
      r := Ok(None);
    }

    /** Calls the device-update operation for this chain's integration. */
    method PerformAction(deviceId: DeviceId, key: ParameterId, value: Value)
      modifies sink
      ensures sink.calls == old(sink.calls) + [DeviceUpdate(integrationId, deviceId, key, value)]
    {
      sink.Apply(DeviceUpdate(integrationId, deviceId, key, value));
    }
  }

  /** The batch runner: every chain of the listing against one shared context. */
  class AllRuleChainsExecutor {
    const executor: RuleChainExecutor
    var context: Context?

    constructor (executor: RuleChainExecutor)
      ensures this.executor == executor && context == null
    {
      this.executor := executor;
      context := null;
    }

    method SetParams(ctx: Context)
      modifies this
      ensures context == ctx
    {
      context := ctx;
    }

    /**
     * Runs `chains` (the store's listing) in order; returns the shared context.
     * A failing chain stops the batch.
     */
    method Execute(chains: seq<Chain>, fuel: nat) returns (outcome: Outcome, result: Context)
      requires context != null
      modifies executor, context, executor.sink
      ensures result == context
      ensures BatchResult(outcome, context.devices, executor.sink.calls)
           == RunAll(chains, executor.sandbox, old(context.devices), old(executor.sink.calls), fuel)
    {
      result := context;
      var i := 0;
      while i < |chains|
        invariant 0 <= i <= |chains|
        invariant RunAll(chains[i..], executor.sandbox, context.devices, executor.sink.calls, fuel)
               == RunAll(chains, executor.sandbox, old(context.devices), old(executor.sink.calls), fuel)
      {
        executor.SetParams(chains[i], context);
        var chainOutcome, _ := executor.Execute(fuel);
        assert chains[i..][1..] == chains[i + 1..];
        if !chainOutcome.Completed? {
          return chainOutcome, result;
        }
        i := i + 1;
      }
      outcome := Completed;
    }
  }
}
