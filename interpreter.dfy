/**
 * The meaning of a rule-chain run, as functions over values.
 *
 * `Step` is what dispatching one node does to the run's state, `Run` is the
 * traversal loop (bounded by a step budget, since a chain's graph may have
 * cycles and the traversal need not end), `RunChain` adds the search for the
 * start node, and `RunAll` is the batch runner threading one device table
 * through every chain in listing order. The executor classes are proved to
 * compute exactly these.
 */
module Interpreter {
  import opened Wrappers
  import opened Values
  import opened Chains

  /** The context's `devices` table: device id to parameter id to value. */
  type Devices = map<DeviceId, map<ParameterId, Value>>

  /**
   * The script sandbox: the result of calling `executeScript` on an input after
   * evaluating a node's script in a fresh interpreter, or None when the script
   * fails. It is taken to be a function of its arguments that always returns:
   * scripts that read a clock or a random source, or never return, are outside
   * the model.
   */
  type Sandbox = (string, Value) -> Option<Value>

  /** One call of the external device-update operation. */
  datatype DeviceUpdate = DeviceUpdate(integrationId: int, deviceId: DeviceId, key: ParameterId, value: Value)

  /** The exceptions that abort a run. */
  datatype Error =
    | NoSourceNode                  // no SOURCE node to start from
    | MissingNode(id: NodeId)       // a next-node id that is not in the chain
    | UnknownNodeType(tag: string)  // a node with a type outside the four
    | MissingInput                  // an intermediate value read before any was set
    | ScriptFailed(script: string)  // the sandbox raised
    | SwitchTargetMissing(index: nat) // a SWITCH matched past the end of its targets
    | MissingDevices                // an ACTION on a context without a device table

  /**
   * What a run can observe and change: the context's device table (None when
   * the context has no `devices` entry), the intermediate value (None until a
   * SOURCE sets it) and the device-update calls made so far.
   */
  datatype State = State(devices: Option<Devices>, input: Option<Value>, log: seq<DeviceUpdate>)

  datatype StepResult = Advance(next: Option<NodeId>, post: State) | Fault(error: Error)

  /** How a run ends; OutOfFuel stands for a traversal that had not ended within its budget. */
  datatype Outcome = Completed | Failed(error: Error) | OutOfFuel

  datatype RunResult = RunResult(outcome: Outcome, post: State)

  /** The batch result: the shared context's device table and the calls made. */
  datatype BatchResult = BatchResult(outcome: Outcome, devices: Option<Devices>, log: seq<DeviceUpdate>)

  /** The executor's view of one chain: node iteration order, node table, owner. */
  datatype Graph = Graph(order: seq<NodeId>, index: map<NodeId, Node>, integrationId: int)

  function GraphOf(chain: Chain): Graph
  {
    Graph(Keys(chain.nodes), Index(chain.nodes), chain.integrationId)
  }

  /** The traversal goes on while the next id is present and non-empty (Python truthiness). */
  predicate Continues(next: Option<NodeId>)
  {
    next.Some? && next.value != ""
  }

  /** Lookup of `devices[d][p]`, None when any of the three levels is missing. */
  function Lookup(devices: Option<Devices>, d: DeviceId, p: ParameterId): Option<Value>
  {
    if devices.Some? && d in devices.value && p in devices.value[d] then Some(devices.value[d][p])
    else None
  }

  predicate Matches(c: Condition, v: Value)
  {
    c.operator == "==" && PyEquals(c.value, v)
  }

  /** The first condition, in declaration order, that matches `v`. */
  function FirstMatch(conditions: seq<Condition>, v: Value): (r: Option<nat>)
    ensures r.Some? ==> r.value < |conditions| && Matches(conditions[r.value], v)
    ensures r.Some? ==> forall j :: 0 <= j < r.value ==> !Matches(conditions[j], v)
    ensures r.None? <==> forall j :: 0 <= j < |conditions| ==> !Matches(conditions[j], v)
  {
    if conditions == [] then None
    else if Matches(conditions[0], v) then Some(0)
    else
      match FirstMatch(conditions[1..], v)
      case None => None
      case Some(i) => Some(i + 1)
  }

  /** One ACTION write: `devices.setdefault(d, {})[p] = value`. */
  function Upsert(devices: Devices, a: ActionTriple): Devices
  {
    var device := if a.deviceId in devices then devices[a.deviceId] else map[];
    devices[a.deviceId := device[a.parameterId := a.value]]
  }

  /** The writes of an ACTION node applied in order. */
  function ApplyActions(devices: Devices, actions: seq<ActionTriple>): Devices
  {
    if actions == [] then devices
    else Upsert(ApplyActions(devices, actions[..|actions| - 1]), actions[|actions| - 1])
  }

  predicate Writes(a: ActionTriple, d: DeviceId, p: ParameterId)
  {
    a.deviceId == d && a.parameterId == p
  }

  /** Reference for ApplyActions: the position of the last triple that writes `d`/`p`, if any. */
  function LastWrite(actions: seq<ActionTriple>, d: DeviceId, p: ParameterId): (r: Option<nat>)
    ensures r.Some? ==> r.value < |actions| && Writes(actions[r.value], d, p)
    ensures r.Some? ==> forall j :: r.value < j < |actions| ==> !Writes(actions[j], d, p)
    ensures r.None? <==> forall i :: 0 <= i < |actions| ==> !Writes(actions[i], d, p)
  {
    if actions == [] then None
    else if Writes(actions[|actions| - 1], d, p) then Some(|actions| - 1)
    else LastWrite(actions[..|actions| - 1], d, p)
  }

  /** What `devices[d][p]` holds after the writes: the last write's value, or `before` when none writes it. */
  function AfterWrites(actions: seq<ActionTriple>, d: DeviceId, p: ParameterId, before: Option<Value>): Option<Value>
  {
    match LastWrite(actions, d, p)
    case Some(i) => Some(actions[i].value)
    case None => before
  }

  /** The device-update calls an ACTION node makes: one per triple, in order, for its chain's integration. */
  function Calls(integrationId: int, actions: seq<ActionTriple>): (calls: seq<DeviceUpdate>)
    ensures |calls| == |actions|
    ensures forall i :: 0 <= i < |actions| ==>
      calls[i] == DeviceUpdate(integrationId, actions[i].deviceId, actions[i].parameterId, actions[i].value)
  {
    if actions == [] then []
    else
      var a := actions[|actions| - 1];
      Calls(integrationId, actions[..|actions| - 1]) + [DeviceUpdate(integrationId, a.deviceId, a.parameterId, a.value)]
  }

  /** Dispatching one node: its effect on the state and the next node id, or the error it raises. */
  function Step(integrationId: int, sandbox: Sandbox, node: Node, st: State): StepResult
  {
    match node.body
    case Source(d, p, target) =>
      (match Lookup(st.devices, d, p)
       case None => Advance(None, st)
       case Some(v) => Advance(Some(target), st.(input := Some(v))))
    case Script(script, target) =>
      if st.input.None? then Fault(MissingInput)
      else
        (match sandbox(script, st.input.value)
         case None => Fault(ScriptFailed(script))
         case Some(v) => Advance(Some(target), st.(input := Some(v))))
    case Switch(conditions, targets) =>
      if st.input.None? then Fault(MissingInput)
      else
        (match FirstMatch(conditions, st.input.value)
         case None => Advance(None, st)
         case Some(i) =>
           if i < |targets| then Advance(Some(targets[i]), st) else Fault(SwitchTargetMissing(i)))
    case Action(actions) =>
      if actions == [] then Advance(None, st)
      else if st.devices.None? then Fault(MissingDevices)
      else
        Advance(None, st.(devices := Some(ApplyActions(st.devices.value, actions)),
                          log := st.log + Calls(integrationId, actions)))
    case Unknown(tag) => Fault(UnknownNodeType(tag))
  }

  /** The traversal loop from `current`, dispatching at most `fuel` nodes. */
  function Run(g: Graph, sandbox: Sandbox, current: Option<NodeId>, st: State, fuel: nat): RunResult
    decreases fuel
  {
    if !Continues(current) then RunResult(Completed, st)
    else if fuel == 0 then RunResult(OutOfFuel, st)
    else if current.value !in g.index then RunResult(Failed(MissingNode(current.value)), st)
    else
      match Step(g.integrationId, sandbox, g.index[current.value], st)
      case Fault(e) => RunResult(Failed(e), st)
      case Advance(next, post) => Run(g, sandbox, next, post, fuel - 1)
  }

  /** A whole chain run: start at the first SOURCE id in iteration order, or fail without one. */
  function RunChain(g: Graph, sandbox: Sandbox, st: State, fuel: nat): RunResult
  {
    match FirstSource(g.order, g.index)
    case None => RunResult(Failed(NoSourceNode), st)
    case Some(i) => Run(g, sandbox, Some(g.order[i]), st, fuel)
  }

  /**
   * The batch: every chain in listing order against the same device table and
   * call log, each with a fresh intermediate value; the first failure stops it.
   */
  function RunAll(chains: seq<Chain>, sandbox: Sandbox, devices: Option<Devices>,
                  log: seq<DeviceUpdate>, fuel: nat): BatchResult
    decreases |chains|
  {
    if chains == [] then BatchResult(Completed, devices, log)
    else
      var r := RunChain(GraphOf(chains[0]), sandbox, State(devices, None, log), fuel);
      if r.outcome.Completed? then RunAll(chains[1..], sandbox, r.post.devices, r.post.log, fuel)
      else BatchResult(r.outcome, r.post.devices, r.post.log)
  }
}
