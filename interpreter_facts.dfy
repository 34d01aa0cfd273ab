/**
 * What the interpreter promises, proved about the functions of `Interpreter`:
 * the behaviour of each node type, the start of a run, the invariants a run
 * keeps, and how the batch composes chain runs.
 */
module InterpreterFacts {
  import opened Wrappers
  import opened Values
  import opened Chains
  import opened Interpreter

  // ---------------------------------------------------------------- ACTION

  /** After the writes, `devices[d][p]` holds the last value written to it, or what it held before. */
  lemma {:induction false} ApplyActionsLookup(devices: Devices, actions: seq<ActionTriple>, d: DeviceId, p: ParameterId)
    ensures Lookup(Some(ApplyActions(devices, actions)), d, p) == AfterWrites(actions, d, p, Lookup(Some(devices), d, p))
  {
    if actions != [] {
      var init := actions[..|actions| - 1];
      ApplyActionsLookup(devices, init, d, p);
      if LastWrite(init, d, p).Some? {
        var i := LastWrite(init, d, p).value;
        assert init[i] == actions[i];
      }
    }
  }

  /**
   * One write creates the device's table when it is missing, sets the written
   * parameter, and keeps every other parameter and every other device.
   */
  lemma UpsertSemantics(devices: Devices, a: ActionTriple)
    ensures var r := Upsert(devices, a);
      && r.Keys == devices.Keys + {a.deviceId}
      && a.parameterId in r[a.deviceId] && r[a.deviceId][a.parameterId] == a.value
      && r[a.deviceId].Keys == (if a.deviceId in devices then devices[a.deviceId].Keys else {}) + {a.parameterId}
      && (forall q :: a.deviceId in devices && q in devices[a.deviceId] && q != a.parameterId ==>
            r[a.deviceId][q] == devices[a.deviceId][q])
      && (forall d :: d in devices && d != a.deviceId ==> r[d] == devices[d])
  {
  }

  /** Extending the processed prefix of an ACTION's triples by one is one more upsert and one more call. */
  lemma ActionsPrefixStep(integrationId: int, devices: Devices, actions: seq<ActionTriple>, i: nat)
    requires i < |actions|
    ensures ApplyActions(devices, actions[..i + 1]) == Upsert(ApplyActions(devices, actions[..i]), actions[i])
    ensures Calls(integrationId, actions[..i + 1])
         == Calls(integrationId, actions[..i]) + [DeviceUpdate(integrationId, actions[i].deviceId, actions[i].parameterId, actions[i].value)]
  {
    assert actions[..i + 1][..i] == actions[..i];
  }

  /**
   * The writes create a device entry exactly for the devices they name, and a
   * device they do not name keeps its parameter table as it was.
   */
  lemma {:induction false} ApplyActionsDevices(devices: Devices, actions: seq<ActionTriple>)
    ensures forall d :: d in ApplyActions(devices, actions) <==>
      d in devices || exists i :: 0 <= i < |actions| && actions[i].deviceId == d
    ensures forall d :: d in devices && (forall i :: 0 <= i < |actions| ==> actions[i].deviceId != d) ==>
      ApplyActions(devices, actions)[d] == devices[d]
  {
    if actions != [] {
      var init := actions[..|actions| - 1];
      ApplyActionsDevices(devices, init);
      assert forall i :: 0 <= i < |init| ==> init[i] == actions[i];
    }
  }

  /**
   * An ACTION node on a context with a device table upserts every triple,
   * leaves every other entry alone, makes one device-update call per triple in
   * order with the chain's integration id, keeps the intermediate value, and
   * ends the traversal.
   */
  lemma ActionUpserts(integrationId: int, sandbox: Sandbox, node: Node, st: State)
    requires node.body.Action? && st.devices.Some?
    ensures var s := Step(integrationId, sandbox, node, st);
      && s.Advance? && s.next == None
      && s.post.input == st.input
      && s.post.devices.Some?
      && s.post.log == st.log + Calls(integrationId, node.body.actions)
      && (forall d, p :: Lookup(s.post.devices, d, p) == AfterWrites(node.body.actions, d, p, Lookup(st.devices, d, p)))
  {
    var s := Step(integrationId, sandbox, node, st);
    forall d, p
      ensures Lookup(s.post.devices, d, p) == AfterWrites(node.body.actions, d, p, Lookup(st.devices, d, p))
    {
      ApplyActionsLookup(st.devices.value, node.body.actions, d, p);
    }
  }

  /** An ACTION node never hands on a next node: it ends the traversal or fails. */
  lemma ActionIsTerminal(integrationId: int, sandbox: Sandbox, node: Node, st: State)
    requires node.body.Action?
    ensures var s := Step(integrationId, sandbox, node, st);
      s.Fault? ==> s.error == MissingDevices && node.body.actions != [] && st.devices.None?
    ensures var s := Step(integrationId, sandbox, node, st);
      s.Advance? ==> s.next == None
  {
  }

  // ---------------------------------------------------------------- SOURCE

  /** A SOURCE whose device or parameter is missing ends the traversal and changes nothing. */
  lemma SourceMissStops(integrationId: int, sandbox: Sandbox, node: Node, st: State)
    requires node.body.Source? && Lookup(st.devices, node.body.deviceId, node.body.parameterId).None?
    ensures Step(integrationId, sandbox, node, st) == Advance(None, st)
  {
  }

  /** A SOURCE whose value is present makes it the intermediate value and advances to its target. */
  lemma SourceHitAdvances(integrationId: int, sandbox: Sandbox, node: Node, st: State)
    requires node.body.Source? && st.devices.Some?
    requires node.body.deviceId in st.devices.value
    requires node.body.parameterId in st.devices.value[node.body.deviceId]
    ensures Step(integrationId, sandbox, node, st)
         == Advance(Some(node.body.target),
                    st.(input := Some(st.devices.value[node.body.deviceId][node.body.parameterId])))
  {
  }

  /**
   * When the start SOURCE misses, the whole chain run changes nothing, and it
   * completes unless it had no budget for a single node.
   */
  lemma StartSourceMissLeavesContext(g: Graph, sandbox: Sandbox, st: State, fuel: nat)
    requires FirstSource(g.order, g.index).Some?
    requires var n := g.index[g.order[FirstSource(g.order, g.index).value]];
      Lookup(st.devices, n.body.deviceId, n.body.parameterId).None?
    ensures RunChain(g, sandbox, st, fuel).post == st
    ensures fuel > 0 ==> RunChain(g, sandbox, st, fuel).outcome == Completed
  {
    var k := g.order[FirstSource(g.order, g.index).value];
    if k != "" && fuel > 0 {
      SourceMissStops(g.integrationId, sandbox, g.index[k], st);
      assert Run(g, sandbox, Some(k), st, fuel) == Run(g, sandbox, None, st, fuel - 1);
    }
  }

  // ---------------------------------------------------------------- SCRIPT

  /** A SCRIPT replaces the intermediate value by the sandbox's result and advances; a sandbox failure aborts. */
  lemma ScriptReplacesInput(integrationId: int, sandbox: Sandbox, node: Node, st: State)
    requires node.body.Script? && st.input.Some?
    ensures var out := sandbox(node.body.script, st.input.value);
      out.Some? ==> Step(integrationId, sandbox, node, st) == Advance(Some(node.body.target), st.(input := out))
    ensures sandbox(node.body.script, st.input.value).None? ==>
      Step(integrationId, sandbox, node, st) == Fault(ScriptFailed(node.body.script))
  {
  }

  // ---------------------------------------------------------------- SWITCH

  /**
   * A SWITCH follows the target of the first matching condition, whatever
   * later conditions also match, and leaves the state as it was.
   */
  lemma SwitchFollowsFirstMatch(integrationId: int, sandbox: Sandbox, node: Node, st: State, i: nat)
    requires node.body.Switch? && st.input.Some?
    requires i < |node.body.conditions| && i < |node.body.targets|
    requires Matches(node.body.conditions[i], st.input.value)
    requires forall j :: 0 <= j < i ==> !Matches(node.body.conditions[j], st.input.value)
    ensures Step(integrationId, sandbox, node, st) == Advance(Some(node.body.targets[i]), st)
  {
  }

  /** A SWITCH where no condition matches ends the traversal and changes nothing. */
  lemma SwitchWithoutMatchStops(integrationId: int, sandbox: Sandbox, node: Node, st: State)
    requires node.body.Switch? && st.input.Some?
    requires forall j :: 0 <= j < |node.body.conditions| ==> !Matches(node.body.conditions[j], st.input.value)
    ensures Step(integrationId, sandbox, node, st) == Advance(None, st)
  {
  }

  // ---------------------------------------------------------------- a chain run

  /** A chain without a SOURCE node fails before it has any effect. */
  lemma NoSourceFailsWithoutEffect(chain: Chain, sandbox: Sandbox, st: State, fuel: nat)
    requires forall i :: 0 <= i < |chain.nodes| ==> !chain.nodes[i].body.Source?
    ensures RunChain(GraphOf(chain), sandbox, st, fuel) == RunResult(Failed(NoSourceNode), st)
  {
    NoSourceNodeNoStart(chain.nodes);
  }

  /** A node of unknown type aborts the run at once, with the state it was reached in. */
  lemma UnknownTypeAborts(g: Graph, sandbox: Sandbox, k: NodeId, st: State, fuel: nat)
    requires k != "" && fuel > 0 && k in g.index && g.index[k].body.Unknown?
    ensures Run(g, sandbox, Some(k), st, fuel) == RunResult(Failed(UnknownNodeType(g.index[k].body.tag)), st)
  {
  }

  /** Every node reachable by a run has an intermediate value to read, or is a SOURCE. */
  ghost predicate InputReady(g: Graph, current: Option<NodeId>, st: State)
  {
    st.input.Some? || !Continues(current) || IsSourceKey(g.index, current.value)
  }

  lemma {:induction false} RunNeverMissesInput(g: Graph, sandbox: Sandbox, current: Option<NodeId>, st: State, fuel: nat)
    requires InputReady(g, current, st)
    ensures Run(g, sandbox, current, st, fuel).outcome != Failed(MissingInput)
    decreases fuel
  {
    if Continues(current) && fuel > 0 && current.value in g.index {
      match Step(g.integrationId, sandbox, g.index[current.value], st)
      case Fault(e) =>
      case Advance(next, post) =>
        RunNeverMissesInput(g, sandbox, next, post, fuel - 1);
    }
  }

  /**
   * A chain run never reads the intermediate value before it is set: it starts
   * at a SOURCE, which sets it or ends the run, and nothing later clears it.
   */
  lemma RunChainNeverMissesInput(g: Graph, sandbox: Sandbox, st: State, fuel: nat)
    ensures RunChain(g, sandbox, st, fuel).outcome != Failed(MissingInput)
  {
    match FirstSource(g.order, g.index)
    case None =>
    case Some(i) => RunNeverMissesInput(g, sandbox, Some(g.order[i]), st, fuel);
  }

  /**
   * Device-update calls are never taken back: a run, whether it completes or
   * fails, only appends to the calls made before it, and a run that makes no
   * call leaves the device table as it was.
   */
  lemma {:induction false} RunExtendsLog(g: Graph, sandbox: Sandbox, current: Option<NodeId>, st: State, fuel: nat)
    ensures st.log <= Run(g, sandbox, current, st, fuel).post.log
    ensures Run(g, sandbox, current, st, fuel).post.log == st.log ==>
      Run(g, sandbox, current, st, fuel).post.devices == st.devices
    decreases fuel
  {
    if Continues(current) && fuel > 0 && current.value in g.index {
      var node := g.index[current.value];
      match Step(g.integrationId, sandbox, node, st)
      case Fault(e) =>
      case Advance(next, post) =>
        RunExtendsLog(g, sandbox, next, post, fuel - 1);
        if node.body.Action? && node.body.actions != [] {
          assert |Calls(g.integrationId, node.body.actions)| > 0;
          assert |post.log| > |st.log|;
        }
    }
  }

  // ---------------------------------------------------------------- the batch

  /**
   * Running a listing is running its first part and then, if that completed,
   * the rest against the device table and calls it left: later chains see
   * earlier chains' writes.
   */
  lemma {:induction false} RunAllAppend(first: seq<Chain>, rest: seq<Chain>, sandbox: Sandbox,
                                        devices: Option<Devices>, log: seq<DeviceUpdate>, fuel: nat)
    ensures RunAll(first + rest, sandbox, devices, log, fuel)
         == var r := RunAll(first, sandbox, devices, log, fuel);
            if r.outcome.Completed? then RunAll(rest, sandbox, r.devices, r.log, fuel) else r
    decreases |first|
  {
    if first == [] {
      assert first + rest == rest;
    } else {
      assert (first + rest)[0] == first[0];
      assert (first + rest)[1..] == first[1..] + rest;
      var r := RunChain(GraphOf(first[0]), sandbox, State(devices, None, log), fuel);
      if r.outcome.Completed? {
        RunAllAppend(first[1..], rest, sandbox, r.post.devices, r.post.log, fuel);
      }
    }
  }

  /** The batch's calls extend the calls made before it, chain after chain. */
  lemma {:induction false} RunAllExtendsLog(chains: seq<Chain>, sandbox: Sandbox,
                                            devices: Option<Devices>, log: seq<DeviceUpdate>, fuel: nat)
    ensures log <= RunAll(chains, sandbox, devices, log, fuel).log
    decreases |chains|
  {
    if chains != [] {
      var g := GraphOf(chains[0]);
      var st := State(devices, None, log);
      var r := RunChain(g, sandbox, st, fuel);
      match FirstSource(g.order, g.index)
      case None =>
      case Some(i) => RunExtendsLog(g, sandbox, Some(g.order[i]), st, fuel);
      if r.outcome.Completed? {
        RunAllExtendsLog(chains[1..], sandbox, r.post.devices, r.post.log, fuel);
      }
    }
  }
}
