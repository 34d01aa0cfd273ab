/**
 * Concrete runs: a SOURCE feeding a SWITCH whose branches are ACTION nodes,
 * the same chain against missing telemetry, a single ACTION on an empty
 * device table, and a batch in which one chain's write triggers another.
 * No scenario has a SCRIPT node, so each holds for every sandbox.
 */
module Scenarios {
  import opened Wrappers
  import opened Values
  import opened Chains
  import opened Interpreter

  const INTEGRATION := 7

  const READ_TEMP := Node("n1", Source("d1", "temp", "n4"))
  const BRANCH := Node("n4", Switch([Condition("==", Str("HOT")), Condition("==", Str("COLD"))], ["n2", "n3"]))
  const FAN_ON := Node("n2", Action([ActionTriple("d2", "fan", Str("on"))]))
  const FAN_OFF := Node("n3", Action([ActionTriple("d2", "fan", Str("off"))]))

  /** SOURCE(d1.temp) -> SWITCH(== "HOT" -> n2, == "COLD" -> n3); n2 turns fan d2 on, n3 off. */
  const THERMOSTAT := Chain(1, INTEGRATION, [READ_TEMP, BRANCH, FAN_ON, FAN_OFF])

  const READ_TRIGGER := Node("s", Source("d0", "trigger", "a"))
  const HEAT := Node("a", Action([ActionTriple("d1", "temp", Str("HOT"))]))

  /** SOURCE(d0.trigger) -> ACTION(d1.temp := "HOT"). */
  const HEATER := Chain(2, INTEGRATION, [READ_TRIGGER, HEAT])

  /** A graph that starts at n1 and holds the thermostat's SOURCE, SWITCH and first ACTION. */
  ghost predicate ThermostatShape(g: Graph)
  {
    && g.integrationId == INTEGRATION
    && |g.order| > 0 && g.order[0] == "n1"
    && "n1" in g.index && g.index["n1"] == READ_TEMP
    && "n4" in g.index && g.index["n4"] == BRANCH
    && "n2" in g.index && g.index["n2"] == FAN_ON
  }

  /** A graph that starts at s and holds the heater's SOURCE and ACTION. */
  ghost predicate HeaterShape(g: Graph)
  {
    && g.integrationId == INTEGRATION
    && |g.order| > 0 && g.order[0] == "s"
    && "s" in g.index && g.index["s"] == READ_TRIGGER
    && "a" in g.index && g.index["a"] == HEAT
  }

  lemma ThermostatIsShaped()
    ensures ThermostatShape(GraphOf(THERMOSTAT))
  {
    var ns := THERMOSTAT.nodes;
    assert UniqueIds(ns);
    UniqueIdsKeys(ns);
    UniqueIdsIndex(ns);
    assert ns[0] == READ_TEMP && ns[1] == BRANCH && ns[2] == FAN_ON;
  }

  lemma HeaterIsShaped()
    ensures HeaterShape(GraphOf(HEATER))
  {
    var ns := HEATER.nodes;
    assert UniqueIds(ns);
    UniqueIdsKeys(ns);
    UniqueIdsIndex(ns);
    assert ns[0] == READ_TRIGGER && ns[1] == HEAT;
  }

  /** An upsert sets the written entry. */
  lemma UpsertWrites(devices: Devices, a: ActionTriple)
    ensures Lookup(Some(Upsert(devices, a)), a.deviceId, a.parameterId) == Some(a.value)
  {
  }

  /** An ACTION with one triple is one upsert and one call. */
  lemma SingleAction(integrationId: int, devices: Devices, a: ActionTriple)
    ensures ApplyActions(devices, [a]) == Upsert(devices, a)
    ensures Calls(integrationId, [a]) == [DeviceUpdate(integrationId, a.deviceId, a.parameterId, a.value)]
  {
    assert [a][..0] == [];
  }

  /** The thermostat's SOURCE reads d1.temp and hands it to the SWITCH n4. */
  lemma ThermostatReads(g: Graph, sandbox: Sandbox, devices: Devices, log: seq<DeviceUpdate>, fuel: nat)
    requires ThermostatShape(g) && fuel >= 1
    requires "d1" in devices && "temp" in devices["d1"]
    ensures var st := State(Some(devices), None, log);
      RunChain(g, sandbox, st, fuel) == Run(g, sandbox, Some("n4"), st.(input := Some(devices["d1"]["temp"])), fuel - 1)
  {
    var st := State(Some(devices), None, log);
    assert FirstSource(g.order, g.index) == Some(0);
    assert Step(INTEGRATION, sandbox, READ_TEMP, st) == Advance(Some("n4"), st.(input := Some(devices["d1"]["temp"])));
  }

  /** A "HOT" reading takes the first branch, whose ACTION turns fan d2 on and makes one call. */
  lemma ThermostatHotRun(g: Graph, sandbox: Sandbox, devices: Devices, log: seq<DeviceUpdate>, fuel: nat)
    requires ThermostatShape(g) && fuel >= 3
    requires "d1" in devices && "temp" in devices["d1"] && devices["d1"]["temp"] == Str("HOT")
    ensures RunChain(g, sandbox, State(Some(devices), None, log), fuel)
         == RunResult(Completed,
              State(Some(Upsert(devices, ActionTriple("d2", "fan", Str("on")))), Some(Str("HOT")),
                    log + [DeviceUpdate(INTEGRATION, "d2", "fan", Str("on"))]))
  {
    var st1 := State(Some(devices), Some(Str("HOT")), log);
    ThermostatReads(g, sandbox, devices, log, fuel);
    assert FirstMatch(BRANCH.body.conditions, Str("HOT")) == Some(0);
    assert Step(INTEGRATION, sandbox, BRANCH, st1) == Advance(Some("n2"), st1);
    assert Run(g, sandbox, Some("n4"), st1, fuel - 1) == Run(g, sandbox, Some("n2"), st1, fuel - 2);
    var a := ActionTriple("d2", "fan", Str("on"));
    SingleAction(INTEGRATION, devices, a);
    var st2 := st1.(devices := Some(Upsert(devices, a)), log := log + [DeviceUpdate(INTEGRATION, "d2", "fan", Str("on"))]);
    assert Step(INTEGRATION, sandbox, FAN_ON, st1) == Advance(None, st2);
    assert Run(g, sandbox, Some("n2"), st1, fuel - 2) == Run(g, sandbox, None, st2, fuel - 3);
  }

  /** A reading equal to neither "HOT" nor "COLD" matches no condition: the run ends with nothing changed. */
  lemma ThermostatQuietRun(g: Graph, sandbox: Sandbox, devices: Devices, log: seq<DeviceUpdate>, fuel: nat)
    requires ThermostatShape(g) && fuel >= 2
    requires "d1" in devices && "temp" in devices["d1"]
    requires !PyEquals(Str("HOT"), devices["d1"]["temp"]) && !PyEquals(Str("COLD"), devices["d1"]["temp"])
    ensures RunChain(g, sandbox, State(Some(devices), None, log), fuel)
         == RunResult(Completed, State(Some(devices), Some(devices["d1"]["temp"]), log))
  {
    var temp := devices["d1"]["temp"];
    var st1 := State(Some(devices), Some(temp), log);
    ThermostatReads(g, sandbox, devices, log, fuel);
    assert FirstMatch(BRANCH.body.conditions, temp) == None;
    assert Step(INTEGRATION, sandbox, BRANCH, st1) == Advance(None, st1);
    assert Run(g, sandbox, Some("n4"), st1, fuel - 1) == Run(g, sandbox, None, st1, fuel - 2);
  }

  /** With d1.temp = "HOT" the run goes SOURCE, SWITCH, then the first branch n2, which turns the fan on. */
  lemma HotReadingTakesFirstBranch(sandbox: Sandbox, fuel: nat)
    requires fuel >= 3
    ensures var devices: Devices := map["d1" := map["temp" := Str("HOT")]];
      RunChain(GraphOf(THERMOSTAT), sandbox, State(Some(devices), None, []), fuel)
      == RunResult(Completed,
                   State(Some(devices["d2" := map["fan" := Str("on")]]), Some(Str("HOT")),
                         [DeviceUpdate(INTEGRATION, "d2", "fan", Str("on"))]))
  {
    var devices: Devices := map["d1" := map["temp" := Str("HOT")]];
    ThermostatIsShaped();
    ThermostatHotRun(GraphOf(THERMOSTAT), sandbox, devices, [], fuel);
    assert "d2" !in devices;
    assert Upsert(devices, ActionTriple("d2", "fan", Str("on"))) == devices["d2" := map["fan" := Str("on")]];
  }

  /** The thermostat graph against a table without d1.temp: it stops at its SOURCE. */
  lemma ThermostatGraphMiss(g: Graph, sandbox: Sandbox, devices: Devices, log: seq<DeviceUpdate>, fuel: nat)
    requires ThermostatShape(g) && fuel >= 1
    requires "d1" !in devices || "temp" !in devices["d1"]
    ensures var st := State(Some(devices), None, log);
      RunChain(g, sandbox, st, fuel) == RunResult(Completed, st)
  {
    var st := State(Some(devices), None, log);
    assert FirstSource(g.order, g.index) == Some(0);
    assert Step(INTEGRATION, sandbox, READ_TEMP, st) == Advance(None, st);
    assert Run(g, sandbox, Some("n1"), st, fuel) == Run(g, sandbox, None, st, fuel - 1);
  }

  /** With d1 present but no "temp", the run stops after the SOURCE and changes nothing. */
  lemma MissingReadingChangesNothing(sandbox: Sandbox, fuel: nat)
    requires fuel >= 1
    ensures var st := State(Some(map["d1" := map[]]), None, []);
      RunChain(GraphOf(THERMOSTAT), sandbox, st, fuel) == RunResult(Completed, st)
  {
    ThermostatIsShaped();
    ThermostatGraphMiss(GraphOf(THERMOSTAT), sandbox, map["d1" := map[]], [], fuel);
  }

  /** A single ACTION on an empty device table creates d2 with fan = "on" and makes one call. */
  lemma ActionOnEmptyTable(sandbox: Sandbox)
    ensures Step(INTEGRATION, sandbox, FAN_ON, State(Some(map[]), None, []))
         == Advance(None, State(Some(map["d2" := map["fan" := Str("on")]]), None,
                                [DeviceUpdate(INTEGRATION, "d2", "fan", Str("on"))]))
  {
    SingleAction(INTEGRATION, map[], ActionTriple("d2", "fan", Str("on")));
  }

  /** The heater graph against a table where d0.trigger is set, with a budget of two nodes or more. */
  lemma HeaterGraphRun(g: Graph, sandbox: Sandbox, devices: Devices, log: seq<DeviceUpdate>, fuel: nat)
    requires HeaterShape(g) && fuel >= 2
    requires "d0" in devices && "trigger" in devices["d0"]
    ensures RunChain(g, sandbox, State(Some(devices), None, log), fuel)
         == RunResult(Completed,
                      State(Some(Upsert(devices, ActionTriple("d1", "temp", Str("HOT")))),
                            Some(devices["d0"]["trigger"]),
                            log + [DeviceUpdate(INTEGRATION, "d1", "temp", Str("HOT"))]))
  {
    var st := State(Some(devices), None, log);
    assert FirstSource(g.order, g.index) == Some(0);
    var st1 := st.(input := Some(devices["d0"]["trigger"]));
    assert Step(INTEGRATION, sandbox, READ_TRIGGER, st) == Advance(Some("a"), st1);
    assert Run(g, sandbox, Some("s"), st, fuel) == Run(g, sandbox, Some("a"), st1, fuel - 1);
    var a := ActionTriple("d1", "temp", Str("HOT"));
    SingleAction(INTEGRATION, devices, a);
    var st2 := st1.(devices := Some(Upsert(devices, a)), log := log + [DeviceUpdate(INTEGRATION, "d1", "temp", Str("HOT"))]);
    assert Step(INTEGRATION, sandbox, HEAT, st1) == Advance(None, st2);
    assert Run(g, sandbox, Some("a"), st1, fuel - 1) == Run(g, sandbox, None, st2, fuel - 2);
  }

  /** A batch of two chains: the second runs against what the first left, if the first completed. */
  lemma RunAllPair(first: Chain, second: Chain, sandbox: Sandbox, devices: Option<Devices>, log: seq<DeviceUpdate>, fuel: nat)
    ensures var r1 := RunChain(GraphOf(first), sandbox, State(devices, None, log), fuel);
      var r2 := RunChain(GraphOf(second), sandbox, State(r1.post.devices, None, r1.post.log), fuel);
      RunAll([first, second], sandbox, devices, log, fuel)
      == if r1.outcome.Completed? then BatchResult(r2.outcome, r2.post.devices, r2.post.log)
         else BatchResult(r1.outcome, r1.post.devices, r1.post.log)
  {
    var r1 := RunChain(GraphOf(first), sandbox, State(devices, None, log), fuel);
    assert [first, second][0] == first && [first, second][1..] == [second];
    assert RunAll([first, second], sandbox, devices, log, fuel)
        == if r1.outcome.Completed? then RunAll([second], sandbox, r1.post.devices, r1.post.log, fuel)
           else BatchResult(r1.outcome, r1.post.devices, r1.post.log);
    var r2 := RunChain(GraphOf(second), sandbox, State(r1.post.devices, None, r1.post.log), fuel);
    assert [second][0] == second && [second][1..] == [];
    assert RunAll([], sandbox, r2.post.devices, r2.post.log, fuel) == BatchResult(Completed, r2.post.devices, r2.post.log);
  }

  /**
   * Heater first: it writes d1.temp = "HOT", which the thermostat then reads,
   * turning the fan on. Stated for every pair of chains with these
   * shapes, HEATER and THERMOSTAT among them.
   */
  lemma HeaterThenThermostat(heater: Chain, thermostat: Chain, sandbox: Sandbox, devices: Devices, fuel: nat)
    requires fuel >= 3
    requires HeaterShape(GraphOf(heater)) && ThermostatShape(GraphOf(thermostat))
    requires "d0" in devices && "trigger" in devices["d0"]
    ensures var r := RunAll([heater, thermostat], sandbox, Some(devices), [], fuel);
      r.outcome == Completed && Lookup(r.devices, "d2", "fan") == Some(Str("on"))
  {
    var heat, fan := ActionTriple("d1", "temp", Str("HOT")), ActionTriple("d2", "fan", Str("on"));
    var heated := Upsert(devices, heat);
    var log1 := [DeviceUpdate(INTEGRATION, "d1", "temp", Str("HOT"))];
    HeaterGraphRun(GraphOf(heater), sandbox, devices, [], fuel);
    assert [] + log1 == log1;
    UpsertWrites(devices, heat);
    ThermostatHotRun(GraphOf(thermostat), sandbox, heated, log1, fuel);
    UpsertWrites(heated, fan);
    RunAllPair(heater, thermostat, sandbox, Some(devices), [], fuel);
  }

  /**
   * Thermostat first: d1 has no reading yet, so it stops at its SOURCE and the
   * fan, on a device the table does not have, is never set.
   */
  lemma ThermostatThenHeater(heater: Chain, thermostat: Chain, sandbox: Sandbox, devices: Devices, fuel: nat)
    requires fuel >= 3
    requires HeaterShape(GraphOf(heater)) && ThermostatShape(GraphOf(thermostat))
    requires "d0" in devices && "trigger" in devices["d0"] && "d1" !in devices && "d2" !in devices
    ensures var r := RunAll([thermostat, heater], sandbox, Some(devices), [], fuel);
      r.outcome == Completed && Lookup(r.devices, "d2", "fan") == None
  {
    var st := State(Some(devices), None, []);
    var r1 := RunChain(GraphOf(thermostat), sandbox, st, fuel);
    assert r1 == RunResult(Completed, st) by {
      ThermostatGraphMiss(GraphOf(thermostat), sandbox, devices, [], fuel);
    }
    var heated := Upsert(devices, ActionTriple("d1", "temp", Str("HOT")));
    var r2 := RunChain(GraphOf(heater), sandbox, st, fuel);
    assert r2.outcome == Completed && r2.post.devices == Some(heated) by {
      HeaterGraphRun(GraphOf(heater), sandbox, devices, [], fuel);
    }
    assert "d2" !in heated by {
      assert heated == devices["d1" := map["temp" := Str("HOT")]];
    }
    RunAllPair(thermostat, heater, sandbox, Some(devices), [], fuel);
  }

  const TRIGGERED: Devices := map["d0" := map["trigger" := Bool(true)]]

  /** The listing order of a batch decides whether the thermostat sees the heater's write. */
  lemma BatchOrderDecidesVisibility(sandbox: Sandbox, fuel: nat)
    requires fuel >= 3
    ensures var r := RunAll([HEATER, THERMOSTAT], sandbox, Some(TRIGGERED), [], fuel);
      r.outcome == Completed && Lookup(r.devices, "d2", "fan") == Some(Str("on"))
    ensures var r := RunAll([THERMOSTAT, HEATER], sandbox, Some(TRIGGERED), [], fuel);
      r.outcome == Completed && Lookup(r.devices, "d2", "fan") == None
  {
    HeaterIsShaped();
    ThermostatIsShaped();
    HeaterThenThermostat(HEATER, THERMOSTAT, sandbox, TRIGGERED, fuel);
    ThermostatThenHeater(HEATER, THERMOSTAT, sandbox, TRIGGERED, fuel);
  }
}
