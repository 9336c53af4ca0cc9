/**
 * A deterministic stand-in for the TraCI session that car_light.py drives
 * (`traci.start`, `simulationStep`, `simulation.getTime`,
 * `simulation.getMinExpectedNumber`, `vehicle.getPosition`,
 * `vehicle.setParameter`, `vehicle.setColor`, `close`). The simulation's
 * behaviour is given up front as a Scenario: one Frame per tick.
 */
module Simulation {
  import opened Wrappers
  import opened Geometry
  import opened ColorMap

  /**
   * What the simulation looks like after one tick: the time, the position of
   * every vehicle currently in the network (a vehicle without an entry has not
   * departed yet or has already arrived), the vehicles that refuse a parameter
   * or colour change during this tick, and the number of vehicles still expected.
   */
  datatype Frame = Frame(
    time: real,
    positions: map<string, Pos>,
    rejectParam: set<string>,
    rejectColor: set<string>,
    expectedAfter: nat)

  /**
   * A whole run: the number of vehicles expected before the first tick, and the
   * frames the successive ticks produce. A tick requested after the last frame
   * fails, as a lost connection would.
   */
  datatype Scenario = Scenario(initialExpected: nat, frames: seq<Frame>)

  /** The per-vehicle state the controller writes: the "brightness" parameter and the colour. */
  datatype Attributes = Attributes(brightness: map<string, int>, color: map<string, Rgba>)

  const NoAttributes: Attributes := Attributes(map[], map[])

  /** The simulation as seen after k ticks; before the first tick nothing has departed. */
  function FrameAt(sc: Scenario, k: nat): (f: Frame)
    requires k <= |sc.frames|
    ensures k > 0 ==> f == sc.frames[k - 1]
    ensures k == 0 ==> f.positions == map[] && f.expectedAfter == sc.initialExpected
  {
    if k == 0 then Frame(0.0, map[], {}, {}, sc.initialExpected) else sc.frames[k - 1]
  }

  /** `getMinExpectedNumber()` after k ticks. */
  function Expected(sc: Scenario, k: nat): nat
    requires k <= |sc.frames|
  {
    FrameAt(sc, k).expectedAfter
  }

  /** A vehicle accepts a change only while it is in the network and not refusing. */
  predicate Accepts(f: Frame, id: string, refusing: set<string>) {
    id in f.positions && id !in refusing
  }

  class Sim {
    const scenario: Scenario
    /** Number of ticks performed so far. */
    var steps: nat
    var closed: bool
    var attrs: Attributes

    ghost predicate Valid()
      reads this`steps
    {
      steps <= |scenario.frames|
    }

    /** The current frame of the session. */
    function Current(): Frame
      reads this`steps
      requires Valid()
    {
      FrameAt(scenario, steps)
    }

    /** `traci.start`: a fresh session before its first tick. */
    constructor Start(sc: Scenario)
      ensures Valid()
      ensures scenario == sc && steps == 0 && !closed && attrs == NoAttributes
    {
      scenario := sc;
      steps := 0;
      closed := false;
      attrs := NoAttributes;
    }

    /** `simulation.getMinExpectedNumber()`. */
    method MinExpectedNumber() returns (n: nat)
      requires Valid() && !closed
      ensures n == Expected(scenario, steps)
    {
      n := FrameAt(scenario, steps).expectedAfter;
    }

    /** `simulationStep()`: advances one tick; fails once the scenario is exhausted. */
    method SimulationStep() returns (ok: bool)
      requires Valid() && !closed
      modifies this`steps
      ensures Valid()
      ensures ok == (old(steps) < |scenario.frames|)
      ensures steps == if ok then old(steps) + 1 else old(steps)
    {
      ok := steps < |scenario.frames|;
      if ok {
        steps := steps + 1;
      }
    }

    /** `simulation.getTime()`. */
    method GetTime() returns (t: real)
      requires Valid() && !closed
      ensures t == Current().time
    {
      t := FrameAt(scenario, steps).time;
    }

    /** `vehicle.getPosition(id)`; `None` stands for the TraCIException of an absent vehicle. */
    method GetPosition(id: string) returns (p: Option<Pos>)
      requires Valid() && !closed
      ensures p.Some? <==> id in Current().positions
      ensures p.Some? ==> p.value == Current().positions[id]
    {
      var f := FrameAt(scenario, steps);
      p := if id in f.positions then Some(f.positions[id]) else None;
    }

    /** `vehicle.setParameter(id, "brightness", value)`; `false` stands for a TraCIException. */
    method SetParameter(id: string, value: int) returns (ok: bool)
      requires Valid() && !closed
      modifies this`attrs
      ensures ok == Accepts(Current(), id, Current().rejectParam)
      ensures attrs == if ok then old(attrs).(brightness := old(attrs).brightness[id := value]) else old(attrs)
    {
      var f := FrameAt(scenario, steps);
      ok := Accepts(f, id, f.rejectParam);
      if ok {
        attrs := attrs.(brightness := attrs.brightness[id := value]);
      }
    }

    /** `vehicle.setColor(id, c)`; `false` stands for a TraCIException. */
    method SetColor(id: string, c: Rgba) returns (ok: bool)
      requires Valid() && !closed
      modifies this`attrs
      ensures ok == Accepts(Current(), id, Current().rejectColor)
      ensures attrs == if ok then old(attrs).(color := old(attrs).color[id := c]) else old(attrs)
    {
      var f := FrameAt(scenario, steps);
      ok := Accepts(f, id, f.rejectColor);
      if ok {
        attrs := attrs.(color := attrs.color[id := c]);
      }
    }

    /** `traci.close()`: allowed in any state, also after a failed tick. */
    method Close()
      modifies this`closed
      ensures closed
    {
      closed := true;
    }
  }
}
