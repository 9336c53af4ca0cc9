/**
 * The control loop of `main` in car_light.py (lines 55-148), step by step:
 * reset the log, start the session, and while vehicles are expected advance
 * one tick and handle every configured pair; whatever ends the loop, close
 * the session.
 */
module ControlLoop {
  import opened Wrappers
  import opened Config
  import opened Geometry
  import opened Brightness
  import opened ColorMap
  import opened Simulation
  import opened Logging
  import opened ControlSpec

  /**
   * The body of the `for` over the pairs: look both vehicles up (an absent one
   * skips the pair), decide the target, push it and its colour (refusals are
   * swallowed), and append the row.
   */
  method HandlePair(sim: Sim, log: Log, p: Pair, time: real)
    requires sim.Valid() && !sim.closed && time == sim.Current().time
    modifies sim`attrs, log
    ensures log.lines == old(log.lines) + AsLines(OptionToSeq(PairRow(sim.Current(), p)))
    ensures sim.attrs == PushPair(old(sim.attrs), sim.Current(), p)
  {
    var pos1 := sim.GetPosition(p.v1);
    if pos1.None? {
      return;
    }
    var pos2 := sim.GetPosition(p.v2);
    if pos2.None? {
      return;
    }
    var dist := SquaredDistance(pos1.value, pos2.value);
    var target := TargetBrightness(dist);
    target := ClampBrightness(Some(target as real));
    assert target == PairTarget(sim.Current(), p) by {
      RoundInteger(TargetBrightness(dist));
    }

    var ok := sim.SetParameter(p.v1, target);
    if ok {
      ok := sim.SetParameter(p.v2, target);
    }

    var color := BrightnessToRgb(target);
    ok := sim.SetColor(p.v1, color);
    if ok {
      ok := sim.SetColor(p.v2, color);
    }

    log.Append(LogRecord(time, p.v1, p.v2, dist, target, target));
  }

  /** One tick's `for (v1, v2) in VEH_PAIR_LIST`, with the list passed in. */
  method HandleTick(sim: Sim, log: Log, pairs: seq<Pair>, time: real)
    requires sim.Valid() && !sim.closed && time == sim.Current().time
    modifies sim`attrs, log
    ensures log.lines == old(log.lines) + AsLines(TickRows(sim.Current(), pairs))
    ensures sim.attrs == TickAttrs(old(sim.attrs), sim.Current(), pairs)
  {
    var i := 0;
    while i < |pairs|
      invariant 0 <= i <= |pairs|
      invariant log.lines == old(log.lines) + AsLines(TickRows(sim.Current(), pairs[..i]))
      invariant sim.attrs == TickAttrs(old(sim.attrs), sim.Current(), pairs[..i])
    {
      var p := pairs[i];
      HandlePair(sim, log, p, time);
      assert pairs[..i + 1][..i] == pairs[..i];
      AsLinesAppend(TickRows(sim.Current(), pairs[..i]), OptionToSeq(PairRow(sim.Current(), p)));
      i := i + 1;
    }
    assert pairs[..i] == pairs;
  }

  /**
   * One iteration of the `while`: advance the simulation and, when that
   * succeeds, handle the new tick. The log and the attributes keep matching the
   * ticks performed so far.
   */
  method Advance(sim: Sim, log: Log, pairs: seq<Pair>) returns (ok: bool)
    requires sim.Valid() && !sim.closed
    requires log.lines == [Header(Columns)] + AsLines(RunRows(sim.scenario, pairs, sim.steps))
    requires sim.attrs == RunAttrs(sim.scenario, pairs, sim.steps)
    modifies sim`steps, sim`attrs, log
    ensures sim.Valid()
    ensures ok == (old(sim.steps) < |sim.scenario.frames|)
    ensures sim.steps == if ok then old(sim.steps) + 1 else old(sim.steps)
    ensures log.lines == [Header(Columns)] + AsLines(RunRows(sim.scenario, pairs, sim.steps))
    ensures sim.attrs == RunAttrs(sim.scenario, pairs, sim.steps)
  {
    ok := sim.SimulationStep();
    if !ok {
      return;
    }
    ghost var sc, k := sim.scenario, sim.steps - 1;
    assert sim.Current() == sc.frames[k];
    ghost var before := log.lines;
    assert before == [Header(Columns)] + AsLines(RunRows(sc, pairs, k));
    var time := sim.GetTime();
    HandleTick(sim, log, pairs, time);
    assert log.lines == before + AsLines(TickRows(sc.frames[k], pairs));
    LogAfterTick(sc, pairs, k);
  }

  /** The header and the rows of k ticks, followed by tick k's rows, are the log of k + 1 ticks. */
  lemma LogAfterTick(sc: Scenario, pairs: seq<Pair>, k: nat)
    requires k < |sc.frames|
    ensures [Header(Columns)] + AsLines(RunRows(sc, pairs, k)) + AsLines(TickRows(sc.frames[k], pairs))
      == [Header(Columns)] + AsLines(RunRows(sc, pairs, k + 1))
  {
    RunStep(sc, pairs, k);
    AsLinesAppend(RunRows(sc, pairs, k), TickRows(sc.frames[k], pairs));
  }

  /**
   * `main`: the log is reset to its header, the session started, ticks run while
   * vehicles are expected, and the session is closed on both exits. The log then
   * holds the header and the rows of every tick performed, in order.
   */
  method Run(sc: Scenario, log: Log) returns (sim: Sim, outcome: Outcome)
    modifies log
    ensures fresh(sim) && sim.closed && sim.scenario == sc
    ensures sim.steps == Stop(sc)
    ensures outcome == RunOutcome(sc)
    ensures log.lines == [Header(Columns)] + AsLines(RunRows(sc, VehPairList, Stop(sc)))
    ensures sim.attrs == RunAttrs(sc, VehPairList, Stop(sc))
  {
    var pairs := VehPairList;
    log.Reset();
    sim := new Sim.Start(sc);
    outcome := Completed;
    var n := sim.MinExpectedNumber();
    while n > 0
      invariant sim.Valid() && !sim.closed && sim.scenario == sc
      invariant n == Expected(sc, sim.steps)
      invariant StopFrom(sc, sim.steps) == Stop(sc)
      invariant log.lines == [Header(Columns)] + AsLines(RunRows(sc, pairs, sim.steps))
      invariant sim.attrs == RunAttrs(sc, pairs, sim.steps)
      invariant outcome == Completed
      decreases |sc.frames| - sim.steps
    {
      var ok := Advance(sim, log, pairs);
      if !ok {
        // the exception is reported and swallowed; the session is closed below
        outcome := Failed;
        break;
      }
      n := sim.MinExpectedNumber();
    }
    assert sim.steps == Stop(sc);
    sim.Close();
  }
}
