# Distance-based headlight brightness control — Dafny model

This project models `car_light.py`, a TraCI client for a SUMO traffic
simulation. On every simulation tick it walks a fixed list of vehicle pairs
(`A`/`B` and `C`/`D`), measures how far apart the two vehicles of each pair are,
sets a custom `brightness` parameter on both (250 lm when they are closer than
50 m, 400 lm otherwise, clamped into [200, 600]), paints both with a colour
derived from that brightness, and appends a row to a CSV log. A vehicle that is
not in the network skips its pair for that tick; a refused parameter or colour
change is swallowed; whatever ends the loop, the session is closed.

Modules, one per component of the script:

- `Config` (`config.dfy`): the constants and `VehPairList`.
- `Geometry` (`geometry.dfy`): positions, the squared distance and what any
  Euclidean distance of it satisfies.
- `Brightness` (`brightness.dfy`): Python's `round`, `clamp_brightness` and the
  threshold rule.
- `ColorMap` (`color_map.dfy`): `brightness_to_rgb`, following what the code
  returns.
- `Simulation` (`simulation.dfy`): a deterministic stand-in for the TraCI
  session. It is a class `Sim` over a `Scenario`, which holds one `Frame` per
  tick.
- `Logging` (`logging.dfy`): the log file as a class whose `lines` are reset to
  the header and then appended.
- `ControlSpec` (`control_spec.dfy`): what a run produces, as functions of the
  scenario. These cover the rows of a tick and of a run, the attributes pushed,
  the number of ticks and the outcome, together with the lemmas about them.
- `ControlLoop` (`control_loop.dfy`): `main`'s loops as methods proved equal to
  `ControlSpec`.

Where the comments of the script and its code disagree, the model follows the
code. Line 84 says an empty row is recorded for a skipped pair, but the code
writes none. Lines 115-129 describe blue colours, but the code returns
`(255, 255, b, 255)` below 400 and `(r, 255, 0, 255)` from 400 up. The green
value computed at line 132 is never used. A session failure is printed and
swallowed (lines 145-146), so `main` returns normally; the model's `Run`
returns `Failed` for it.

## Model

| member | source | states |
|---|---|---|
| `Config.SetpointsOrdered` | car_light.py:29-32 | The configured setpoints satisfy MIN <= LOW <= BASE <= MAX. |
| `Geometry.SquaredDistance` | car_light.py:50-52 | The squared separation is never negative. It is zero for equal positions and positive for different ones. |
| `Geometry.SquaredDistanceSymmetric` | car_light.py:50-52 | Swapping the two positions does not change the squared separation. |
| `Geometry.DistanceSymmetric` | car_light.py:50-52 | A Euclidean distance of (p, q) is also one of (q, p). |
| `Geometry.DistanceZero` | car_light.py:50-52 | The distance is 0 exactly when the positions coincide. |
| `Geometry.IsDistance` | car_light.py:50-52 | A Euclidean distance is a non-negative d whose square is the squared separation. Such a d is unique. |
| `Geometry.BelowIffSquaredBelow` | car_light.py:88-91 | The distance is below a non-negative threshold iff the squared distance is below the squared threshold. This justifies deciding on squares. |
| `Brightness.RoundHalfEven` | car_light.py:43 | `round` gives an integer within 0.5 of its argument, and a tie goes to the even integer. |
| `Brightness.RoundHalfEvenUnique` | car_light.py:43 | Those two properties determine the rounding uniquely. |
| `Brightness.RoundInteger` | car_light.py:43 | An integer argument is returned unchanged by the rounding. |
| `Brightness.ClampBrightness` | car_light.py:39-48 | The result always lies in [200, 600], and `None` gives 400. |
| `Brightness.ClampIsNearest` | car_light.py:43-48 | For a number, the clamp yields the allowed value nearest its rounding. Below 200 it gives 200, above 600 it gives 600, and in range it gives the rounding itself. |
| `Brightness.ClampIdempotent` | car_light.py:39-48 | Clamping a clamped value returns it unchanged. |
| `Brightness.TargetBrightness` | car_light.py:91-94 | The target before clamping is always 250 or 400. |
| `Brightness.TargetForDistance` | car_light.py:88-94 | The target is 250 exactly when the distance is strictly below 50.0, else 400. A distance of exactly 50.0 gives 400. |
| `Brightness.ClampedTarget` | car_light.py:90-97 | After the defensive clamp the target is still 250 iff the pair is close and 400 iff not. It lies in [200, 600]. |
| `ColorMap.Truncate` | car_light.py:124 | `int()` truncates toward zero: the result is the integer part of its argument on either side of zero. |
| `ColorMap.BrightnessToRgb` | car_light.py:113-134 | Green and alpha are always 255. Red is 255 below 400, and blue is 0 from 400 up. |
| `ColorMap.DimRegime` | car_light.py:119-125 | For 200 <= br < 400 the colour is (255, 255, 80 + (br - 200) / 10, 255), and blue lies in 80..99. |
| `ColorMap.BrightRegime` | car_light.py:126-134 | For 400 <= br <= 600 the colour is ((br - 400) / 2, 255, 0, 255), and red lies in 0..100. |
| `ColorMap.ChannelsInRange` | car_light.py:113-134 | Every channel is in 0..255 and alpha is 255 for every brightness in [200, 600]. |
| `ColorMap.TintMonotone` | car_light.py:119-134 | Within each regime a brighter light never has a smaller blue (dim regime) or red (bright regime) value. |
| `Simulation.Sim.Start` | car_light.py:61-63 | `traci.start` gives an open session before its first tick, with no attributes set. |
| `Simulation.Sim.MinExpectedNumber` | car_light.py:72 | Returns the expected-vehicle count of the current frame. |
| `Simulation.Sim.SimulationStep` | car_light.py:73 | Advances exactly one tick while frames remain, and fails otherwise without advancing. |
| `Simulation.Sim.GetTime` | car_light.py:74 | Returns the current frame's time. |
| `Simulation.Sim.GetPosition` | car_light.py:79-85 | Returns the vehicle's position iff it is in the network; otherwise reports absence. |
| `Simulation.Sim.SetParameter` | car_light.py:101-106 | Succeeds iff the vehicle is present and not refusing. On success only that vehicle's brightness changes; on failure nothing changes. |
| `Simulation.Sim.SetColor` | car_light.py:136-140 | The same as `SetParameter`, for the colour. |
| `Simulation.Sim.Close` | car_light.py:147-148 | The session is closed. |
| `Logging.Log.Reset` | car_light.py:56-68 | Whatever the file held, afterwards it is exactly the header row. |
| `Logging.Log.Append` | car_light.py:143 | Exactly one row is added at the end. |
| `ControlSpec.PairTarget` | car_light.py:88-97 | The clamped target of a present pair is 250 or 400. |
| `ControlSpec.PairTargetByDistance` | car_light.py:88-97 | A present pair's target is 250 exactly when the distance between its vehicles is below 50.0, else 400. |
| `ControlSpec.PairRow` | car_light.py:79-97 | A pair yields a row iff both vehicles are present. |
| `ControlSpec.PushBoth` | car_light.py:101-106 | Two pushes in one `try`, as for the brightness (and at lines 136-140 for the colour). If the first vehicle refuses, nothing changes. If it accepts, it gets the value. If both accept, the second gets it too. |
| `ControlSpec.PushBothFrame` | car_light.py:101-106 | The pushes change no other vehicle's entry. A second vehicle that refuses keeps its old entry. |
| `ControlSpec.PushPair` | car_light.py:79-140 | A skipped pair changes no attribute. Otherwise a first vehicle that accepts gets the pair's target as brightness and that target's colour. |
| `ControlSpec.PushPairValues` | car_light.py:99-140 | After a pair is handled, every brightness and colour entry is either the old one or the pair's target (or its colour) on one of the pair's two vehicles. |
| `ControlSpec.TickRowsCount` | car_light.py:77-143 | A tick logs at most one row per configured pair. |
| `ControlSpec.TickAttrsKeys` | car_light.py:77-140 | A tick gives a brightness or a colour only to vehicles of the listed pairs. |
| `ControlSpec.StopFrom` | car_light.py:72-73 | The loop performs ticks while vehicles are expected. It stops at the first tick count with none expected, or when the scenario is exhausted. |
| `ControlSpec.Stop` | car_light.py:72-73 | The number of ticks a run performs: vehicles are expected at every earlier count, and at this count none are, unless every frame was used. |
| `ControlSpec.RunOutcome` | car_light.py:72-148 | A run fails only after every frame was used while vehicles were still expected. When it completes, no vehicle is expected at the stop. |
| `ControlSpec.RunRows` | car_light.py:72-143 | The rows of a run, tick by tick. With no pairs configured nothing is logged. |
| `ControlSpec.RunRowsCount` | car_light.py:72-143 | A run of n ticks logs at most one row per pair and tick. |
| `ControlSpec.RunAttrsKeys` | car_light.py:72-140 | Throughout a run only configured vehicles get a brightness parameter or a colour. |
| `ControlSpec.TickRowsAppend` | car_light.py:77 | The rows of a tick are the pairs' rows in list order. Splitting the pair list splits the rows the same way. |
| `ControlSpec.TickRowsSplit` | car_light.py:77-143 | A pair contributes only its own row, placed between the rows of the earlier and the later pairs. |
| `ControlSpec.AbsentPairSkipped` | car_light.py:79-85 | A missing vehicle removes only its own pair's row. The later pairs of the tick are still logged. |
| `ControlSpec.TickRowsSound` | car_light.py:88-143 | Every row belongs to a configured pair whose vehicles were both present. It carries the frame's time and their squared separation. Both brightness columns hold the same value, 250 iff close and 400 iff not. |
| `ControlSpec.TickRowsComplete` | car_light.py:77-143 | Every configured pair with both vehicles present has its row in the tick. |
| `ControlSpec.RefusalsKeepRows` | car_light.py:101-143 | Which vehicles refuse parameter or colour changes never changes the rows logged. |
| `ControlSpec.TickAttrsSettled` | car_light.py:99-140 | A tick writes only 250 or 400 as brightness, and only the matching colour. |
| `ControlSpec.RunAttrsSettled` | car_light.py:72-140 | Throughout a run every brightness parameter written is 250 or 400. |
| `ControlSpec.AbsentPairUntouched` | car_light.py:83-85 | A skipped pair changes no vehicle's attributes. |
| `ControlSpec.FirstRefusalStopsBoth` | car_light.py:101-106 | If the first vehicle refuses, neither vehicle gets the new brightness. When the first accepts, it gets the target, and so does the second if it accepts too. When the first accepts and the second refuses, only the first's brightness changes. |
| `ControlSpec.RunRowsPrefix` | car_light.py:72-143 | Rows are only appended: the log after m ticks is a prefix of the log after any later tick. |
| `ControlSpec.RunRowsComplete` | car_light.py:72-143 | In every tick performed, every configured pair with both vehicles present has its row in the run's log. |
| `ControlSpec.RunRowsSound` | car_light.py:72-143 | Every row of a run is a valid row of one of the frames performed. |
| `ControlSpec.RunRowsInTimeOrder` | car_light.py:72-143 | With a non-decreasing simulation clock, the log rows are in time order. |
| `ControlSpec.RunCompletesIff` | car_light.py:72-148 | A run completes iff at some tick count no vehicle is expected. Otherwise it ends through the exception path. |
| `ControlSpec.NoTickNoRows` | car_light.py:66-72 | When no vehicle is expected at the start, no tick is run and the log holds only its header. |
| `ControlSpec.ThirtyMetresApartLogged` | car_light.py:88-143 | Two present vehicles 30 m apart are logged with the frame's time, both ids, the squared separation and 250 in both brightness columns. |
| `ControlLoop.HandlePair` | car_light.py:79-143 | Handling one pair appends exactly that pair's row, if any. It updates the attributes exactly as `PushPair` says, including swallowed refusals. |
| `ControlLoop.Advance` | car_light.py:72-143 | One pass of the `while`: the step succeeds iff frames remain, and the log and the attributes stay those of the ticks performed. |
| `ControlLoop.HandleTick` | car_light.py:77-143 | One tick appends the rows of all pairs in list order. The attributes become those of the whole tick. |
| `ControlLoop.Run` | car_light.py:55-148 | The session is closed on both exits. The tick count is `Stop` and the outcome is `RunOutcome`. The log is the header followed by the rows of every tick performed, in order. The attributes are those of the run. |

## Left out

- `light_plot.py` is not part of this model. It reads the CSV and draws charts, and it has no decision logic.
- The real SUMO/TraCI session is replaced by `Simulation.Sim`, which replays a `Scenario` of frames. Vehicle motion, the SUMO command line (lines 21-22, 61) and `traci.constants` are not modelled.
- Only the simulation step can fail fatally in the model, when the scenario is exhausted. Other exceptions that would also reach the outer `except` (line 145) are not modelled. These include a lost connection inside `getPosition`, `getTime` or `getMinExpectedNumber`, and a failing CSV write.
- Floating point: positions and times are exact reals. The rounding of `math.hypot` and of the float arithmetic in `brightness_to_rgb` is not modelled.
- `Geometry.SquaredDistance` stands in for `euclidean_distance`: the model works with the squared distance and never takes the square root. `Geometry.BelowIffSquaredBelow` links any true distance to the threshold decision. For the same reason the log record's `distSq` column holds the squared distance, not the distance.
- The text of the CSV is not modelled: the `:.2f`/`:.3f` formatting, the delimiter and the encoding. Nor is the string form `str(target)` of the parameter value; it is kept as an integer.
- Deleting the old log with `os.remove` (lines 57-58), opening the file (line 66) and writing its header (line 68) are folded into `Logging.Log.Reset`. Closing the file when the `with` block ends, after `traci.close()`, is not modelled.
- `Simulation.Sim.Start` and `Logging.Log.Reset` cannot fail. In the source, `traci.start` (line 63), `open` (line 66) and the header `writerow` (line 68) run before the `try` at line 70. A failure there escapes `main`, and the `finally` at lines 147-148 does not run, so after a failing `open` or header write the session is never closed. `ControlLoop.Run`'s promise that the session is closed covers only the exits it models.
- `print` messages, timestamps and the `step` counter (lines 71 and 75, never read) are left out.
- `Brightness.ClampBrightness` is modelled on `Option<real>`, with Python's round-half-even. Callers only pass the integers 250 and 400, and non-numeric arguments (which would raise) are not modelled.
