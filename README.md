# Granular-flow demo driver, modelled in Dafny

This project models the control logic of `main` in the DEM-Engine granular-flow
demo (`src/demo/DEMdemo_Granular_Flow.cpp`). The demo fills a hopper with
ellipsoidal clumps and then opens a gate to let them flow down a flume. Three
parts of `main` are modelled:

- **Family and boundary-condition registration.** The five meshes are tagged
  with families: the walls get 10 and the gate gets 3. Then four conditions
  are registered: 1 and 3 fixed, 4 moving at the gate speed, and 10 shaking.
- **Staged packing.** This is the `while (initialization)` loop. Each stage
  clears the solver cache. If a new layer fits below the emitter, the stage
  samples a box (tall for the first stage, flat after), adds one clump per
  sampled point with the templates taken round robin, and writes a settling
  snapshot numbered by `frame`. Then it settles once and reads back the top
  height. The stage whose reported clump count reaches the target also runs the
  consolidation, `consolidationSteps` more settles each followed by a
  snapshot, and the loop ends.
- **Production.** This is the `for` loop of `numStep` steps. Every step
  advances the solver. Every `timeOut` steps it writes a mesh and a particle
  snapshot. Two one-shot triggers run under the `status` and `stopGate` flags:
  - past step `2 * timeOut` the walls are fixed (10 -> 1) and the gate starts
    moving (3 -> 4);
  - the stop trigger (4 -> 3) fires at the first step `i >= 2 * timeOut + gateMotion - 1`.
    With `gateMotion >= 2` this stops the moving gate; with `gateMotion < 2` it fires before
    the opening, while the gate is still in family 3, and the opened gate is never stopped.

  Each trigger is preceded by a zero-length `DoDynamicsThenSync(0)`.

The solver is an opaque collaborator:

- What the driver does to it is recorded as a trace of `Event`s.
- What the driver reads back in each packing stage is a `StageReading`: the
  number of sampled points, the clump count and the top height.

Modules:

- `Events`: the trace, the file names and the projections of a trace (boxes,
  templates, snapshots, settles, steps, controls).
- `Families`: the family tags, the registered condition table, the scene's
  bodies, and the relabelling reading of `ChangeFamily`.
- `Packing`: the packing loop as functions (`Stage`, `PackRun`) and what any
  run does.
- `Production`: the production loop as functions (`ProdStep`, `ProdAfter`) and
  its schedule.
- `GranularFlow`: class `Demo`, whose fields are the variables of `main` and
  whose methods are the loops as written. Each method is proved to leave the
  object in the state the matching function computes.

## Model

| member | source | states |
|---|---|---|
| `Families.SceneFamilies` | src/demo/DEMdemo_Granular_Flow.cpp:103-107 | the four wall meshes are in family 10 and the gate is in family 3 |
| `Families.RegisteredConditions` | src/demo/DEMdemo_Granular_Flow.cpp:109-115 | the condition table has exactly the families 1, 3, 4 and 10: 1 and 3 fixed, 4 with velocity ("0", "0", gate speed), 10 with the shake expressions |
| `Families.Relabel` | src/demo/DEMdemo_Granular_Flow.cpp:308-309 | the assumed effect of `ChangeFamily(a, b)`: same bodies, every body of `a` now in `b`, every other body unchanged |
| `Families.RelabelRoundTrip` | src/demo/DEMdemo_Granular_Flow.cpp:309-316 | moving `a` to `b` and back restores the scene when no body was in `b` (the gate's 3 -> 4 then 4 -> 3) |
| `Families.RelabelIsApplyControl` | src/demo/DEMdemo_Granular_Flow.cpp:308-316 | relabelling the whole scene gives each body the family its own tag reaches through that one change |
| `GranularFlow.Demo.constructor` | src/demo/DEMdemo_Granular_Flow.cpp:103-115 | the scene families and the condition table after registration; the flags, counters and `frame` at the initial values of :187-195 |
| `GranularFlow.Demo.ChangeFamily` | src/demo/DEMdemo_Granular_Flow.cpp:308-309 | the call is appended to the trace and the families are relabelled; nothing else changes |
| `GranularFlow.Demo.InsertPile` | src/demo/DEMdemo_Granular_Flow.cpp:208-237 | the template loop builds exactly `RoundRobin(actual, sampled, templates)`; the five insertion calls are appended; the new pile is in family 100; the count becomes the solver's |
| `GranularFlow.Demo.Consolidate` | src/demo/DEMdemo_Granular_Flow.cpp:257-264 | the consolidation loop appends exactly `Consolidation(settleDt, consolidationSteps)` and changes nothing else |
| `GranularFlow.Demo.StartStage` | src/demo/DEMdemo_Granular_Flow.cpp:201-238 | the cache is cleared; the stage inserts iff `Generates` holds of the old top height, and then appends exactly the insertion calls, adds the pile in family 100 and takes the solver's count; otherwise nothing else changes |
| `GranularFlow.Demo.PackStage` | src/demo/DEMdemo_Granular_Flow.cpp:201-264 | one iteration leaves the object in the state `Stage` computes from the old state and the reading |
| `GranularFlow.Demo.OpenGate` | src/demo/DEMdemo_Granular_Flow.cpp:305-311 | the opening block: zero sync, 10 -> 1, 3 -> 4 appended and applied to the families, `status` dropped, every other field unchanged |
| `GranularFlow.Demo.StopGate` | src/demo/DEMdemo_Granular_Flow.cpp:313-318 | the stopping block: zero sync and 4 -> 3 appended and applied to the families, `stopGate` dropped, every other field unchanged |
| `GranularFlow.Demo.Pack` | src/demo/DEMdemo_Granular_Flow.cpp:197-265 | after the first funnel mesh is written, the loop ends in the state `PackRun` computes over the readings; `finished` is the negated loop flag |
| `GranularFlow.Demo.ProduceStep` | src/demo/DEMdemo_Granular_Flow.cpp:289-318 | one step leaves the object in the state `ProdStep` computes |
| `GranularFlow.Demo.Produce` | src/demo/DEMdemo_Granular_Flow.cpp:278-319 | frame is reset, the packing's mesh name is written again, the buffer is re-formatted to funnel 0, and the loop ends in `ProdAfter` over `max(numStep, 0)` steps |
| `GranularFlow.PackedSceneFamilies` | src/demo/DEMdemo_Granular_Flow.cpp:103-231 | from the registered scene, packing leaves every body in family 10, 3 or 100, the families the production lemmas start from |
| `Packing.GeneratesIffBelowEmitter` | src/demo/DEMdemo_Granular_Flow.cpp:206 | a stage inserts iff `plane_bottom + shift <= emitterZ` |
| `Packing.BoxFor` | src/demo/DEMdemo_Granular_Flow.cpp:209-210 | the tall box (0.49, 0.70) iff `frame == 0`, otherwise the flat box (0.40, 0.0) |
| `Packing.BoxSchedule` | src/demo/DEMdemo_Granular_Flow.cpp:208-219 | the `j`-th of `n` consecutive inserting stages from frame `lo` asks for `BoxFor(lo + j)` |
| `Packing.SettlingRange` | src/demo/DEMdemo_Granular_Flow.cpp:247 | the settling names `lo`, ..., `lo + n - 1`, in order |
| `Packing.RoundRobin` | src/demo/DEMdemo_Granular_Flow.cpp:223-225 | `n` templates, the `j`-th being `(start + j) % k`, always a valid pool index |
| `Packing.Consolidation` | src/demo/DEMdemo_Granular_Flow.cpp:258-263 | `2n` calls alternating a settle of `settleDt` and the snapshot `settling_{j/2}` |
| `Packing.ConsolidationProjections` | src/demo/DEMdemo_Granular_Flow.cpp:258-263 | the consolidation settles `n` times, writes settling 0 .. n-1, and samples and adds nothing |
| `Packing.InsertionProject` | src/demo/DEMdemo_Granular_Flow.cpp:219-233 | the insertion calls in source order: sample box, add clumps, velocity, family, update |
| `Packing.StageProject` | src/demo/DEMdemo_Granular_Flow.cpp:201-264 | a stage's calls in source order: clear cache, insertion, snapshot, settle, consolidation |
| `Packing.StageState` | src/demo/DEMdemo_Granular_Flow.cpp:206-255 | a stage takes the top height from the reading, advances `frame` only when inserting, keeps the count otherwise, and sets the flag to `actual < totalSpheres` |
| `Packing.StageSettles` | src/demo/DEMdemo_Granular_Flow.cpp:253-259 | a stage settles once, plus `consolidationSteps` times when it ends the loop |
| `Packing.StageSnapshots` | src/demo/DEMdemo_Granular_Flow.cpp:245-261 | an inserting stage writes `settling_{frame}`; a final stage then writes settling 0 .. n-1 |
| `Packing.StageBoxes` | src/demo/DEMdemo_Granular_Flow.cpp:208-219 | an inserting stage samples exactly one box, `BoxFor(frame)`; any other stage samples none |
| `Packing.StageTemplates` | src/demo/DEMdemo_Granular_Flow.cpp:223-229 | an inserting stage hands over exactly `RoundRobin(actual, sampled, templates)`; any other stage hands over nothing |
| `Packing.NonInsertingStageContinues` | src/demo/DEMdemo_Granular_Flow.cpp:206-243 | a stage that adds no clump never ends a running loop and keeps the count |
| `Packing.PackRunExit` | src/demo/DEMdemo_Granular_Flow.cpp:200-265 | the loop runs at most one stage per reading; it stops by itself only when the count has reached the target; a loop still running has used every reading; afterwards the flag is `actual < totalSpheres` |
| `Packing.PackRunSettles` | src/demo/DEMdemo_Granular_Flow.cpp:253-259 | over a run: one settle of `settleDt` per stage, plus `consolidationSteps` if the run ended |
| `Packing.PackRunSnapshots` | src/demo/DEMdemo_Granular_Flow.cpp:245-261 | over a run: settling snapshots at consecutive frames, one per inserting stage, then settling 0 .. n-1 if the run ended |
| `Packing.ConsolidationReusesSnapshotNames` | src/demo/DEMdemo_Granular_Flow.cpp:247-260 | from frame 0, the `k`-th consolidation snapshot has the same file name as the `k`-th stage snapshot |
| `Packing.PackRunBoxes` | src/demo/DEMdemo_Granular_Flow.cpp:208-219 | over a run the sampled boxes are `BoxFor` of consecutive frames: from frame 0 the tall box comes first and only once |
| `Packing.PackRunTemplates` | src/demo/DEMdemo_Granular_Flow.cpp:223-236 | with a solver whose count grows by the clumps handed to it, the clumps of a run get templates `i % templates` for consecutive global indices `i` |
| `Packing.PackRunFamilies` | src/demo/DEMdemo_Granular_Flow.cpp:229-231 | a run adds exactly one pile per inserting stage, each in family 100, and changes no other body's family |
| `Packing.PackRunStallsWhenFull` | src/demo/DEMdemo_Granular_Flow.cpp:200-265 | when no layer fits and every reading keeps the top too high, a running loop inserts nothing and never ends, whatever the number of readings |
| `Production.OutputDue` | src/demo/DEMdemo_Granular_Flow.cpp:291 | a step is an output step iff `i % timeOut == 0` (the `i == 0` disjunct adds nothing) |
| `Production.ScheduledControlsStep` | src/demo/DEMdemo_Granular_Flow.cpp:305-318 | the scheduled controls of `n + 1` steps are those of `n` steps followed by step `n`'s own |
| `Production.ProdStepProject` | src/demo/DEMdemo_Granular_Flow.cpp:289-318 | a step's calls in source order: step, output, opening trigger, stopping trigger |
| `Production.CallsProject` | src/demo/DEMdemo_Granular_Flow.cpp:295-316 | the output calls are mesh then particles; each trigger is a zero sync followed by its family changes |
| `Production.OutputRange` | src/demo/DEMdemo_Granular_Flow.cpp:292 | the output names `lo`, ..., `lo + n - 1`, in order |
| `Production.MeshRange` | src/demo/DEMdemo_Granular_Flow.cpp:293 | the mesh snapshot names `lo`, ..., `lo + n - 1`, in order |
| `Production.StepSteps` | src/demo/DEMdemo_Granular_Flow.cpp:289 | each step makes exactly one `DoDynamics(timeStep)` call |
| `Production.StepOutputs` | src/demo/DEMdemo_Granular_Flow.cpp:291-303 | an output step writes `mesh_{frame}` and `output_{frame}` and advances `frame`; other steps write nothing |
| `Production.ProdFlags` | src/demo/DEMdemo_Granular_Flow.cpp:305-318 | after `n` steps the gate has not opened iff `n <= 2 * timeOut + 1`, and has not been stopped iff `n <= max(0, 2 * timeOut + gateMotion - 1)` |
| `Production.ProdSteps` | src/demo/DEMdemo_Granular_Flow.cpp:288-289 | `n` steps make exactly `n` `DoDynamics(timeStep)` calls |
| `Production.ProdFrames` | src/demo/DEMdemo_Granular_Flow.cpp:291-302 | after `n` steps `frame` has grown by the number of multiples of `timeOut` in [0, n), which is the ceiling of `n / timeOut` |
| `Production.ProdOutputs` | src/demo/DEMdemo_Granular_Flow.cpp:292-296 | the production snapshots are one mesh and one particle file per frame, numbered consecutively |
| `Production.StepControlsOfStep` | src/demo/DEMdemo_Granular_Flow.cpp:305-318 | each trigger acts at its own step only, so re-evaluating a fired trigger does nothing |
| `Production.ProdControls` | src/demo/DEMdemo_Granular_Flow.cpp:305-318 | the syncs and family changes of a run are exactly the scheduled ones: each trigger once, at its step, opening first when both fall on one step |
| `Production.ApplyBlocks` | src/demo/DEMdemo_Granular_Flow.cpp:306-316 | the control blocks act on a family as their two (opening) or one (stopping) changes |
| `Production.ProdFamilies` | src/demo/DEMdemo_Granular_Flow.cpp:305-318 | under the relabelling reading, each body ends in the family its start family reaches through the scheduled changes |
| `Production.ApplyScheduled` | src/demo/DEMdemo_Granular_Flow.cpp:305-318 | where families 10, 3 and 100 end after `n` steps, in both gate-motion regimes |
| `Production.ProdScene` | src/demo/DEMdemo_Granular_Flow.cpp:305-318 | walls are fixed after the opening step; particles stay in 100; with `gateMotion >= 2` the gate is moving exactly between the opening and stopping steps; with `gateMotion < 2` the stop fires first and the opened gate is never stopped |
| `Production.ProdConditions` | src/demo/DEMdemo_Granular_Flow.cpp:112-318 | the registered condition each body is under after `n` steps: walls shaking then `Fixed` after the opening step; piles `Unconstrained` throughout (family 100 is never registered); the gate `Fixed`, then moving at the gate speed between the opening and stopping steps, then `Fixed` (with `gateMotion < 2`: moving from the opening on) |

## Left out

- Floating-point arithmetic: heights, sizes, velocities and time steps are exact `real`s. The truncating casts `(int)(0.4 / settle_frame_time)`, `7.00 / timeStep`, `0.01 / timeStep` and `(gateOpen / gateSpeed) / timeStep` are taken as integer parameters (`consolidationSteps`, `numStep`, `timeOut`, `gateMotion`).
- Geometry: box centres and half-sizes beyond the two literal size pairs, `funnel_outlet`, and the sampler spacing `shift_xyz` as anything but a parameter.
- The Poisson-disk sampler, the solver's dynamics, contact model and inspectors: their outputs enter as the per-stage `StageReading` and are not computed.
- Template generation from a random normal distribution (:122-170) and `maxRadius`: only the pool size `templates` is kept.
- The material, gravity and time-step setup before the meshes are loaded, the critical time step `dt_crit` (:267-271) and `timeTotal` (:239), which only feed the console.
- Console output, the creation and removal of the output directory, and the contents of the files written. Files are kept as their names.
- `ClearCache`, `UpdateClumps` and the file writes are recorded as calls; their effect inside the solver is not modelled.
- `Families.Relabel`: the effect of `ChangeFamily` on the scene is an assumption of the model; the solver's implementation is not part of this model.
- `Packing.PackRun`: the source loop may run forever if the count never reaches the target, for instance when no layer fits below the emitter any more (`PackRunStallsWhenFull`). The model runs one stage per given reading and stops when the readings end (`PackRunExit` says a still-running loop has used them all).
- `Packing.PackRunTemplates`: stated only for a solver whose clump count grows by exactly the clumps handed to it (`SolverAgrees`). In general the next stage numbers its templates from whatever count the solver reported.
- 32-bit unsigned arithmetic of `actualTotalSpheres` and `i < actualTotalSpheres + num_clumps`, and the `(int)` cast of the clump count: counts are unbounded naturals.
- The `timeOut == 0` case, a division by zero in the source, is excluded by `timeOut > 0`; `templates == 0`, a remainder by zero, is excluded by `templates > 0`.
- The pile velocity is kept as the literal vector (-0.30, 0, -0.80); the gate speed is kept as the text handed to the solver.
- The other demo in the repository (`DEMdemo_MooringBoxMotion.cpp`) is not part of this model.
