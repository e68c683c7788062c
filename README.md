# KSP-MGA-Planner: body registry, trajectory bookkeeping and search-input rules in Dafny

This project models three self-contained pieces of the KSP-MGA-Planner, an interplanetary
multi-gravity-assist trajectory planner for Kerbal Space Program:

- **The body registry** (`SolarSystem`, module `Bodies`). It is built from the sun's record and a
  flat list of body records. Each record names its attractor by id: 0 is the sun, any other id is
  a body listed earlier. The registry keeps an id-keyed JavaScript `Map` and appends each body to
  its attractor's `orbiters` list. Lookups by id and by name either find a body or throw
  "No body with id …" / "No body with name …".
  - The `Map` is modelled exactly. A repeated id replaces the stored body but keeps the key's first
    insertion position. This is why `table` and `order` are specified through `TableOf` and
    `KeyOrder` over the ghost list of created bodies.
- **The trajectory bookkeeping** (`Trajectory`, module `Trajectories`). A found trajectory is a
  list of steps. Drawing it does three things:
  - It builds one orbit per step.
  - It lays out one orbit line per step, followed by one arrow sprite per step that has a
    manoeuvre.
  - It tabulates each manoeuvre's date and its prograde/normal/radial delta-V.

  The result panel numbers the manoeuvres, sums their delta-V, and has a slider that shows the
  steps up to a chosen one. Scene objects are `SceneObject`s, each with a constant kind, a
  `visible` flag and a parent group.
- **The search-input rules** (closures of `initEditor`, module `Editor`). These are:
  - the checks run before the sequence generator starts;
  - the parameters it is given;
  - its progress percentage;
  - the checks run before the trajectory solver starts (chosen sequence, departure window,
    altitude range and the kilometre-to-metre conversion);
  - the filter that keeps each worker's cancellation sentinel away from the user.

  The class `Editor` holds the UI state the two handlers leave behind.

Supporting modules: `Wrappers` (Option/Result), `Decimal` (the decimal text of an integer, as a
template string renders it, with its inverse) and `Vectors` (`Vector3`, dot and cross products).

Two details of the editor's code that the model keeps as written:

- Both catch blocks pass every error, including the cancellation sentinel, to `console.error`.
  Only the user-facing message filters the sentinel out (`Editor.Editor.Report`).
- The departure-window message says the end must be *greater than* the start, but the check only
  rejects `end < start`, so equal dates are accepted (`Editor.CheckDepartureWindow`).

## Model

| member | source | states |
|---|---|---|
| Bodies.SolarSystem.constructor | dist/main/objects/system.js:4-17 | For parents-first input, it creates one body per record, in input order, carrying that record's data, id and name (and the sun carries the sun's). The registry invariant then holds: the table and key order are those of a `Map` after `set(id, body)` for each body in turn; each body is linked to the sun (orbiting 0) or to the latest earlier body with that id; every `orbiters` list is exactly the bodies attracted by its owner, in input order. |
| Bodies.Register | dist/main/objects/system.js:11-15 | One loop pass. It creates a fresh body linked to its attractor, adds it to the table (appending the id to the key order only when the id is new) and pushes it onto its attractor's `orbiters`. It keeps the registry invariant. |
| Bodies.PushOrbiter | dist/main/objects/system.js:15 | Appends the new body to its attractor's `orbiters` and to nothing else, so every list still equals its owner's satellites in input order. |
| Bodies.AppendOne | dist/main/objects/system.js:14 | `Map.set` on one more body: the table maps its id to it, and the key order grows by the id only if the id was absent. |
| Bodies.TableOfLatest | dist/main/objects/system.js:14 | The table holds, for an id, the last body registered under it. |
| Bodies.KeyOrderSpec | dist/main/objects/system.js:14-19 | The key order lists every registered id exactly once. |
| Bodies.SolarSystem.Orbiting | dist/main/objects/system.js:18-20 | It holds one body per registered id, and every one of them is a registered body. |
| Bodies.SolarSystem.AllBodies | dist/main/objects/system.js:21-23 | The sun comes first, followed by the orbiting bodies, so the length is 1 + the number of registered ids. |
| Bodies.SolarSystem.DistinctIdsEnumerateInInputOrder | dist/main/objects/system.js:18-23 | With distinct ids, `bodies` is the sun followed by every registered body in input order. |
| Bodies.SolarSystem.Data | dist/main/objects/system.js:24-30 | It returns exactly one record per body, and entry i is the record of `bodies[i]`. |
| Bodies.SolarSystem.BodyFromName | dist/main/objects/system.js:31-37 | It returns the first body in `bodies` order whose name matches. It fails with `NoBodyWithName(name)` exactly when no body has that name. |
| Bodies.SolarSystem.BodyFromId | dist/main/objects/system.js:38-48 | Id 0 gives the sun whatever the table holds. Any failure is `NoBodyWithId(id)` for a non-zero id. |
| Bodies.SolarSystem.BodyFromIdRegistered | dist/main/objects/system.js:42-46 | A non-zero id resolves exactly when some body was registered under it, and then it resolves to the last such body. |
| Bodies.SolarSystem.AttractorRegisteredEarlier | dist/main/objects/system.js:11-13 | A body's attractor is the sun when its `orbiting` is 0. Otherwise it is a body registered before it under that id, the latest such. |
| Bodies.SolarSystem.OrbitersHoldExactlyTheirSatellites | dist/main/objects/system.js:12-15 | A body c is in b's `orbiters` exactly when c is a registered body whose attractor is b. |
| Trajectories.Trajectory.constructor | src/main/solvers/trajectory.ts:17-23 | There is one orbit per step, and orbit i is built from step i's elements around the body `bodyFromId(steps[i].attractorId)`. |
| Trajectories.LineHue | src/main/solvers/trajectory.ts:50 | The hue of a line is a whole degree in [0, 360) and a multiple of 5. |
| Trajectories.LineHueTurns | src/main/solvers/trajectory.ts:50 | Each next step's line turns the hue by 35 degrees around the circle, so the hues repeat every 72 steps. |
| Trajectories.ManeuvreIndices | src/main/solvers/trajectory.ts:64-65 | Every listed index is a step index whose step has a manoeuvre. |
| Trajectories.ManeuvreIndicesSpec | src/main/solvers/trajectory.ts:78-81 | The indices of the steps with a manoeuvre are complete and strictly increasing. |
| Trajectories.Trajectory.Draw | src/main/solvers/trajectory.ts:35-39 | After drawing, the layout invariant holds. There is one fresh visible line per step, then one fresh visible sprite per manoeuvre step, all distinct. Each object sits in its attractor's group. Each manoeuvre's details are those of its step. |
| Trajectories.Trajectory.CreateTrajectoryArcs | src/main/solvers/trajectory.ts:41-59 | Object i is a fresh, visible orbit line for orbit i, with step i's angles and hue i·35 mod 360, added to the group of orbit i's attractor. |
| Trajectories.Trajectory.CreateManeuvreSprites | src/main/solvers/trajectory.ts:61-75 | The lines are kept. After them comes one fresh sprite per step with a manoeuvre, in step order, at the scaled manoeuvre position and in the group of that step's attractor. |
| Trajectories.Trajectory.NewSprites | src/main/solvers/trajectory.ts:61-75 | It creates one fresh, visible, pairwise distinct sprite per step with a manoeuvre, in step order. Each sits at that step's scaled manoeuvre position, in the group of the step's attractor. |
| Trajectories.Trajectory.CalculateManeuvresDetails | src/main/solvers/trajectory.ts:77-110 | Entry j is the details of the j-th manoeuvre step: its index, its date minus step 0's date, and delta-V projected on the prograde direction, on the orbit normal and on prograde × normal. |
| Trajectories.DetailsOf | src/main/solvers/trajectory.ts:82-105 | The details record their step index. Their date is mission-elapsed time: 0 on step 0, and non-negative for a step starting no earlier than step 0. |
| Trajectories.ProgradeBurnHasNoSidewaysPart | src/main/solvers/trajectory.ts:89-105 | A burn along the prograde direction has no radial component. If the orbit normal is perpendicular to prograde, it has no normal component either. |
| Trajectories.Trajectory.FirstStepManeuvreAtZero | src/main/solvers/trajectory.ts:101 | A manoeuvre on step 0 comes first and happens at mission-elapsed time 0. |
| Trajectories.SliderFor | src/main/solvers/trajectory.ts:124-126 | The slider reaches exactly the step indices and starts on the last step. |
| Trajectories.SliderStartShowsEverything | src/main/solvers/trajectory.ts:124-126 | At the slider's starting value every line and every sprite is visible. |
| Trajectories.Trajectory.ManeuvreLabels | src/main/solvers/trajectory.ts:128-147 | It gives exactly one label per manoeuvre, in order, each the label its context calls for, and all pairwise different. Otherwise it fails with the first body lookup that fails. |
| Trajectories.Trajectory.ManeuvreLabel | src/main/solvers/trajectory.ts:133-146 | A DSM's label exists iff both its origin and target ids resolve. An escape or circularization label exists iff the step's attractor id resolves. A failure is a `NoBodyWithId` lookup error. Every label of manoeuvre k starts with the decimal number k+1 and ": ". |
| Trajectories.Trajectory.LabelsDiffer | src/main/solvers/trajectory.ts:133-146 | Two different manoeuvres never get the same label, whatever their contexts and body names. |
| Trajectories.NumberedDistinct | src/main/solvers/trajectory.ts:135-144 | Labels of different manoeuvres differ, whatever the body names. |
| Decimal.DigitsValueOfNatToString | src/main/solvers/trajectory.ts:135 | The decimal text of a number reads back as that number. |
| Decimal.NumberedPrefixDeterminesNumber | src/main/solvers/trajectory.ts:135 | A text `${n}: …` determines n. |
| Trajectories.VisibleAfter | src/main/solvers/trajectory.ts:168-178 | There is one flag per object: lines first, then sprites. |
| Trajectories.VisibleAfterSpec | src/main/solvers/trajectory.ts:168-178 | Line i is shown iff i ≤ index, and sprite j is shown iff its step index ≤ index. |
| Trajectories.VisibleAfterMonotone | src/main/solvers/trajectory.ts:168-178 | A larger index hides nothing that a smaller one shows. |
| Trajectories.Trajectory.DisplayStepsUpTo | src/main/solvers/trajectory.ts:168-178 | Each object's new `visible` flag is the one `VisibleAfter` gives. No parent changes. |
| Trajectories.Trajectory.ShowLinesUpTo | src/main/solvers/trajectory.ts:169-172 | Line i becomes visible iff i ≤ index. The sprites and all parents are unchanged. |
| Trajectories.Trajectory.SyncSprites | src/main/solvers/trajectory.ts:173-177 | Each sprite takes its step's line flag. The lines and all parents are unchanged. |
| Trajectories.Trajectory.TotalDeltaV | src/main/solvers/trajectory.ts:180-189 | It returns the sum, in order, of the norms of the manoeuvres' (prograde, normal, radial) vectors. The sum is non-negative when the norm is the Euclidean length. |
| Trajectories.SumNormsNonNegative | src/main/solvers/trajectory.ts:180-189 | A sum of Euclidean lengths is never negative. |
| Trajectories.Trajectory.Remove | src/main/solvers/trajectory.ts:191-195 | Every object ends with no parent, and its visibility is unchanged. |
| Editor.Editor.constructor | dist/main/editor/editor.js:24-25 | The sequence selector starts disabled and empty. No search has run and no error is shown. |
| Editor.AssertSequenceInputs | dist/main/editor/editor.js:35-44 | It accepts iff the four integer inputs are valid, both bodies have the same attractor, and the bodies differ. Otherwise it returns what is thrown. |
| Editor.FirstInvalidFieldReported | dist/main/editor/editor.js:36-39 | The integer inputs are checked in the order max back spacing, swing-bys, resonant, back legs, and the first invalid one is reported. |
| Editor.AttractorCheckedBeforeSameness | dist/main/editor/editor.js:40-43 | For valid inputs, different attractors give "Origin and destination bodies must orbit the same body.", even for one body chosen twice. Only then does the same body give "Same origin and destination bodies.". |
| Editor.SequenceParams | dist/main/editor/editor.js:53-60 | The parameters carry the two body ids and the four limits unchanged. |
| Editor.AcceptedParamsNameTwoBodies | dist/main/editor/editor.js:42-43 | Accepted parameters name two different bodies. |
| Editor.ProgressPercent | dist/main/editor/editor.js:50 | The result is the floor of 100·progression/total. It is undefined (NaN or Infinity) exactly when the total is 0. |
| Editor.ProgressIsPercentage | dist/main/editor/editor.js:50 | Progress within the total is between 0 and 100, and it is 100 when complete. |
| Editor.ProgressMonotone | dist/main/editor/editor.js:50 | More progress never shows a smaller percentage. |
| Editor.PercentText | dist/main/editor/editor.js:51 | With a total, the percentage renders as decimal digits that read back as its value. Without one it renders as "NaN" (no progress) or "Infinity". |
| Editor.ProgressMessage | dist/main/editor/editor.js:49-52 | The message reads "Evaluation sequences : ", then the percentage, then "%". With a total, the middle is all digits and reads back as the floor percentage. With no total, the middle is "NaN" (no progress) or "Infinity". |
| Editor.ShownToUser | dist/main/editor/editor.js:75-76 | A thrown string is shown iff it differs from the worker's sentinel. Any other error is always shown. |
| Editor.Editor.Report | dist/main/editor/editor.js:74-77 | Every caught error is logged. It is shown iff it is not the worker's cancellation sentinel. |
| Editor.Editor.GenerateSequences | dist/main/editor/editor.js:64-82 | The generator receives the form's parameters only when the inputs pass. On success the selector holds the sequences and is enabled. On failure it stays empty and disabled, the error is logged and it is shown unless it is "WORKER CANCELLED". The progress message ends hidden. |
| Editor.ChooseSequence | dist/main/editor/editor.js:137-142 | A non-empty custom text takes precedence, and its parse result is used. With empty text the selector's sequence is used, and with nothing selected the search fails on the missing sequence. |
| Editor.AltitudeCapKm | dist/main/editor/editor.js:90-94 | The cap in km is the largest integer whose metres do not exceed 0.75·(soi − radius). |
| Editor.AltitudeRange | dist/main/editor/editor.js:90-94 | The range can be set iff the sequence has a first body, and then its cap is that body's. Otherwise the missing body is the error. |
| Editor.AltitudeRangeNotEmpty | dist/main/editor/editor.js:92 | A sphere of influence at or above the surface leaves a cap of at least 0. |
| Editor.CheckDepartureWindow | dist/main/editor/editor.js:146-147 | The window is rejected iff end < start, with the inverted-window message. Equal dates are accepted. |
| Editor.PrepareSearch | dist/main/editor/editor.js:136-148 | The solver is asked iff a sequence with at least one body is obtained and start ≤ end. It is asked with the chosen sequence, the window and the altitude in metres (km × 1000). |
| Editor.SequenceCheckedBeforeWindow | dist/main/editor/editor.js:137-147 | A bad custom sequence is reported before the window is looked at. |
| Editor.MissingOriginReported | dist/main/editor/editor.js:137-145 | With no sequence selected, or with a sequence that has no body, the search fails on the missing first body before the window is looked at. |
| Editor.RequestAltitudeWithinRange | dist/main/editor/editor.js:143-148 | An altitude chosen within the input's range reaches the solver as metres within 0.75·(soi − radius) of the first body. |
| Editor.Editor.FindTrajectory | dist/main/editor/editor.js:133-160 | The altitude range is updated whenever a sequence with a first body is obtained. A search from the selector asks for one of the offered sequences. The solver runs only on a prepared request. A found trajectory is shown. Every failure is logged, and it is shown unless it is "TRAJECTORY FINDER CANCELLED". |

## Left out

- The Lambert solver (src/dedicated-workers/libs/lambert.ts) is floating-point root finding over transcendental functions, which exact reals cannot model.
- The sequence generator and trajectory solver are not part of this model. Their results, rejections and cancellations are parameters of `GenerateSequences` and `FindTrajectory`.
- Rendering is not modelled: orbit sample points, line and sprite geometry, colours as RGB, textures, and the scene groups' creation. The groups of the bodies are a map parameter of `Draw`.
- `updateSatellitesDisplay` depends on camera distances and is not modelled.
- DOM output, `KSPTime` formatting, `toFixed`, and the `onclick`/`change` handlers of the result panel are not modelled.
- Floating-point rounding is not modelled: dates, sizes and delta-V are exact reals.
- Vector length is a parameter characterised as the Euclidean norm. The orbit normal is a parameter too, because the orbit module is not part of this model.
- The validity rules of integer inputs and their error text are not part of this model, because the integer-input module is not part of it. An invalid input is reported as `FieldInvalid(id)`.
- `FlybySequence.fromString` is not part of this model. Its result is a parameter.
- Values thrown inside the generator or solver other than the modelled `Thrown` cases are not modelled.
- `console.log` of the search time and of the best delta-V is not modelled.
- The construction and display of the found `Trajectory` inside `findTrajectory` is reduced to a `resultShown` flag. The `Trajectory` class models that part on its own.
- Bodies.SolarSystem.constructor: requires every attractor to be listed before its satellites. The source throws a TypeError otherwise, which is not modelled.
- Trajectories.Trajectory.constructor: requires every step's attractor id to resolve. The source would throw "No body with id …", which is not modelled.
- Trajectories.Trajectory.Draw: requires a scene group for every attractor it uses. The source would throw "No 3D objects from body of id …", which is not modelled.
- Editor.Editor.FindTrajectory: reading the first body of a missing or empty sequence throws a JavaScript TypeError; the model reports it as `NoOriginBody` without its message text. What the sequence selector returns when nothing is selected is outside this model; it is taken to be no sequence.
- The string form of the lookup errors ("No body with id …", "No body with name …") is not modelled; the errors are the `LookupError` values.
- Trajectories.Trajectory.TotalDeltaV: the sum uses exact reals, not IEEE doubles.
- Editor.AltitudeCapKm: the cap uses exact reals, not IEEE doubles.
