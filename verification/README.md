# MerlinKarel, modelled in Dafny

MerlinKarel is a Swift library in which a learner's program drives Karel the robot around a
grid of avenues and streets holding walls and beepers, while a scene animates every move.
This project models the integer, grid-level logic of that library as immutable datatypes
and pure functions, and proves what the code promises about it:

- `Grid` — `GridLocation` (avenue, street), its lexicographic `<`, `one`, `description`.
- `Compass` — the four headings with bearings north = 0, east = 90, south = 180, west = 270,
  the left/right turn permutations and the corner one step ahead (from `Karel.swift`).
- `Walls` — `Side` (`above`, `right`), `WallLocation`, a set of them, and the rule that a
  wall south or west of a corner is stored as the above/right wall of the neighbour.
- `WorldPlan` — horizontal, vertical and general wall segments, and the default plan.
- `Worlds` — the world record, the pixel spacing of the convenience initializer
  (Swift's truncating `Int` division), and `pointOnGrid`.
- `Robot` — Karel's current/next location, heading and rotation angle (integer degrees),
  the two pending-animation slots, their fatal double-arming guards, the completion frame,
  forward/turn arming, the north/west "short way" rotation and `isFacing`.
- `Executor` — the instruction API, each motion being one arm step and one completed
  frame, plus straight-line programs of instructions.
- `Beepers`, `Interaction` — the per-corner beeper counter and the corner-to-beeper map.
- `Situations` — the snapshot, its sorted, zero-free `description`, and situation equality.
- `Scene` — the show-mode toggle, the grading verdict, key dispatch and the wall split.
- `Terminal` — SGR control sequences (section 8.3.117 of ECMA-48) with the xterm
  `38;5;n` / `48;5;n` 256-colour forms, colour raw values and box-drawing runs.
- `Decimal`, `Wrappers` — Swift's `Int` interpolation, `Option`, and `Result`, whose
  `Fatal(message)` stands for a `precondition`/`fatalError` trap.

The code has no movement-legality (boundary or wall) check and no termination latch:
`move()` steps onto the neighbouring corner unconditionally, and whether a run was
terminated is an input of the completion handler. The model keeps it that way.

## Model

| member | source | states |
|---|---|---|
| Grid.LessIsLexicographic | Sources/MerlinKarel/GridLocation.swift:30-32 | `a < b` iff a's avenue is smaller, or the avenues tie and a's street is smaller |
| Grid.LessIsStrictTotalOrder | Sources/MerlinKarel/GridLocation.swift:19-32 | `<` is irreflexive and transitive; equality is memberwise; distinct locations are ordered one way exactly |
| Grid.Description | Sources/MerlinKarel/GridLocation.swift:34-36 | the description is a single parenthesised line (no newline or tab) |
| Grid.DescriptionInjective | Sources/MerlinKarel/GridLocation.swift:34-36 | `(avenue: a, street: s)` descriptions are equal iff the locations are equal |
| Decimal.IntToStringInjective | Sources/MerlinKarel/GridLocation.swift:35 | interpolating an `Int` loses nothing: distinct integers print differently (via parsing back) |
| Compass.Bearing | Sources/MerlinKarel/Karel.swift:139-153 | a heading's bearing is a whole quarter turn in [0, 360) |
| Compass.BearingInjective | Sources/MerlinKarel/Karel.swift:139-153 | distinct headings have distinct bearings |
| Compass.TurnPermutations | Sources/MerlinKarel/Karel.swift:202-226 | left is N→W→S→E→N, i.e. bearing −90 mod 360; right is +90 mod 360 and undoes left; four lefts are the identity |
| Compass.Forward | Sources/MerlinKarel/Karel.swift:189-200 | the corner ahead differs in exactly one coordinate by one: +1 street north, +1 avenue east, −1 south/west |
| Compass.ForwardThenBack | Sources/MerlinKarel/Karel.swift:189-200 | stepping ahead and then the opposite way returns to the start; a step always changes the corner |
| Compass.Name | Sources/MerlinKarel/Situation.swift:41 | a heading prints as a non-empty lower-case word |
| Compass.NameInjective | Sources/MerlinKarel/Situation.swift:41 | distinct headings print differently, so the dump's direction line determines the heading |
| Walls.Canonical | Sources/MerlinKarel/WallSide.swift:19-23 | the stored form of the wall on any side of a corner separates exactly that corner and its neighbour |
| Walls.CanonicalSouthWest | Sources/MerlinKarel/WallSide.swift:19-23 | a wall south of (a, s) is stored above (a, s−1); one west of (a, s) right of (a−1, s) |
| Walls.EdgeInjective | Sources/MerlinKarel/WallSide.swift:19-27 | two stored walls denote the same physical wall iff they are equal |
| Walls.CanonicalIsUnique | Sources/MerlinKarel/WallSide.swift:19-27 | the stored form is the one and only above/right wall denoting a given physical wall |
| Walls.CanonicalBothSides | Sources/MerlinKarel/WallSide.swift:19-21 | the wall on side d of a corner and on the opposite side of its neighbour are stored alike |
| Walls.CanonicalIdempotent | Sources/MerlinKarel/WallSide.swift:22-27 | canonicalising an above/right wall gives it back |
| WorldPlan.AddHorizontalWallSegment | Sources/MerlinKarel/WorldPlan.swift:26-38 | fatal iff the streets differ; otherwise the old walls plus an above wall at every avenue between the ends inclusive, either direction |
| WorldPlan.AddVerticalWallSegment | Sources/MerlinKarel/WorldPlan.swift:40-51 | fatal iff the avenues differ; otherwise the old walls plus a right wall at every street between the ends inclusive |
| WorldPlan.AddWallSegment | Sources/MerlinKarel/WorldPlan.swift:53-62 | same street (a single corner included) goes horizontal, else same avenue goes vertical, else fatal as a diagonal |
| WorldPlan.RunsAreSymmetric | Sources/MerlinKarel/WorldPlan.swift:28-50 | swapping the end points gives the same walls; a one-corner segment is the one wall at that corner |
| WorldPlan.DefaultPlanValues | Sources/MerlinKarel/WorldPlan.swift:68-97 | default plan: 10 × 10, no walls, Karel at (1, 3) facing north with 0 beepers, exactly one beeper, at (3, 2), goal equal to the initial situation |
| Situations.SortedKeys | Sources/MerlinKarel/Situation.swift:47 | sorting a key set yields each key once, in strictly ascending `<` order |
| Situations.ListedLocations | Sources/MerlinKarel/Situation.swift:46-47 | the dump lists a corner iff its count is positive, in strictly ascending order |
| Situations.Description | Sources/MerlinKarel/Situation.swift:39-53 | the dump begins with the location, direction, beeper-count and `beeperGridLocations:` lines, in that order |
| Situations.DescriptionLineCount | Sources/MerlinKarel/Situation.swift:39-53 | the dump has exactly 4 + (number of positive corners) lines |
| SituationEntries.DescriptionEntries | Sources/MerlinKarel/Situation.swift:46-50 | after the four header lines the dump is exactly the entry lines in order: line i is a tab, the i-th smallest corner with a positive count, `: ` and that corner's count |
| Situations.DescriptionRespectsEquivalence | Sources/MerlinKarel/Situation.swift:46-50 | situations that are equal up to zero counts have the same dump |
| Situations.EquivalentIsEquivalence | Sources/MerlinKarel/MainScene.swift:131 | the situation equality used for grading is reflexive, symmetric and transitive |
| Worlds.Quotient | Sources/MerlinKarel/World.swift:48-49 | integer division rounding toward zero: the magnitude is the floor of the magnitudes' ratio, the sign that of the product |
| Worlds.FromCanvas | Sources/MerlinKarel/World.swift:46-54 | counts and situations are kept; the spacing is the largest that fits (count − 1) gaps into the extent minus 100 |
| Worlds.PointOnGridOrder | Sources/MerlinKarel/World.swift:56-61 | with positive spacings x rises with the avenue, y falls as the street rises, the map is injective, street count−1 is at y = 50 and avenue 0 at x = 50 |
| Worlds.CornerOnCanvas | Sources/MerlinKarel/World.swift:56-61 | when the spacings fit count − 1 gaps within the margins, every corner 0..count−1 lands within [50, extent − 50] |
| Worlds.GridFitsCanvas | Sources/MerlinKarel/World.swift:46-61 | on a canvas at least 100 each way, every corner 0..count−1 lands within [50, extent − 50] |
| Robot.SetDidFinishNotification | Sources/MerlinKarel/Karel.swift:55-57 | installs the finish notification and changes no other field |
| Robot.Rotate | Sources/MerlinKarel/Karel.swift:127-133 | the heading and angle are set to the target in both current and next; location, slots and notification untouched; Karel at rest stays at rest |
| Robot.MoveTo | Sources/MerlinKarel/Karel.swift:164-174 | current and next location are set to the target; heading, angle, slots and notification untouched; Karel at rest stays at rest |
| Robot.AnimateToDirection | Sources/MerlinKarel/Karel.swift:135-162 | fatal iff a rotation is pending; else only the next heading/angle and the rotation slot change, the current heading stays |
| Robot.AnimateToLocation | Sources/MerlinKarel/Karel.swift:176-187 | fatal iff a translation is pending; else only the next location and the translation slot change |
| Robot.IsFacing | Sources/MerlinKarel/Karel.swift:228-230 | true iff the committed heading is the one asked about |
| Robot.PendingTurnReportsOld | Sources/MerlinKarel/Karel.swift:135-162 | arming a rotation leaves every `isFacing` answer as it was, so a pending turn still reports the old heading |
| Robot.Calculate | Sources/MerlinKarel/Karel.swift:105-124 | a pending animation reported complete commits next into current and clears its slot, firing one notification if installed; anything else is left as it was |
| Robot.SlotsAreIndependent | Sources/MerlinKarel/Karel.swift:135-187 | a rotation can be armed during a translation, while a second translation is still fatal |
| Robot.QuarterTurns | Sources/MerlinKarel/Karel.swift:142-157 | from rest a left turn animates exactly −90° and a right turn exactly +90°, thanks to the north/west 360° endpoints |
| Robot.ForwardThenComplete | Sources/MerlinKarel/Karel.swift:189-200 | arming forward and completing it lands on the corner ahead, same heading, at rest, one notification |
| Robot.TurnThenComplete | Sources/MerlinKarel/Karel.swift:202-226 | arming a turn and completing it faces left (right) of the old heading, same corner, at rest, one notification |
| Executor.SetKarel | Sources/MerlinKarel/KarelExecutor.swift:39-42 | attaching Karel installs the notification and establishes the executor invariant |
| Executor.Move | Sources/MerlinKarel/KarelExecutor.swift:72-80 | fatal iff no Karel; otherwise Karel ends on the corner ahead with the same heading, at rest again |
| Executor.TurnLeft | Sources/MerlinKarel/KarelExecutor.swift:82-90 | fatal iff no Karel; otherwise Karel ends facing left of the old heading on the same corner, at rest |
| Executor.IsFacingDirection | Sources/MerlinKarel/KarelExecutor.swift:132-162 | fatal iff no Karel; otherwise answers `karel.isFacing(d)` |
| Executor.ExactlyOneFacing | Sources/MerlinKarel/KarelExecutor.swift:132-162 | with Karel set exactly one of the four facing queries is true; without Karel all four are fatal |
| Executor.StubInstructions | Sources/MerlinKarel/KarelExecutor.swift:66-130 | the default `run`, `putDownBeeper` and `pickUpBeeper` change nothing; the clear/beeper queries answer false |
| Executor.Execute | Sources/MerlinKarel/KarelExecutor.swift:22-25 | each instruction finishes before the next begins, so the executor invariant holds after every surviving prefix |
| Executor.ExecuteFollowsWalk | Sources/MerlinKarel/KarelExecutor.swift:72-90 | with Karel set every program runs to the end with no double-armed animation and leaves Karel where the corner/heading walk says |
| Beepers.NewBeeper | Sources/MerlinKarel/Beeper.swift:36-43 | a new beeper's count is its initial count |
| Beepers.Increment | Sources/MerlinKarel/Beeper.swift:103-105 | the count grows by the given amount, by one by default |
| Beepers.Decrement | Sources/MerlinKarel/Beeper.swift:107-110 | fatal iff the count is below one; otherwise it drops by exactly one |
| Beepers.IncrementThenDecrement | Sources/MerlinKarel/Beeper.swift:103-110 | increment then decrement restores the beeper iff its count was not negative |
| Beepers.CountNeverNegative | Sources/MerlinKarel/Beeper.swift:99-110 | from a non-negative count with non-negative increments, a surviving run ends at start + balance ≥ 0, and every run whose prefixes never overdraw survives |
| Interaction.NewLayer | Sources/MerlinKarel/InteractionLayer.swift:23-33 | a new layer holds a fresh Karel and no beepers |
| Interaction.AddBeeper | Sources/MerlinKarel/InteractionLayer.swift:35-41 | fatal iff the corner is occupied; otherwise exactly that key is added and every other entry is kept |
| Interaction.RemoveBeeper | Sources/MerlinKarel/InteractionLayer.swift:43-47 | fatal iff the corner is empty; otherwise exactly that key is removed and every other entry is kept |
| Interaction.AddThenRemove | Sources/MerlinKarel/InteractionLayer.swift:35-47 | adding at an empty corner and removing there restores the layer |
| Scene.Toggled | Sources/MerlinKarel/MainScene.swift:29-36 | toggling always changes the show mode |
| Scene.ToggledTwice | Sources/MerlinKarel/MainScene.swift:29-36 | toggling twice is the identity |
| Scene.GoalMet | Sources/MerlinKarel/MainScene.swift:131 | met only if not terminated, and then iff the goal equals the current situation |
| Scene.ExecutionCompleted | Sources/MerlinKarel/MainScene.swift:124-149 | fatal without a world; no verdict outside mission-manager mode; in it, fatal without a key, else the verdict |
| Scene.TerminatedRunFails | Sources/MerlinKarel/MainScene.swift:131 | a terminated run is never graded a success |
| Scene.OnKeyDown | Sources/MerlinKarel/MainScene.swift:151-176 | fatal without a world; every key ignored in mission-manager mode; else Space toggles, KeyF faster, KeyS slower, other codes nothing |
| Scene.SpaceTwice | Sources/MerlinKarel/MainScene.swift:158-167 | two Space presses restore the scene |
| Scene.WallFiltersPartition | Sources/MerlinKarel/MainScene.swift:77-84 | the above walls and the right walls together are all walls, with none in both |
| Terminal.ControlSequenceParses | Sources/MerlinKarel/Terminal.swift:64-99 | every builder's output starts ESC `[`, ends `m`, and carries its parameters back out |
| Terminal.Render | Sources/MerlinKarel/Terminal.swift:64-94 | each attribute helper yields ESC `[` n `m` with its one- or two-digit SGR parameter (0, 22, 1, 2, 4, 5, 7, 27) |
| Terminal.RenditionInjective | Sources/MerlinKarel/Terminal.swift:64-94 | the eight attribute helpers return pairwise distinct strings |
| Terminal.PaletteIndex | Sources/MerlinKarel/Terminal.swift:36-57 | each colour names a 256-colour palette entry: one of the 16 system colours or 208 |
| Terminal.ColorRawIsPaletteIndex | Sources/MerlinKarel/Terminal.swift:36-57 | a colour's raw value is the decimal text of its palette entry |
| Terminal.ColorRawInjective | Sources/MerlinKarel/Terminal.swift:36-57 | the colours' raw values are pairwise distinct |
| Terminal.GroundRaw | Sources/MerlinKarel/Terminal.swift:59-62 | the ground selectors are two-digit codes (38 fore, 48 back) |
| Terminal.SetColor | Sources/MerlinKarel/Terminal.swift:96-99 | an SGR sequence with parameters ground `;5;` colour |
| Terminal.SetColorInjective | Sources/MerlinKarel/Terminal.swift:96-99 | distinct (colour, ground) pairs give distinct sequences |
| Terminal.LineBoxLight | Sources/MerlinKarel/Terminal.swift:101-103 | exactly `count` copies of the kind's box-drawing character, one by default |

## Left out

- Threading: the `DispatchSemaphore`, the one-second `asyncAfter` start delay and the weak
  reference to Karel. A motion instruction is one arm step followed by one completed frame.
- Executor.Move: requires the executor invariant `Ready` (Karel at rest with the notification installed), which `SetKarel` establishes and every instruction keeps; a motion issued while another animation is in flight cannot happen sequentially and is not modelled.
- Executor.TurnLeft: requires `Ready`, for the same reason as `Move`.
- Executor.Execute: programs are straight-line sequences of the state-changing instructions; the queries change nothing, so branching on them is not modelled. `turnRight()` is commented out of the API and so is not an instruction.
- Floating-point animation: tweens, easing, radians, the jitter and transforms of
  `calculate`, the intermediate angles a tween writes, and the beeper's spin and gradient.
  Angles are integer degrees, and tween completion is an input of `Robot.Calculate`.
- Rendering and compositing: `Grid.swift`, `Wall.swift`, `Background*.swift`, image loading,
  `setup`/`render`, `pointFrom` with the image size, and layer insertion and removal.
  `Karel.move(to:)` also traps when no image size is known; that guard is rendering state
  and is left out.
- `Style.swift` is not part of this model; its margins of 50 pixels are inlined.
- `ShellDirector.swift` and `Package.swift` are not part of this model.
- Process plumbing: the mission-manager environment flag is a field of the scene; `print`,
  `sleep` and `exit` in the completion handler, and `printKarel`, are left out.
- Members that the scene calls but no shown file defines — `World.wallLocations`,
  `merlinMissionManagerKey()`, `InteractionLayer.add(beeperAt:count:)`,
  `currentSituation()`, `Karel.setInitial`, the animation-speed setters,
  `setExecutionCompletedHandler` and `execute(isSilentRunning:)` — are inputs instead: the
  key is a scene field, the final situation a parameter, the speed change a result, and
  the wall split takes the wall set. `preSetup` itself is not modelled.
- Executor.SetKarel: the source hands the interaction layer's one `Karel` object to the executor, so the notification, the initial placement and every move or turn act on the Karel the layer shows and grades. The model keeps `InteractionLayer.karel` and `KarelExecutor.karel` as two independent values, and grading takes the final situation as a parameter instead of reading it from the layer.
- Scene.OnKeyDown: key codes are compared as exact character sequences, whereas Swift's `String` comparison uses Unicode canonical equivalence (a code with U+212A KELVIN SIGN in place of `K` would match `KeyF` in Swift). Browser key codes are ASCII, for which the two comparisons agree.
- Interaction.AddBeeper: the source calls a `Beeper(gridLocation:)` initializer that does not exist; the model passes the initial count as a parameter.
- Situation equality is not part of the shown source: `Situations.Equivalent` compares the
  four fields, beeper maps without their zero entries.
- `CompassDirection` is not part of the shown source: its description is taken to be the
  lower-case case name, and its raw value the bearing in degrees.
- `WallLocation` and `WallLocations` are not part of the shown source: a wall location is a
  corner and a side, and the collection is a set with an `addWall` that inserts.
- Swift's `Int` is 64 bits wide and its `+`, `-`, `*` and `/` trap on overflow; the model's integers are unbounded, so none of those traps appears: not in the wall-segment strides, the corner ahead, the pixel spacing and `pointOnGrid` arithmetic, nor the beeper counter.
- Beepers.Increment: adds without the overflow trap of `countIndicator += count` near the 64-bit bounds.
- Compass.Forward: steps without the overflow trap of `street + 1` / `avenue - 1` at the 64-bit bounds.
- Robot.AnimateToLocation: fatal only for a pending translation; the trap in `pointFrom` when the world or image size is not yet set (reached from the two `pointFrom` calls) is rendering state and is left out.
- Robot.Calculate: the guard that traps when the image location or size is not yet set is rendering state and is left out, as is the `pointFrom` call that repositions the image.
- Worlds.FromCanvas: the spacing bounds are stated only for extents of at least 100 pixels and counts of at least 2; a count of 1 divides by zero and is excluded by `requires`.
- Terminal.LineBoxLight: a negative count traps inside `String(repeating:count:)` and is excluded by `requires`.
