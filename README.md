# Car-avoidance endless runner: the gameplay-state core

A model of the gameplay core of `game.cpp`, a single-file OpenGL endless runner. A car drives forward along a three-lane road, and the player switches lanes to dodge obstacles. The road and the roadside buildings stream in ahead of the car, and the score raises the speed tier by tier. Rendering, windowing and text are left out. What remains is the state the main loop mutates each frame:

- **World streamer** (`Road`): a deque of road segments, 20 units each. At most one segment is appended at the back per frame, and stale segments are then popped from the front. `resetGame` re-seeds 52 contiguous segments starting at -500.
- **Spawners** (`Spawner`): two accumulating timers.
  - The 1-second timer appends one obstacle in a random lane.
  - The 3-second timer appends a left/right building pair, then culls stale buildings from the front.
- **Lane-change state machine** (`Lanes`):
  - D and A intents start a change towards the lower or higher lane.
  - Each frame integrates progress at rate 2, clamps it at 1 and commits the target lane.
  - The car's x is interpolated between the lanes, and its yaw follows a signed triangular profile that peaks at 15 degrees.
- **Progression and collision** (`Progression`): `carZ += speed * dt`, the score is the integer part of `carZ`, and the speed rises by 10% of the base speed per 500-point tier. Collision is a point-distance test against a radius of 2, written as squared distance < 4.
- **Session controller** (`Session`): the menu / playing / game-over modes encoded by `gameStarted` and `gameOver`, driven by Esc, Space, M and R. `resetGame` is the single re-initialiser.

`Simulation` puts all of this together as one value, `World`, with one function per key handler and per block of the frame. It proves how a frame moves the session, the run and the world invariant. `Game.GameState` is the imperative model:
- its fields are the gameplay globals of `game.cpp` and the two function-static spawner timers; the fixed globals `lanes`, `segmentSize`, `baseSpeed` and `laneChangeSpeed` are module constants;
- its methods are `resetGame`, `processInput` key by key, the spawners, the road streamer, the progression and lane-transition blocks, the collision loop and one main-loop iteration (`Frame`).

`ResetGame` establishes the object invariant `Valid()`, needing only the timers in range. These outer methods require it and keep it:
- `UpdateProgression`, `GenerateRoadIfNeeded`, `SpawnObstacles`, `SpawnBuildings` and `UpdateLaneChange`;
- `CheckCollisions`, `ProcessInput`, `ModeKeys`, `EscapeKey`, `StartKey`, `MenuKey`, `CameraKey`, `LaneKeys`, `RestartKey`, `Frame` and `Simulate`.

Each of them is proved to change the snapshot `State()` exactly as a specification function says: a `Simulation` function, or a record update of the old snapshot by `Progression.Advance`, `Road.StreamRoad`, `Spawner.ObstaclesAfter`, `Spawner.BuildingsAfter`, `Spawner.TimerAfter` or `Lanes.StepLane` with `CarX` and `Yaw`. Narrower helper methods do part of the work: `SeedRoad`, `ResetPose`, `ResetRun`, `StepRun`, `StreamSegments`, `StepObstacles`, `StepBuildings`, `StepPose`, `AdvanceLaneChange`, `InterpolatePose` and `SteerLane`. They do not state `Valid()` or `State()`. Each states its result on the fields it modifies, in terms of the same specification functions.

The loops keep their source form:
- the seeding `for` loop;
- the `pop_front` and front-`erase` `while` loops;
- the collision scan.

Inputs the program draws from the outside are parameters:
- the frame time `dt >= 0`, which stands for `glfwGetTime` differences;
- the six `rand()` results of a frame (`Draws`, any natural numbers; the `% n` is modelled);
- one frame's debounced key intents (`Intents`).

Behaviours of the code that are easy to miss, and that the model keeps:

- **Lane intents on the menu.** The lane-intent block tests `gameOver` but not `gameStarted`, so intents change the lane state on the menu too (`Simulation.MenuTakesLaneIntents`).
- **Esc at game over** does nothing (`Session.ModeAfterInput`).
- **`resetGame`** leaves `gameStarted` and the two spawner timers alone (`Simulation.Reset`, `Game.GameState.ResetGame`).
- **Collision** runs on every frame once the game has started, game-over frames included. The menu branch skips it (`Simulation.FrameStep`).
- **Road coverage.** The streamer does not guarantee that the road always reaches three segment lengths past the car, nor that no kept segment ends more than 50 units behind it:
  - trimming only happens on frames that append, so stale segments can stay on frames that do not;
  - the lookahead is guaranteed to survive a frame only when the car moves at most one segment length (`Road.StreamKeepsLookahead`);
  - a frame that carries the car far enough empties the deque for the rest of the run (until `resetGame` re-seeds it), because the guard requires a non-empty deque (`Road.StreamCanDrain`).
- **Key bindings.** D aims at the lower lane index and A at the higher one. When both are pressed in one frame, A wins if its lane exists; in lane 2 D's change to lane 1 stands (`Lanes.LaneScenarios`).
- **Score** is a truncating `(int)` cast rather than a floor. The two agree because `carZ` never goes negative (`Progression.Truncate`, `Progression.ScoreOfCarZ`).
- **The scenario of four 0.25-second frames** after a lane intent completes the change on the second frame and stays idle through the other two (`Lanes.LaneScenarios`).

## Model

| member | source | states |
|---|---|---|
| Lanes.CarX | game.cpp:452-455 | x is the current lane's x at progress 0, the target lane's at progress 1, and the current lane's whenever no change is under way |
| Lanes.Triangle | game.cpp:457-466 | the unsigned yaw lies in [0, 15] on [0, 1], is 0 exactly at progress 0 and 1, and is 15 exactly at progress 0.5 |
| Lanes.Yaw | game.cpp:457-476 | yaw lies within ±15; it is negative exactly while changing towards a lower lane index and positive exactly towards a higher one (after progress 0); it is 0 when idle; its magnitude is 15 exactly at the midpoint of a change |
| Lanes.ApplyLaneIntents | game.cpp:720-741 | keeps the lane state valid and never moves playerLane; changes the state iff the car is idle, the game is not over and an intent is in bounds; otherwise all lane state is unchanged; a fired intent targets playerLane ∓ 1 at progress 0; A wins over D when its lane exists, and in lane 2 D's change stands |
| Lanes.IntentsKeepPose | game.cpp:720-741 | starting a change moves neither the car's x nor its yaw |
| Lanes.ProgressAfter | game.cpp:443 | progress never decreases for dt >= 0 |
| Lanes.StepLane | game.cpp:442-451 | keeps the lane state valid; idle is a fixed point; progress grows and is clamped; the change ends iff progress + 2·dt reaches 1; a change that continues has progress exactly progress + 2·dt; one that ends commits playerLane = targetLane at progress 1 |
| Lanes.ArrivalIsCentred | game.cpp:445-455 | a change that completes leaves the car exactly at the target lane's x with yaw 0 |
| Lanes.ChangeDuration | game.cpp:442-451 | over two frames from a fresh start, the car is still changing iff less than 0.5 seconds passed; otherwise it sits in the target lane |
| Lanes.LaneScenarios | game.cpp:720-741 | D in lane 0 is a no-op; D and A together in lane 2 start a change to lane 1; A in lane 1 followed by four 0.25-second frames ends idle in lane 2 at x = 3 with yaw 0 |
| Road.ContiguousIffAdjacentApart | game.cpp:667-674 | "every start is a whole number of segments after the first" is equivalent to "consecutive starts are 20 apart" |
| Road.InitialRoad | game.cpp:629-634 | the seeded road has 52 contiguous segments from -500 to 520 |
| Road.TrimStale | game.cpp:671-672 | trimming never lengthens the deque |
| Road.TrimStaleContract | game.cpp:671-672 | trimming keeps a suffix; every dropped segment ends more than 50 behind the car, and the new front does not |
| Road.StreamRoad | game.cpp:667-674 | without the guard the deque is unchanged; with it, it grows by at most one |
| Road.StreamRoadContract | game.cpp:667-674 | if the guard fails the deque is unchanged; otherwise one segment is appended at the last start + 20, and only a stale front prefix of the extended deque is removed, in order |
| Road.SuffixContiguous | game.cpp:671-672 | popping from the front keeps a contiguous deque contiguous |
| Road.Extension | game.cpp:668-670 | one segment appended at the last start + 20; its promises are stated by Road.ExtensionContiguous and Road.StreamRoadContract |
| Road.ExtensionContiguous | game.cpp:668-670 | the appended segment starts where the last one ends, so contiguity is kept |
| Road.StreamKeepsContiguity | game.cpp:667-674 | streaming keeps consecutive starts exactly 20 apart |
| Road.StreamKeepsLookahead | game.cpp:667-674 | if the road reaches three segment lengths past the car and the car moves at most 20, the road still reaches that far and its last start moves by at most one segment |
| Road.StreamCanDrain | game.cpp:667-674 | a frame that carries the car more than 50 past the end of the extended road empties the deque, and an empty deque stays empty |
| Spawner.TimerAfter | game.cpp:638-645 | the timer is reset to 0 exactly when timer + dt exceeds the period, and otherwise advances by dt; it stays within [0, period] |
| Spawner.SpawnZ | game.cpp:643 | a spawn z lies in [carZ + 80, carZ + 129] at a whole-number offset from carZ |
| Spawner.NewObstacle | game.cpp:641-644 | a new obstacle sits in one of the three lanes on the ground, has a type in 0..2 and a z within the spawn window |
| Spawner.ObstaclesAfter | game.cpp:637-647 | the old list is a prefix of the new; exactly one obstacle is appended iff the timer fires, and it is the drawn one; well-formedness is kept |
| Spawner.NewPair | game.cpp:654-658 | a pair is a left building at x = -16 followed by a right one at x = 16, at one z in the spawn window, with types 0..3 |
| Spawner.CullBuildings | game.cpp:660-661 | culling never lengthens the list |
| Spawner.CullContract | game.cpp:660-661 | culling keeps a suffix; every culled building lies more than 100 behind the car, and the new front does not |
| Spawner.AppendPairKeepsPairs | game.cpp:656-658 | appending a pair to a list of whole pairs gives a list of whole pairs |
| Spawner.CullKeepsPairs | game.cpp:660-661 | culling never splits a pair, because both members share one z |
| Spawner.BuildingsAfter | game.cpp:649-665 | when the timer fires, a pair is appended and the list is culled, otherwise nothing changes; its promises are stated by Spawner.BuildingsAfterContract and Spawner.BuildingsAfterKeepsPairs |
| Spawner.BuildingsAfterKeepsPairs | game.cpp:649-665 | spawnBuildings keeps the list a run of whole left/right pairs |
| Spawner.BuildingsAfterContract | game.cpp:649-665 | nothing changes until the timer fires; then one pair is appended and only a stale front prefix is removed, in order |
| Progression.Truncate | game.cpp:426 | the C++ cast truncates towards zero: the floor for non-negative values, the ceiling for negative ones |
| Progression.TierMonotone | game.cpp:429 | the tier (score / 500) * 500 is a multiple of 500, at most the score, and monotone in the score |
| Progression.TierSpeedSteps | game.cpp:432 | a tier's speed is at least the base speed, and each next tier adds exactly 10% of the base speed |
| Progression.TierSpeedMonotone | game.cpp:432 | tier speeds are strictly increasing in the tier |
| Progression.ScoreOfCarZ | game.cpp:423-426 | (int)((carZ / 10) * 10) is the integer part of carZ |
| Progression.Advance | game.cpp:421-432 | one frame of progression; its promises are stated by Progression.AdvanceContract and Progression.FiveSecondsFromStart |
| Progression.MovedTo | game.cpp:423-432 | distance, score, tier and speed re-derived from the new carZ; its promises are stated by Progression.MovedToContract |
| Progression.MovedToContract | game.cpp:423-432 | once carZ moves forward, distance, score, tier and speed are re-derived consistently; none of them drops; the speed changes iff the score entered a tier above the last one |
| Progression.AdvanceContract | game.cpp:421-432 | a frame keeps the run consistent, adds exactly speed·dt to carZ, never lowers the score, the last tier or the speed (which stays at least the base speed), and changes the speed iff a new tier is reached |
| Progression.FiveSecondsFromStart | game.cpp:421-432 | from a fresh run, 5 seconds give carZ 100, distance 10 and score 100, with speed unchanged |
| Progression.Hits | game.cpp:816-818 | the collision test against the car at (currentCarX, 0, carZ); its promises are stated by Progression.HitIffCloserThanRadius and Progression.OtherLaneNeverHits |
| Progression.HitIffCloserThanRadius | game.cpp:816-818 | the squared-distance test holds exactly when the Euclidean distance is below 2 |
| Progression.OtherLaneNeverHits | game.cpp:816-818 | an obstacle in another lane than the one the car is centred in is never hit |
| Session.ModeAfterInput | game.cpp:676-754 | after input the mode is game over iff it was game over and neither M nor R was pressed; Space starts from the menu; Esc leaves a running game (unless Space brings it straight back); M leads to the menu and R to a new game from game over |
| Session.ResetsExactly | game.cpp:680-754 | resetGame runs iff Esc is pressed while playing or M or R at game over, and never leaves the game over |
| Session.CameraAfterInput | game.cpp:676-754 | C toggles the camera; an early reset clears the flag before the toggle and R's reset clears it after |
| Session.LaneAfterInput | game.cpp:676-754 | the lane state stays valid; at game over without M or R it is unchanged; on the menu and while playing without Esc the intents apply unblocked; after Esc's or M's reset the intents act on the initial lane state; R's reset discards them and leaves the initial lane state |
| Simulation.Reset | game.cpp:612-635 | everything except gameStarted and the two timers goes back to its start value; its promises are stated by Simulation.ResetIdempotent, Simulation.InputResetsWorld and Game.GameState.ResetGame |
| Simulation.Escaped | game.cpp:679-692 | Esc while playing clears gameStarted and resets, and does nothing otherwise; the session lemmas Simulation.InputFollowsSession and Simulation.InputResetsWorld state its effect, and Game.GameState.EscapeKey is proved equal to it |
| Simulation.Started | game.cpp:696-702 | Space sets gameStarted only from the menu; see Simulation.InputFollowsSession and Game.GameState.StartKey |
| Simulation.LeftOver | game.cpp:704-711 | M at game over clears gameStarted and resets; see Simulation.InputFollowsSession, Simulation.InputResetsWorld and Game.GameState.MenuKey |
| Simulation.Toggled | game.cpp:713-718 | C flips the camera flag; see Simulation.InputMovesCamera and Game.GameState.CameraKey |
| Simulation.Steered | game.cpp:720-747 | the lane intents applied, blocked by game over; see Simulation.InputMovesLane and Game.GameState.LaneKeys |
| Simulation.Restarted | game.cpp:748-754 | R at game over resets and then sets gameStarted; see Simulation.InputFollowsSession, Simulation.InputResetsWorld and Game.GameState.RestartKey |
| Simulation.ResetIdempotent | game.cpp:612-635 | applying resetGame twice equals applying it once |
| Simulation.AfterInput | game.cpp:676-754 | processInput keeps the lane state valid |
| Simulation.Collided | game.cpp:816-818 | gameOver set when any obstacle is hit, never cleared; see Simulation.CollisionIdempotent, Simulation.FrameFollowsSession and Game.GameState.CheckCollisions |
| Simulation.Simulated | game.cpp:421-476 | progression, road streamer, both spawners and the lane transition in source order; see Simulation.SimulationKeepsValid, Simulation.FrameOnlyMovesForward and Game.GameState.Simulate |
| Simulation.FrameStep | game.cpp:369-476 | input, then nothing more on the menu, the simulation block unless over, then the collision test; see Simulation.FrameFollowsSession, Simulation.GameOverFreezes, Simulation.MenuTakesLaneIntents, Simulation.OnlyResetClearsGameOver and Game.GameState.Frame |
| Simulation.InputFollowsSession | game.cpp:676-754 | processInput keeps game over inside a started game, and its flags follow the session's mode machine |
| Simulation.InputMovesCamera | game.cpp:676-754 | the camera flag after processInput is the one the camera's input function gives |
| Simulation.InputMovesLane | game.cpp:676-754 | the lane state after processInput is the one the lane's input function gives |
| Simulation.InputResetsWorld | game.cpp:676-754 | processInput never touches the spawner timers; it leaves run, road, obstacles, buildings and pose initial when it resets and untouched when it does not |
| Simulation.InputWithoutReset | game.cpp:696-747 | without a reset, processInput only starts on Space, toggles the camera on C and applies the lane intents |
| Simulation.FrameFollowsSession | game.cpp:369-476 | a frame whose mode after input is not playing is just its input; a playing frame runs the simulation block and the collision test, and ends over iff an obstacle is hit |
| Simulation.GameOverFreezes | game.cpp:369-476 | at game over, a frame without M or R changes only the camera flag |
| Simulation.MenuTakesLaneIntents | game.cpp:720-741 | on the menu, a frame without Space changes the camera flag and applies the lane intents, nothing else |
| Simulation.FrameOnlyMovesForward | game.cpp:421-476 | a frame without a reset never lowers carZ, the score, the last tier or the speed, and only appends obstacles; a playing frame advances the run by exactly one step |
| Simulation.SimulationKeepsValid | game.cpp:421-476 | the simulation block keeps the world invariant |
| Simulation.FrameKeepsValid | game.cpp:369-476 | a frame without a reset keeps the world invariant |
| Simulation.CollisionIdempotent | game.cpp:816-818 | the collision test only sets the flag: running it twice is running it once, and a game already over is left alone |
| Simulation.OnlyResetClearsGameOver | game.cpp:704-754 | a frame that starts over and does not end over is one in which M or R called resetGame |
| Game.GameState.PoseIsLane | game.cpp:452-476 | the pose fields are valid iff the lane state is valid and x and yaw are derived from it |
| Game.GameState.RunIsConsistent | game.cpp:421-432 | the progression fields are valid iff the run they form is consistent |
| Game.GameState.FreshRunIsValid | game.cpp:612-635 | a freshly reset state with its timers in range satisfies the invariant |
| Game.GameState.ValidIsValidWorld | game.cpp:31-83 | the object invariant is exactly the world invariant of the snapshot |
| Game.GameState.constructor | game.cpp:361-367 | the initial globals, the seeding loop and resetGame give a valid fresh run on the menu with both timers at 0 |
| Game.GameState.SeedRoad | game.cpp:361-365 | the seeding loop appends exactly the 52 initial segments |
| Game.GameState.ResetPose | game.cpp:613-618 | the lane fields and the pose are back at lane 1, idle, x 0, yaw 0 |
| Game.GameState.ResetRun | game.cpp:619-627 | carZ, distance, score, speed, tier, the lists, gameOver and the camera flag are back to their start values |
| Game.GameState.ResetGame | game.cpp:612-635 | resetGame keeps the invariant and changes the snapshot exactly as the reset function says |
| Game.GameState.UpdateProgression | game.cpp:421-435 | the progression block advances the run one step and changes nothing else |
| Game.GameState.StepRun | game.cpp:422-432 | the five progression fields become the advanced run, and stay consistent |
| Game.GameState.GenerateRoadIfNeeded | game.cpp:667-674 | the road streamer changes only the deque, as the streaming function says |
| Game.GameState.StreamSegments | game.cpp:667-674 | the push_back / pop_front loop yields the streamed, contiguous deque |
| Game.GameState.SpawnObstacles | game.cpp:637-647 | spawnObstacles changes only its timer and the obstacle list, as the spawner functions say |
| Game.GameState.StepObstacles | game.cpp:637-647 | the obstacle list and the timer become their after-frame values |
| Game.GameState.SpawnBuildings | game.cpp:649-665 | spawnBuildings changes only its timer and the building list, as the spawner functions say |
| Game.GameState.StepBuildings | game.cpp:649-665 | the appends and the front-erase loop yield the spawned and culled list of whole pairs |
| Game.GameState.UpdateLaneChange | game.cpp:441-476 | the lane transition steps the lane state and derives x and yaw from it, changing nothing else |
| Game.GameState.StepPose | game.cpp:442-476 | the lane fields become the stepped lane state, and the pose stays derived from it |
| Game.GameState.AdvanceLaneChange | game.cpp:443-450 | integration, clamp and commit give the stepped lane state; the yaw is zeroed on commit and otherwise left alone |
| Game.GameState.InterpolatePose | game.cpp:453-471 | x is the interpolation between the two lanes; yaw is the triangular profile, signed by direction |
| Game.GameState.CheckCollisions | game.cpp:816-818 | the scan sets gameOver iff it was set or some obstacle is within the radius, and changes nothing else |
| Game.GameState.ProcessInput | game.cpp:676-754 | processInput keeps the invariant, requests a quit exactly on Esc at the menu, and acts as the input function says |
| Game.GameState.ModeKeys | game.cpp:679-711 | Esc, Space and M act in source order, each as its step function says |
| Game.GameState.EscapeKey | game.cpp:679-692 | Esc resets to the menu from a running game, requests a quit on the menu and does nothing at game over |
| Game.GameState.StartKey | game.cpp:696-702 | Space sets gameStarted only from the menu |
| Game.GameState.MenuKey | game.cpp:704-711 | M acts only at game over: it clears gameStarted and resets |
| Game.GameState.CameraKey | game.cpp:713-718 | C toggles the camera flag |
| Game.GameState.LaneKeys | game.cpp:720-747 | the lane-intent block changes only the lane fields, as the intent function says |
| Game.GameState.SteerLane | game.cpp:720-741 | the lane fields become the intent function's result, and the pose stays derived from them |
| Game.GameState.RestartKey | game.cpp:748-754 | R acts only at game over: it resets and then sets gameStarted |
| Game.GameState.Frame | game.cpp:369-476 | one main-loop iteration keeps the invariant, including on resetting frames, requests a quit exactly on Esc at the menu, and acts as the frame function says |
| Game.GameState.Simulate | game.cpp:421-476 | progression, streamer, spawners and lane transition, in order, act as the simulation block says |

## Left out

- Window, OpenGL context, shaders, models, textures, FreeType text, HUD and menu text, camera pose and draw transforms: foreign libraries and presentation, with no effect on the gameplay state.
- `glfwGetTime`, `rand`/`srand` and raw key polling: I/O and randomness. They become the `dt`, `Draws` and `Intents` parameters.
- The per-key debounce latches of `processInput`: an intent is one frame's "key down and its latch clear" condition as the source tests it. How latches carry across frames, such as a lane key held through a change, is not modelled.
- `RAND_MAX`: the draws are any natural numbers. The model keeps each `% n`.
- IEEE-754 single precision, rounding and signed zeros: values are exact reals. For example, a left change stepped with dt = 0 leaves progress 0 and the yaw at -0.
- 32-bit overflow of `totalScore` and of the tier arithmetic: integers are unbounded.
- The `std::cout` message on a speed increase: console output.
- `sqrt`: the collision test is written as squared distance < 4, and `Progression.HitIffCloserThanRadius` proves the two tests the same.
- Simulation.FrameKeepsValid: the pure world invariant is proved only for frames without a reset. A resetting frame keeps it through the object invariant that `Game.GameState.Frame` ensures.
- Road.StreamKeepsLookahead: the lookahead is proved only for frames that move the car at most one segment length, because the code does not keep it beyond that.
