/** The gameplay state as one value, and each part of a frame as a function
    on it: the keys of processInput, resetGame, the simulation block of a
    playing frame and the collision test (game.cpp:408-476, 612-635,
    676-754, 816-818). The methods of the game state are proved to act on
    their state's snapshot exactly as these functions say. */
module Simulation {
  import opened Lanes
  import opened Road
  import opened Spawner
  import opened Progression
  import opened Session

  /** Every global the frame reads or writes: the lane state and the car's
      pose, the road, the run, the two entity lists, the mode flags, the
      camera flag and the two spawner timers. */
  datatype World = World(lane: LaneState, carX: real, yaw: real, road: seq<RoadSegment>, run: Run,
                         obstacles: seq<Obstacle>, buildings: seq<Building>, gameOver: bool,
                         gameStarted: bool, firstPerson: bool, obstacleTimer: real, buildingTimer: real)

  /** The simulation block of a playing frame, in source order:
      progression, the road streamer (at the new carZ), the two spawners and
      the lane transition, which sets the car's x and yaw. */
  function Simulated(w: World, dt: real, d: Draws): World
    requires ValidLane(w.lane) && dt >= 0.0
  {
    var run := Advance(w.run, dt);
    var road := StreamRoad(w.road, run.carZ);
    var obs := ObstaclesAfter(w.obstacles, w.obstacleTimer, dt, run.carZ, d.obstacleLane, d.obstacleKind, d.obstacleZ);
    var ot := TimerAfter(w.obstacleTimer, dt, ObstaclePeriod);
    var bs := BuildingsAfter(w.buildings, w.buildingTimer, dt, run.carZ, d.buildingZ, d.leftKind, d.rightKind);
    var bt := TimerAfter(w.buildingTimer, dt, BuildingPeriod);
    var lane := StepLane(w.lane, dt);
    w.(run := run, road := road, obstacles := obs, obstacleTimer := ot, buildings := bs, buildingTimer := bt,
       lane := lane, carX := CarX(lane), yaw := Yaw(lane))
  }

  /** The mode flags encode a session mode: game over only inside a started game. */
  predicate FlagsConsistent(w: World) {
    w.gameOver ==> w.gameStarted
  }

  /** The world invariant: a valid lane state with the pose derived from it,
      a contiguous road, a consistent run, well-formed obstacles, whole
      building pairs, timers within their periods and game over only inside
      a started game. */
  predicate ValidWorld(w: World) {
    ValidLane(w.lane) && w.carX == CarX(w.lane) && w.yaw == Yaw(w.lane) &&
    Contiguous(w.road) && Consistent(w.run) && AllWellFormed(w.obstacles) && PairedUp(w.buildings) &&
    0.0 <= w.obstacleTimer <= ObstaclePeriod && 0.0 <= w.buildingTimer <= BuildingPeriod &&
    FlagsConsistent(w)
  }

  /** resetGame: everything back to its start value except gameStarted and
      the two spawner timers, which it leaves alone. */
  function Reset(w: World): World {
    w.(lane := InitialLane, carX := 0.0, yaw := 0.0, road := InitialRoad(), run := InitialRun,
       obstacles := [], buildings := [], gameOver := false, firstPerson := false)
  }

  /** resetGame is idempotent: resetting a reset world changes nothing. */
  lemma ResetIdempotent(w: World)
    ensures Reset(Reset(w)) == Reset(w)
  {
  }

  /** The session mode of the world's two flags. */
  function ModeOf(w: World): Mode {
    ModeOfFlags(w.gameStarted, w.gameOver)
  }

  /** Esc while playing: back to the menu, then resetGame. */
  function Escaped(w: World, pressed: bool): World {
    if pressed && ModeOf(w) == Playing then Reset(w.(gameStarted := false)) else w
  }

  /** Space on the menu starts a game. */
  function Started(w: World, pressed: bool): World {
    if pressed && !w.gameStarted then w.(gameStarted := true) else w
  }

  /** M at game over: back to the menu, then resetGame. */
  function LeftOver(w: World, pressed: bool): World {
    if pressed && w.gameOver then Reset(w.(gameStarted := false)) else w
  }

  /** C toggles the camera. */
  function Toggled(w: World, pressed: bool): World {
    if pressed then w.(firstPerson := !w.firstPerson) else w
  }

  /** D and A: the lane intents, blocked by game over. */
  function Steered(w: World, left: bool, right: bool): World
    requires ValidLane(w.lane)
  {
    w.(lane := ApplyLaneIntents(w.lane, w.gameOver, left, right))
  }

  /** R at game over: resetGame, then straight back into a game. */
  function Restarted(w: World, pressed: bool): World {
    if pressed && w.gameOver then Reset(w).(gameStarted := true) else w
  }

  /** processInput: the keys in source order. */
  function AfterInput(w: World, i: Intents): (r: World)
    requires ValidLane(w.lane)
    ensures ValidLane(r.lane)
  {
    var modes := LeftOver(Started(Escaped(w, i.escape), i.start), i.menu);
    Restarted(Steered(Toggled(modes, i.camera), i.laneLeft, i.laneRight), i.restart)
  }

  /** The collision test: game over once any obstacle is within the radius. */
  function Collided(w: World): World {
    w.(gameOver := w.gameOver || AnyHit(w.obstacles, w.carX, w.run.carZ))
  }

  /** One iteration of the main loop: input; nothing more on the menu; the
      simulation block unless the game is over; then the collision test. */
  function FrameStep(w: World, dt: real, i: Intents, d: Draws): World
    requires ValidLane(w.lane) && dt >= 0.0
  {
    var p := AfterInput(w, i);
    if !p.gameStarted then p
    else Collided(if p.gameOver then p else Simulated(p, dt, d))
  }

  /** processInput moves the session as the mode machine says. */
  lemma InputFollowsSession(w: World, i: Intents)
    requires ValidLane(w.lane) && FlagsConsistent(w)
    ensures FlagsConsistent(AfterInput(w, i))
    ensures ModeOf(AfterInput(w, i)) == ModeAfterInput(ModeOf(w), i)
  {
  }

  /** processInput moves the camera flag as the camera's input function says. */
  lemma InputMovesCamera(w: World, i: Intents)
    requires ValidLane(w.lane) && FlagsConsistent(w)
    ensures AfterInput(w, i).firstPerson == CameraAfterInput(w.firstPerson, ModeOf(w), i)
  {
  }

  /** processInput moves the lane state as the lane's input function says. */
  lemma InputMovesLane(w: World, i: Intents)
    requires ValidLane(w.lane) && FlagsConsistent(w)
    ensures AfterInput(w, i).lane == LaneAfterInput(w.lane, ModeOf(w), i)
  {
    if LateReset(ModeOf(w), i) {
    } else if EarlyReset(ModeOf(w), i) {
    } else {
      InputWithoutReset(w, i);
    }
  }

  /** processInput reinitialises the world exactly when the session machine
      says it resets, leaves it alone otherwise, and never touches the timers. */
  lemma InputResetsWorld(w: World, i: Intents)
    requires ValidLane(w.lane) && FlagsConsistent(w)
    ensures var r := AfterInput(w, i);
            r.obstacleTimer == w.obstacleTimer && r.buildingTimer == w.buildingTimer &&
            (Resets(ModeOf(w), i) ==>
               r.run == InitialRun && r.road == InitialRoad() && r.obstacles == [] && r.buildings == [] &&
               r.carX == 0.0 && r.yaw == 0.0) &&
            (!Resets(ModeOf(w), i) ==>
               r.run == w.run && r.road == w.road && r.obstacles == w.obstacles && r.buildings == w.buildings &&
               r.carX == w.carX && r.yaw == w.yaw)
  {
    if LateReset(ModeOf(w), i) {
    } else if EarlyReset(ModeOf(w), i) {
      var m := LeftOver(Started(Escaped(w, i.escape), i.start), i.menu);
      assert m == Reset(m) && !m.gameOver;
    } else {
      InputWithoutReset(w, i);
    }
  }

  /** A frame does what its mode after input says: on the menu and at game
      over nothing but the input's effect; while playing, the simulation
      block and then the collision test, which decides alone whether the
      game is now over. */
  lemma FrameFollowsSession(w: World, dt: real, i: Intents, d: Draws)
    requires ValidLane(w.lane) && dt >= 0.0 && FlagsConsistent(w)
    ensures var next := ModeAfterInput(ModeOf(w), i);
            var p := AfterInput(w, i);
            var r := FrameStep(w, dt, i, d);
            FlagsConsistent(r) &&
            (next != Playing ==> r == p) &&
            (next == Playing ==>
               r == Collided(Simulated(p, dt, d)) &&
               (ModeOf(r) == Over <==> AnyHit(r.obstacles, r.carX, r.run.carZ)) &&
               (ModeOf(r) != Over ==> ModeOf(r) == Playing))
  {
    InputFollowsSession(w, i);
  }

  /** At game over, a frame without M or R changes nothing but the camera:
      the lane intents are blocked and the simulation is skipped. */
  lemma GameOverFreezes(w: World, dt: real, i: Intents, d: Draws)
    requires ValidLane(w.lane) && dt >= 0.0 && ModeOf(w) == Over && !i.menu && !i.restart
    ensures FrameStep(w, dt, i, d) == w.(firstPerson := w.firstPerson != i.camera)
  {
  }

  /** On the menu, a frame without Space changes the camera and, since the
      lane intents do not consult the mode, possibly the lane state. */
  lemma MenuTakesLaneIntents(w: World, dt: real, i: Intents, d: Draws)
    requires ValidLane(w.lane) && dt >= 0.0 && FlagsConsistent(w) && ModeOf(w) == Menu && !i.start
    ensures FrameStep(w, dt, i, d) ==
            w.(firstPerson := w.firstPerson != i.camera,
               lane := ApplyLaneIntents(w.lane, false, i.laneLeft, i.laneRight))
  {
  }

  /** A frame that does not reset only moves forward: carZ, score, the last
      tier and the speed never drop and obstacles are only appended; a
      playing frame advances the run by exactly one step. */
  lemma FrameOnlyMovesForward(w: World, dt: real, i: Intents, d: Draws)
    requires ValidLane(w.lane) && dt >= 0.0 && FlagsConsistent(w) && Consistent(w.run)
    requires !Resets(ModeOf(w), i)
    ensures var r := FrameStep(w, dt, i, d);
            w.run.carZ <= r.run.carZ && w.run.score <= r.run.score &&
            w.run.lastTier <= r.run.lastTier && w.run.speed <= r.run.speed &&
            w.obstacles <= r.obstacles &&
            (ModeAfterInput(ModeOf(w), i) == Playing ==> r.run == Advance(w.run, dt))
  {
    InputWithoutReset(w, i);
    AdvanceContract(w.run, dt);
  }

  /** The simulation block keeps the world invariant: the run stays
      consistent, the road contiguous, the obstacles well formed, the
      buildings paired, the timers in range and the pose derived from the
      lane state. */
  lemma SimulationKeepsValid(w: World, dt: real, d: Draws)
    requires ValidWorld(w) && dt >= 0.0
    ensures ValidWorld(Simulated(w, dt, d))
  {
    AdvanceContract(w.run, dt);
    var run := Advance(w.run, dt);
    StreamKeepsContiguity(w.road, run.carZ);
    BuildingsAfterKeepsPairs(w.buildings, w.buildingTimer, dt, run.carZ, d.buildingZ, d.leftKind, d.rightKind);
  }

  /** Without a reset, processInput only starts the game on Space, toggles
      the camera on C and applies the lane intents. */
  lemma InputWithoutReset(w: World, i: Intents)
    requires ValidLane(w.lane) && FlagsConsistent(w) && !Resets(ModeOf(w), i)
    ensures AfterInput(w, i) ==
            w.(gameStarted := w.gameStarted || i.start, firstPerson := w.firstPerson != i.camera,
               lane := ApplyLaneIntents(w.lane, w.gameOver, i.laneLeft, i.laneRight))
  {
  }

  /** A frame that does not reset keeps the world invariant (a resetting
      one is covered by the object invariant of the game state). */
  lemma FrameKeepsValid(w: World, dt: real, i: Intents, d: Draws)
    requires ValidWorld(w) && dt >= 0.0 && !Resets(ModeOf(w), i)
    ensures ValidWorld(FrameStep(w, dt, i, d))
  {
    InputWithoutReset(w, i);
    IntentsKeepPose(w.lane, w.gameOver, i.laneLeft, i.laneRight);
    var p := AfterInput(w, i);
    assert ValidWorld(p);
    if p.gameStarted && !p.gameOver {
      SimulationKeepsValid(p, dt, d);
    }
  }

  /** The collision test only ever sets the flag, so running it twice is
      running it once. */
  lemma CollisionIdempotent(w: World)
    ensures Collided(Collided(w)) == Collided(w)
    ensures w.gameOver ==> Collided(w) == w
  {
  }

  /** Game over is cleared only by resetGame: a frame that starts over and
      ends not over is one in which M or R reset the world. */
  lemma OnlyResetClearsGameOver(w: World, dt: real, i: Intents, d: Draws)
    requires ValidLane(w.lane) && dt >= 0.0 && FlagsConsistent(w) && w.gameOver
    requires !FrameStep(w, dt, i, d).gameOver
    ensures Resets(ModeOf(w), i)
  {
  }
}
