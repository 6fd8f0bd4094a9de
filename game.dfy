/** The gameplay state of the game as one object: the fields are the globals
    and function-static timers of game.cpp, and the methods are the parts of
    the main loop, processInput, resetGame, the spawners, the road streamer
    and the collision test that change them (game.cpp:31-83, 361-476,
    612-754, 816-818). */
module Game {
  import opened Lanes
  import opened Road
  import opened Spawner
  import opened Progression
  import opened Session
  import opened Simulation

  class GameState {
    var isFirstPersonView: bool

    var playerLane: int
    var targetLane: int
    var isChangingLane: bool
    var laneChangeProgress: real
    var currentCarX: real
    var carRotationY: real

    var roadSegments: seq<RoadSegment>

    var carZ: real
    var speed: real
    var lastSpeedIncreaseScore: int
    var distanceTraveled: real
    var totalScore: int

    var obstacles: seq<Obstacle>
    var buildings: seq<Building>

    var gameOver: bool
    var gameStarted: bool

    /** The `static float timer` of spawnObstacles and of spawnBuildings. */
    var obstacleTimer: real
    var buildingTimer: real

    function Lane(): LaneState
      reads this`playerLane, this`targetLane, this`isChangingLane, this`laneChangeProgress
    {
      LaneState(playerLane, targetLane, isChangingLane, laneChangeProgress)
    }

    function RunState(): Run
      reads this`carZ, this`distanceTraveled, this`totalScore, this`speed, this`lastSpeedIncreaseScore
    {
      Run(carZ, distanceTraveled, totalScore, speed, lastSpeedIncreaseScore)
    }

    ghost function State(): World
      reads this
    {
      World(Lane(), currentCarX, carRotationY, roadSegments, RunState(), obstacles, buildings,
            gameOver, gameStarted, isFirstPersonView, obstacleTimer, buildingTimer)
    }

    function CurrentMode(): Mode
      reads this`gameStarted, this`gameOver
    {
      ModeOfFlags(gameStarted, gameOver)
    }

    /** The object invariant: valid lane state with the car's pose derived from
        it, contiguous road, consistent progression, well-formed obstacles,
        whole building pairs, timers within their periods, and game over only
        inside a started game. */
    ghost predicate Valid()
      reads this`playerLane, this`targetLane, this`isChangingLane, this`laneChangeProgress,
            this`currentCarX, this`carRotationY, this`roadSegments, this`carZ, this`speed,
            this`lastSpeedIncreaseScore, this`distanceTraveled, this`totalScore, this`obstacles,
            this`buildings, this`gameOver, this`gameStarted, this`obstacleTimer, this`buildingTimer
    {
      PoseValid() && Contiguous(roadSegments) && RunValid() &&
      AllWellFormed(obstacles) && PairedUp(buildings) &&
      TimersInRange() && (gameOver ==> gameStarted)
    }

    /** PoseValid and RunValid spell out ValidLane, CarX, Yaw and Consistent
        on the fields themselves rather than on Lane() and RunState(): the
        narrow methods below then reason about fields without building the
        datatype values, which keeps their proofs cheap. PoseIsLane and
        RunIsConsistent prove the two spellings the same. */
    predicate PoseValid()
      reads this`playerLane, this`targetLane, this`isChangingLane, this`laneChangeProgress,
            this`currentCarX, this`carRotationY
    {
      0 <= playerLane < 3 && 0 <= targetLane < 3 && 0.0 <= laneChangeProgress <= 1.0 &&
      (if isChangingLane then
         (targetLane == playerLane - 1 || targetLane == playerLane + 1) && laneChangeProgress < 1.0
       else targetLane == playerLane) &&
      currentCarX == LaneX(playerLane) + (LaneX(targetLane) - LaneX(playerLane)) * laneChangeProgress &&
      carRotationY == (if !isChangingLane then 0.0 else Tilt(laneChangeProgress, targetLane < playerLane))
    }

    predicate RunValid()
      reads this`carZ, this`distanceTraveled, this`totalScore, this`speed, this`lastSpeedIncreaseScore
    {
      carZ >= 0.0 && distanceTraveled == carZ / 10.0 && totalScore == carZ.Floor &&
      lastSpeedIncreaseScore == Tier(totalScore) && speed == TierSpeed(lastSpeedIncreaseScore)
    }

    /** The pose invariant is the lane state machine's: a valid lane state
        with the car's x and yaw derived from it. */
    lemma PoseIsLane()
      ensures PoseValid() <==>
              ValidLane(Lane()) && currentCarX == CarX(Lane()) && carRotationY == Yaw(Lane())
    {
    }

    /** The progression invariant is the consistency of the run. */
    lemma RunIsConsistent()
      ensures RunValid() <==> Consistent(RunState())
    {
    }

    /** Each spawner timer lies within [0, its period]. */
    predicate TimersInRange()
      reads this`obstacleTimer, this`buildingTimer
    {
      0.0 <= obstacleTimer <= ObstaclePeriod && 0.0 <= buildingTimer <= BuildingPeriod
    }

    /** Everything resetGame sets, field by field. It leaves gameStarted and
        the two spawner timers alone. */
    predicate IsFreshRun()
      reads this
    {
      playerLane == 1 && targetLane == 1 && !isChangingLane && laneChangeProgress == 0.0 &&
      currentCarX == 0.0 && carRotationY == 0.0 &&
      carZ == 0.0 && distanceTraveled == 0.0 && totalScore == 0 && speed == BaseSpeed &&
      lastSpeedIncreaseScore == 0 && obstacles == [] && buildings == [] &&
      roadSegments == InitialRoad() && !gameOver && !isFirstPersonView
    }

    /** A freshly reset state satisfies the invariant once its timers are in range. */
    lemma FreshRunIsValid()
      requires IsFreshRun() && TimersInRange()
      ensures Valid()
    {
    }

    /** The object invariant is the world invariant of the state's snapshot. */
    lemma ValidIsValidWorld()
      ensures Valid() <==> ValidWorld(State())
    {
      PoseIsLane();
      RunIsConsistent();
    }

    /** The globals' initial values, main's road set-up loop, then resetGame. */
    constructor ()
      ensures Valid() && IsFreshRun() && CurrentMode() == Menu
      ensures obstacleTimer == 0.0 && buildingTimer == 0.0
    {
      isFirstPersonView := false;
      playerLane, targetLane, isChangingLane, laneChangeProgress := 1, 1, false, 0.0;
      currentCarX, carRotationY := 0.0, 0.0;
      roadSegments := [];
      carZ, speed, lastSpeedIncreaseScore := 0.0, BaseSpeed, 0;
      distanceTraveled, totalScore := 0.0, 0;
      obstacles, buildings := [], [];
      gameOver, gameStarted := false, false;
      obstacleTimer, buildingTimer := 0.0, 0.0;
      new;
      SeedRoad();
      ResetGame();
    }

    /** The loop that pushes numSegments contiguous segments starting at startZ. */
    method SeedRoad()
      modifies this`roadSegments
      ensures roadSegments == old(roadSegments) + InitialRoad()
    {
      var startZ := -GroundLength / 2.0;
      var numSegments := (GroundLength / SegmentSize).Floor + 2;
      assert numSegments == |InitialRoad()| by { assert GroundLength / SegmentSize == 50.0; }
      ghost var before := roadSegments;
      for i := 0 to numSegments
        invariant roadSegments == before + InitialRoad()[..i]
      {
        roadSegments := roadSegments + [RoadSegment(startZ + i as real * SegmentSize)];
      }
    }

    /** The lane and pose half of resetGame. */
    method ResetPose()
      modifies this`playerLane, this`targetLane, this`isChangingLane, this`laneChangeProgress,
               this`currentCarX, this`carRotationY
      ensures playerLane == 1 && targetLane == 1 && !isChangingLane && laneChangeProgress == 0.0
      ensures currentCarX == 0.0 && carRotationY == 0.0
    {
      playerLane, targetLane, isChangingLane, laneChangeProgress := 1, 1, false, 0.0;
      currentCarX, carRotationY := 0.0, 0.0;
    }

    /** The progression, entity and flag half of resetGame. */
    method ResetRun()
      modifies this`carZ, this`obstacles, this`buildings, this`distanceTraveled, this`totalScore,
               this`speed, this`lastSpeedIncreaseScore, this`gameOver, this`isFirstPersonView
      ensures carZ == 0.0 && distanceTraveled == 0.0 && totalScore == 0 && speed == BaseSpeed
      ensures lastSpeedIncreaseScore == 0 && obstacles == [] && buildings == []
      ensures !gameOver && !isFirstPersonView
    {
      carZ, obstacles, buildings := 0.0, [], [];
      distanceTraveled, totalScore, speed, lastSpeedIncreaseScore := 0.0, 0, BaseSpeed, 0;
      gameOver, isFirstPersonView := false, false;
    }

    /** resetGame: the single re-initialiser. */
    method ResetGame()
      requires TimersInRange()
      modifies this`playerLane, this`targetLane, this`isChangingLane, this`laneChangeProgress,
               this`currentCarX, this`carRotationY, this`carZ, this`obstacles, this`buildings,
               this`distanceTraveled, this`totalScore, this`speed, this`lastSpeedIncreaseScore,
               this`gameOver, this`isFirstPersonView, this`roadSegments
      ensures Valid() && IsFreshRun()
      ensures State() == Reset(old(State()))
    {
      ResetPose();
      ResetRun();
      roadSegments := [];
      SeedRoad();
      FreshRunIsValid();
    }

    /** Distance, score and speed for one playing frame. */
    method UpdateProgression(dt: real)
      requires Valid() && dt >= 0.0
      modifies this`carZ, this`distanceTraveled, this`totalScore, this`lastSpeedIncreaseScore, this`speed
      ensures Valid()
      ensures State() == old(State()).(run := Advance(old(RunState()), dt))
    {
      StepRun(dt);
    }

    /** The progression block itself, on the five progression fields. */
    method StepRun(dt: real)
      requires RunValid() && dt >= 0.0
      modifies this`carZ, this`distanceTraveled, this`totalScore, this`lastSpeedIncreaseScore, this`speed
      ensures RunValid()
      ensures RunState() == Advance(old(RunState()), dt)
    {
      RunIsConsistent();
      ghost var next := Advance(RunState(), dt);
      AdvanceContract(RunState(), dt);
      carZ := carZ + speed * dt;
      assert carZ == next.carZ;
      distanceTraveled := carZ / 10.0;
      totalScore := Truncate(distanceTraveled * 10.0);
      assert distanceTraveled == next.distance && totalScore == next.score;
      var currentThreshold := CDiv(totalScore, TierSize) * TierSize;
      if currentThreshold > lastSpeedIncreaseScore && currentThreshold > 0 {
        lastSpeedIncreaseScore := currentThreshold;
        speed := BaseSpeed * (1.0 + (CDiv(currentThreshold, TierSize) as real) * 0.1);
      }
      assert RunState() == next;
      RunIsConsistent();
    }

    /** generateRoadIfNeeded. */
    method GenerateRoadIfNeeded()
      requires Valid()
      modifies this`roadSegments
      ensures Valid()
      ensures State() == old(State()).(road := StreamRoad(old(roadSegments), carZ))
    {
      StreamSegments();
    }

    /** The body of generateRoadIfNeeded, on the deque alone. */
    method StreamSegments()
      requires Contiguous(roadSegments)
      modifies this`roadSegments
      ensures Contiguous(roadSegments)
      ensures roadSegments == StreamRoad(old(roadSegments), carZ)
    {
      ghost var before := roadSegments;
      if roadSegments != [] && carZ + SegmentSize * 3.0 > roadSegments[|roadSegments| - 1].zStart {
        var zNew := roadSegments[|roadSegments| - 1].zStart + SegmentSize;
        roadSegments := roadSegments + [RoadSegment(zNew)];
        while roadSegments != [] && roadSegments[0].zStart + SegmentSize < carZ - TrimBehind
          invariant TrimStale(roadSegments, carZ) == StreamRoad(before, carZ)
          decreases |roadSegments|
        {
          roadSegments := roadSegments[1..];
        }
      }
      StreamKeepsContiguity(before, carZ);
    }

    /** spawnObstacles, given what its three rand() calls return. */
    method SpawnObstacles(dt: real, laneDraw: nat, kindDraw: nat, zDraw: nat)
      requires Valid() && dt >= 0.0
      modifies this`obstacleTimer, this`obstacles
      ensures Valid()
      ensures State() == old(State()).(obstacles := ObstaclesAfter(old(obstacles), old(obstacleTimer), dt, carZ, laneDraw, kindDraw, zDraw),
                                       obstacleTimer := TimerAfter(old(obstacleTimer), dt, ObstaclePeriod))
    {
      StepObstacles(dt, laneDraw, kindDraw, zDraw);
    }

    /** The body of spawnObstacles, on its timer and the obstacle list. */
    method StepObstacles(dt: real, laneDraw: nat, kindDraw: nat, zDraw: nat)
      modifies this`obstacleTimer, this`obstacles
      ensures obstacles == ObstaclesAfter(old(obstacles), old(obstacleTimer), dt, carZ, laneDraw, kindDraw, zDraw)
      ensures obstacleTimer == TimerAfter(old(obstacleTimer), dt, ObstaclePeriod)
    {
      obstacleTimer := obstacleTimer + dt;
      if obstacleTimer > ObstaclePeriod {
        var lane := laneDraw % 3;
        var kind := kindDraw % 3;
        var zPos := carZ + SpawnAhead + (zDraw % SpawnSpread) as real;
        obstacles := obstacles + [Obstacle(Vec3(LaneX(lane), 0.0, zPos), kind)];
        obstacleTimer := 0.0;
      }
    }

    /** spawnBuildings, given what its three rand() calls return. */
    method SpawnBuildings(dt: real, zDraw: nat, leftDraw: nat, rightDraw: nat)
      requires Valid() && dt >= 0.0
      modifies this`buildingTimer, this`buildings
      ensures Valid()
      ensures State() == old(State()).(buildings := BuildingsAfter(old(buildings), old(buildingTimer), dt, carZ, zDraw, leftDraw, rightDraw),
                                       buildingTimer := TimerAfter(old(buildingTimer), dt, BuildingPeriod))
    {
      StepBuildings(dt, zDraw, leftDraw, rightDraw);
    }

    /** The body of spawnBuildings, on its timer and the building list. */
    method StepBuildings(dt: real, zDraw: nat, leftDraw: nat, rightDraw: nat)
      requires PairedUp(buildings)
      modifies this`buildingTimer, this`buildings
      ensures PairedUp(buildings)
      ensures buildings == BuildingsAfter(old(buildings), old(buildingTimer), dt, carZ, zDraw, leftDraw, rightDraw)
      ensures buildingTimer == TimerAfter(old(buildingTimer), dt, BuildingPeriod)
    {
      ghost var before := buildings;
      ghost var timerBefore := buildingTimer;
      buildingTimer := buildingTimer + dt;
      if buildingTimer > BuildingPeriod {
        var zPos := carZ + SpawnAhead + (zDraw % SpawnSpread) as real;
        buildings := buildings + [Building(Vec3(LeftBuildingX, 0.0, zPos), leftDraw % 4, true)];
        buildings := buildings + [Building(Vec3(RightBuildingX, 0.0, zPos), rightDraw % 4, false)];
        assert buildings == before + NewPair(carZ, zDraw, leftDraw, rightDraw);
        while buildings != [] && buildings[0].pos.z < carZ - CullBehind
          invariant CullBuildings(buildings, carZ) == BuildingsAfter(before, timerBefore, dt, carZ, zDraw, leftDraw, rightDraw)
          decreases |buildings|
        {
          buildings := buildings[1..];
        }
        buildingTimer := 0.0;
      }
      BuildingsAfterKeepsPairs(before, timerBefore, dt, carZ, zDraw, leftDraw, rightDraw);
    }

    /** The lane transition of a playing frame: integrate, clamp and commit,
        then derive the car's x and yaw from the new lane state. */
    method UpdateLaneChange(dt: real)
      requires Valid() && dt >= 0.0
      modifies this`playerLane, this`isChangingLane, this`laneChangeProgress, this`currentCarX, this`carRotationY
      ensures Valid()
      ensures State() == old(State()).(lane := StepLane(old(Lane()), dt), carX := CarX(StepLane(old(Lane()), dt)), yaw := Yaw(StepLane(old(Lane()), dt)))
    {
      StepPose(dt);
      PoseIsLane();
    }

    /** The lane-transition block itself, on the lane state and the pose. */
    method StepPose(dt: real)
      requires PoseValid() && dt >= 0.0
      modifies this`playerLane, this`isChangingLane, this`laneChangeProgress, this`currentCarX, this`carRotationY
      ensures PoseValid()
      ensures Lane() == StepLane(old(Lane()), dt)
    {
      if isChangingLane {
        AdvanceLaneChange(dt);
        InterpolatePose();
      } else {
        currentCarX := LaneX(playerLane);
        carRotationY := 0.0;
        assert (LaneX(targetLane) - LaneX(playerLane)) * laneChangeProgress == 0.0;
      }
      assert PoseValid();
    }

    /** Integrate the progress of a running lane change, clamp it at 1 and,
        on reaching 1, commit the target lane. */
    method AdvanceLaneChange(dt: real)
      requires PoseValid() && isChangingLane && dt >= 0.0
      modifies this`playerLane, this`isChangingLane, this`laneChangeProgress, this`carRotationY
      ensures Lane() == StepLane(old(Lane()), dt)
      ensures carRotationY == (if isChangingLane then old(carRotationY) else 0.0)
    {
      laneChangeProgress := laneChangeProgress + dt * LaneChangeSpeed;
      if laneChangeProgress >= 1.0 {
        laneChangeProgress := 1.0;
        isChangingLane := false;
        playerLane := targetLane;
        carRotationY := 0.0;
      }
    }

    /** The car's x, interpolated between the two lanes, and its yaw, the
        triangular profile signed by the direction of the change. */
    method InterpolatePose()
      requires ValidLane(Lane())
      modifies this`currentCarX, this`carRotationY
      ensures currentCarX == LaneX(playerLane) + (LaneX(targetLane) - LaneX(playerLane)) * laneChangeProgress
      ensures carRotationY == Tilt(laneChangeProgress, targetLane < playerLane)
    {
      var startX := LaneX(playerLane);
      var endX := LaneX(targetLane);
      currentCarX := startX + (endX - startX) * laneChangeProgress;
      if laneChangeProgress < 0.5 {
        carRotationY := (laneChangeProgress * 2.0) * MaxRotationAngle;
      } else {
        carRotationY := (2.0 - laneChangeProgress * 2.0) * MaxRotationAngle;
      }
      if targetLane < playerLane {
        carRotationY := -carRotationY;
      }
    }

    /** The collision test of renderObjects: any obstacle closer than the hit
        radius to the car ends the game; the flag is only ever set here. */
    method CheckCollisions()
      requires Valid() && gameStarted
      modifies this`gameOver
      ensures Valid()
      ensures State() == Collided(old(State()))
    {
      var i := 0;
      while i < |obstacles|
        invariant 0 <= i <= |obstacles|
        invariant gameOver == (old(gameOver) || exists j :: 0 <= j < i && Hits(obstacles[j], currentCarX, carZ))
      {
        var pos := obstacles[i].pos;
        if SquaredDistance(pos.x, pos.y, pos.z, currentCarX, 0.0, carZ) < HitRadius * HitRadius {
          gameOver := true;
        }
        i := i + 1;
      }
    }

    /** processInput, given one frame's debounced intents; `quit` stands for
        glfwSetWindowShouldClose. The keys are handled in source order. */
    method ProcessInput(input: Intents) returns (quit: bool)
      requires Valid()
      modifies this`gameStarted, this`playerLane, this`targetLane, this`isChangingLane, this`laneChangeProgress,
               this`currentCarX, this`carRotationY, this`carZ, this`obstacles, this`buildings,
               this`distanceTraveled, this`totalScore, this`speed, this`lastSpeedIncreaseScore,
               this`gameOver, this`isFirstPersonView, this`roadSegments
      ensures Valid()
      ensures quit == Quits(old(CurrentMode()), input)
      ensures State() == AfterInput(old(State()), input)
    {
      quit := ModeKeys(input);
      CameraKey(input.camera);
      LaneKeys(input.laneLeft, input.laneRight);
      RestartKey(input.restart);
    }

    /** The three keys that move between menu, game and game over: Esc,
        Space and M, in that order. */
    method ModeKeys(input: Intents) returns (quit: bool)
      requires Valid()
      modifies this`gameStarted, this`playerLane, this`targetLane, this`isChangingLane, this`laneChangeProgress,
               this`currentCarX, this`carRotationY, this`carZ, this`obstacles, this`buildings,
               this`distanceTraveled, this`totalScore, this`speed, this`lastSpeedIncreaseScore,
               this`gameOver, this`isFirstPersonView, this`roadSegments
      ensures Valid()
      ensures quit == Quits(old(CurrentMode()), input)
      ensures State() == LeftOver(Started(Escaped(old(State()), input.escape), input.start), input.menu)
    {
      quit := EscapeKey(input.escape);
      StartKey(input.start);
      MenuKey(input.menu);
    }

    /** Esc: from a running game back to the menu with a reset; on the menu,
        a request to close the window; nothing at game over. */
    method EscapeKey(pressed: bool) returns (quit: bool)
      requires Valid()
      modifies this`gameStarted, this`playerLane, this`targetLane, this`isChangingLane, this`laneChangeProgress,
               this`currentCarX, this`carRotationY, this`carZ, this`obstacles, this`buildings,
               this`distanceTraveled, this`totalScore, this`speed, this`lastSpeedIncreaseScore,
               this`gameOver, this`isFirstPersonView, this`roadSegments
      ensures Valid()
      ensures quit == (pressed && old(CurrentMode()) == Menu)
      ensures State() == Escaped(old(State()), pressed)
    {
      quit := false;
      if pressed {
        if gameStarted && !gameOver {
          gameStarted := false;
          ResetGame();
        } else if !gameStarted {
          quit := true;
        }
      }
    }

    /** Space starts a game from the menu. */
    method StartKey(pressed: bool)
      requires Valid()
      modifies this`gameStarted
      ensures Valid()
      ensures State() == Started(old(State()), pressed)
    {
      if !gameStarted && pressed {
        gameStarted := true;
      }
    }

    /** M leaves the game-over screen for the menu, with a reset. */
    method MenuKey(pressed: bool)
      requires Valid()
      modifies this`gameStarted, this`playerLane, this`targetLane, this`isChangingLane, this`laneChangeProgress,
               this`currentCarX, this`carRotationY, this`carZ, this`obstacles, this`buildings,
               this`distanceTraveled, this`totalScore, this`speed, this`lastSpeedIncreaseScore,
               this`gameOver, this`isFirstPersonView, this`roadSegments
      ensures Valid()
      ensures State() == LeftOver(old(State()), pressed)
    {
      if gameOver && pressed {
        gameStarted := false;
        ResetGame();
      }
    }

    /** C toggles the camera between third and first person. */
    method CameraKey(pressed: bool)
      requires Valid()
      modifies this`isFirstPersonView
      ensures Valid()
      ensures State() == Toggled(old(State()), pressed)
    {
      if pressed {
        isFirstPersonView := !isFirstPersonView;
      }
    }

    /** D and A: start a change towards the lower or the higher neighbour lane,
        unless a change is under way or the game is over. */
    method LaneKeys(left: bool, right: bool)
      requires Valid()
      modifies this`targetLane, this`isChangingLane, this`laneChangeProgress
      ensures Valid()
      ensures State() == Steered(old(State()), left, right)
    {
      SteerLane(left, right);
    }

    /** The lane-intent block itself, on the lane state and the pose. */
    method SteerLane(left: bool, right: bool)
      requires PoseValid()
      modifies this`targetLane, this`isChangingLane, this`laneChangeProgress
      ensures PoseValid()
      ensures Lane() == ApplyLaneIntents(old(Lane()), gameOver, left, right)
    {
      ghost var before := Lane();
      assert ValidLane(before);
      if !isChangingLane && !gameOver {
        if left {
          if playerLane > 0 {
            targetLane := playerLane - 1;
            isChangingLane := true;
            laneChangeProgress := 0.0;
          }
        }
        if right {
          if playerLane < 2 {
            targetLane := playerLane + 1;
            isChangingLane := true;
            laneChangeProgress := 0.0;
          }
        }
        if isChangingLane {
          assert (LaneX(targetLane) - LaneX(playerLane)) * laneChangeProgress == 0.0;
          assert Tilt(laneChangeProgress, targetLane < playerLane) == 0.0;
        }
      }
      assert Lane() == ApplyLaneIntents(before, gameOver, left, right);
    }

    /** R restarts straight from the game-over screen, with a reset. */
    method RestartKey(pressed: bool)
      requires Valid()
      modifies this`gameStarted, this`playerLane, this`targetLane, this`isChangingLane, this`laneChangeProgress,
               this`currentCarX, this`carRotationY, this`carZ, this`obstacles, this`buildings,
               this`distanceTraveled, this`totalScore, this`speed, this`lastSpeedIncreaseScore,
               this`gameOver, this`isFirstPersonView, this`roadSegments
      ensures Valid()
      ensures State() == Restarted(old(State()), pressed)
    {
      if gameOver && pressed {
        ResetGame();
        gameStarted := true;
      }
    }

    /** One iteration of the main loop, minus rendering: input; on the menu
        nothing else; otherwise the simulation block unless the game is over,
        then the collision test. */
    method Frame(dt: real, input: Intents, draws: Draws) returns (quit: bool)
      requires Valid() && dt >= 0.0
      modifies this
      ensures Valid()
      ensures quit == Quits(old(CurrentMode()), input)
      ensures State() == FrameStep(old(State()), dt, input, draws)
    {
      quit := ProcessInput(input);
      if !gameStarted {
        return;
      }
      if !gameOver {
        Simulate(dt, draws);
      }
      CheckCollisions();
    }

    /** The simulation block of a playing frame: progression, the road
        streamer, the two spawners and the lane transition, in that order. */
    method Simulate(dt: real, draws: Draws)
      requires Valid() && dt >= 0.0
      modifies this`carZ, this`distanceTraveled, this`totalScore, this`lastSpeedIncreaseScore,
               this`speed, this`roadSegments, this`obstacleTimer, this`obstacles,
               this`buildingTimer, this`buildings, this`playerLane, this`isChangingLane,
               this`laneChangeProgress, this`currentCarX, this`carRotationY
      ensures Valid()
      ensures State() == Simulated(old(State()), dt, draws)
    {
      UpdateProgression(dt);
      GenerateRoadIfNeeded();
      SpawnObstacles(dt, draws.obstacleLane, draws.obstacleKind, draws.obstacleZ);
      SpawnBuildings(dt, draws.buildingZ, draws.leftKind, draws.rightKind);
      UpdateLaneChange(dt);
    }
  }
}
