/** The two timed spawners: obstacles in the three lanes and roadside
    building pairs, the latter culled from the front once far behind the car
    (game.cpp:66-78, 637-665). */
module Spawner {
  import opened Lanes

  datatype Vec3 = Vec3(x: real, y: real, z: real)

  /** kind: 0 stop sign, 1 cone, 2 barrel. */
  datatype Obstacle = Obstacle(pos: Vec3, kind: int)

  /** kind: one of the four building models; leftSide: which side of the road. */
  datatype Building = Building(pos: Vec3, kind: int, leftSide: bool)

  /** The outcomes of the rand() calls a frame may make, in call order.
      Each is what rand() returned, so any natural number. */
  datatype Draws = Draws(obstacleLane: nat, obstacleKind: nat, obstacleZ: nat,
                         buildingZ: nat, leftKind: nat, rightKind: nat)

  const ObstaclePeriod: real := 1.0
  const BuildingPeriod: real := 3.0

  /** New entities appear SpawnAhead + [0, SpawnSpread) units ahead of the car. */
  const SpawnAhead: real := 80.0
  const SpawnSpread: nat := 50

  /** The x coordinates of the left and of the right roadside building. */
  const LeftBuildingX: real := -16.0
  const RightBuildingX: real := 16.0

  /** Buildings whose z lies more than CullBehind units behind the car are culled. */
  const CullBehind: real := 100.0

  /** A spawner's timer accumulates elapsed time and fires once it exceeds the period. */
  predicate Fires(timer: real, dt: real, period: real) {
    timer + dt > period
  }

  /** The timer after a frame: back to 0 when it fired, otherwise advanced by dt;
      so it never exceeds its period. */
  function TimerAfter(timer: real, dt: real, period: real): (r: real)
    ensures Fires(timer, dt, period) ==> r == 0.0
    ensures !Fires(timer, dt, period) ==> r == timer + dt
    ensures 0.0 <= timer && 0.0 <= dt && 0.0 <= period ==> 0.0 <= r <= period
  {
    if Fires(timer, dt, period) then 0.0 else timer + dt
  }

  /** An obstacle as spawnObstacles places it: in a lane, on the ground, of
      one of the three kinds. */
  predicate WellFormedObstacle(o: Obstacle) {
    (o.pos.x == -3.0 || o.pos.x == 0.0 || o.pos.x == 3.0) && o.pos.y == 0.0 && 0 <= o.kind < 3
  }

  predicate AllWellFormed(obs: seq<Obstacle>) {
    forall i :: 0 <= i < |obs| ==> WellFormedObstacle(obs[i])
  }

  /** carZ + 80 + draw % 50: where a new obstacle or building pair is placed. */
  function SpawnZ(carZ: real, zDraw: nat): (z: real)
    ensures carZ + SpawnAhead <= z <= carZ + SpawnAhead + (SpawnSpread - 1) as real
    ensures (z - carZ).Floor as real == z - carZ
  {
    carZ + SpawnAhead + (zDraw % SpawnSpread) as real
  }

  /** The obstacle made from three draws: lane = rand() % 3, kind = rand() % 3,
      z = carZ + 80 + rand() % 50. */
  function NewObstacle(carZ: real, laneDraw: nat, kindDraw: nat, zDraw: nat): (o: Obstacle)
    ensures WellFormedObstacle(o)
    ensures carZ + SpawnAhead <= o.pos.z <= carZ + SpawnAhead + (SpawnSpread - 1) as real
    ensures (o.pos.z - carZ).Floor as real == o.pos.z - carZ
  {
    Obstacle(Vec3(LaneX(laneDraw % 3), 0.0, SpawnZ(carZ, zDraw)), kindDraw % 3)
  }

  /** spawnObstacles: one obstacle is appended when the timer fires; none is ever removed. */
  function ObstaclesAfter(obs: seq<Obstacle>, timer: real, dt: real, carZ: real,
                          laneDraw: nat, kindDraw: nat, zDraw: nat): (r: seq<Obstacle>)
    ensures obs <= r
    ensures |r| == if Fires(timer, dt, ObstaclePeriod) then |obs| + 1 else |obs|
    ensures |r| > |obs| ==> r[|obs|] == NewObstacle(carZ, laneDraw, kindDraw, zDraw)
    ensures AllWellFormed(obs) ==> AllWellFormed(r)
  {
    if Fires(timer, dt, ObstaclePeriod) then obs + [NewObstacle(carZ, laneDraw, kindDraw, zDraw)] else obs
  }

  /** A left/right building pair as spawnBuildings emits it. */
  predicate IsPair(left: Building, right: Building) {
    left.pos == Vec3(LeftBuildingX, 0.0, left.pos.z) && left.leftSide && 0 <= left.kind < 4 &&
    right.pos == Vec3(RightBuildingX, 0.0, left.pos.z) && !right.leftSide && 0 <= right.kind < 4
  }

  /** The building list is a run of whole pairs, left member first. */
  predicate PairedUp(bs: seq<Building>)
    decreases |bs|
  {
    bs == [] || (|bs| >= 2 && IsPair(bs[0], bs[1]) && PairedUp(bs[2..]))
  }

  /** The two buildings made from three draws: z = carZ + 80 + rand() % 50,
      then the left kind rand() % 4, then the right kind rand() % 4. */
  function NewPair(carZ: real, zDraw: nat, leftDraw: nat, rightDraw: nat): (p: seq<Building>)
    ensures |p| == 2 && IsPair(p[0], p[1])
    ensures carZ + SpawnAhead <= p[0].pos.z <= carZ + SpawnAhead + (SpawnSpread - 1) as real
  {
    var z := SpawnZ(carZ, zDraw);
    [Building(Vec3(LeftBuildingX, 0.0, z), leftDraw % 4, true),
     Building(Vec3(RightBuildingX, 0.0, z), rightDraw % 4, false)]
  }

  /** The building lies more than CullBehind units behind the car. */
  predicate BuildingStale(b: Building, carZ: real) {
    b.pos.z < carZ - CullBehind
  }

  /** The erase-at-front loop: drop the longest front prefix of stale buildings. */
  function CullBuildings(bs: seq<Building>, carZ: real): (r: seq<Building>)
    ensures |r| <= |bs|
    decreases |bs|
  {
    if bs != [] && BuildingStale(bs[0], carZ) then CullBuildings(bs[1..], carZ) else bs
  }

  /** Culling keeps a suffix, and what it drops is exactly the stale front:
      every culled building is stale and the new front is not. */
  lemma {:induction false} CullContract(bs: seq<Building>, carZ: real)
    ensures var r := CullBuildings(bs, carZ);
            r == bs[|bs| - |r|..] &&
            (forall i :: 0 <= i < |bs| - |r| ==> BuildingStale(bs[i], carZ)) &&
            (r != [] ==> !BuildingStale(r[0], carZ))
    decreases |bs|
  {
    if bs != [] && BuildingStale(bs[0], carZ) {
      var r := CullBuildings(bs, carZ);
      CullContract(bs[1..], carZ);
      assert bs[1..][|bs| - 1 - |r|..] == bs[|bs| - |r|..];
      forall i | 0 <= i < |bs| - |r|
        ensures BuildingStale(bs[i], carZ)
      {
        if i > 0 {
          assert bs[i] == bs[1..][i - 1];
        }
      }
    }
  }

  /** spawnBuildings: when the timer fires, append a pair and then cull. */
  function BuildingsAfter(bs: seq<Building>, timer: real, dt: real, carZ: real,
                          zDraw: nat, leftDraw: nat, rightDraw: nat): seq<Building>
  {
    if Fires(timer, dt, BuildingPeriod) then CullBuildings(bs + NewPair(carZ, zDraw, leftDraw, rightDraw), carZ) else bs
  }

  lemma {:induction false} AppendPairKeepsPairs(bs: seq<Building>, p: seq<Building>)
    requires PairedUp(bs) && |p| == 2 && IsPair(p[0], p[1])
    ensures PairedUp(bs + p)
    decreases |bs|
  {
    if bs == [] {
      assert (bs + p)[2..] == [];
    } else {
      assert (bs + p)[2..] == bs[2..] + p;
      AppendPairKeepsPairs(bs[2..], p);
    }
  }

  /** Culling removes whole pairs: both members of a pair share one z, so the
      left one is stale exactly when the right one is. */
  lemma {:induction false} CullKeepsPairs(bs: seq<Building>, carZ: real)
    requires PairedUp(bs)
    ensures PairedUp(CullBuildings(bs, carZ))
    decreases |bs|
  {
    if bs != [] && BuildingStale(bs[0], carZ) {
      assert BuildingStale(bs[1], carZ);
      assert bs[1..][1..] == bs[2..];
      assert CullBuildings(bs, carZ) == CullBuildings(bs[2..], carZ);
      CullKeepsPairs(bs[2..], carZ);
    }
  }

  /** spawnBuildings keeps the list a run of whole pairs. */
  lemma BuildingsAfterKeepsPairs(bs: seq<Building>, timer: real, dt: real, carZ: real,
                                 zDraw: nat, leftDraw: nat, rightDraw: nat)
    requires PairedUp(bs)
    ensures PairedUp(BuildingsAfter(bs, timer, dt, carZ, zDraw, leftDraw, rightDraw))
  {
    if Fires(timer, dt, BuildingPeriod) {
      var p := NewPair(carZ, zDraw, leftDraw, rightDraw);
      AppendPairKeepsPairs(bs, p);
      CullKeepsPairs(bs + p, carZ);
    }
  }

  /** What spawnBuildings promises: nothing happens until the timer fires;
      then exactly one pair at one z is added at the back, only a stale front
      prefix is removed and the order of what is left is kept. */
  lemma BuildingsAfterContract(bs: seq<Building>, timer: real, dt: real, carZ: real,
                               zDraw: nat, leftDraw: nat, rightDraw: nat)
    ensures var r := BuildingsAfter(bs, timer, dt, carZ, zDraw, leftDraw, rightDraw);
            (!Fires(timer, dt, BuildingPeriod) ==> r == bs) &&
            (Fires(timer, dt, BuildingPeriod) ==>
               var ext := bs + NewPair(carZ, zDraw, leftDraw, rightDraw);
               |r| <= |ext| && r == ext[|ext| - |r|..] &&
               (forall i :: 0 <= i < |ext| - |r| ==> BuildingStale(ext[i], carZ)) &&
               (r != [] ==> !BuildingStale(r[0], carZ)))
  {
    if Fires(timer, dt, BuildingPeriod) {
      CullContract(bs + NewPair(carZ, zDraw, leftDraw, rightDraw), carZ);
    }
  }
}
