/** Progression and collision: distance, score and the per-tier speed steps,
    and the point-distance collision test (game.cpp:61-64, 80-83, 421-431, 816-818). */
module Progression {
  import opened Lanes
  import opened Spawner

  /** baseSpeed: the speed a run starts with. */
  const BaseSpeed: real := 20.0

  /** Speed rises once per this many points. */
  const TierSize: int := 500

  /** The collision radius; the test compares squared distances against its square. */
  const HitRadius: real := 2.0

  /** A C++ float-to-int conversion: truncation towards zero. */
  function Truncate(r: real): (n: int)
    ensures r >= 0.0 ==> n == r.Floor
    ensures r >= 0.0 ==> n as real <= r < n as real + 1.0
    ensures r < 0.0 ==> n as real - 1.0 < r <= n as real
  {
    if r >= 0.0 then r.Floor else -((-r).Floor)
  }

  /** C++ integer division: truncation towards zero. */
  function CDiv(a: int, b: int): int
    requires b > 0
  {
    if a >= 0 then a / b else -((-a) / b)
  }

  /** currentThreshold = (totalScore / 500) * 500. */
  function Tier(score: int): int {
    CDiv(score, TierSize) * TierSize
  }

  /** The speed set when tier t is reached: baseSpeed * (1 + (t / 500) * 0.1). */
  function TierSpeed(t: int): real {
    BaseSpeed * (1.0 + (CDiv(t, TierSize) as real) * 0.1)
  }

  /** carZ, distanceTraveled, totalScore, speed and lastSpeedIncreaseScore. */
  datatype Run = Run(carZ: real, distance: real, score: int, speed: real, lastTier: int)

  /** The run that resetGame restores. */
  const InitialRun: Run := Run(0.0, 0.0, 0, BaseSpeed, 0)

  /** carZ += speed * dt. */
  function Moved(z: real, v: real, dt: real): real {
    z + v * dt
  }

  /** distanceTraveled = carZ / 10. */
  function DistanceOf(z: real): real {
    z / 10.0
  }

  /** totalScore = (int)(distanceTraveled * 10). */
  function ScoreOf(d: real): int {
    Truncate(d * 10.0)
  }

  /** What every frame keeps: the car is at or ahead of the start, distance and
      score are derived from carZ, the last tier is the tier of the score, and
      the speed is the speed of that tier. */
  predicate Consistent(r: Run) {
    r.carZ >= 0.0 && r.distance == DistanceOf(r.carZ) && r.score == r.carZ.Floor &&
    r.lastTier == Tier(r.score) && r.speed == TierSpeed(r.lastTier)
  }

  /** One frame of progression (the first block of the playing branch). */
  function Advance(r: Run, dt: real): Run {
    MovedTo(r, Moved(r.carZ, r.speed, dt))
  }

  /** The rest of that block once carZ is z: distance and score derived from
      it, and the speed raised when the score has entered a new tier. */
  function MovedTo(r: Run, z: real): Run {
    var d := DistanceOf(z);
    var s := ScoreOf(d);
    var t := Tier(s);
    if t > r.lastTier && t > 0 then Run(z, d, s, TierSpeed(t), t)
    else Run(z, d, s, r.speed, r.lastTier)
  }

  lemma {:induction false} TierMonotone(a: int, b: int)
    requires 0 <= a <= b
    ensures 0 <= Tier(a) <= Tier(b) <= b
    ensures Tier(a) % TierSize == 0
  {
    assert a / TierSize <= b / TierSize;
  }

  /** Nothing below base speed, and one tenth of base speed more per tier. */
  lemma {:induction false} TierSpeedSteps(t: int)
    requires t >= 0 && t % TierSize == 0
    ensures TierSpeed(t) >= BaseSpeed
    ensures TierSpeed(t + TierSize) == TierSpeed(t) + BaseSpeed * 0.1
  {
    assert CDiv(t + TierSize, TierSize) == CDiv(t, TierSize) + 1;
  }

  /** A frame keeps the run consistent and only ever moves forward: carZ
      grows by speed * dt, score is the integer part of carZ, the last tier
      and the speed never drop, and speed changes exactly when the score
      enters a tier above the last one. */
  lemma {:induction false} AdvanceContract(r: Run, dt: real)
    requires Consistent(r) && dt >= 0.0
    ensures var n := Advance(r, dt);
            Consistent(n) &&
            n.carZ == r.carZ + r.speed * dt && r.carZ <= n.carZ &&
            n.score == (r.carZ + r.speed * dt).Floor && r.score <= n.score &&
            r.lastTier <= n.lastTier && BaseSpeed <= r.speed <= n.speed &&
            (n.speed != r.speed <==> Tier(n.score) > r.lastTier)
  {
    TierMonotone(0, r.score);
    TierSpeedSteps(r.lastTier);
    assert r.speed * dt >= 0.0;
    MovedToContract(r, Moved(r.carZ, r.speed, dt));
  }

  /** Moving a consistent run forward to any z keeps it consistent and
      never lowers the score, the last tier or the speed. */
  lemma {:induction false} MovedToContract(r: Run, z: real)
    requires Consistent(r) && r.carZ <= z
    ensures var n := MovedTo(r, z);
            Consistent(n) && n.carZ == z && n.score == z.Floor && r.score <= n.score &&
            r.lastTier <= n.lastTier && r.speed <= n.speed &&
            (n.speed != r.speed <==> Tier(n.score) > r.lastTier)
  {
    var n := MovedTo(r, z);
    TierMonotone(0, r.score);
    ScoreOfCarZ(z);
    assert n.score == z.Floor && r.carZ.Floor <= z.Floor;
    TierMonotone(r.score, n.score);
    assert n.lastTier == Tier(n.score);
    TierSpeedMonotone(r.lastTier, n.lastTier);
  }

  /** score = (int)(distanceTraveled * 10) with distanceTraveled = carZ / 10. */
  lemma ScoreOfCarZ(z: real)
    requires z >= 0.0
    ensures ScoreOf(DistanceOf(z)) == z.Floor
  {
    assert (z / 10.0) * 10.0 == z;
  }

  lemma {:induction false} TierSpeedMonotone(s: int, t: int)
    requires 0 <= s <= t && s % TierSize == 0 && t % TierSize == 0
    ensures TierSpeed(s) <= TierSpeed(t)
    ensures TierSpeed(s) == TierSpeed(t) <==> s == t
  {
    var a, b := CDiv(s, TierSize), CDiv(t, TierSize);
    assert s == a * TierSize && t == b * TierSize;
    assert a <= b;
    assert TierSpeed(s) == BaseSpeed + 2.0 * a as real;
    assert TierSpeed(t) == BaseSpeed + 2.0 * b as real;
  }

  /** From the start of a run at speed 20, five seconds without input bring the
      car to z = 100: distance 10, score 100, speed unchanged. */
  lemma FiveSecondsFromStart()
    ensures Advance(InitialRun, 5.0) == Run(100.0, 10.0, 100, 20.0, 0)
  {
    assert (100.0).Floor == 100;
  }

  /** The squared Euclidean distance between (x1, y1, z1) and (x2, y2, z2). */
  function SquaredDistance(x1: real, y1: real, z1: real, x2: real, y2: real, z2: real): real {
    (x1 - x2) * (x1 - x2) + (y1 - y2) * (y1 - y2) + (z1 - z2) * (z1 - z2)
  }

  /** Squared distance below the squared radius. */
  predicate Within(sq: real) {
    sq < HitRadius * HitRadius
  }

  /** The collision test against the car at (carX, 0, carZ). */
  predicate Hits(o: Obstacle, carX: real, carZ: real) {
    Within(SquaredDistance(o.pos.x, o.pos.y, o.pos.z, carX, 0.0, carZ))
  }

  predicate AnyHit(obs: seq<Obstacle>, carX: real, carZ: real) {
    exists i :: 0 <= i < |obs| && Hits(obs[i], carX, carZ)
  }

  /** The squared test is the source's Euclidean test: for the distance d,
      d < 2 exactly when d * d < 4. */
  lemma {:induction false} HitIffCloserThanRadius(o: Obstacle, carX: real, carZ: real, d: real)
    requires d >= 0.0 && d * d == SquaredDistance(o.pos.x, o.pos.y, o.pos.z, carX, 0.0, carZ)
    ensures Hits(o, carX, carZ) <==> d < HitRadius
  {
    if d >= HitRadius {
      assert d * d >= HitRadius * d >= HitRadius * HitRadius;
    } else {
      assert d * d <= d * 2.0;
      assert d * 2.0 < 4.0;
    }
  }

  /** An obstacle standing in another lane than the one the car is centred in
      can never be hit: lanes are 3 units apart, the radius is 2. */
  lemma {:induction false} OtherLaneNeverHits(o: Obstacle, lane: int, carZ: real)
    requires WellFormedObstacle(o) && 0 <= lane < 3 && o.pos.x != LaneX(lane)
    ensures !Hits(o, LaneX(lane), carZ)
  {
    var dx := o.pos.x - LaneX(lane);
    assert dx * dx >= 9.0;
    var dz := o.pos.z - carZ;
    assert dz * dz >= 0.0;
  }
}
