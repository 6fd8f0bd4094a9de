/** The lane-change state machine: discrete lane intents become a clamped
    progress value, a linearly interpolated lateral position and a
    triangular yaw profile (game.cpp:34-43, 442-476, 720-741). */
module Lanes {

  /** The x coordinate of each of the three lanes (the `lanes` table). */
  function LaneX(lane: int): real
    requires 0 <= lane < 3
  {
    if lane == 0 then -3.0 else if lane == 1 then 0.0 else 3.0
  }

  /** Progress gained per second of a lane change. */
  const LaneChangeSpeed: real := 2.0

  /** Peak yaw, in degrees, reached half-way through a lane change. */
  const MaxRotationAngle: real := 15.0

  /** playerLane, targetLane, isChangingLane and laneChangeProgress. */
  datatype LaneState = LaneState(playerLane: int, targetLane: int, changing: bool, progress: real)

  /** The lane state that resetGame restores. */
  const InitialLane: LaneState := LaneState(1, 1, false, 0.0)

  /** Both lanes are real lanes, progress lies in [0, 1]; an idle car targets
      its own lane, a changing car targets a neighbour and is not yet done. */
  predicate ValidLane(s: LaneState) {
    0 <= s.playerLane < 3 && 0 <= s.targetLane < 3 &&
    0.0 <= s.progress <= 1.0 &&
    if s.changing then
      (s.targetLane == s.playerLane - 1 || s.targetLane == s.playerLane + 1) && s.progress < 1.0
    else
      s.targetLane == s.playerLane
  }

  /** currentCarX: linear interpolation from the current lane towards the target. */
  function CarX(s: LaneState): (x: real)
    requires ValidLane(s)
    ensures s.progress == 0.0 ==> x == LaneX(s.playerLane)
    ensures s.progress == 1.0 ==> x == LaneX(s.targetLane)
    ensures !s.changing ==> x == LaneX(s.playerLane)
  {
    LaneX(s.playerLane) + (LaneX(s.targetLane) - LaneX(s.playerLane)) * s.progress
  }

  /** Unsigned yaw: rises from 0 to the peak over the first half of the
      change and falls back to 0 over the second half. */
  function Triangle(p: real): (r: real)
    ensures 0.0 <= p <= 1.0 ==> 0.0 <= r <= MaxRotationAngle
    ensures 0.0 <= p <= 1.0 ==> (r == 0.0 <==> p == 0.0 || p == 1.0)
    ensures r == MaxRotationAngle <==> p == 0.5
  {
    if p < 0.5 then (p * 2.0) * MaxRotationAngle else (2.0 - p * 2.0) * MaxRotationAngle
  }

  /** The triangular profile, negated when the car is heading for a lower lane index. */
  function Tilt(p: real, towardsLower: bool): real {
    if towardsLower then -Triangle(p) else Triangle(p)
  }

  /** carRotationY: the triangular profile, negative when moving towards a
      lower lane index, and exactly 0 while no lane change is under way. */
  function Yaw(s: LaneState): (r: real)
    requires ValidLane(s)
    ensures -MaxRotationAngle <= r <= MaxRotationAngle
    ensures !s.changing || s.progress == 0.0 ==> r == 0.0
    ensures r < 0.0 <==> s.changing && s.targetLane < s.playerLane && s.progress > 0.0
    ensures r > 0.0 <==> s.changing && s.targetLane > s.playerLane && s.progress > 0.0
    ensures (r == MaxRotationAngle || r == -MaxRotationAngle) <==> s.changing && s.progress == 0.5
  {
    if !s.changing then 0.0 else Tilt(s.progress, s.targetLane < s.playerLane)
  }

  /** Start a lane change towards `target` (the body of a lane intent). */
  function Begin(s: LaneState, target: int): LaneState {
    LaneState(s.playerLane, target, true, 0.0)
  }

  /** The lane-intent block of processInput: nothing happens while a change
      is under way or the session is over; D (`left`) aims at playerLane - 1
      when that lane exists, then A (`right`) aims at playerLane + 1 when that
      lane exists, so A wins when both are pressed in one frame and its lane
      exists; in lane 2 D's change stands. gameStarted is not consulted, so
      intents are taken on the menu too. */
  function ApplyLaneIntents(s: LaneState, over: bool, left: bool, right: bool): (r: LaneState)
    requires ValidLane(s)
    ensures ValidLane(r)
    ensures r.playerLane == s.playerLane
    ensures r != s <==> !s.changing && !over && ((left && s.playerLane > 0) || (right && s.playerLane < 2))
    ensures r != s ==> r.changing && r.progress == 0.0 &&
                       r.targetLane == (if right && s.playerLane < 2 then s.playerLane + 1 else s.playerLane - 1)
  {
    if s.changing || over then s
    else
      var afterLeft := if left && s.playerLane > 0 then Begin(s, s.playerLane - 1) else s;
      if right && afterLeft.playerLane < 2 then Begin(afterLeft, afterLeft.playerLane + 1) else afterLeft
  }

  /** A lane intent moves neither the car nor its yaw: a change starts at
      progress 0, where both still have their idle values. */
  lemma IntentsKeepPose(s: LaneState, over: bool, left: bool, right: bool)
    requires ValidLane(s)
    ensures var r := ApplyLaneIntents(s, over, left, right);
            CarX(r) == CarX(s) && Yaw(r) == Yaw(s)
  {
  }

  /** laneChangeProgress + dt * laneChangeSpeed, before the clamp. */
  function ProgressAfter(p: real, dt: real): (r: real)
    ensures dt >= 0.0 ==> p <= r
  {
    p + dt * LaneChangeSpeed
  }

  /** One frame of a lane change: progress grows by dt * LaneChangeSpeed and
      is clamped to 1; reaching 1 ends the change and commits the target lane. */
  function StepLane(s: LaneState, dt: real): (r: LaneState)
    requires ValidLane(s) && dt >= 0.0
    ensures ValidLane(r)
    ensures !s.changing ==> r == s
    ensures s.changing ==> r.targetLane == s.targetLane && s.progress <= r.progress
    ensures s.changing ==> (r.changing <==> s.progress + dt * LaneChangeSpeed < 1.0)
    ensures r.changing ==> r.playerLane == s.playerLane && r.progress == s.progress + dt * LaneChangeSpeed
    ensures s.changing && !r.changing ==> r.progress == 1.0 && r.playerLane == s.targetLane
  {
    if !s.changing then s
    else
      var p := ProgressAfter(s.progress, dt);
      if p >= 1.0 then LaneState(s.targetLane, s.targetLane, false, 1.0)
      else s.(progress := p)
  }

  /** A change that completes leaves the car centred in the target lane with no yaw. */
  lemma ArrivalIsCentred(s: LaneState, dt: real)
    requires ValidLane(s) && dt >= 0.0 && s.changing && !StepLane(s, dt).changing
    ensures CarX(StepLane(s, dt)) == LaneX(s.targetLane) && Yaw(StepLane(s, dt)) == 0.0
  {
  }

  /** A lane change takes 1 / LaneChangeSpeed seconds whatever the frame rate:
      from a fresh start, the car is still changing after any t < 0.5 seconds
      and has arrived after any t >= 0.5 seconds, taken as two frames. */
  lemma {:induction false} ChangeDuration(s: LaneState, dt1: real, dt2: real)
    requires ValidLane(s) && s.changing && s.progress == 0.0
    requires dt1 >= 0.0 && dt2 >= 0.0
    ensures var r := StepLane(StepLane(s, dt1), dt2);
            ValidLane(r) &&
            (r.changing <==> dt1 + dt2 < 1.0 / LaneChangeSpeed) &&
            (!r.changing ==> r.playerLane == s.targetLane && CarX(r) == LaneX(s.targetLane))
  {
    var m := StepLane(s, dt1);
    if m.changing {
      assert m.progress == dt1 * LaneChangeSpeed;
    }
  }

  /** Concrete runs of the machine: D in lane 0 is a no-op; D and A together
      in lane 2 start a change to lane 1, since A's lane does not exist; A in lane 1,
      then four frames of 0.25 seconds, ends idle in lane 2 with progress 1,
      the car at x = 3 and no yaw (the change completes on the second frame). */
  lemma LaneScenarios()
    ensures ApplyLaneIntents(LaneState(0, 0, false, 0.0), false, true, false) == LaneState(0, 0, false, 0.0)
    ensures ApplyLaneIntents(LaneState(2, 2, false, 1.0), false, true, true) == LaneState(2, 1, true, 0.0)
    ensures var s := ApplyLaneIntents(LaneState(1, 1, false, 0.0), false, false, true);
            var r := StepLane(StepLane(StepLane(StepLane(s, 0.25), 0.25), 0.25), 0.25);
            r == LaneState(2, 2, false, 1.0) && CarX(r) == 3.0 && Yaw(r) == 0.0
  {
    var s := ApplyLaneIntents(LaneState(1, 1, false, 0.0), false, false, true);
    assert s == LaneState(1, 2, true, 0.0);
    assert StepLane(s, 0.25) == LaneState(1, 2, true, 0.5);
  }
}
