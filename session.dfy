/** The session controller: the menu / playing / game-over modes that the
    gameStarted and gameOver flags encode, and how one frame's key intents
    move between them (game.cpp:676-754). */
module Session {
  import opened Lanes

  /** Menu: !gameStarted. Playing: gameStarted && !gameOver. Over: gameStarted && gameOver. */
  datatype Mode = Menu | Playing | Over

  /** The session mode that the two flags encode. */
  function ModeOfFlags(gameStarted: bool, gameOver: bool): Mode {
    if !gameStarted then Menu else if gameOver then Over else Playing
  }

  /** One frame's debounced key presses: Esc, Space, M, C, D, A and R. */
  datatype Intents = Intents(escape: bool, start: bool, menu: bool, camera: bool,
                             laneLeft: bool, laneRight: bool, restart: bool)

  /** The mode after processInput. The keys are handled in source order:
      Esc leaves a running game for the menu, Space starts from the menu,
      M leaves game over for the menu, R restarts from game over. Esc does
      nothing on the game-over screen, and no key leads into game over. */
  function ModeAfterInput(m: Mode, i: Intents): (r: Mode)
    ensures r == Over <==> m == Over && !i.menu && !i.restart
    ensures m == Menu ==> (r == Playing <==> i.start)
    ensures m == Playing ==> (r == Menu <==> i.escape && !i.start)
    ensures m == Over ==> (r == Menu <==> i.menu) && (r == Playing <==> !i.menu && i.restart)
  {
    var afterMenu := ModeAfterModeKeys(m, i);
    if i.restart && afterMenu == Over then Playing else afterMenu
  }

  /** The mode after the first three keys: Esc, Space, then M. */
  function ModeAfterModeKeys(m: Mode, i: Intents): Mode {
    var afterEscape := if i.escape && m == Playing then Menu else m;
    var afterStart := if i.start && afterEscape == Menu then Playing else afterEscape;
    if i.menu && afterStart == Over then Menu else afterStart
  }

  /** Esc on the menu asks the window to close. */
  predicate Quits(m: Mode, i: Intents) {
    i.escape && m == Menu
  }

  /** resetGame runs before the lane intents: Esc while playing, or M at game over. */
  predicate EarlyReset(m: Mode, i: Intents) {
    (i.escape && m == Playing) || (i.menu && m == Over)
  }

  /** resetGame runs after the lane intents: R at game over (unless M already left it). */
  predicate LateReset(m: Mode, i: Intents) {
    i.restart && m == Over && !i.menu
  }

  /** Whether processInput calls resetGame at all. Space never resets. */
  predicate Resets(m: Mode, i: Intents)
  {
    EarlyReset(m, i) || LateReset(m, i)
  }

  /** A reset happens exactly on the transitions out of a game: Esc from
      playing, M or R from game over. */
  lemma ResetsExactly(m: Mode, i: Intents)
    ensures Resets(m, i) <==> (m == Playing && i.escape) || (m == Over && (i.menu || i.restart))
    ensures Resets(m, i) ==> ModeAfterInput(m, i) != Over
  {
  }

  /** The camera flag after processInput: resets clear it, C toggles it. */
  function CameraAfterInput(view: bool, m: Mode, i: Intents): (r: bool)
    ensures !Resets(m, i) ==> (r <==> view != i.camera)
    ensures LateReset(m, i) ==> !r
    ensures EarlyReset(m, i) ==> (r <==> i.camera)
  {
    var afterReset := if EarlyReset(m, i) then false else view;
    var afterToggle := if i.camera then !afterReset else afterReset;
    if LateReset(m, i) then false else afterToggle
  }

  /** The lane state after processInput: the lane intents act on the state an
      early reset leaves and are blocked only by game over, so they are taken
      on the menu; R's reset then discards them. */
  function LaneAfterInput(s: LaneState, m: Mode, i: Intents): (r: LaneState)
    requires ValidLane(s)
    ensures ValidLane(r)
    ensures m == Over && !i.menu && !i.restart ==> r == s
    ensures m == Menu ==> r == ApplyLaneIntents(s, false, i.laneLeft, i.laneRight)
    ensures m == Playing && !i.escape ==> r == ApplyLaneIntents(s, false, i.laneLeft, i.laneRight)
    ensures EarlyReset(m, i) ==> r == ApplyLaneIntents(InitialLane, false, i.laneLeft, i.laneRight)
    ensures LateReset(m, i) ==> r == InitialLane
  {
    var afterReset := if EarlyReset(m, i) then InitialLane else s;
    var afterIntents := ApplyLaneIntents(afterReset, m == Over && !i.menu, i.laneLeft, i.laneRight);
    if LateReset(m, i) then InitialLane else afterIntents
  }
}
