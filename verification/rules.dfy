/**
 * The game world as a value and the rules of one loop iteration, read off the
 * module-level state and the main loop of flappy_bird.py: key handling, the
 * playing-frame update and the collision check. The class in game.dfy
 * performs these updates in place and is proved to agree with them.
 */
module Rules {
  import opened Config
  import opened Pipes
  import opened Collision

  datatype Key = Escape | KeyD | Space | OtherKey
  datatype Event = QuitEvent | KeyDown(key: Key) | OtherEvent

  /** The coarse state that the two flags game_started and game_active encode. */
  datatype GamePhase = NotStarted | Playing | Over

  /** The module globals the game loop reads and writes (clouds and the attempts counter aside). */
  datatype World = World(
    birdY: real,
    velocity: real,
    pipes: seq<Pipe>,
    score: int,
    highScore: int,
    active: bool,
    started: bool,
    lastPipe: int,
    debug: bool)
  {
    function Phase(): GamePhase {
      if !started then NotStarted else if active then Playing else Over
    }
  }

  /** A real that is a whole number of quarters: the values the physics can produce. */
  predicate IsQuarter(x: real) {
    (4.0 * x).Floor as real == 4.0 * x
  }

  lemma QuarterSum(a: real, b: real)
    requires IsQuarter(a) && IsQuarter(b)
    ensures IsQuarter(a + b)
  {
    var m, n := (4.0 * a).Floor, (4.0 * b).Floor;
    assert 4.0 * (a + b) == (m + n) as real;
  }

  /** The state at process start, given the loaded high score and the clock at start-up. */
  function Initial(loadedHigh: nat, startTime: int): (w: World)
    ensures w.Phase() == NotStarted && w.highScore == loadedHigh && w.lastPipe == startTime
    ensures w.pipes == [] && w.score == 0 && w.debug
  {
    World(START_Y, 0.0, [], 0, loadedHigh, false, false, startTime, true)
  }

  /** What holds of the world between two loop iterations. */
  predicate Inv(w: World) {
    && (w.active ==> w.started)
    && 0 <= w.score <= w.highScore
    && IsQuarter(w.birdY) && IsQuarter(w.velocity)
    && PipesValid(w.pipes)
    && (!w.started ==> w.birdY == START_Y && w.velocity == 0.0 && w.pipes == [] && w.score == 0)
  }

  lemma InitialInv(loadedHigh: nat, startTime: int)
    ensures Inv(Initial(loadedHigh, startTime))
    ensures Initial(loadedHigh, startTime).Phase() == NotStarted
  {
  }

  /** reset_game: bird back to the centre at rest, no pipes, score 0, playing. */
  function ResetWorld(w: World): (r: World)
    ensures r.Phase() == Playing && r.pipes == [] && r.score == 0
    ensures r.highScore == w.highScore && r.lastPipe == w.lastPipe && r.debug == w.debug
  {
    w.(birdY := START_Y, velocity := 0.0, pipes := [], score := 0, active := true, started := true)
  }

  /** The SPACE and d branches of the key handler (ESC ends the process before them). */
  function KeyEffect(w: World, k: Key): (r: World)
    ensures k == Space ==> r.Phase() == Playing && r.debug == w.debug
    ensures k != Space ==> r.(debug := w.debug) == w
    ensures r.highScore == w.highScore && r.lastPipe == w.lastPipe
    ensures w.started ==> r.started
  {
    match k
    case KeyD => w.(debug := !w.debug)
    case Space =>
      if !w.started then ResetWorld(w)
      else if w.active then w.(velocity := FLAP_STRENGTH)
      else ResetWorld(w)
    case _ => w
  }

  /** The event loop: events in order; QUIT or ESC stops everything and reports that the process exits. */
  function EventsEffect(w: World, events: seq<Event>): (r: (World, bool))
    ensures r.0.highScore == w.highScore && r.0.lastPipe == w.lastPipe
    ensures w.started ==> r.0.started
    ensures events == [] ==> r == (w, false)
    ensures |events| > 0 && (events[0] == QuitEvent || events[0] == KeyDown(Escape)) ==> r == (w, true)
    decreases |events|
  {
    if events == [] then (w, false)
    else
      match events[0]
      case QuitEvent => (w, true)
      case KeyDown(k) =>
        if k == Escape then (w, true) else EventsEffect(KeyEffect(w, k), events[1..])
      case OtherEvent => EventsEffect(w, events[1..])
  }

  /** The pipe list after a spawn decision, before the frame moves it. */
  function WithSpawn(w: World, currentTime: int, gapY: int): (ps: seq<Pipe>)
    ensures currentTime - w.lastPipe > PIPE_FREQUENCY ==> ps == w.pipes + [CreatePipe(gapY)]
    ensures currentTime - w.lastPipe <= PIPE_FREQUENCY ==> ps == w.pipes
  {
    if currentTime - w.lastPipe > PIPE_FREQUENCY then w.pipes + [CreatePipe(gapY)] else w.pipes
  }

  /** The `if game_active` block: gravity, timed spawn, pipe motion, removal and scoring. */
  function AdvanceFrame(w: World, currentTime: int, gapY: int): (r: World)
    ensures r.active == w.active && r.started == w.started && r.debug == w.debug
    ensures r.score >= w.score && r.highScore >= w.highScore
    ensures !w.active ==> r == w
  {
    if !w.active then w
    else
      var v := w.velocity + GRAVITY;
      var spawn := currentTime - w.lastPipe > PIPE_FREQUENCY;
      var ps := WithSpawn(w, currentTime, gapY);
      var s := w.score + Exits(ps);
      w.(velocity := v, birdY := w.birdY + v,
         lastPipe := if spawn then currentTime else w.lastPipe,
         pipes := Scrolled(ps), score := s, highScore := Max(w.highScore, s))
  }

  /** The collision step of the drawing phase: a started, active game that collides is over. */
  function CollisionEffect(w: World, birdW: nat, birdH: nat): (r: World)
    ensures r == w || (w.Phase() == Playing && r == w.(active := false))
    ensures r.Phase() == Over <==>
      (w.Phase() == Over || (w.Phase() == Playing && Collides(CollisionCircle(BirdRect(w.birdY, birdW, birdH)), w.pipes)))
  {
    if w.started && w.active && Collides(CollisionCircle(BirdRect(w.birdY, birdW, birdH)), w.pipes)
    then w.(active := false)
    else w
  }

  /** One iteration of the game loop, and whether the process exits during it. */
  function StepWorld(w: World, events: seq<Event>, currentTime: int, gapY: int, birdW: nat, birdH: nat): (r: (World, bool))
    ensures r.1 == EventsEffect(w, events).1
    ensures r.1 ==> r.0 == EventsEffect(w, events).0
    ensures r.0.highScore >= w.highScore && (w.started ==> r.0.started)
    ensures r.0.lastPipe == w.lastPipe || r.0.lastPipe == currentTime
  {
    var e := EventsEffect(w, events);
    if e.1 then e
    else (CollisionEffect(AdvanceFrame(e.0, currentTime, gapY), birdW, birdH), false)
  }

  // ---------------------------------------------------------------------------
  // Properties of the key handling

  /** SPACE while playing sets the velocity to the flap strength, whatever it was, and changes nothing else. */
  lemma SpaceWhilePlaying(w: World)
    requires w.Phase() == Playing
    ensures KeyEffect(w, Space) == w.(velocity := FLAP_STRENGTH)
    ensures KeyEffect(w, Space).velocity == FLAP_STRENGTH
  {
  }

  /** SPACE before the first game or after game over resets and starts a game. */
  lemma SpaceWhileIdle(w: World)
    requires w.Phase() != Playing
    ensures KeyEffect(w, Space) == ResetWorld(w)
    ensures KeyEffect(w, Space).Phase() == Playing
    ensures KeyEffect(w, Space).pipes == [] && KeyEffect(w, Space).score == 0
  {
  }

  /** The d key only toggles the debug overlay; any other key does nothing. */
  lemma OtherKeys(w: World, k: Key)
    requires k != Space
    ensures k == KeyD ==> KeyEffect(w, k) == w.(debug := !w.debug)
    ensures k != KeyD ==> KeyEffect(w, k) == w
  {
  }

  lemma KeyEffectInv(w: World, k: Key)
    requires Inv(w)
    ensures Inv(KeyEffect(w, k))
    ensures KeyEffect(w, k).highScore == w.highScore
    ensures w.started ==> KeyEffect(w, k).started
  {
  }

  /** The event loop keeps the invariant and the high score; once started, a game never returns to the start screen. */
  lemma {:induction false} EventsEffectInv(w: World, events: seq<Event>)
    requires Inv(w)
    ensures Inv(EventsEffect(w, events).0)
    ensures EventsEffect(w, events).0.highScore == w.highScore
    ensures w.started ==> EventsEffect(w, events).0.started
    decreases |events|
  {
    if events != [] {
      match events[0]
      case QuitEvent =>
      case KeyDown(k) =>
        if k != Escape {
          KeyEffectInv(w, k);
          EventsEffectInv(KeyEffect(w, k), events[1..]);
        }
      case OtherEvent =>
        EventsEffectInv(w, events[1..]);
    }
  }

  /** Nothing after a QUIT or ESC is processed. */
  lemma {:induction false} QuitIgnoresRest(w: World, events: seq<Event>, rest: seq<Event>)
    requires EventsEffect(w, events).1
    ensures EventsEffect(w, events + rest) == EventsEffect(w, events)
    decreases |events|
  {
    assert events != [];
    assert (events + rest)[0] == events[0];
    match events[0]
    case QuitEvent =>
    case KeyDown(k) =>
      if k != Escape {
        assert (events + rest)[1..] == events[1..] + rest;
        QuitIgnoresRest(KeyEffect(w, k), events[1..], rest);
      }
    case OtherEvent =>
      assert (events + rest)[1..] == events[1..] + rest;
      QuitIgnoresRest(w, events[1..], rest);
  }

  /** Without a SPACE key, game-over state stays as it is through the event loop (d may toggle debug). */
  lemma {:induction false} OverWithoutSpace(w: World, events: seq<Event>)
    requires w.Phase() == Over
    requires forall i :: 0 <= i < |events| ==> events[i] != KeyDown(Space)
    ensures EventsEffect(w, events).0 == w.(debug := EventsEffect(w, events).0.debug)
    decreases |events|
  {
    if events != [] {
      match events[0]
      case QuitEvent =>
      case KeyDown(k) =>
        if k != Escape {
          EventsEffectOverStep(w, k);
          OverWithoutSpace(KeyEffect(w, k), events[1..]);
        }
      case OtherEvent =>
        OverWithoutSpace(w, events[1..]);
    }
  }

  lemma EventsEffectOverStep(w: World, k: Key)
    requires w.Phase() == Over && k != Space
    ensures KeyEffect(w, k) == w.(debug := KeyEffect(w, k).debug)
  {
  }

  // ---------------------------------------------------------------------------
  // Properties of the playing frame

  /** While the game is not active, the frame update leaves the whole world unchanged. */
  lemma InactiveFrameFrozen(w: World, currentTime: int, gapY: int)
    requires !w.active
    ensures AdvanceFrame(w, currentTime, gapY) == w
  {
  }

  /**
   * An active frame: gravity first, then the position moves by the new velocity;
   * a pipe spawns exactly when more than PIPE_FREQUENCY ms have passed; every pipe
   * moves left by PIPE_SPEED, the ones now off screen are dropped, and the score
   * grows by exactly the number dropped.
   */
  lemma ActiveFrame(w: World, currentTime: int, gapY: int)
    requires w.active
    ensures var w' := AdvanceFrame(w, currentTime, gapY);
      && w'.velocity == w.velocity + GRAVITY
      && w'.birdY == w.birdY + w'.velocity
      && (w'.lastPipe == currentTime <== currentTime - w.lastPipe > PIPE_FREQUENCY)
      && (currentTime - w.lastPipe <= PIPE_FREQUENCY ==> w'.lastPipe == w.lastPipe && WithSpawn(w, currentTime, gapY) == w.pipes)
      && |w'.pipes| + (w'.score - w.score) == |WithSpawn(w, currentTime, gapY)|
      && w'.highScore >= w'.score && w'.highScore >= w.highScore
      && (w'.highScore != w.highScore ==> w'.highScore == w'.score)
      && w'.active == w.active && w'.started == w.started && w'.debug == w.debug
  {
    ScrolledCount(WithSpawn(w, currentTime, gapY));
  }

  /** A pipe spawned in a frame is already moved once in that frame and is the newest (rightmost) pipe. */
  lemma SpawnedPipeIsNewest(w: World, currentTime: int, gapY: int)
    requires Inv(w) && w.active
    requires GAP_Y_MIN <= gapY <= GAP_Y_MAX
    requires currentTime - w.lastPipe > PIPE_FREQUENCY
    ensures var w' := AdvanceFrame(w, currentTime, gapY);
      && w'.lastPipe == currentTime
      && |w'.pipes| > 0
      && w'.pipes[|w'.pipes| - 1] == Moved(CreatePipe(gapY))
      && w'.pipes[|w'.pipes| - 1].X() == WINDOW_WIDTH - PIPE_SPEED
  {
  }

  /** The pipes after a frame are the moved pipes that stayed on screen, with their heights as before. */
  lemma FramePipes(w: World, currentTime: int, gapY: int, q: Pipe)
    requires w.active
    ensures var ps := WithSpawn(w, currentTime, gapY);
      q in AdvanceFrame(w, currentTime, gapY).pipes <==>
        exists k :: 0 <= k < |ps| && q == Moved(ps[k]) && !OffScreen(q)
  {
    ScrolledMembers(WithSpawn(w, currentTime, gapY), q);
  }

  lemma AdvanceFrameInv(w: World, currentTime: int, gapY: int)
    requires Inv(w)
    requires GAP_Y_MIN <= gapY <= GAP_Y_MAX
    ensures Inv(AdvanceFrame(w, currentTime, gapY))
    ensures AdvanceFrame(w, currentTime, gapY).highScore >= w.highScore
  {
    if w.active {
      var ps := WithSpawn(w, currentTime, gapY);
      assert IsQuarter(GRAVITY) by { assert (4.0 * GRAVITY).Floor == 1; }
      QuarterSum(w.velocity, GRAVITY);
      QuarterSum(w.birdY, w.velocity + GRAVITY);
      assert forall k :: 0 <= k < |ps| ==> WellFormed(ps[k]) && ps[k].X() <= WINDOW_WIDTH;
      assert Increasing(ps);
      ScrolledValid(ps);
    }
  }

  lemma CollisionEffectInv(w: World, birdW: nat, birdH: nat)
    requires Inv(w)
    ensures Inv(CollisionEffect(w, birdW, birdH))
    ensures CollisionEffect(w, birdW, birdH).highScore == w.highScore
  {
  }

  // ---------------------------------------------------------------------------
  // Properties of a whole loop iteration

  /**
   * One loop iteration keeps the invariant (in particular game_active implies
   * game_started and the score never exceeds the high score), never lowers the
   * high score, and never leads back to the start screen.
   */
  lemma StepInv(w: World, events: seq<Event>, currentTime: int, gapY: int, birdW: nat, birdH: nat)
    requires Inv(w)
    requires GAP_Y_MIN <= gapY <= GAP_Y_MAX
    ensures var w' := StepWorld(w, events, currentTime, gapY, birdW, birdH).0;
      Inv(w') && w'.highScore >= w.highScore && (w.started ==> w'.started)
  {
    var w1 := EventsEffect(w, events).0;
    EventsEffectInv(w, events);
    AdvanceFrameInv(w1, currentTime, gapY);
    var w2 := AdvanceFrame(w1, currentTime, gapY);
    CollisionEffectInv(w2, birdW, birdH);
  }

  /** A game that is over and gets no SPACE key stays over, and its bird, pipes and score do not change. */
  lemma OverStaysOver(w: World, events: seq<Event>, currentTime: int, gapY: int, birdW: nat, birdH: nat)
    requires w.Phase() == Over
    requires forall i :: 0 <= i < |events| ==> events[i] != KeyDown(Space)
    ensures var w' := StepWorld(w, events, currentTime, gapY, birdW, birdH).0;
      && w'.Phase() == Over
      && w'.birdY == w.birdY && w'.velocity == w.velocity && w'.pipes == w.pipes
      && w'.score == w.score && w'.highScore == w.highScore && w'.lastPipe == w.lastPipe
  {
    OverWithoutSpace(w, events);
  }

  /** Only a collision ends a game: an active game that does not collide is still active after the frame. */
  lemma GameOverOnlyByCollision(w: World, currentTime: int, gapY: int, birdW: nat, birdH: nat)
    requires w.started && w.active
    ensures var w2 := AdvanceFrame(w, currentTime, gapY);
      (CollisionEffect(w2, birdW, birdH).Phase() == Over <==>
        Collides(CollisionCircle(BirdRect(w2.birdY, birdW, birdH)), w2.pipes))
  {
  }

  /** From the start screen, SPACE starts a game with the bird centred at rest, no pipes and score 0. */
  lemma StartScenario(loadedHigh: nat, startTime: int)
    ensures var (w, quit) := EventsEffect(Initial(loadedHigh, startTime), [KeyDown(Space)]);
      && !quit && w.Phase() == Playing
      && w.birdY == START_Y && w.velocity == 0.0 && w.pipes == [] && w.score == 0
      && w.highScore == loadedHigh
  {
  }
}
