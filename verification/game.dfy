/**
 * The game's module-level state as one object whose methods update it in
 * place, in the order the main loop of flappy_bird.py does. Each method is
 * proved to take the world from State() to the value the rules in
 * rules.dfy prescribe, so the properties proved there hold of it.
 */
module Game {
  import opened Config
  import opened Pipes
  import opened Collision
  import opened Rules

  /** The values 'lo, lo + 1, ..., hi - 1', in order. */
  function Ints(lo: int, hi: int): (r: seq<int>)
    ensures |r| == if lo < hi then hi - lo else 0
    decreases hi - lo
  {
    if lo >= hi then [] else Ints(lo, hi - 1) + [hi - 1]
  }

  /**
   * The bookkeeping of one point inside the pipe loop: starting from score sc0 and
   * high score h0, the high score is the larger of h0 and the score, and the
   * saves since then are the run h0 + 1, ..., high score.
   */
  lemma SavesStep(s0: seq<int>, h0: int, sc: int, before: int, after: int, saved: seq<int>, saved': seq<int>)
    requires before == Max(h0, sc) && after == Max(before, sc + 1)
    requires saved == s0 + Ints(h0 + 1, before + 1)
    requires saved' == saved + (if after != before then [after] else [])
    ensures after == Max(h0, sc + 1)
    ensures saved' == s0 + Ints(h0 + 1, after + 1)
  {
  }

  /** The last value saved is the high score, before and after a run of new high scores. */
  lemma SavesLast(s0: seq<int>, base: int, h0: int, h: int)
    requires h0 <= h
    requires (if s0 == [] then base else s0[|s0| - 1]) == h0
    ensures var s := s0 + Ints(h0 + 1, h + 1);
      (if s == [] then base else s[|s| - 1]) == h
  {
  }

  /**
   * One iteration of the pipe loop. Before it, the live list holds the scrolled
   * part of the copy followed by the untouched rest, and j is where the copy's
   * i-th pipe sits in it. Moving that pipe in place puts the moved pipe between
   * the scrolled part and the rest; scrolling one more pipe of the copy keeps the
   * moved pipe exactly when it is on screen, and counts an exit otherwise.
   */
  lemma PipeLoopStep(snapshot: seq<Pipe>, i: nat, live: seq<Pipe>, j: nat)
    requires i < |snapshot|
    requires j == |Scrolled(snapshot[..i])|
    requires live == Scrolled(snapshot[..i]) + snapshot[i..]
    ensures j < |live| && live[j] == snapshot[i]
    ensures live[j := Moved(snapshot[i])] == Scrolled(snapshot[..i]) + [Moved(snapshot[i])] + snapshot[i + 1..]
    ensures OffScreen(Moved(snapshot[i])) ==>
      && Scrolled(snapshot[..i + 1]) == Scrolled(snapshot[..i])
      && Exits(snapshot[..i + 1]) == Exits(snapshot[..i]) + 1
    ensures !OffScreen(Moved(snapshot[i])) ==>
      && Scrolled(snapshot[..i + 1]) == Scrolled(snapshot[..i]) + [Moved(snapshot[i])]
      && Exits(snapshot[..i + 1]) == Exits(snapshot[..i])
  {
    assert snapshot[..i + 1] == snapshot[..i] + [snapshot[i]];
    ScrolledSnoc(snapshot[..i], snapshot[i]);
    assert Scrolled(snapshot[..i]) + [] == Scrolled(snapshot[..i]);
    assert snapshot[i..] == [snapshot[i]] + snapshot[i + 1..];
  }

  /**
   * Removing an off-screen pipe by value from survivors, the pipe, and a rest
   * removes that very pipe: no survivor can equal it, since none is off screen.
   */
  lemma RemoveAfterSurvivors(done: seq<Pipe>, pipe: Pipe, rest: seq<Pipe>)
    requires forall k :: 0 <= k < |done| ==> !OffScreen(done[k])
    requires OffScreen(pipe)
    ensures RemoveFirst(done + [pipe] + rest, pipe) == done + rest
  {
    var s := done + [pipe] + rest;
    RemoveFirstAt(s, |done|, pipe);
    assert s[..|done|] == done;
    assert s[|done| + 1..] == rest;
  }

  class GameWorld {
    var birdY: real
    var velocity: real
    var pipes: seq<Pipe>
    var score: int
    var highScore: int
    var active: bool
    var started: bool
    var lastPipe: int
    var debug: bool

    /** The high score read from storage at start-up. */
    ghost const loadedHigh: int
    /** Every value handed to save_highscore, in order. */
    ghost var saves: seq<int>

    ghost function State(): World
      reads this
    {
      World(birdY, velocity, pipes, score, highScore, active, started, lastPipe, debug)
    }

    /** The value a later load_highscore would read back. */
    ghost function Persisted(): int
      reads this
    {
      if saves == [] then loadedHigh else saves[|saves| - 1]
    }

    /**
     * Since a point where the saves were s0 and the high score h0, save_highscore
     * has been called with exactly the new high scores h0 + 1, ..., highScore, in order.
     */
    ghost predicate SavedSince(s0: seq<int>, h0: int)
      reads this
    {
      saves == s0 + Ints(h0 + 1, highScore + 1)
    }

    ghost predicate Valid()
      reads this
    {
      Inv(State()) && loadedHigh <= highScore && Persisted() == highScore
    }

    /** The globals as the script sets them up before its loop. */
    constructor (loaded: nat, startTime: int)
      ensures Valid()
      ensures State() == Initial(loaded, startTime)
      ensures loadedHigh == loaded && saves == []
    {
      birdY := START_Y;
      velocity := 0.0;
      pipes := [];
      score := 0;
      highScore := loaded;
      active := false;
      started := false;
      lastPipe := startTime;
      debug := true;
      loadedHigh := loaded;
      saves := [];
      new;
      InitialInv(loaded, startTime);
    }

    /** reset_game. */
    method Reset()
      requires Valid()
      modifies this`birdY, this`velocity, this`pipes, this`score, this`active, this`started
      ensures Valid()
      ensures State() == ResetWorld(old(State()))
    {
      birdY := START_Y;
      velocity := 0.0;
      pipes := [];
      score := 0;
      active := true;
      started := true;
      KeyEffectInv(old(State()), Space);
    }

    /** update_score: one more point; a new high score is taken over and saved at once. */
    method UpdateScore()
      modifies this`score, this`highScore, this`saves
      ensures score == old(score) + 1
      ensures highScore == Max(old(highScore), score)
      ensures saves == old(saves) + (if highScore != old(highScore) then [highScore] else [])
    {
      score := score + 1;
      if score > highScore {
        highScore := score;
        saves := saves + [highScore];
      }
    }

    /** The d and SPACE branches of the key handler. */
    method HandleKey(k: Key)
      requires Valid()
      modifies this`birdY, this`velocity, this`pipes, this`score, this`active, this`started, this`debug
      ensures Valid()
      ensures State() == KeyEffect(old(State()), k)
    {
      if k == KeyD {
        debug := !debug;
      }
      if k == Space {
        if !started {
          Reset();
        } else if active {
          velocity := FLAP_STRENGTH;
          KeyEffectInv(old(State()), k);
        } else {
          Reset();
        }
      }
    }

    /** The event loop; returns true when a QUIT event or the ESC key ends the process. */
    method HandleEvents(events: seq<Event>) returns (quit: bool)
      requires Valid()
      modifies this`birdY, this`velocity, this`pipes, this`score, this`active, this`started, this`debug
      ensures Valid()
      ensures (State(), quit) == EventsEffect(old(State()), events)
    {
      var i := 0;
      while i < |events|
        invariant 0 <= i <= |events|
        invariant Valid()
        invariant EventsEffect(old(State()), events) == EventsEffect(State(), events[i..])
      {
        match events[i] {
          case QuitEvent =>
            return true;
          case KeyDown(k) =>
            if k == Escape {
              return true;
            }
            HandleKey(k);
          case OtherEvent =>
        }
        i := i + 1;
      }
      return false;
    }

    /**
     * The state of the pipe loop after i pipes of the copy: the live list is
     * the scrolled part followed by the untouched rest, j is where the copy's
     * next pipe sits in it, and score, high score and saves have counted every
     * pipe removed so far.
     */
    ghost predicate Scrolling(snapshot: seq<Pipe>, i: nat, j: nat, score0: int, high0: int, saves0: seq<int>)
      reads this
    {
      && i <= |snapshot|
      && j == |Scrolled(snapshot[..i])|
      && pipes == Scrolled(snapshot[..i]) + snapshot[i..]
      && score == score0 + Exits(snapshot[..i])
      && highScore == Max(high0, score)
      && saves == saves0 + Ints(high0 + 1, highScore + 1)
    }

    /**
     * One iteration of the pipe loop: move the copy's i-th pipe (the same object
     * as the live list's j-th) left, and when it is off screen remove it by value
     * and score.
     */
    method ScrollOne(snapshot: seq<Pipe>, i: nat, j: nat, ghost score0: int, ghost high0: int, ghost saves0: seq<int>)
      returns (j': nat)
      requires i < |snapshot| && Scrolling(snapshot, i, j, score0, high0, saves0)
      modifies this`pipes, this`score, this`highScore, this`saves
      ensures Scrolling(snapshot, i + 1, j', score0, high0, saves0)
    {
      PipeLoopStep(snapshot, i, pipes, j);
      var pipe := Moved(pipes[j]);
      pipes := pipes[j := pipe];
      j' := j;
      if OffScreen(pipe) {
        ghost var done := Scrolled(snapshot[..i]);
        assert pipes == done + [pipe] + snapshot[i + 1..];
        RemoveAfterSurvivors(done, pipe, snapshot[i + 1..]);
        pipes := RemoveFirst(pipes, pipe);
        assert pipes == done + snapshot[i + 1..];
        ghost var sc, before, saved := score, highScore, saves;
        UpdateScore();
        SavesStep(saves0, high0, sc, before, highScore, saved, saves);
      } else {
        j' := j + 1;
        assert pipes == Scrolled(snapshot[..i + 1]) + snapshot[i + 1..];
      }
    }

    /**
     * The pipe loop of a playing frame: over a copy of the list, move each pipe
     * left, and remove it (by value, as list.remove does) and score when it is
     * off screen.
     */
    method ScrollPipes()
      requires score <= highScore && Persisted() == highScore
      modifies this`pipes, this`score, this`highScore, this`saves
      ensures pipes == Scrolled(old(pipes))
      ensures score == old(score) + Exits(old(pipes))
      ensures highScore == Max(old(highScore), score)
      ensures SavedSince(old(saves), old(highScore))
      ensures Persisted() == highScore
    {
      var snapshot := pipes;
      ghost var score0, high0, saves0 := score, highScore, saves;
      var i, j := 0, 0;
      while i < |snapshot|
        invariant i <= |snapshot|
        invariant Scrolling(snapshot, i, j, score0, high0, saves0)
      {
        j := ScrollOne(snapshot, i, j, score0, high0, saves0);
        i := i + 1;
      }
      assert snapshot[..i] == snapshot;
      SavesLast(saves0, loadedHigh, high0, highScore);
    }

    /** The `if game_active` block of the loop: gravity, timed spawn and the pipe loop. */
    method AdvancePlaying(currentTime: int, gapY: int)
      requires Valid()
      requires GAP_Y_MIN <= gapY <= GAP_Y_MAX
      modifies this`birdY, this`velocity, this`pipes, this`lastPipe, this`score, this`highScore, this`saves
      ensures Valid()
      ensures State() == AdvanceFrame(old(State()), currentTime, gapY)
      ensures SavedSince(old(saves), old(highScore))
    {
      ghost var w := State();
      AdvanceFrameInv(w, currentTime, gapY);
      if active {
        velocity := velocity + GRAVITY;
        birdY := birdY + velocity;
        if currentTime - lastPipe > PIPE_FREQUENCY {
          pipes := pipes + [CreatePipe(gapY)];
          lastPipe := currentTime;
        }
        ghost var spawned := pipes;
        assert spawned == WithSpawn(w, currentTime, gapY);
        ScrollPipes();
        assert pipes == Scrolled(spawned) && score == w.score + Exits(spawned);
        assert State() == AdvanceFrame(w, currentTime, gapY);
      } else {
        assert saves + Ints(highScore + 1, highScore + 1) == saves;
        assert SavedSince(old(saves), old(highScore));
        assert State() == w;
      }
      assert Inv(State());
    }

    /** The collision check of the drawing phase, with the rotated sprite's size as parameters. */
    method DetectCollision(birdW: nat, birdH: nat)
      requires Valid()
      modifies this`active
      ensures Valid()
      ensures State() == CollisionEffect(old(State()), birdW, birdH)
    {
      if started {
        var bird := BirdRect(birdY, birdW, birdH);
        if active {
          var hit := CheckCollision(bird, pipes);
          if hit {
            active := false;
          }
        }
      }
      CollisionEffectInv(old(State()), birdW, birdH);
    }

    /** The part of a loop iteration after the events: the playing-frame update, then the collision check. */
    method PlayFrame(currentTime: int, gapY: int, birdW: nat, birdH: nat)
      requires Valid()
      requires GAP_Y_MIN <= gapY <= GAP_Y_MAX
      modifies this`birdY, this`velocity, this`pipes, this`lastPipe, this`score, this`highScore, this`saves, this`active
      ensures Valid()
      ensures State() == CollisionEffect(AdvanceFrame(old(State()), currentTime, gapY), birdW, birdH)
      ensures SavedSince(old(saves), old(highScore))
    {
      AdvancePlaying(currentTime, gapY);
      DetectCollision(birdW, birdH);
    }

    /**
     * One iteration of the game loop: events, then the playing-frame update, then
     * the collision check. Returns true when the process exits during the events.
     */
    method Step(events: seq<Event>, currentTime: int, gapY: int, birdW: nat, birdH: nat) returns (quit: bool)
      requires Valid()
      requires GAP_Y_MIN <= gapY <= GAP_Y_MAX
      modifies this
      ensures Valid()
      ensures (State(), quit) == StepWorld(old(State()), events, currentTime, gapY, birdW, birdH)
      ensures highScore >= old(highScore)
      ensures old(started) ==> started
      ensures SavedSince(old(saves), old(highScore))
    {
      ghost var w0 := State();
      quit := HandleEvents(events);
      if quit {
        assert saves + Ints(highScore + 1, highScore + 1) == saves;
        assert SavedSince(old(saves), old(highScore));
        return;
      }
      ghost var w1 := State();
      assert EventsEffect(w0, events) == (w1, false);
      PlayFrame(currentTime, gapY, birdW, birdH);
    }
  }
}
