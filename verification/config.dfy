/** The game's tuning constants, as fixed at the top of flappy_bird.py. */
module Config {
  const WINDOW_WIDTH := 400
  const WINDOW_HEIGHT := 600
  /** Added to the bird's velocity on every playing frame (pixels per frame per frame). */
  const GRAVITY: real := 0.25
  /** The velocity a flap sets (negative is upward). */
  const FLAP_STRENGTH: real := -7.0
  /** Pixels every pipe moves left per playing frame. */
  const PIPE_SPEED := 3
  /** Vertical clearance between the top and the bottom pipe of a pair. */
  const PIPE_GAP := 150
  /** Milliseconds that must be exceeded between two pipe spawns. */
  const PIPE_FREQUENCY := 1500
  /** Fraction of the bird sprite's smaller side used as the collision circle's diameter. */
  const BIRD_COLLISION_MARGIN: real := 0.42
  const PIPE_WIDTH := 80
  /** The bird's fixed horizontal centre. */
  const BIRD_X := WINDOW_WIDTH / 3
  /** The bird's vertical position at start and after every reset. */
  const START_Y: real := (WINDOW_HEIGHT / 2) as real
  /** Range of the random gap centre drawn for a new pipe. */
  const GAP_Y_MIN := 100
  const GAP_Y_MAX := WINDOW_HEIGHT - 100
  /** The least height either pipe of a pair can have, for a gap centre in range. */
  const MIN_PIPE_HEIGHT := GAP_Y_MIN - PIPE_GAP / 2

  function Max(a: int, b: int): int { if a < b then b else a }
  function Min(a: int, b: int): int { if a < b then a else b }
}
