/** The option type that `peek` and `pop` return (Python's `None` or a value). */
module Wrappers {
  datatype Option<T> = None | Some(value: T)
}

/**
 * The game's configuration constants (the `Const` module of the game, which is
 * not part of this model). Every constant is a field of `Config`, so that the
 * model and its proofs hold for every configuration that meets the stated
 * assumptions, not only for one set of numbers.
 */
module Const {

  /** The scenes of the state machine: STATE_MENU, STATE_PLAY, STATE_PAUSE, STATE_ENDGAME. */
  datatype Scene = Menu | Play | Pause | EndGame

  /** The four keys of DIRECTION_TO_VEC2. */
  datatype Dir = Up | Down | Left | Right

  /** A 2D point or displacement (pygame's Vector2, over exact reals). */
  datatype Vec = Vec(x: real, y: real)

  function Add(a: Vec, b: Vec): Vec { Vec(a.x + b.x, a.y + b.y) }

  function Scale(k: real, v: Vec): Vec { Vec(k * v.x, k * v.y) }

  /** DIRECTION_TO_VEC2: the axis-aligned unit vector of a direction, y growing downwards as on screen. */
  function DirectionVector(d: Dir): (v: Vec)
    ensures v.x == 0.0 || v.y == 0.0
    ensures v.x == 1.0 || v.x == -1.0 || v.y == 1.0 || v.y == -1.0
  {
    match d
    case Up => Vec(0.0, -1.0)
    case Down => Vec(0.0, 1.0)
    case Left => Vec(-1.0, 0.0)
    case Right => Vec(1.0, 0.0)
  }

  /** The direction that undoes a move along `d`. */
  function Opposite(d: Dir): Dir {
    match d
    case Up => Down
    case Down => Up
    case Left => Right
    case Right => Left
  }

  /** Moving `k` along `d` and then `k` along its opposite adds up to no displacement. */
  lemma OppositeCancels(d: Dir, k: real)
    ensures Add(Scale(k, DirectionVector(d)), Scale(k, DirectionVector(Opposite(d)))) == Vec(0.0, 0.0)
  {
    match d
    case Up =>
    case Down =>
    case Left =>
    case Right =>
  }

  datatype Config = Config(
    arenaWidth: real,          // ARENA_SIZE[0]
    arenaHeight: real,         // ARENA_SIZE[1]
    playerRadius: real,        // PLAYER_RADIUS
    speedAttack: real,         // SPEED_ATTACK
    speedDefense: real,        // SPEED_DEFENSE
    fps: int,                  // FPS
    initPositions: seq<Vec>,   // PLAYER_INIT_POSITION, indexed by player id
    gameLength: int,           // GAME_LENGTH, in ticks
    roundLength: int           // ROUND_LENGTH, in ticks
  )

  /** What the operations themselves need: a non-zero divisor and an initial position per player id. */
  predicate ValidConfig(c: Config) {
    c.fps > 0 && |c.initPositions| >= 2
  }

  predicate InArena(c: Config, p: Vec) {
    0.0 <= p.x <= c.arenaWidth && 0.0 <= p.y <= c.arenaHeight
  }

  /**
   * The assumptions about the constants under which the game's invariants hold:
   * a non-empty arena containing both starting points, and a positive round length.
   */
  predicate SaneConfig(c: Config) {
    && ValidConfig(c)
    && c.arenaWidth >= 0.0 && c.arenaHeight >= 0.0
    && InArena(c, c.initPositions[0]) && InArena(c, c.initPositions[1])
    && c.roundLength > 0
  }

  /** The speed that goes with a role: role 1 attacks, every other role defends. */
  function SpeedFor(c: Config, role: int): real {
    if role == 1 then c.speedAttack else c.speedDefense
  }
}
