/**
 * One player (`Player`): a fixed id, a role (1 attacks, 0 defends), a
 * position clamped into the arena, a speed derived from the role, and a score.
 */
module Players {
  import opened Const

  /** The value of a player's fields at one moment. */
  datatype PlayerState = PlayerState(id: int, role: int, position: Vec, speed: real, score: int)

  /** `max(0, min(hi, v))`: the coordinate clamp of `move_direction`. */
  function Clip(v: real, hi: real): (r: real)
    ensures hi >= 0.0 ==> 0.0 <= r <= hi
    ensures 0.0 <= v <= hi ==> r == v
  {
    var m := if hi < v then hi else v;
    if 0.0 < m then m else 0.0
  }

  function Abs(v: real): real { if v < 0.0 then -v else v }

  /** The clamp picks the point of [0, hi] nearest to `v`, and clamping twice changes nothing. */
  lemma ClipIsNearest(v: real, hi: real, z: real)
    requires 0.0 <= hi && 0.0 <= z <= hi
    ensures Abs(Clip(v, hi) - v) <= Abs(z - v)
    ensures Clip(Clip(v, hi), hi) == Clip(v, hi)
  {
  }

  /** `Player(player_id)`: role equal to the id, the id's starting point, speed of that role, no points. */
  function NewPlayer(c: Config, id: int): PlayerState
    requires 0 <= id < |c.initPositions|
  {
    PlayerState(id, id, c.initPositions[id], SpeedFor(c, id), 0)
  }

  /** `reset_position_speed`: back to the starting point, speed recomputed from the current role. */
  function Reset(c: Config, p: PlayerState): PlayerState
    requires 0 <= p.id < |c.initPositions|
  {
    p.(position := c.initPositions[p.id], speed := SpeedFor(c, p.role))
  }

  /** The point `move_direction` reaches before clamping: `speed / FPS` along the direction. */
  function Target(c: Config, p: PlayerState, d: Dir): Vec
    requires c.fps > 0
  {
    Add(p.position, Scale(p.speed / c.fps as real, DirectionVector(d)))
  }

  /** `move_direction`: step towards the target, then clamp each coordinate into the arena. */
  function Moved(c: Config, p: PlayerState, d: Dir): PlayerState
    requires c.fps > 0
  {
    var t := Target(c, p, d);
    p.(position := Vec(Clip(t.x, c.arenaWidth), Clip(t.y, c.arenaHeight)))
  }

  /** The body of the loop in `switch_roles`, for one player. */
  function SwitchedRole(c: Config, p: PlayerState): PlayerState {
    var role := (p.role + 1) % 2;
    p.(role := role, speed := SpeedFor(c, role))
  }

  /** One point more (the scoring step of the collision check). */
  function AddPoint(p: PlayerState): PlayerState {
    p.(score := p.score + 1)
  }

  /** What every player satisfies at every moment: a 0/1 role, the speed of that role, a place in the arena. */
  predicate PlayerOk(c: Config, p: PlayerState) {
    && (p.role == 0 || p.role == 1)
    && p.speed == SpeedFor(c, p.role)
    && InArena(c, p.position)
    && p.score >= 0
  }

  /** A new player already satisfies the invariant, with role == id and score 0. */
  lemma NewPlayerOk(c: Config, id: int)
    requires SaneConfig(c) && (id == 0 || id == 1)
    ensures PlayerOk(c, NewPlayer(c, id))
    ensures NewPlayer(c, id).role == id && NewPlayer(c, id).id == id
    ensures NewPlayer(c, id).position == c.initPositions[id] && NewPlayer(c, id).score == 0
  {
  }

  /**
   * After any move the player is inside the arena; only the position changed; and when
   * the target was inside the arena the move is exactly `speed / FPS` along the direction.
   */
  lemma MovedStaysInArena(c: Config, p: PlayerState, d: Dir)
    requires c.fps > 0 && c.arenaWidth >= 0.0 && c.arenaHeight >= 0.0
    ensures InArena(c, Moved(c, p, d).position)
    ensures Moved(c, p, d) == p.(position := Moved(c, p, d).position)
    ensures InArena(c, Target(c, p, d)) ==> Moved(c, p, d).position == Target(c, p, d)
  {
  }

  /** A move preserves the player invariant. */
  lemma MovedOk(c: Config, p: PlayerState, d: Dir)
    requires SaneConfig(c) && PlayerOk(c, p)
    ensures PlayerOk(c, Moved(c, p, d))
  {
    MovedStaysInArena(c, p, d);
  }

  /** Moving again along the same direction from a clamped point changes nothing that clamping would undo. */
  lemma MovedIsClamped(c: Config, p: PlayerState, d: Dir)
    requires c.fps > 0 && c.arenaWidth >= 0.0 && c.arenaHeight >= 0.0
    ensures var q := Moved(c, p, d);
      Vec(Clip(q.position.x, c.arenaWidth), Clip(q.position.y, c.arenaHeight)) == q.position
  {
    MovedStaysInArena(c, p, d);
  }

  /** When no clamping happens, a move followed by the opposite move returns to the starting point. */
  lemma MoveThenBack(c: Config, p: PlayerState, d: Dir)
    requires c.fps > 0 && c.arenaWidth >= 0.0 && c.arenaHeight >= 0.0
    requires InArena(c, p.position) && InArena(c, Target(c, p, d))
    ensures Moved(c, Moved(c, p, d), Opposite(d)) == p
  {
    MovedStaysInArena(c, p, d);
    var q := Moved(c, p, d);
    assert Target(c, q, Opposite(d)) == p.position by {
      OppositeCancels(d, p.speed / c.fps as real);
    }
  }

  /** A reset keeps id, role and score, puts the player on its starting point and recouples speed to role. */
  lemma ResetOk(c: Config, p: PlayerState)
    requires SaneConfig(c) && (p.id == 0 || p.id == 1) && PlayerOk(c, p)
    ensures PlayerOk(c, Reset(c, p))
    ensures Reset(c, p).role == p.role && Reset(c, p).score == p.score && Reset(c, p).id == p.id
    ensures Reset(c, p).position == c.initPositions[p.id]
  {
  }

  /** A role switch turns 0 into 1 and 1 into 0 with the matching speed, and two switches restore the player. */
  lemma SwitchedRoleFlips(c: Config, p: PlayerState)
    requires PlayerOk(c, p)
    ensures SwitchedRole(c, p).role == 1 - p.role
    ensures PlayerOk(c, SwitchedRole(c, p))
    ensures SwitchedRole(c, p).position == p.position && SwitchedRole(c, p).score == p.score
    ensures SwitchedRole(c, SwitchedRole(c, p)) == p
  {
  }

  class Player {
    const id: int
    const cfg: Config
    var role: int
    var position: Vec
    var speed: real
    var score: int

    function State(): PlayerState
      reads this
    {
      PlayerState(id, role, position, speed, score)
    }

    constructor (cfg: Config, playerId: int)
      requires 0 <= playerId < |cfg.initPositions|
      ensures this.cfg == cfg && id == playerId
      ensures role == playerId && position == cfg.initPositions[playerId] && score == 0
      ensures speed == SpeedFor(cfg, role)
      ensures State() == NewPlayer(cfg, playerId)
    {
      this.cfg := cfg;
      id := playerId;
      role := playerId;
      position := cfg.initPositions[playerId];
      speed := if playerId == 1 then cfg.speedAttack else cfg.speedDefense;
      score := 0;
    }

    method ResetPositionSpeed()
      requires 0 <= id < |cfg.initPositions|
      modifies this
      ensures position == cfg.initPositions[id] && speed == SpeedFor(cfg, role)
      ensures role == old(role) && score == old(score)
      ensures State() == Reset(cfg, old(State()))
    {
      position := cfg.initPositions[id];
      speed := if role == 1 then cfg.speedAttack else cfg.speedDefense;
    }

    method MoveDirection(d: Dir)
      requires cfg.fps > 0
      modifies this
      ensures role == old(role) && speed == old(speed) && score == old(score)
      ensures cfg.arenaWidth >= 0.0 && cfg.arenaHeight >= 0.0 ==> InArena(cfg, position)
      ensures State() == Moved(cfg, old(State()), d)
    {
      position := Add(position, Scale(speed / cfg.fps as real, DirectionVector(d)));
      position := position.(x := Clip(position.x, cfg.arenaWidth));
      position := position.(y := Clip(position.y, cfg.arenaHeight));
    }
  }
}
