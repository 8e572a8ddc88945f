/**
 * The engine's decisions as functions on a value of its whole state: what
 * `GameEngine.notify` does with each event, the collision check that follows
 * every tick in `GameEngine.run`, and one iteration of that loop. The class
 * `GameEngine` is proved to follow these functions; the lemmas below state
 * what the game promises about them.
 */
module EngineSpec {
  import opened Wrappers
  import opened Const
  import opened Events
  import opened SceneStack
  import opened Players

  /** The engine's fields: the scene stack, the two players, `timer`, `round_timer` and `running`. */
  datatype EngineState = EngineState(
    stack: seq<Scene>,
    players: seq<PlayerState>,
    timer: int,
    roundTimer: int,
    running: bool)

  /** `players` is the list `[Player(0), Player(1)]`. */
  predicate TwoPlayers(s: EngineState) {
    |s.players| == 2 && s.players[0].id == 0 && s.players[1].id == 1
  }

  /** `initialize`: push the menu and build fresh players 0 and 1; the timers are not touched. */
  function Initialized(c: Config, s: EngineState): EngineState
    requires ValidConfig(c)
  {
    s.(stack := s.stack + [Menu], players := [NewPlayer(c, 0), NewPlayer(c, 1)])
  }

  /** The state `run` enters its loop with: an empty stack that `initialize` fills, full timers, running. */
  function Initial(c: Config): EngineState
    requires ValidConfig(c)
  {
    Initialized(c, EngineState([], [], c.gameLength, c.roundLength, true))
  }

  /** `switch_roles`: the role switch applied to every player, in list order. */
  function SwitchRoles(c: Config, ps: seq<PlayerState>): (r: seq<PlayerState>)
    ensures |r| == |ps|
    ensures forall i :: 0 <= i < |ps| ==> r[i] == SwitchedRole(c, ps[i])
  {
    if ps == [] then [] else [SwitchedRole(c, ps[0])] + SwitchRoles(c, ps[1..])
  }

  /**
   * The tick handler: only with Play on top, both timers go down by one; the
   * match timer reaching exactly 0 posts TimesUp, whose handler pushes EndGame;
   * the round timer reaching exactly 0 is reset and the roles are switched.
   */
  function Tick(c: Config, s: EngineState): EngineState {
    if Top(s.stack) == Some(Play) then
      var timer := s.timer - 1;
      var roundTimer := s.roundTimer - 1;
      var stack := if timer == 0 then s.stack + [EndGame] else s.stack;
      if roundTimer == 0 then
        s.(stack := stack, timer := timer, roundTimer := c.roundLength, players := SwitchRoles(c, s.players))
      else
        s.(stack := stack, timer := timer, roundTimer := roundTimer)
    else
      s
  }

  /** `notify`: one event applied to the engine; the events the engine posts to itself are applied directly. */
  function Notify(c: Config, s: EngineState, e: Event): EngineState
    requires ValidConfig(c)
    requires e.PlayerMove? ==> 0 <= e.playerId < |s.players|
  {
    match e
    case Initialize => Initialized(c, s)
    case EveryTick(_, _) => Tick(c, s)
    case StateChange(PopState) =>
      if Top(s.stack) == None then s.(stack := Popped(s.stack), running := false)
      else s.(stack := Popped(s.stack))
    case StateChange(PushState(scene)) => s.(stack := s.stack + [scene])
    case Quit => s.(running := false)
    case PlayerMove(id, d) => s.(players := s.players[id := Moved(c, s.players[id], d)])
    case TimesUp => s.(stack := s.stack + [EndGame])
  }

  /** `distance_between_players`: the squared Euclidean distance; never negative, and 0 for coinciding points. */
  function SquaredDistance(a: Vec, b: Vec): (d: real)
    ensures d >= 0.0
    ensures a == b ==> d == 0.0
  {
    Square(a.x - b.x);
    Square(a.y - b.y);
    (a.x - b.x) * (a.x - b.x) + (a.y - b.y) * (a.y - b.y)
  }

  lemma Square(u: real)
    ensures u * u >= 0.0
  {
    if u < 0.0 {
      assert u * u == (-u) * (-u);
    }
  }

  /** The contact test of `run`: squared distance at most `(2 * PLAYER_RADIUS) ** 2`. */
  predicate Touching(c: Config, s: EngineState)
    requires |s.players| == 2
  {
    SquaredDistance(s.players[0].position, s.players[1].position)
      <= (2.0 * c.playerRadius) * (2.0 * c.playerRadius)
  }

  /** The collision block of `run`: on contact the role-1 player of the pair scores, then both are reset. */
  function Collide(c: Config, s: EngineState): EngineState
    requires ValidConfig(c) && TwoPlayers(s)
  {
    if Touching(c, s) then
      var p0 := if s.players[0].role == 1 then AddPoint(s.players[0]) else s.players[0];
      var p1 := if s.players[0].role == 1 then s.players[1] else AddPoint(s.players[1]);
      s.(players := [Reset(c, p0), Reset(c, p1)])
    else
      s
  }

  /** One iteration of the loop in `run`: post a tick carrying the timers, then check for contact. */
  function Step(c: Config, s: EngineState): (r: EngineState)
    requires ValidConfig(c) && TwoPlayers(s)
    ensures TwoPlayers(r)
  {
    Collide(c, Notify(c, s, EveryTick(s.roundTimer, s.timer)))
  }

  /** `n` iterations of the loop (the loop itself need not terminate, so only finite prefixes are modelled). */
  function Run(c: Config, s: EngineState, n: nat): (r: EngineState)
    requires ValidConfig(c) && TwoPlayers(s)
    ensures TwoPlayers(r)
    decreases n
  {
    if n == 0 then s else Step(c, Run(c, s, n - 1))
  }

  /** The index of the attacker, the player whose role is 1. */
  function AttackerIndex(s: EngineState): int
    requires |s.players| == 2
  {
    if s.players[0].role == 1 then 0 else 1
  }

  /**
   * The game's invariant: two players with their own ids, each with a 0/1 role,
   * the speed of that role and a place in the arena; the two roles differ, so
   * exactly one player attacks; the round timer lies in 1..ROUND_LENGTH; the
   * match timer never exceeds GAME_LENGTH.
   */
  predicate Inv(c: Config, s: EngineState) {
    && TwoPlayers(s)
    && PlayerOk(c, s.players[0]) && PlayerOk(c, s.players[1])
    && s.players[0].role != s.players[1].role
    && 1 <= s.roundTimer <= c.roundLength
    && s.timer <= c.gameLength
  }

  predicate SameRoles(s: EngineState, t: EngineState)
    requires |s.players| == 2 && |t.players| == 2
  {
    s.players[0].role == t.players[0].role && s.players[1].role == t.players[1].role
  }

  predicate FlippedRoles(s: EngineState, t: EngineState)
    requires |s.players| == 2 && |t.players| == 2
  {
    t.players[0].role == 1 - s.players[0].role && t.players[1].role == 1 - s.players[1].role
  }
}
