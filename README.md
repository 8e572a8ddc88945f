# Two-player tag game engine, in Dafny

This project models the simulation core of a two-player chase game written in
Python with pygame (`Model.py`). One player attacks (role 1) and the other
defends (role 0). The roles swap every `ROUND_LENGTH` ticks. Contact scores a
point and sends both players back to their starting points. The match ends when
the match timer runs out.

The model has three stateful parts, each a Dafny class with `modifies` frames:

- `SceneStack.StateMachine` is the scene stack: `Peek`, `Pop`, `Push`, `Clear`.
  `Peek` and `Pop` answer `None` on an empty stack.
- `Players.Player` holds one player's id, role, position, speed and score. It has
  `ResetPositionSpeed` and `MoveDirection`, which moves by `speed / FPS` and then
  clamps into the arena.
- `Engine.GameEngine` is the orchestrator. `Notify` dispatches each event,
  and its tick branch is the method `Tick`. `SwitchRoles` loops over the
  players, `DistanceBetweenPlayers` gives the squared distance, and `Step` is
  one iteration of the `run` loop: a tick, then the collision check.

Each method is proved to change the state exactly as a pure function says.
`EngineSpec` holds those functions over one value of the engine state
(`Tick`, `Notify`, `Collide`, `Step`, and `Run` for `n` iterations).
`EngineProps` proves the game's properties about them:

- the invariant: exactly one attacker, speed tied to role, players inside the
  arena, round timer in `1..ROUND_LENGTH`;
- the timer arithmetic of a Play tick;
- the effect of each scene event;
- the scoring rule;
- what happens after a whole round and after a whole match of ticks.

The constants module of the game is not part of this model. Its constants are
the fields of a `Config` value. `ValidConfig` states what the operations need
(`FPS > 0`, a starting point for players 0 and 1). `SaneConfig` adds what the
invariants need: non-negative arena extents, starting points inside the arena,
and `ROUND_LENGTH > 0`. `DIRECTION_TO_VEC2` is taken to be the usual screen
convention: up is (0, -1), down (0, 1), left (-1, 0), right (1, 0). Positions
are exact `real`s.

Where the code does something one might not expect, the model follows the code:

- On contact, the player with role 1 (the attacker) scores, not the defender.
- Quit is posted only when a POP finds the stack already empty. Popping the
  last scene leaves an empty stack and the engine keeps running.
- The collision check runs after every tick, whatever scene is on top.
- The match timer is never clamped. If Play is resumed after EndGame, the timer
  goes negative and TimesUp never fires again.
- The timers are set by `run`, not by `initialize`. A later Initialize event
  pushes another Menu and rebuilds the players (their scores go back to 0), but
  leaves the timers alone.

## Model

| member | source | states |
|---|---|---|
| `Const.DirectionVector` | Model.py:190 | each direction maps to an axis-aligned vector of length 1 |
| `SceneStack.Top` | Model.py:19-28 | what `peek` returns: None on an empty stack, else the last scene; its properties are proved in `EmptyStack`, `PushThenPop` and `StateMachine.Peek` |
| `SceneStack.Popped` | Model.py:30-39 | the stack `pop` leaves: the same stack without its last scene, or still empty; its properties are proved in `EmptyStack`, `PushThenPop` and `PopThenPush` |
| `Const.OppositeCancels` | Model.py:190 | a step of any length along a direction followed by the same step along the opposite direction adds up to no displacement |
| `SceneStack.EmptyStack` | Model.py:19-39 | `peek` and `pop` on an empty stack give None, and the stack stays empty |
| `SceneStack.PushThenPop` | Model.py:30-47 | after `push(s)`, `peek` gives `s`; a following `pop` gives `s` and restores the earlier stack |
| `SceneStack.PopThenPush` | Model.py:30-47 | pushing back what `pop` returned rebuilds the stack it was popped from |
| `SceneStack.StateMachine.constructor` | Model.py:16-17 | a new state machine has an empty stack |
| `SceneStack.StateMachine.Peek` | Model.py:19-28 | returns None exactly when the stack is empty, else its last element; the stack is not changed |
| `SceneStack.StateMachine.Pop` | Model.py:30-39 | returns what `peek` would and removes it; an empty stack gives None and stays empty |
| `SceneStack.StateMachine.Push` | Model.py:41-47 | appends the scene and returns it |
| `SceneStack.StateMachine.Clear` | Model.py:49-53 | the stack becomes empty |
| `Const.SpeedFor` | Model.py:146 | SPEED_ATTACK for role 1 and SPEED_DEFENSE for every other role, as in `__init__`, `reset_position_speed` and `switch_roles`; `NewPlayerOk`, `ResetOk` and `SwitchedRoleFlips` prove each of them couples speed to role |
| `Players.NewPlayer` | Model.py:173-178 | a new player: role equal to its id, its starting point, the speed of that role, score 0; `NewPlayerOk` proves it satisfies the player invariant |
| `Players.Reset` | Model.py:180-182 | the player back at its starting point with the speed of its current role; `ResetOk` proves id, role and score are kept and the invariant holds |
| `Players.Target` | Model.py:189 | the point `speed / FPS` along the direction vector, before clamping; `MovedStaysInArena` proves the move reaches it when it lies in the arena, `MoveThenBack` that the opposite move undoes it |
| `Players.Moved` | Model.py:184-193 | the player after `move_direction`: the target clamped coordinate by coordinate into the arena; `MovedStaysInArena`, `MovedOk`, `MovedIsClamped` and `MoveThenBack` prove its properties |
| `Players.SwitchedRole` | Model.py:145-146 | one player after the loop body of `switch_roles`: role `(role + 1) % 2`, speed of the new role; `SwitchedRoleFlips` proves it exchanges 0 and 1 and is its own inverse |
| `Players.Clip` | Model.py:192-193 | with a non-negative bound the result lies in `[0, hi]`, and a value already inside is kept |
| `Players.ClipIsNearest` | Model.py:192-193 | the clamp picks the point of `[0, hi]` nearest to the input, and clamping twice changes nothing |
| `Players.NewPlayerOk` | Model.py:173-178 | a new player has role == id, its starting point, the speed of its role and score 0 |
| `Players.MovedStaysInArena` | Model.py:184-193 | after a move the player is inside the arena; only its position changed; with no clamping the move is exactly `speed / FPS` along the direction |
| `Players.MovedOk` | Model.py:184-193 | a move keeps the player invariant (0/1 role, role-derived speed, inside the arena, score >= 0) |
| `Players.MovedIsClamped` | Model.py:191-193 | clamping the moved position again changes nothing |
| `Players.MoveThenBack` | Model.py:190-193 | when no clamping happens, a move followed by the opposite move returns the player to where it was |
| `Players.ResetOk` | Model.py:180-182 | a reset keeps id, role and score, puts the player at its starting point and recomputes speed from the role |
| `Players.SwitchedRoleFlips` | Model.py:144-146 | `(role + 1) % 2` turns 0 into 1 and 1 into 0 with the new role's speed, and two switches restore the player |
| `Players.Player.constructor` | Model.py:173-178 | role == player id, starting position of that id, speed of that role, score 0 |
| `Players.Player.ResetPositionSpeed` | Model.py:180-182 | position back to the start, speed from the current role, role and score unchanged |
| `Players.Player.MoveDirection` | Model.py:184-193 | the new state is the clamped move; role, speed and score unchanged; inside the arena |
| `EngineSpec.Initialized` | Model.py:71-77 | the engine after `initialize`: Menu pushed on the stack, players rebuilt as `[Player(0), Player(1)]`, timers and `running` untouched; `InitialState` proves what it yields from the start of `run` |
| `EngineSpec.Initial` | Model.py:156-159 | the state `run` enters its loop with; `InitialState` proves Menu is the only scene, player i has role i, timers are full and the invariant holds |
| `EngineSpec.Tick` | Model.py:86-104 | the tick branch of `notify`; `TickOnlyInPlay` proves it changes nothing unless Play is on top, `PlayTick` gives its timer, EndGame and role-switch effects |
| `EngineSpec.Notify` | Model.py:79-121 | the engine after one event; `PopEvent`, `PushEvent`, `TimesUpAndQuitEvents`, `MoveEvent` and `NotifyKeepsInv` prove the effect of each event and that the invariant is kept |
| `EngineSpec.Touching` | Model.py:163 | the contact test: squared distance at most `(2 * PLAYER_RADIUS) ** 2`; `CollisionScoresAttacker` proves what follows from it |
| `EngineSpec.Collide` | Model.py:163-169 | the collision block of `run`; `CollisionScoresAttacker` proves the attacker alone gains one point, both players are reset with their roles, and nothing changes without contact |
| `EngineSpec.SwitchRoles` | Model.py:143-146 | every player, in list order, gets its role switched with the matching speed |
| `EngineSpec.SquaredDistance` | Model.py:148-149 | the squared distance is never negative, and it is 0 for coinciding points |
| `EngineSpec.Step` | Model.py:160-169 | one loop iteration keeps two players with ids 0 and 1 |
| `EngineSpec.Run` | Model.py:160-169 | any number of loop iterations keep two players with ids 0 and 1 |
| `EngineProps.InitialState` | Model.py:71-77 | after initialisation Menu is the only scene; player i has role i, its start and score 0, so exactly player 1 attacks; timers full; running |
| `EngineProps.ExactlyOneAttacker` | Model.py:143-146 | under the invariant exactly one player has role 1 and the other role 0 |
| `EngineProps.TickOnlyInPlay` | Model.py:86-104 | a tick changes the engine exactly when Play is on top; with any other top or an empty stack it is a no-op |
| `EngineProps.PlayTick` | Model.py:91-101 | a Play tick lowers the match timer by exactly 1; EndGame is pushed iff that timer reaches exactly 0; the round timer drops by 1, or on reaching 0 is reset to ROUND_LENGTH with every role flipped |
| `EngineProps.SwitchRolesKeepsOneAttacker` | Model.py:143-146 | after a switch the two roles are exchanged, each speed matches the new role, and exactly one player attacks |
| `EngineProps.PopEvent` | Model.py:107-110 | POP removes the top scene; the engine stops iff the stack was already empty; players and timers unchanged |
| `EngineProps.PushEvent` | Model.py:111-112 | a state change to a scene pushes it, making it current; nothing else changes |
| `EngineProps.TimesUpAndQuitEvents` | Model.py:114-121 | TimesUp pushes EndGame and Quit clears `running`, each changing nothing else |
| `EngineProps.MoveEvent` | Model.py:117-118 | a move keeps the moving player in the arena with its role, speed and score; the other player, the stack and the timers are unchanged |
| `EngineProps.NotifyKeepsInv` | Model.py:79-121 | every event keeps the invariant: one attacker, role-derived speeds, players in the arena, round timer in 1..ROUND_LENGTH |
| `EngineProps.CollisionScoresAttacker` | Model.py:163-169 | on contact the role-1 player's score rises by exactly 1 and the other's does not; both are back at their starts with unchanged roles; without contact nothing changes |
| `EngineProps.StepKeepsInv` | Model.py:160-169 | one loop iteration keeps the invariant; no score falls and at most one point is added |
| `EngineProps.StepInPlay` | Model.py:160-169 | with Play on top, one iteration moves the timers and the stack as a Play tick does; collisions touch neither |
| `EngineProps.StepOutsidePlay` | Model.py:160-169 | with anything else on top, one iteration leaves scenes, timers and roles unchanged |
| `EngineProps.RunKeepsInv` | Model.py:160-169 | any number of iterations keep the invariant; scores never fall and rise by at most one per iteration |
| `EngineProps.RunWithinRound` | Model.py:93-101 | within a round, while the match timer does not reach 0, Play stays on top, roles stay, both timers fall by one per iteration |
| `EngineProps.RoundBoundary` | Model.py:99-101 | starting in Play with n ticks left in the round, after exactly n iterations both roles are inverted and the round timer is back at ROUND_LENGTH |
| `EngineProps.RunBeforeTimesUp` | Model.py:93-97 | before the match timer runs out, Play stays on top and the timer falls by one per iteration |
| `EngineProps.MatchEnd` | Model.py:96-97 | starting in Play with n >= 1 match ticks left, after exactly n iterations EndGame has been pushed exactly once on top of the earlier stack |
| `EngineProps.RunOutsidePlay` | Model.py:86-104 | once Play is not on top, further iterations push nothing and leave timers and roles alone, so TimesUp fires only once |
| `EngineProps.ExampleFirstRound` | Model.py:156-169 | with an 800x600 arena, radius 20, starts (100,300) and (700,300), 60 FPS, 60-tick rounds and a 3600-tick match: enter Play, 60 ticks later player 0 attacks, player 1 defends, round timer back at 60 |
| `Engine.GameEngine.constructor` | Model.py:151-159 | the engine starts with Menu pushed, fresh players 0 and 1, full timers, running |
| `Engine.GameEngine.Initialize` | Model.py:71-77 | pushes Menu and builds fresh players 0 and 1; timers and `running` unchanged |
| `Engine.GameEngine.SwitchRoles` | Model.py:143-146 | the loop switches every player's role to `(role + 1) % 2` with the matching speed |
| `Engine.GameEngine.DistanceBetweenPlayers` | Model.py:148-149 | the squared distance between the players: never negative, 0 when they coincide |
| `Engine.GameEngine.MovePlayer` | Model.py:117-118 | the player with that id moves as `Moved` says; the other player, the stack, the timers and `running` stay |
| `Engine.GameEngine.Tick` | Model.py:86-104 | the engine's new state is exactly `EngineSpec.Tick` of its old state: timers, EndGame and role switch move only with Play on top |
| `Engine.GameEngine.Notify` | Model.py:79-121 | the engine's new state is exactly `EngineSpec.Notify` of its old state and the event |
| `Engine.GameEngine.Step` | Model.py:160-169 | the engine's new state is exactly `EngineSpec.Step` of its old state, and the invariant is kept |

## Left out

- The view (`View.py`): rendering, fonts, the caption with the frame rate and the timer arc. It reads engine state but decides nothing.
- Frame pacing: `pg.time.Clock()` and `clock.tick(FPS)` are wall-clock I/O.
- The event manager is not part of this model. Only the engine listens here. The events it posts to itself (TimesUp when the match timer reaches 0, Quit when a POP finds the stack empty) are applied directly by their handlers. Broadcast to other listeners, and re-entrant posting, are not modelled.
- The payload of the tick event (the two timers) is carried but unused. Only the view reads it.
- The `while self.running` loop is unbounded. The model gives single iterations (`Step`) and finite prefixes (`Run`), and `GameEngine.Step` requires `running`, as the loop guard does.
- Pygame's floating-point `Vector2` arithmetic is modelled with exact reals. Rounding is not modelled.
- Direction strings outside the four keys of `DIRECTION_TO_VEC2` would raise in the code. The model's `Dir` has only the four directions.
- A move for a player id other than 0 or 1 is a precondition here. In the code, ids 2 and above (and -3 and below) raise an `IndexError`, while -1 and -2 index from the end of the list and move player 1 or player 0; the precondition also excludes those two negative ids.
- The empty hooks `update_menu`, `update_objects` and `update_endgame` have no logic. The unused `random` and `datetime` imports are dropped.
- The constants module is not part of this model. Its values are `Config` parameters, and the direction vectors follow the convention stated above.
- `EngineSpec.SquaredDistance`: does not state that a distance of 0 means the points coincide. Nothing in the code relies on that direction.
