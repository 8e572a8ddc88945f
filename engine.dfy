/**
 * The event-driven orchestrator (`GameEngine`): it owns the scene stack, the
 * two players and the two timers, reacts to events in `Notify`, and runs one
 * iteration of its loop in `Step`. Every method is proved to change the
 * engine exactly as the function of the same name in `EngineSpec` says.
 */
module Engine {
  import opened Wrappers
  import opened Const
  import opened Events
  import opened SceneStack
  import opened Players
  import EngineSpec
  import EngineProps

  class GameEngine {
    const cfg: Config
    const stateMachine: StateMachine
    var players: seq<Player>
    var timer: int
    var roundTimer: int
    var running: bool

    /** The engine owns two distinct players with ids 0 and 1 that read the same constants. */
    ghost predicate Valid()
      reads this
    {
      && ValidConfig(cfg)
      && |players| == 2
      && players[0] != players[1]
      && players[0].id == 0 && players[1].id == 1
      && players[0].cfg == cfg && players[1].cfg == cfg
    }

    /** The engine's fields as one value. */
    ghost function Abstract(): EngineSpec.EngineState
      reads this, stateMachine, players
      requires Valid()
    {
      EngineSpec.EngineState(stateMachine.stack, [players[0].State(), players[1].State()], timer, roundTimer, running)
    }

    /**
     * `__init__` followed by the prologue of `run`: an empty state machine, then
     * `running`, the Initialize event (menu and players) and the two timers.
     */
    constructor (cfg: Config)
      requires ValidConfig(cfg)
      ensures Valid() && fresh(stateMachine) && fresh(players[0]) && fresh(players[1])
      ensures Abstract() == EngineSpec.Initial(cfg)
    {
      this.cfg := cfg;
      stateMachine := new StateMachine();
      players := [];
      timer := 0;
      roundTimer := 0;
      running := false;
      new;
      running := true;
      Initialize();
      timer := cfg.gameLength;
      roundTimer := cfg.roundLength;
    }

    /** `initialize`: push the menu and build players 0 and 1; the timers and `running` stay. */
    method Initialize()
      requires ValidConfig(cfg)
      modifies this, stateMachine
      ensures Valid() && fresh(players[0]) && fresh(players[1])
      ensures stateMachine.stack == old(stateMachine.stack) + [Menu]
      ensures players[0].State() == NewPlayer(cfg, 0) && players[1].State() == NewPlayer(cfg, 1)
      ensures timer == old(timer) && roundTimer == old(roundTimer) && running == old(running)
    {
      var _ := stateMachine.Push(Menu);
      var p0 := new Player(cfg, 0);
      var p1 := new Player(cfg, 1);
      players := [p0, p1];
    }

    /** `switch_roles`: every player's role becomes `(role + 1) % 2`, with the speed of the new role. */
    method SwitchRoles()
      requires Valid()
      modifies players
      ensures forall i :: 0 <= i < |players| ==>
        players[i].State() == SwitchedRole(cfg, old(players[i].State()))
    {
      for i := 0 to |players|
        invariant forall j :: 0 <= j < i ==>
          players[j].State() == SwitchedRole(cfg, old(players[j].State()))
        invariant forall j :: i <= j < |players| ==> players[j].State() == old(players[j].State())
      {
        var p := players[i];
        p.role := (p.role + 1) % 2;
        p.speed := if p.role == 1 then cfg.speedAttack else cfg.speedDefense;
      }
    }

    /** `distance_between_players`: the squared distance between the two players. */
    function DistanceBetweenPlayers(): (d: real)
      reads this, players
      requires Valid()
      ensures d >= 0.0
      ensures players[0].position == players[1].position ==> d == 0.0
    {
      EngineSpec.SquaredDistance(players[0].position, players[1].position)
    }

    /** `notify`: dispatch on the event; TimesUp and Quit, which the engine posts to itself, are handled in place. */
    method Notify(e: Event)
      requires Valid()
      requires e.PlayerMove? ==> 0 <= e.playerId < 2
      modifies this, stateMachine, players
      ensures Valid()
      ensures !e.Initialize? ==> players == old(players)
      ensures Abstract() == EngineSpec.Notify(cfg, old(Abstract()), e)
    {
      ghost var before := Abstract();
      match e
      case Initialize =>
        Initialize();
        assert Abstract() == EngineSpec.Notify(cfg, before, e);
      case EveryTick(_, _) =>
        Tick();
        assert Abstract() == EngineSpec.Notify(cfg, before, e);
      case StateChange(PopState) =>
        var popped := stateMachine.Pop();
        if popped == None {
          // post(EventQuit()): the engine's own handler stops the loop
          running := false;
        }
        assert Abstract() == EngineSpec.Notify(cfg, before, e);
      case StateChange(PushState(scene)) =>
        var _ := stateMachine.Push(scene);
        assert Abstract() == EngineSpec.Notify(cfg, before, e);
      case Quit =>
        running := false;
        assert Abstract() == EngineSpec.Notify(cfg, before, e);
      case PlayerMove(id, d) =>
        MovePlayer(id, d);
        assert Abstract() == EngineSpec.Notify(cfg, before, e);
      case TimesUp =>
        var _ := stateMachine.Push(EndGame);
        assert Abstract() == EngineSpec.Notify(cfg, before, e);
    }

    /** The move branch of `notify`: the player with that id moves; the other player and the engine's fields stay. */
    method MovePlayer(id: int, d: Dir)
      requires Valid() && 0 <= id < 2
      modifies players[id]
      ensures Valid()
      ensures Abstract() == old(Abstract()).(players := old(Abstract()).players[id := Moved(cfg, old(Abstract()).players[id], d)])
    {
      ghost var before := Abstract();
      players[id].MoveDirection(d);
      assert players[id].State() == Moved(cfg, before.players[id], d);
      assert players[1 - id].State() == before.players[1 - id];
    }

    /**
     * The tick branch of `notify`: only with Play on top do the timers move; the
     * match timer reaching 0 posts TimesUp, the round timer reaching 0 switches roles.
     */
    method Tick()
      requires Valid()
      modifies this, stateMachine, players
      ensures Valid() && players == old(players)
      ensures Abstract() == EngineSpec.Tick(cfg, old(Abstract()))
    {
      var current := stateMachine.Peek();
      if current == Some(Menu) {
        // update_menu: no engine-level logic
      } else if current == Some(Play) {
        timer := timer - 1;
        roundTimer := roundTimer - 1;
        if timer == 0 {
          // post(EventTimesUp()): the engine's own handler pushes EndGame
          var _ := stateMachine.Push(EndGame);
        }
        if roundTimer == 0 {
          roundTimer := cfg.roundLength;
          SwitchRoles();
        }
      } else if current == Some(EndGame) {
        // update_endgame: no engine-level logic
      }
    }

    /**
     * One iteration of the loop in `run`: post a tick carrying the timers, then, if the
     * players touch, give the attacker a point and put both players back at their start.
     */
    method Step()
      requires Valid() && running
      modifies this, stateMachine, players
      ensures Valid() && players == old(players)
      ensures Abstract() == EngineSpec.Step(cfg, old(Abstract()))
      ensures EngineSpec.Inv(cfg, old(Abstract())) && SaneConfig(cfg) ==> EngineSpec.Inv(cfg, Abstract())
    {
      ghost var before := Abstract();
      Notify(EveryTick(roundTimer, timer));
      ghost var ticked := Abstract();
      if DistanceBetweenPlayers() <= (2.0 * cfg.playerRadius) * (2.0 * cfg.playerRadius) {
        if players[0].role == 1 {
          players[0].score := players[0].score + 1;
        } else {
          players[1].score := players[1].score + 1;
        }
        players[0].ResetPositionSpeed();
        players[1].ResetPositionSpeed();
      }
      assert Abstract() == EngineSpec.Collide(cfg, ticked);
      if EngineSpec.Inv(cfg, before) && SaneConfig(cfg) {
        EngineProps.StepKeepsInv(cfg, before);
      }
    }
  }
}
