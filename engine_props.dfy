/**
 * What the engine promises: the invariant it keeps under every event and every
 * loop iteration, the timer arithmetic of a Play tick, the scene-stack effects
 * of the scene events, the scoring rule, and what happens after a whole round
 * and a whole match of ticks.
 */
module EngineProps {
  import opened Wrappers
  import opened Const
  import opened Events
  import opened SceneStack
  import opened Players
  import opened EngineSpec

  /**
   * After `initialize` (as `run` performs it) the menu is the only scene, player i
   * has role i, its starting point, the speed of its role and no points (so exactly
   * player 1 attacks), the timers are full and the engine runs.
   */
  lemma InitialState(c: Config)
    requires SaneConfig(c)
    ensures var s := Initial(c);
      && Inv(c, s)
      && s.stack == [Menu] && Top(s.stack) == Some(Menu)
      && s.players[0].role == 0 && s.players[1].role == 1 && AttackerIndex(s) == 1
      && s.players[0].position == c.initPositions[0] && s.players[1].position == c.initPositions[1]
      && s.players[0].score == 0 && s.players[1].score == 0
      && s.timer == c.gameLength && s.roundTimer == c.roundLength && s.running
  {
    NewPlayerOk(c, 0);
    NewPlayerOk(c, 1);
  }

  /** Under the invariant exactly one player has role 1, and the other has role 0. */
  lemma ExactlyOneAttacker(c: Config, s: EngineState)
    requires Inv(c, s)
    ensures (s.players[0].role == 1) != (s.players[1].role == 1)
    ensures s.players[AttackerIndex(s)].role == 1 && s.players[1 - AttackerIndex(s)].role == 0
  {
  }

  /** A tick changes anything at all exactly when Play is on top; otherwise (an empty stack included) it is a no-op. */
  lemma TickOnlyInPlay(c: Config, s: EngineState, roundTimer: int, timer: int)
    requires ValidConfig(c)
    ensures Notify(c, s, EveryTick(roundTimer, timer)) == s <==> Top(s.stack) != Some(Play)
  {
    if Top(s.stack) == Some(Play) {
      assert Notify(c, s, EveryTick(roundTimer, timer)).timer == s.timer - 1;
    }
  }

  /**
   * A tick with Play on top: the match timer goes down by exactly 1, EndGame is pushed
   * exactly when that timer reaches 0 (never at other values, negative ones included),
   * and the round timer goes down by exactly 1 unless it reaches 0, in which case it is
   * back at ROUND_LENGTH and every role is flipped with the speed of the new role.
   */
  lemma PlayTick(c: Config, s: EngineState)
    requires SaneConfig(c) && Inv(c, s) && Top(s.stack) == Some(Play)
    ensures var t := Tick(c, s);
      && Inv(c, t)
      && t.timer == s.timer - 1
      && (t.stack == s.stack + [EndGame] <==> s.timer == 1)
      && (s.timer != 1 ==> t.stack == s.stack)
      && (s.roundTimer != 1 ==> t.roundTimer == s.roundTimer - 1 && t.players == s.players)
      && (s.roundTimer == 1 ==> t.roundTimer == c.roundLength && FlippedRoles(s, t))
      && (s.roundTimer == 1 ==>
            && t.players[0] == s.players[0].(role := 1 - s.players[0].role, speed := SpeedFor(c, 1 - s.players[0].role))
            && t.players[1] == s.players[1].(role := 1 - s.players[1].role, speed := SpeedFor(c, 1 - s.players[1].role)))
      && t.running == s.running
  {
    var t := Tick(c, s);
    if s.timer != 1 {
      assert |t.stack| == |s.stack|;
    }
    if s.roundTimer == 1 {
      SwitchedRoleFlips(c, s.players[0]);
      SwitchedRoleFlips(c, s.players[1]);
    }
  }

  /** A role switch keeps "one player has role 0, the other role 1", and recouples each speed to the new role. */
  lemma SwitchRolesKeepsOneAttacker(c: Config, s: EngineState)
    requires Inv(c, s)
    ensures var ps := SwitchRoles(c, s.players);
      && |ps| == 2
      && ps[0].role == s.players[1].role && ps[1].role == s.players[0].role
      && ps[0].speed == SpeedFor(c, ps[0].role) && ps[1].speed == SpeedFor(c, ps[1].role)
      && (ps[0].role == 1) != (ps[1].role == 1)
  {
    SwitchedRoleFlips(c, s.players[0]);
    SwitchedRoleFlips(c, s.players[1]);
  }

  /**
   * A POP removes the top scene when there is one; the engine stops (Quit) exactly
   * when the stack was already empty, not when the last scene is popped.
   */
  lemma PopEvent(c: Config, s: EngineState)
    requires ValidConfig(c)
    ensures var t := Notify(c, s, StateChange(PopState));
      && t.stack == Popped(s.stack)
      && (s.stack != [] ==> |t.stack| == |s.stack| - 1)
      && t.running == (s.running && s.stack != [])
      && t.players == s.players && t.timer == s.timer && t.roundTimer == s.roundTimer
  {
  }

  /** A state change to a scene pushes it, so it is the current scene; nothing else changes. */
  lemma PushEvent(c: Config, s: EngineState, scene: Scene)
    requires ValidConfig(c)
    ensures var t := Notify(c, s, StateChange(PushState(scene)));
      && t.stack == s.stack + [scene] && Top(t.stack) == Some(scene)
      && Popped(t.stack) == s.stack
      && t == s.(stack := t.stack)
  {
    PushThenPop(s.stack, scene);
  }

  /** TimesUp pushes EndGame and Quit stops the engine; nothing else changes. */
  lemma TimesUpAndQuitEvents(c: Config, s: EngineState)
    requires ValidConfig(c)
    ensures Top(Notify(c, s, TimesUp).stack) == Some(EndGame)
    ensures Notify(c, s, TimesUp) == s.(stack := s.stack + [EndGame])
    ensures !Notify(c, s, Quit).running && Notify(c, s, Quit) == s.(running := false)
  {
  }

  /**
   * A move of player `id` leaves it inside the arena with its role, speed and score,
   * and changes nothing else: the other player, the stack, the timers.
   */
  lemma MoveEvent(c: Config, s: EngineState, id: int, d: Dir)
    requires SaneConfig(c) && Inv(c, s) && 0 <= id < 2
    ensures var t := Notify(c, s, PlayerMove(id, d));
      && Inv(c, t)
      && InArena(c, t.players[id].position)
      && t.players[id] == s.players[id].(position := t.players[id].position)
      && t.players[1 - id] == s.players[1 - id]
      && t.stack == s.stack && t.timer == s.timer && t.roundTimer == s.roundTimer && t.running == s.running
  {
    MovedStaysInArena(c, s.players[id], d);
    MovedOk(c, s.players[id], d);
  }

  /** Every event keeps the game's invariant. */
  lemma NotifyKeepsInv(c: Config, s: EngineState, e: Event)
    requires SaneConfig(c) && Inv(c, s)
    requires e.PlayerMove? ==> 0 <= e.playerId < 2
    ensures Inv(c, Notify(c, s, e))
  {
    match e
    case Initialize =>
      NewPlayerOk(c, 0);
      NewPlayerOk(c, 1);
    case EveryTick(_, _) =>
      if Top(s.stack) == Some(Play) {
        PlayTick(c, s);
      }
    case PlayerMove(id, d) =>
      MoveEvent(c, s, id, d);
    case StateChange(_) =>
    case Quit =>
    case TimesUp =>
  }

  /**
   * On contact the attacker (the role-1 player) gains exactly one point and the other
   * none; both are back on their starting points with the speed of their unchanged
   * role. Without contact nothing changes. Scenes, timers and running never change.
   */
  lemma CollisionScoresAttacker(c: Config, s: EngineState)
    requires SaneConfig(c) && Inv(c, s)
    ensures var t := Collide(c, s); var a := AttackerIndex(s);
      && Inv(c, t)
      && t.stack == s.stack && t.timer == s.timer && t.roundTimer == s.roundTimer && t.running == s.running
      && SameRoles(s, t)
      && (Touching(c, s) ==>
            && t.players[a].score == s.players[a].score + 1
            && t.players[1 - a].score == s.players[1 - a].score
            && t.players[0].position == c.initPositions[0]
            && t.players[1].position == c.initPositions[1])
      && (!Touching(c, s) ==> t == s)
  {
    if Touching(c, s) {
      var a := AttackerIndex(s);
      var p0 := if s.players[0].role == 1 then AddPoint(s.players[0]) else s.players[0];
      var p1 := if s.players[0].role == 1 then s.players[1] else AddPoint(s.players[1]);
      ResetOk(c, p0);
      ResetOk(c, p1);
    }
  }

  /** One loop iteration keeps the invariant; each score stays or rises by one, and at most one rises. */
  lemma StepKeepsInv(c: Config, s: EngineState)
    requires SaneConfig(c) && Inv(c, s)
    ensures var t := Step(c, s);
      && Inv(c, t)
      && s.players[0].score <= t.players[0].score && s.players[1].score <= t.players[1].score
      && t.players[0].score + t.players[1].score <= s.players[0].score + s.players[1].score + 1
  {
    var m := Notify(c, s, EveryTick(s.roundTimer, s.timer));
    NotifyKeepsInv(c, s, EveryTick(s.roundTimer, s.timer));
    if Top(s.stack) == Some(Play) {
      PlayTick(c, s);
      assert m.players[0].score == s.players[0].score && m.players[1].score == s.players[1].score;
    }
    CollisionScoresAttacker(c, m);
  }

  /**
   * One loop iteration with Play on top: the timers and the stack move as a Play tick
   * moves them (the collision check touches neither), and the invariant holds after.
   */
  lemma StepInPlay(c: Config, s: EngineState)
    requires SaneConfig(c) && Inv(c, s) && Top(s.stack) == Some(Play)
    ensures var t := Step(c, s);
      && Inv(c, t)
      && t.timer == s.timer - 1
      && t.stack == (if s.timer == 1 then s.stack + [EndGame] else s.stack)
      && t.roundTimer == (if s.roundTimer == 1 then c.roundLength else s.roundTimer - 1)
      && (if s.roundTimer == 1 then FlippedRoles(s, t) else SameRoles(s, t))
  {
    PlayTick(c, s);
    CollisionScoresAttacker(c, Tick(c, s));
  }

  /** One loop iteration without Play on top leaves the scenes, the timers and the roles alone. */
  lemma StepOutsidePlay(c: Config, s: EngineState)
    requires SaneConfig(c) && Inv(c, s) && Top(s.stack) != Some(Play)
    ensures var t := Step(c, s);
      && Inv(c, t)
      && t.stack == s.stack && t.timer == s.timer && t.roundTimer == s.roundTimer
      && SameRoles(s, t)
  {
    CollisionScoresAttacker(c, s);
  }

  /** `StepInPlay` for the last of `n` iterations, stated on `Run` itself. */
  lemma RunStepInPlay(c: Config, s: EngineState, n: nat)
    requires SaneConfig(c) && TwoPlayers(s) && n >= 1
    requires var u := Run(c, s, n - 1); Inv(c, u) && Top(u.stack) == Some(Play)
    ensures var u := Run(c, s, n - 1); var t := Run(c, s, n);
      && Inv(c, t)
      && t.timer == u.timer - 1
      && t.stack == (if u.timer == 1 then u.stack + [EndGame] else u.stack)
      && t.roundTimer == (if u.roundTimer == 1 then c.roundLength else u.roundTimer - 1)
      && (if u.roundTimer == 1 then FlippedRoles(u, t) else SameRoles(u, t))
  {
    StepInPlay(c, Run(c, s, n - 1));
  }

  /** `StepOutsidePlay` for the last of `n` iterations, stated on `Run` itself. */
  lemma RunStepOutsidePlay(c: Config, s: EngineState, n: nat)
    requires SaneConfig(c) && TwoPlayers(s) && n >= 1
    requires var u := Run(c, s, n - 1); Inv(c, u) && Top(u.stack) != Some(Play)
    ensures var u := Run(c, s, n - 1); var t := Run(c, s, n);
      && Inv(c, t)
      && t.stack == u.stack && t.timer == u.timer && t.roundTimer == u.roundTimer
      && SameRoles(u, t)
  {
    StepOutsidePlay(c, Run(c, s, n - 1));
  }

  /** Any number of loop iterations keep the invariant and never lower a score. */
  lemma {:induction false} RunKeepsInv(c: Config, s: EngineState, n: nat)
    requires SaneConfig(c) && Inv(c, s)
    ensures var t := Run(c, s, n);
      && Inv(c, t)
      && s.players[0].score <= t.players[0].score && s.players[1].score <= t.players[1].score
      && t.players[0].score + t.players[1].score <= s.players[0].score + s.players[1].score + n
    decreases n
  {
    if n > 0 {
      RunKeepsInv(c, s, n - 1);
      StepKeepsInv(c, Run(c, s, n - 1));
    }
  }

  /**
   * Within a round, while the match timer does not reach 0, Play stays on top, the
   * roles stay as they are and both timers go down by one per iteration.
   */
  lemma {:induction false} RunWithinRound(c: Config, s: EngineState, k: nat)
    requires SaneConfig(c) && Inv(c, s) && Top(s.stack) == Some(Play)
    requires k < s.roundTimer && !(1 <= s.timer <= k)
    ensures var t := Run(c, s, k);
      && Inv(c, t)
      && t.stack == s.stack
      && t.timer == s.timer - k && t.roundTimer == s.roundTimer - k
      && SameRoles(s, t)
    decreases k
  {
    if k > 0 {
      RunWithinRound(c, s, k - 1);
      RunStepInPlay(c, s, k);
    }
  }

  /**
   * Round boundary: starting in Play with `n` ticks left in the round (and the match
   * not ending earlier), after exactly `n` iterations both roles are inverted and the
   * round timer is back at ROUND_LENGTH.
   */
  lemma RoundBoundary(c: Config, s: EngineState, n: nat)
    requires SaneConfig(c) && Inv(c, s) && Top(s.stack) == Some(Play)
    requires n == s.roundTimer && !(1 <= s.timer < n)
    ensures Inv(c, Run(c, s, n))
    ensures FlippedRoles(s, Run(c, s, n))
    ensures Run(c, s, n).roundTimer == c.roundLength
    ensures Run(c, s, n).timer == s.timer - n
  {
    RunWithinRound(c, s, n - 1);
    RunStepInPlay(c, s, n);
  }

  /** Before the match timer runs out, Play stays on top and the match timer goes down by one per iteration. */
  lemma {:induction false} RunBeforeTimesUp(c: Config, s: EngineState, k: nat)
    requires SaneConfig(c) && Inv(c, s) && Top(s.stack) == Some(Play)
    requires k < s.timer
    ensures var t := Run(c, s, k);
      && Inv(c, t) && t.stack == s.stack && t.timer == s.timer - k
    decreases k
  {
    if k > 0 {
      RunBeforeTimesUp(c, s, k - 1);
      RunStepInPlay(c, s, k);
    }
  }

  /**
   * Match end: starting in Play with `n >= 1` ticks left in the match, after exactly `n`
   * iterations EndGame has been pushed once on top of the earlier stack.
   */
  lemma MatchEnd(c: Config, s: EngineState)
    requires SaneConfig(c) && Inv(c, s) && Top(s.stack) == Some(Play)
    requires s.timer >= 1
    ensures Inv(c, Run(c, s, s.timer))
    ensures Run(c, s, s.timer).stack == s.stack + [EndGame]
    ensures Top(Run(c, s, s.timer).stack) == Some(EndGame)
    ensures Run(c, s, s.timer).timer == 0
  {
    var n: nat := s.timer;
    RunBeforeTimesUp(c, s, n - 1);
    RunStepInPlay(c, s, n);
    assert Top(s.stack + [EndGame]) == Some(EndGame);
  }

  /**
   * Once something other than Play is on top (EndGame after the match, or an empty
   * stack), further iterations push nothing and touch neither the timers nor the roles:
   * TimesUp is not posted a second time.
   */
  lemma {:induction false} RunOutsidePlay(c: Config, s: EngineState, n: nat)
    requires SaneConfig(c) && Inv(c, s) && Top(s.stack) != Some(Play)
    ensures var t := Run(c, s, n);
      && Inv(c, t)
      && t.stack == s.stack && t.timer == s.timer && t.roundTimer == s.roundTimer
      && SameRoles(s, t)
    decreases n
  {
    if n > 0 {
      RunOutsidePlay(c, s, n - 1);
      RunStepOutsidePlay(c, s, n);
    }
  }

  /**
   * Example constants: an 800 x 600 arena, radius 20, players starting at
   * (100, 300) and (700, 300), 60 ticks per second, rounds of 60 ticks and a match of
   * 3600 ticks (the two speeds are left free).
   */
  function ExampleConfig(speedAttack: real, speedDefense: real): Config {
    Config(800.0, 600.0, 20.0, speedAttack, speedDefense, 60,
           [Vec(100.0, 300.0), Vec(700.0, 300.0)], 3600, 60)
  }

  /**
   * With the defaults: start the game, enter Play, let 60 ticks pass without input;
   * the roles are then inverted (player 0 attacks, player 1 defends) and the round
   * timer is back at 60.
   */
  lemma ExampleFirstRound(speedAttack: real, speedDefense: real)
    ensures var c := ExampleConfig(speedAttack, speedDefense);
      var t := Run(c, Notify(c, Initial(c), StateChange(PushState(Play))), 60);
      && t.players[0].role == 1 && t.players[1].role == 0
      && t.players[0].speed == speedAttack && t.players[1].speed == speedDefense
      && t.roundTimer == 60 && t.timer == 3540
      && t.stack == [Menu, Play]
  {
    var c := ExampleConfig(speedAttack, speedDefense);
    InitialState(c);
    var s := Notify(c, Initial(c), StateChange(PushState(Play)));
    NotifyKeepsInv(c, Initial(c), StateChange(PushState(Play)));
    assert Top(s.stack) == Some(Play);
    RoundBoundary(c, s, 60);
    RunWithinRound(c, s, 59);
  }
}
