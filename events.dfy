/**
 * The events the engine listens to (the event classes of the game's event
 * manager, which is not part of this model). A closed variant replaces the
 * `isinstance` chain of `GameEngine.notify`.
 */
module Events {
  import opened Const

  /** The payload of EventStateChange: either STATE_POP or a scene to enter. */
  datatype StateRequest = PopState | PushState(scene: Scene)

  datatype Event =
    | Initialize                                  // EventInitialize
    | EveryTick(roundTimer: int, timer: int)      // EventEveryTick(round_timer, timer)
    | StateChange(request: StateRequest)          // EventStateChange(state)
    | Quit                                        // EventQuit
    | PlayerMove(playerId: int, direction: Dir)   // EventPlayerMove(player_id, direction)
    | TimesUp                                     // EventTimesUp
}
