/**
 * The snapshot of a run that GameManager hands to the screen (model/GameState.kt).
 * An immutable record: every update is a copy with some fields replaced, which is
 * Dafny's datatype update `s.(f := v)`, so the fields it does not name keep their values.
 */
module GameStateModel {
  import opened Track

  /** A run starts with three lives. */
  const MaxLives: int := 3

  datatype GameState = GameState(
    lives: int,
    isGameOver: bool,
    crashToast: bool,
    isGameRunning: bool,
    carLane: int,
    odometer: int,
    coins: seq<Falling>,
    collectedCoins: int)

  /** `GameState()` with every default: a running game, three lives, the car in lane 2, no coins. */
  const DefaultGameState: GameState :=
    GameState(
      lives := MaxLives,
      isGameOver := false,
      crashToast := false,
      isGameRunning := true,
      carLane := 2,
      odometer := 0,
      coins := [],
      collectedCoins := 0)
}
