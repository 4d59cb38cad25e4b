/**
 * The process-wide `gameState` record (game.js:2-11). The fields `targetCash`
 * and `maxMonths` are absent from the initial and menu records and only
 * appear once a game is restarted, so they are optional here; a comparison
 * against an absent field is false, which is how the win and loss tests
 * behave before a restart.
 */
module State {
  import opened Wrappers
  import opened Config

  datatype GameState = GameState(
    selectedBusiness: Option<BusinessId>,
    cash: int,
    revenue: int,
    month: int,
    gameStarted: bool,
    roadOffset: real,
    cardsThisMonth: int,
    maxCardsPerMonth: int,
    targetCash: Option<int>,
    maxMonths: Option<int>,
    gameEnded: bool)

  /**
   * The record the page starts with and the one `goBack` installs
   * (game.js:2-11, game.js:77-86); `gameEnded` is absent there, which reads
   * as false.
   */
  const MENU_STATE: GameState :=
    GameState(None, 0, 100, 1, false, 0.0, 0, 2, None, None, false)

  /** `cash >= targetCash`, false while the target is absent. */
  predicate Won(gs: GameState) {
    gs.targetCash.Some? && gs.cash >= gs.targetCash.value
  }

  /** `month > maxMonths`, false while the limit is absent. */
  predicate OutOfTime(gs: GameState) {
    gs.maxMonths.Some? && gs.month > gs.maxMonths.value
  }
}
