/**
 * The bet panel's pure parts: the bet clamp, the potential win, the mine
 * slider bounds, and which control is offered (and enabled) in each phase.
 */
module BetPanel {
  import opened Shared

  /** The three round controls of the panel. */
  datatype Control = StartButton | CashOutButton | NewGameButton

  /** The amounts of the quick-bet buttons. */
  const QuickBetAmounts: seq<real> := [10.0, 50.0, 100.0, 250.0, 500.0]

  /** The bounds of the mine-count slider. */
  const MinMines: int := 1
  const MaxMines: int := 20

  /**
   * handleBetChange on an already parsed input (None stands for NaN):
   * `parseFloat(value) || 0`, then `Math.max(0, ·)`.
   */
  function ClampBet(parsed: Option<real>): (bet: real)
    ensures bet >= 0.0
    ensures parsed.Some? && parsed.value >= 0.0 ==> bet == parsed.value
    ensures parsed.None? || parsed.value < 0.0 ==> bet == 0.0
  {
    var numValue := if parsed.Some? then parsed.value else 0.0;
    if 0.0 < numValue then numValue else 0.0
  }

  /** The potential win shown to the player; never below the bet. */
  function PotentialWin(currentBet: real, multiplier: real): (win: real)
    ensures currentBet >= 0.0 && multiplier >= 1.0 ==> win >= currentBet >= 0.0
  {
    var w := currentBet * multiplier;
    assert currentBet >= 0.0 && multiplier >= 1.0 ==> w - currentBet == currentBet * (multiplier - 1.0) >= 0.0;
    w
  }

  /** The controls rendered in a phase: one conditional block per control. */
  function ControlsOffered(gameState: Phase): set<Control> {
    (if gameState == Betting then {StartButton} else {}) +
    (if gameState == Playing then {CashOutButton} else {}) +
    (if gameState == GameOver then {NewGameButton} else {})
  }

  /** Exactly one control is offered in each phase, and each control in exactly one phase. */
  lemma OneControlPerPhase(gameState: Phase)
    ensures |ControlsOffered(gameState)| == 1
    ensures StartButton in ControlsOffered(gameState) <==> gameState == Betting
    ensures CashOutButton in ControlsOffered(gameState) <==> gameState == Playing
    ensures NewGameButton in ControlsOffered(gameState) <==> gameState == GameOver
  {
    match gameState
    case Betting => assert ControlsOffered(gameState) == {StartButton};
    case Playing => assert ControlsOffered(gameState) == {CashOutButton};
    case GameOver => assert ControlsOffered(gameState) == {NewGameButton};
  }

  /** The Start button is rendered and not disabled. */
  predicate StartEnabled(gameState: Phase, currentBet: real, balance: real) {
    StartButton in ControlsOffered(gameState) && !(currentBet <= 0.0 || currentBet > balance)
  }

  /** Start can be pressed exactly in the betting phase with 0 < bet <= balance. */
  lemma StartEnabledIff(gameState: Phase, currentBet: real, balance: real)
    ensures StartEnabled(gameState, currentBet, balance) <==> gameState == Betting && 0.0 < currentBet <= balance
  {
    OneControlPerPhase(gameState);
  }

  /** The bet input, the quick-bet buttons and the slider are disabled while a round is played. */
  predicate InputsEnabled(gameState: Phase) {
    gameState != Playing
  }
}
