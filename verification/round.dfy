/**
 * The round state machine and wallet held by the page component: its
 * state fields and the four handlers startGame, cashOut, onTileReveal and
 * resetGame.  The handlers themselves check nothing; the guards under
 * which the controls invoke them live in BetPanel and Table.
 */
module Round {
  import opened Shared
  import Payout

  class Engine {
    var balance: real
    var currentBet: real
    var mineCount: int
    var gameState: Phase
    var multiplier: real
    var revealedTiles: nat

    /** The initial state of a fresh page (the stored balance is not loaded here). */
    constructor ()
      ensures balance == 5000.0 && currentBet == 10.0 && mineCount == 3
      ensures gameState == Betting && multiplier == 1.0 && revealedTiles == 0
    {
      balance := 5000.0;
      currentBet := 10.0;
      mineCount := 3;
      gameState := Betting;
      multiplier := 1.0;
      revealedTiles := 0;
    }

    /** startGame: debit the bet (even past zero) and open a round. */
    method StartGame()
      modifies this
      ensures balance == old(balance) - old(currentBet)
      ensures gameState == Playing && revealedTiles == 0 && multiplier == 1.0
      ensures currentBet == old(currentBet) && mineCount == old(mineCount)
    {
      balance := balance - currentBet;
      gameState := Playing;
      revealedTiles := 0;
      multiplier := 1.0;
    }

    /** cashOut: credit bet * multiplier and go back to betting. */
    method CashOut()
      modifies this
      ensures balance == old(balance) + old(currentBet) * old(multiplier)
      ensures gameState == Betting && revealedTiles == 0 && multiplier == 1.0
      ensures currentBet == old(currentBet) && mineCount == old(mineCount)
    {
      var winAmount := currentBet * multiplier;
      balance := balance + winAmount;
      gameState := Betting;
      revealedTiles := 0;
      multiplier := 1.0;
    }

    /**
     * onTileReveal: a mine ends the round without touching the balance; a
     * safe tile records the new count and recomputes the multiplier.  The
     * count reported for a safe tile never exceeds the safe tiles on the board.
     */
    method OnTileReveal(isMine: bool, newRevealedCount: nat)
      requires isMine || newRevealedCount <= Payout.SafeTiles(mineCount)
      modifies this
      ensures balance == old(balance) && currentBet == old(currentBet) && mineCount == old(mineCount)
      ensures isMine ==> gameState == GameOver && multiplier == 1.0 && revealedTiles == old(revealedTiles)
      ensures !isMine ==> gameState == old(gameState) && revealedTiles == newRevealedCount
      ensures !isMine ==> multiplier == Payout.Multiplier(newRevealedCount, mineCount)
    {
      if isMine {
        gameState := GameOver;
        multiplier := 1.0;
      } else {
        revealedTiles := newRevealedCount;
        var newMultiplier := Payout.CalculateMultiplier(newRevealedCount, mineCount);
        multiplier := newMultiplier;
      }
    }

    /** resetGame: back to betting, with no balance change. */
    method ResetGame()
      modifies this
      ensures gameState == Betting && revealedTiles == 0 && multiplier == 1.0
      ensures balance == old(balance) && currentBet == old(currentBet) && mineCount == old(mineCount)
    {
      gameState := Betting;
      revealedTiles := 0;
      multiplier := 1.0;
    }
  }
}
