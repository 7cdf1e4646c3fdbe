/**
 * The page as a whole: the round engine wired to the board (the board is
 * dealt when a round starts, and each click on it is reported to the
 * engine) and driven only through the controls the bet panel enables.
 */
module Table {
  import opened Shared
  import Payout
  import Round
  import Board
  import BetPanel

  class Session {
    const engine: Round.Engine
    const board: Board.Board

    /**
     * The invariant of the page: a valid board, a mine count within the
     * slider's range and a non-negative bet; while a round is played the
     * board holds exactly `mineCount` mines, none of them revealed, the
     * engine's reveal count agrees with the board's, never exceeds the safe
     * tiles, and the multiplier is the payout for that count.
     */
    ghost predicate Valid()
      reads this, engine, board, board.tiles
    {
      && board.Valid()
      && BetPanel.MinMines <= engine.mineCount <= BetPanel.MaxMines
      && engine.currentBet >= 0.0
      && (engine.gameState == Playing ==>
            && board.tiles.Length == BoardSize
            && |Board.MineCells(board.tiles[..])| == engine.mineCount
            && Board.NoMineRevealed(board.tiles[..])
            && engine.revealedTiles == board.revealedCount
            && engine.revealedTiles <= Payout.SafeTiles(engine.mineCount)
            && engine.multiplier == Payout.Multiplier(engine.revealedTiles, engine.mineCount))
      && (engine.gameState != Playing ==> engine.multiplier == 1.0)
      && (engine.gameState == Betting ==> engine.revealedTiles == 0)
    }

    constructor ()
      ensures Valid() && fresh(engine) && fresh(board)
      ensures engine.balance == 5000.0 && engine.currentBet == 10.0 && engine.mineCount == 3
      ensures engine.gameState == Betting && board.tiles.Length == 0
    {
      engine := new Round.Engine();
      board := new Board.Board();
    }

    /** The Start button: debit the bet, open the round and deal a fresh board. */
    method Start(draws: seq<real>)
      requires Valid()
      requires BetPanel.StartEnabled(engine.gameState, engine.currentBet, engine.balance)
      requires Board.ValidDraws(draws) && engine.mineCount <= |Board.DrawnCells(draws)|
      modifies engine, board
      ensures Valid() && fresh(board.tiles)
      ensures engine.balance == old(engine.balance) - old(engine.currentBet) >= 0.0
      ensures engine.gameState == Playing && engine.revealedTiles == 0 && engine.multiplier == 1.0
      ensures engine.currentBet == old(engine.currentBet) && engine.mineCount == old(engine.mineCount)
      ensures Board.PlaceMines({}, draws, engine.mineCount).Some?
      ensures board.tiles[..] == Board.FreshBoard(Board.PlaceMines({}, draws, engine.mineCount).value)
      ensures |Board.MineCells(board.tiles[..])| == engine.mineCount
    {
      BetPanel.StartEnabledIff(engine.gameState, engine.currentBet, engine.balance);
      engine.StartGame();
      board.InitializeBoard(engine.mineCount, draws);
    }

    /** A click on a tile: the board's reveal rule, reported to the engine. */
    method ClickTile(tileId: int)
      requires Valid() && 0 <= tileId < board.tiles.Length
      modifies engine, board, board.tiles
      ensures Valid() && board.tiles == old(board.tiles)
      ensures engine.balance == old(engine.balance)
      ensures engine.currentBet == old(engine.currentBet) && engine.mineCount == old(engine.mineCount)
      ensures var o := Board.Click(old(board.tiles[..]), old(board.revealedCount), old(engine.gameState), tileId);
              board.tiles[..] == o.tiles && board.revealedCount == o.revealedCount
      ensures old(engine.gameState) != Playing || old(board.tiles[tileId].isRevealed) ==>
                && engine.gameState == old(engine.gameState)
                && engine.multiplier == old(engine.multiplier)
                && engine.revealedTiles == old(engine.revealedTiles)
      ensures old(engine.gameState) == Playing && !old(board.tiles[tileId].isRevealed) && old(board.tiles[tileId].isMine) ==>
                engine.gameState == GameOver && engine.multiplier == 1.0
                && engine.revealedTiles == old(engine.revealedTiles)
      ensures old(engine.gameState) == Playing && !old(board.tiles[tileId].isRevealed) && !old(board.tiles[tileId].isMine) ==>
                && engine.gameState == Playing
                && engine.revealedTiles == old(engine.revealedTiles) + 1
                && engine.multiplier == Payout.Multiplier(engine.revealedTiles, engine.mineCount)
                && engine.multiplier > old(engine.multiplier)
    {
      ghost var tiles0, count0, phase0 := board.tiles[..], board.revealedCount, engine.gameState;
      var report := board.HandleTileClick(tileId, engine.gameState);
      Board.ClickKeepsCount(tiles0, count0, phase0, tileId);
      if phase0 == Playing && !tiles0[tileId].isRevealed {
        if tiles0[tileId].isMine {
          Board.MineClick(tiles0, count0, tileId);
        } else {
          Board.SafeClick(tiles0, count0, tileId);
          Board.RevealedSafeBound(board.tiles[..]);
          Payout.MultiplierStep(count0, engine.mineCount);
        }
      }
      if report.Some? {
        engine.OnTileReveal(report.value.isMine, report.value.revealedCount);
      }
    }

    /** The Cash Out button: credit the potential win and go back to betting. */
    method CashOut()
      requires Valid()
      requires BetPanel.CashOutButton in BetPanel.ControlsOffered(engine.gameState)
      modifies engine
      ensures Valid()
      ensures engine.balance == old(engine.balance) + BetPanel.PotentialWin(old(engine.currentBet), old(engine.multiplier))
      ensures engine.balance >= old(engine.balance) + old(engine.currentBet)
      ensures engine.gameState == Betting && engine.revealedTiles == 0 && engine.multiplier == 1.0
      ensures engine.currentBet == old(engine.currentBet) && engine.mineCount == old(engine.mineCount)
    {
      BetPanel.OneControlPerPhase(engine.gameState);
      Payout.MultiplierAtLeastOne(engine.revealedTiles, engine.mineCount);
      engine.CashOut();
    }

    /** The New Game button: back to betting, the lost bet stays lost. */
    method NewGame()
      requires Valid()
      requires BetPanel.NewGameButton in BetPanel.ControlsOffered(engine.gameState)
      modifies engine
      ensures Valid()
      ensures engine.balance == old(engine.balance)
      ensures engine.gameState == Betting && engine.revealedTiles == 0 && engine.multiplier == 1.0
      ensures engine.currentBet == old(engine.currentBet) && engine.mineCount == old(engine.mineCount)
    {
      engine.ResetGame();
    }

    /** Typing into the bet input: the clamped value becomes the bet. */
    method ChangeBet(parsed: Option<real>)
      requires Valid() && BetPanel.InputsEnabled(engine.gameState)
      modifies engine
      ensures Valid() && engine.currentBet == BetPanel.ClampBet(parsed)
      ensures engine.balance == old(engine.balance) && engine.mineCount == old(engine.mineCount)
      ensures engine.gameState == old(engine.gameState) && engine.multiplier == old(engine.multiplier)
      ensures engine.revealedTiles == old(engine.revealedTiles)
    {
      engine.currentBet := BetPanel.ClampBet(parsed);
    }

    /** A quick-bet button: its amount becomes the bet. */
    method QuickBet(amount: real)
      requires Valid() && BetPanel.InputsEnabled(engine.gameState)
      requires amount in BetPanel.QuickBetAmounts
      modifies engine
      ensures Valid() && engine.currentBet == amount
      ensures engine.balance == old(engine.balance) && engine.mineCount == old(engine.mineCount)
      ensures engine.gameState == old(engine.gameState) && engine.multiplier == old(engine.multiplier)
      ensures engine.revealedTiles == old(engine.revealedTiles)
    {
      engine.currentBet := amount;
    }

    /** The mine slider: any whole count from 1 to 20. */
    method SlideMines(count: int)
      requires Valid() && BetPanel.InputsEnabled(engine.gameState)
      requires BetPanel.MinMines <= count <= BetPanel.MaxMines
      modifies engine
      ensures Valid() && engine.mineCount == count
      ensures engine.balance == old(engine.balance) && engine.currentBet == old(engine.currentBet)
      ensures engine.gameState == old(engine.gameState) && engine.multiplier == old(engine.multiplier)
      ensures engine.revealedTiles == old(engine.revealedTiles)
    {
      engine.mineCount := count;
    }
  }

  /** Starting a round and cashing out at once returns exactly the bet. */
  method StartThenCashOut(s: Session, draws: seq<real>)
    requires s.Valid()
    requires BetPanel.StartEnabled(s.engine.gameState, s.engine.currentBet, s.engine.balance)
    requires Board.ValidDraws(draws) && s.engine.mineCount <= |Board.DrawnCells(draws)|
    modifies s.engine, s.board
    ensures s.Valid() && s.engine.balance == old(s.engine.balance) && s.engine.gameState == Betting
  {
    s.Start(draws);
    BetPanel.OneControlPerPhase(s.engine.gameState);
    s.CashOut();
  }

  /**
   * Any round, from Start to its end: any sequence of clicks on the dealt
   * board, then New Game if a mine was hit and Cash Out otherwise.  A lost
   * round costs exactly the bet; any other round gives back at least the bet.
   */
  method PlayRound(s: Session, draws: seq<real>, clicks: seq<int>) returns (lost: bool)
    requires s.Valid()
    requires BetPanel.StartEnabled(s.engine.gameState, s.engine.currentBet, s.engine.balance)
    requires Board.ValidDraws(draws) && s.engine.mineCount <= |Board.DrawnCells(draws)|
    requires forall k :: 0 <= k < |clicks| ==> 0 <= clicks[k] < BoardSize
    modifies s.engine, s.board
    ensures s.Valid() && s.engine.gameState == Betting
    ensures lost ==> s.engine.balance == old(s.engine.balance) - old(s.engine.currentBet)
    ensures !lost ==> s.engine.balance >= old(s.engine.balance)
  {
    s.Start(draws);
    for k := 0 to |clicks|
      invariant s.Valid() && s.board.tiles.Length == BoardSize && fresh(s.board.tiles)
      invariant s.engine.gameState != Betting
      invariant s.engine.currentBet == old(s.engine.currentBet)
      invariant s.engine.balance == old(s.engine.balance) - old(s.engine.currentBet)
    {
      s.ClickTile(clicks[k]);
    }
    BetPanel.OneControlPerPhase(s.engine.gameState);
    lost := s.engine.gameState == GameOver;
    if lost {
      s.NewGame();
    } else {
      s.CashOut();
    }
  }

  /** Draws that put the default three mines on tiles 0, 1 and 2. */
  const FirstThreeTiles: seq<real> := [0.0, 0.04, 0.08]

  lemma FirstThreeTilesPlacement()
    ensures Board.ValidDraws(FirstThreeTiles)
    ensures Board.DrawnCells(FirstThreeTiles) == {0, 1, 2}
    ensures Board.PlaceMines({}, FirstThreeTiles, 3) == Some({0, 1, 2})
  {
    var d := FirstThreeTiles;
    assert Board.DrawPosition(0.0) == 0 && Board.DrawPosition(0.04) == 1 && Board.DrawPosition(0.08) == 2;
    assert d[1..] == [0.04, 0.08] && d[1..][1..] == [0.08] && d[1..][1..][1..] == [];
    assert |{0}| == 1 && |{0, 1}| == 2 && |{0, 1, 2}| == 3;
    assert {} + {0} == {0} && {0} + {1} == {0, 1} && {0, 1} + {2} == {0, 1, 2};
    assert Board.PlaceMines({0, 1, 2}, d[1..][1..][1..], 3) == Some({0, 1, 2});
    assert Board.PlaceMines({0, 1}, d[1..][1..], 3) == Some({0, 1, 2});
    assert Board.PlaceMines({0}, d[1..], 3) == Some({0, 1, 2});
  }

  /** A fresh page that has pressed Start with the default bet over FirstThreeTiles. */
  method DealFirstThreeTiles() returns (s: Session)
    ensures s.Valid() && fresh(s.engine) && fresh(s.board) && fresh(s.board.tiles)
    ensures s.engine.balance == 4990.0 && s.engine.currentBet == 10.0 && s.engine.mineCount == 3
    ensures s.engine.gameState == Playing && s.board.tiles.Length == BoardSize
    ensures s.board.tiles[..] == Board.FreshBoard({0, 1, 2})
  {
    s := new Session();
    FirstThreeTilesPlacement();
    BetPanel.StartEnabledIff(s.engine.gameState, s.engine.currentBet, s.engine.balance);
    s.Start(FirstThreeTiles);
  }

  /**
   * Bet 10 with three mines, reveal two safe tiles and cash out: the balance
   * ends at 5000 - 10 + 10 * (22/21) * 1.3.
   */
  method CashOutAfterTwoSafeReveals() returns (finalBalance: real)
    ensures finalBalance == 5000.0 - 10.0 + 10.0 * ((22.0 / 21.0) * 1.3)
  {
    var s := DealFirstThreeTiles();
    assert s.board.tiles[3] == Board.Tile(3, false, false, false);
    assert s.board.tiles[4] == Board.Tile(4, false, false, false);
    s.ClickTile(3);
    assert s.board.tiles[4] == Board.Tile(4, false, false, false);
    s.ClickTile(4);
    assert s.engine.revealedTiles == 2 && s.engine.mineCount == 3;
    Payout.ThreeMineValues();
    BetPanel.OneControlPerPhase(s.engine.gameState);
    s.CashOut();
    finalBalance := s.engine.balance;
  }

  /** Bet 10, hit a mine and start a new game: the balance ends at 5000 - 10. */
  method LostRound() returns (finalBalance: real, finalPhase: Phase)
    ensures finalBalance == 5000.0 - 10.0 && finalPhase == Betting
  {
    var s := DealFirstThreeTiles();
    assert s.board.tiles[0] == Board.Tile(0, true, false, false);
    s.ClickTile(0);
    BetPanel.OneControlPerPhase(s.engine.gameState);
    s.NewGame();
    finalBalance, finalPhase := s.engine.balance, s.engine.gameState;
  }
}
