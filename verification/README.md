# Mines round engine: a verified Dafny model

This project models the round engine of a single-player "Mines" wager game.
The player bets, picks a mine count, reveals tiles on a 5x5 board, and either
cashes out at a growing multiplier or loses the stake by hitting a mine. The
model has four parts:

- **Payout model** (`payout.dfy`, module `Payout`). `calculateMultiplier` is a
  loop method. It is proved against `Multiplier`, which is the product over
  `i < n` of `safe/(safe-i)` times the risk premium `1 + 0.1*mines`.
  Arithmetic is exact (`real`).
- **Round state machine and wallet** (`round.dfy`, class `Round.Engine`). The
  page's state fields `balance`, `currentBet`, `mineCount`, `gameState`,
  `multiplier` and `revealedTiles`, with the four handlers `startGame`,
  `cashOut`, `onTileReveal` and `resetGame`. As in the source, the handlers
  check nothing themselves.
- **Board** (`board.dfy`, class `Board.Board`). An `array<Tile>` and the
  `revealedCount` counter. `initializeBoard` fills 25 tiles and places mines
  with the set-growing loop. `Math.random` is replaced by an injected sequence
  of draws in `[0,1)`, and each draw becomes the position `floor(r*25)`.
  `handleTileClick` is proved against the pure reveal rule `Click`.
- **Bet panel guards** (`bet_panel.dfy`, module `BetPanel`). The bet clamp,
  the potential win, the slider bounds, which control each phase offers, and
  when Start is enabled.

`table.dfy` (class `Table.Session`) wires these together the way the page
does. Starting a round deals a fresh board. Each click is reported to the
engine. Commands fire only when the panel offers and enables them. `Valid()`
is the invariant tying the parts together. While a round is played:

- the board holds exactly `mineCount` mines, and none is revealed;
- the engine's reveal count equals the number of revealed safe tiles;
- that count never exceeds `25 - mineCount`;
- the multiplier is `Multiplier(revealedTiles, mineCount)`.

Under those guards a non-negative balance stays non-negative. So the panel's
"Negative Balance!" warning can only appear for a balance restored from
storage. Two concrete rounds are proved end to end: bet 10 with 3 mines,
reveal two safe tiles, cash out (final balance `5000 - 10 + 10*(22/21)*1.3`);
and a lost round followed by New Game (final balance `5000 - 10`). In general
(`Table.PlayRound`), a round of any clicks costs exactly the bet when it is
lost, and gives back at least the bet when it is cashed out.

Three facts about the code shape the model:

- Each reveal's factor is `safe/(safe-i)`, not the inverse survival odds
  `(25-i)/(safe-i)`. So the first safe reveal pays exactly the risk premium
  (`FirstRevealPaysPremium`; 1.3 for 3 mines).
- The handlers reject nothing and return no errors. Phase and bet checks
  exist only as hidden or disabled controls, which are modelled as
  `requires` clauses on `Table.Session`. A second click on a revealed tile is
  a silent no-op. The comment at `startGame` permits a negative balance, but
  under the Start guard a non-negative balance never becomes negative.
- The slider bounds the mine count to `[1, 20]`.

## Model

| member | source | states |
|---|---|---|
| Payout.CalculateMultiplier | src/pages/Index.tsx:38-47 | The loop's result is `Multiplier(revealed, mines)`: exactly 1 with no reveals, else the product of `safe/(safe-i)` over `i < revealed` times `1 + 0.1*mines`; the precondition is what keeps every divisor non-zero |
| Payout.OddsProductClosedForm | src/pages/Index.tsx:42-45 | The accumulated product equals `safe^n / (safe*(safe-1)*...*(safe-n+1))`, and that denominator is positive |
| Payout.OddsProductAtLeastOne | src/pages/Index.tsx:42-45 | Every factor is at least 1, so the accumulated product is at least 1 |
| Payout.MultiplierAtLeastOne | src/pages/Index.tsx:38-47 | For a non-negative mine count the multiplier is never below 1 |
| Payout.FirstRevealPaysPremium | src/pages/Index.tsx:43-46 | After one safe reveal the multiplier is exactly the risk premium `1 + 0.1*mines` |
| Payout.MultiplierNext | src/pages/Index.tsx:42-46 | Past the first reveal, the next multiplier is the current one times the next factor `safe/(safe-n)` |
| Payout.MultiplierStep | src/pages/Index.tsx:42-46 | With at least one mine, each further safe reveal strictly raises the multiplier |
| Payout.MultiplierStrictlyIncreasing | src/pages/Index.tsx:42-46 | With at least one mine, the multiplier is strictly increasing in the reveal count over `0..25-mines` |
| Payout.ThreeMineValues | src/pages/Index.tsx:38-47 | With 3 mines: 1.3 after one reveal and `(22/21)*1.3` after two |
| Round.Engine.constructor | src/pages/Index.tsx:9-14 | Initial state: balance 5000, bet 10, 3 mines, betting, multiplier 1, no reveals |
| Round.Engine.StartGame | src/pages/Index.tsx:49-55 | Debits the bet with no balance check, enters playing, resets reveals to 0 and multiplier to 1; bet and mine count unchanged |
| Round.Engine.CashOut | src/pages/Index.tsx:57-63 | Credits `bet*multiplier`, returns to betting, resets reveals and multiplier |
| Round.Engine.OnTileReveal | src/pages/Index.tsx:65-74 | A mine: game over, multiplier 1, balance and reveal count unchanged. A safe tile: records the reported count and sets the multiplier to `Multiplier(count, mineCount)` |
| Round.Engine.ResetGame | src/pages/Index.tsx:76-80 | Back to betting with reveals 0 and multiplier 1; balance, bet and mine count unchanged |
| Board.DrawPosition | src/components/MinesGame.tsx:45 | `floor(r*25)` of a draw in `[0,1)` is a position in `[0,25)` |
| Board.DrawnCells | src/components/MinesGame.tsx:43-47 | Every position named by the draws lies on the board |
| Board.PlaceMinesSpec | src/components/MinesGame.tsx:43-47 | Placement succeeds exactly when the draws name at least `mineCount` distinct positions, and then yields exactly `mineCount` distinct drawn positions |
| Board.CollectMinePositions | src/components/MinesGame.tsx:43-47 | The while loop ends with exactly `mineCount` distinct positions, each drawn and on the board, equal to the placement function's result |
| Board.FreshBoardCells | src/components/MinesGame.tsx:30-51 | A dealt board is numbered by position, has exactly the placed mines, nothing revealed, and `25 - mines` safe tiles |
| Board.SafeCellsSize | src/components/MinesGame.tsx:49-51 | Mine and safe tiles partition the board: safe = size - mines |
| Board.RevealedSafeBound | src/components/MinesGame.tsx:74-76 | The revealed safe tiles never outnumber the safe tiles, i.e. `25 - mineCount` on a dealt board |
| Board.BoardCleared | src/components/MinesGame.tsx:74-78 | Once the revealed safe tiles number all the safe tiles, every unrevealed tile is a mine (the round itself stays in playing: `Table.Session.ClickTile`) |
| Board.Board.constructor | src/components/MinesGame.tsx:19-20 | Before the first round the board has no tiles and a zero counter |
| Board.Board.InitializeBoard | src/components/MinesGame.tsx:29-55 | Deals a fresh 25-tile array: tile `i` has id `i`, nothing revealed or flagged, mines exactly at the placed positions (`mineCount` of them, `25 - mineCount` safe); counter reset to 0 |
| Board.Board.HandleTileClick | src/components/MinesGame.tsx:57-79 | The new tiles, counter and callback report are those of the reveal rule `Click`; the counter keeps counting the revealed safe tiles |
| Board.ClickTwiceIsClickOnce | src/components/MinesGame.tsx:58-61 | A second click on the same tile changes nothing and reports nothing, so two clicks equal one |
| Board.SafeClick | src/components/MinesGame.tsx:63-78 | A safe click reveals only that tile, keeps every mine flag, adds one to the counter and reports `(false, count+1)` |
| Board.MineClick | src/components/MinesGame.tsx:63-73 | A mine click reveals the tile and every mine, leaves unrevealed safe tiles hidden, keeps ids and mine flags, and reports `(true, count)` with the count unchanged |
| Board.ClickKeepsCount | src/components/MinesGame.tsx:57-79 | Any click keeps tile ids, the set of mines, and the counter equal to the number of revealed safe tiles |
| BetPanel.ClampBet | src/components/BetPanel.tsx:35-39 | The new bet is never negative: a non-negative input is kept, a negative or unparsable one becomes 0 |
| BetPanel.PotentialWin | src/components/BetPanel.tsx:43 | With a non-negative bet and a multiplier of at least 1, the potential win is at least the bet |
| BetPanel.OneControlPerPhase | src/components/BetPanel.tsx:114-142 | Each phase offers exactly one control: Start in betting, Cash Out in playing, New Game in game over |
| BetPanel.StartEnabledIff | src/components/BetPanel.tsx:115-118 | Start can be pressed exactly in betting with `0 < bet <= balance` |
| Table.Session.constructor | src/pages/Index.tsx:9-14 | The page starts valid, in betting, with balance 5000, bet 10, 3 mines and an empty board |
| Table.Session.Start | src/pages/Index.tsx:49-55 | With Start enabled: balance drops by exactly the bet and stays non-negative; a fresh board with `mineCount` mines is dealt; the invariant holds |
| Table.Session.ClickTile | src/pages/Index.tsx:65-74 | No change outside playing or on a revealed tile; a mine ends the round with multiplier 1 and the reveal count kept; a safe tile adds one reveal, strictly raises the multiplier to `Multiplier(reveals, mineCount)` and keeps the round in playing, even after the last safe tile (no automatic cash-out); the balance never changes; the invariant holds |
| Table.Session.CashOut | src/components/BetPanel.tsx:125-132 | Only in playing: the balance grows by exactly the displayed potential win, which is at least the bet; back to betting; the invariant holds |
| Table.Session.NewGame | src/components/BetPanel.tsx:134-141 | Only in game over: back to betting with no balance change |
| Table.Session.ChangeBet | src/components/BetPanel.tsx:55-64 | Only outside playing: the bet becomes the clamped input; nothing else changes |
| Table.Session.QuickBet | src/components/BetPanel.tsx:66-83 | Only outside playing: the bet becomes one of 10, 50, 100, 250, 500; nothing else changes |
| Table.Session.SlideMines | src/components/BetPanel.tsx:86-97 | Only outside playing: the mine count becomes a whole number in `[1, 20]`; nothing else changes |
| Table.StartThenCashOut | src/pages/Index.tsx:49-63 | Starting and cashing out at once leaves the balance unchanged |
| Table.PlayRound | src/pages/Index.tsx:49-80 | For any valid page, any draws and any clicks on the dealt board, then New Game after a loss or Cash Out otherwise: a lost round leaves the balance exactly one bet lower, any other round leaves it no lower than before; back in betting |
| Table.CashOutAfterTwoSafeReveals | src/pages/Index.tsx:38-63 | Bet 10, 3 mines, two safe reveals, cash out: final balance `5000 - 10 + 10*(22/21)*1.3` |
| Table.LostRound | src/pages/Index.tsx:49-80 | Bet 10, hit a mine, New Game: final balance `5000 - 10`, back in betting |

## Left out

- Balance persistence (src/pages/Index.tsx:16-27). Loading from and saving to browser storage is I/O. The model starts from the default balance of 5000. The source writes the balance to storage after every change.
- Sound preloading and playback (src/pages/Index.tsx:29-36, src/utils/sounds.ts): audio I/O.
- Tab switching (src/components/GameTabs.tsx), the placeholder slots game (src/components/SlotsGame.tsx) and the statistics display (src/components/GameStats.tsx): presentation with no game logic. The model assumes the board component stays mounted for the whole round: a remount mid-round (switching tabs and back) would deal a new board while the engine keeps its reveal count and multiplier, a state `Table.Session.Valid` excludes.
- Rendering, CSS, `toFixed` formatting and `renderTile`: presentation.
- `parseFloat` and the `betInput` text state: string parsing is a library call. `ClampBet` takes the already parsed number, with `None` standing for NaN.
- `Math.random`: replaced by an injected sequence of draws. Uniformity is not modelled.
- Board.Board.InitializeBoard: requires draws that name at least `mineCount` distinct positions. The source keeps drawing until it has them. A finite draw sequence that never does so is not modelled; `PlaceMinesSpec` shows that requirement is exactly what the loop needs.
- IEEE double rounding in the multiplier product and in money amounts: the model uses exact reals.
- React semantics: stale closures, asynchronous state updates and effect scheduling. Each handler is one atomic step. The effect that deals a board when the phase becomes playing runs in the same step as `startGame` (`Table.Session.Start`).
- Aliasing of tile objects. `handleTileClick` shallow-copies the tile list and then mutates shared tile objects. The model updates one array in place, which gives the same resulting board.
- `isFlagged`: no code ever sets it. It stays false.
