/**
 * The Mines board: 25 tiles, mine placement from a stream of random
 * draws, and the reveal rule for a click on a tile.
 */
module Board {
  import opened Shared

  datatype Tile = Tile(id: int, isMine: bool, isRevealed: bool, isFlagged: bool)

  /** The arguments handed to the onTileReveal callback. */
  datatype TileReport = TileReport(isMine: bool, revealedCount: nat)

  /** The tiles, the safe-reveal counter and the callback report after a click. */
  datatype ClickOutcome = ClickOutcome(tiles: seq<Tile>, revealedCount: nat, report: Option<TileReport>)

  // ---------------------------------------------------------------- cells

  /** The cell indices 0 .. n-1. */
  function Cells(n: nat): (cells: set<int>)
    ensures forall c :: c in cells <==> 0 <= c < n
    ensures |cells| == n
  {
    if n == 0 then {} else Cells(n - 1) + {n - 1}
  }

  function MineCells(tiles: seq<Tile>): set<int> {
    set i | 0 <= i < |tiles| && tiles[i].isMine
  }

  function SafeCells(tiles: seq<Tile>): set<int> {
    set i | 0 <= i < |tiles| && !tiles[i].isMine
  }

  function RevealedSafeCells(tiles: seq<Tile>): set<int> {
    set i | 0 <= i < |tiles| && tiles[i].isRevealed && !tiles[i].isMine
  }

  /** No mine tile is revealed: the state of every round still being played. */
  predicate NoMineRevealed(tiles: seq<Tile>) {
    forall i :: 0 <= i < |tiles| && tiles[i].isMine ==> !tiles[i].isRevealed
  }

  /** Every tile carries its own index as id. */
  predicate Numbered(tiles: seq<Tile>) {
    forall i :: 0 <= i < |tiles| ==> tiles[i].id == i
  }

  lemma SubsetSize<T>(a: set<T>, b: set<T>)
    requires a <= b
    ensures |a| <= |b|
  {
    assert b == a + (b - a);
    assert a * (b - a) == {};
  }

  /** Mine cells and safe cells partition the board. */
  lemma SafeCellsSize(tiles: seq<Tile>)
    ensures |SafeCells(tiles)| == |tiles| - |MineCells(tiles)|
  {
    assert Cells(|tiles|) == MineCells(tiles) + SafeCells(tiles);
    assert MineCells(tiles) * SafeCells(tiles) == {};
  }

  /** The safe-reveal count can never exceed the number of safe tiles. */
  lemma RevealedSafeBound(tiles: seq<Tile>)
    ensures |RevealedSafeCells(tiles)| <= |tiles| - |MineCells(tiles)|
  {
    SubsetSize(RevealedSafeCells(tiles), SafeCells(tiles));
    SafeCellsSize(tiles);
  }

  lemma SubsetOfEqualSize<T>(a: set<T>, b: set<T>)
    requires a <= b && |a| == |b|
    ensures a == b
  {
    assert b == a + (b - a);
    assert a * (b - a) == {};
  }

  /**
   * Once the revealed safe tiles number all the safe tiles, every safe tile
   * is revealed, so any further reveal hits a mine.
   */
  lemma BoardCleared(tiles: seq<Tile>, tileId: int)
    requires |RevealedSafeCells(tiles)| == |tiles| - |MineCells(tiles)|
    requires 0 <= tileId < |tiles| && !tiles[tileId].isRevealed
    ensures tiles[tileId].isMine
  {
    SafeCellsSize(tiles);
    SubsetOfEqualSize(RevealedSafeCells(tiles), SafeCells(tiles));
    assert tileId !in RevealedSafeCells(tiles);
  }

  // ---------------------------------------------------------------- mine placement

  /** Math.floor(r * 25) for a draw r of Math.random. */
  function DrawPosition(r: real): (pos: int)
    requires 0.0 <= r < 1.0
    ensures 0 <= pos < BoardSize
  {
    (r * 25.0).Floor
  }

  /** Every draw lies in [0, 1), as Math.random promises. */
  predicate ValidDraws(draws: seq<real>) {
    forall k :: 0 <= k < |draws| ==> 0.0 <= draws[k] < 1.0
  }

  /** The positions named by a sequence of draws. */
  function DrawnCells(draws: seq<real>): (cells: set<int>)
    requires ValidDraws(draws)
    ensures forall c :: c in cells ==> 0 <= c < BoardSize
  {
    if draws == [] then {} else {DrawPosition(draws[0])} + DrawnCells(draws[1..])
  }

  /**
   * The placement loop: add the position of the next draw to `placed`
   * until it holds `mineCount` positions; None when the draws run out first.
   */
  function PlaceMines(placed: set<int>, draws: seq<real>, mineCount: nat): Option<set<int>>
    requires ValidDraws(draws)
    decreases |draws|
  {
    if |placed| >= mineCount then Some(placed)
    else if draws == [] then None
    else PlaceMines(placed + {DrawPosition(draws[0])}, draws[1..], mineCount)
  }

  /**
   * Placement succeeds exactly when the draws name enough distinct
   * positions, and then yields exactly `mineCount` of them, each drawn.
   */
  lemma {:induction false} PlaceMinesSpec(placed: set<int>, draws: seq<real>, mineCount: nat)
    requires ValidDraws(draws)
    ensures PlaceMines(placed, draws, mineCount).Some? <==> mineCount <= |placed + DrawnCells(draws)|
    ensures PlaceMines(placed, draws, mineCount).Some? && |placed| <= mineCount ==>
              var s := PlaceMines(placed, draws, mineCount).value;
              |s| == mineCount && placed <= s <= placed + DrawnCells(draws)
    decreases |draws|
  {
    if |placed| >= mineCount {
      SubsetSize(placed, placed + DrawnCells(draws));
    } else if draws == [] {
      assert placed + DrawnCells(draws) == placed;
    } else {
      var p := DrawPosition(draws[0]);
      PlaceMinesSpec(placed + {p}, draws[1..], mineCount);
      assert placed + {p} + DrawnCells(draws[1..]) == placed + DrawnCells(draws);
    }
  }

  /**
   * The placement loop of initializeBoard: grow a set with the position of
   * each draw until it holds `mineCount` positions.
   */
  method CollectMinePositions(mineCount: nat, draws: seq<real>) returns (minePositions: set<int>)
    requires ValidDraws(draws) && mineCount <= |DrawnCells(draws)|
    ensures PlaceMines({}, draws, mineCount) == Some(minePositions)
    ensures |minePositions| == mineCount && minePositions <= DrawnCells(draws)
    ensures forall p :: p in minePositions ==> 0 <= p < BoardSize
  {
    PlaceMinesSpec({}, draws, mineCount);
    minePositions := {};
    var k := 0;
    while |minePositions| < mineCount
      invariant 0 <= k <= |draws|
      invariant PlaceMines(minePositions, draws[k..], mineCount) == PlaceMines({}, draws, mineCount)
      decreases |draws| - k
    {
      assert draws[k..] != [];
      var randomPos := DrawPosition(draws[k]);
      assert draws[k..][1..] == draws[k + 1..];
      minePositions := minePositions + {randomPos};
      k := k + 1;
    }
  }

  /** The board initializeBoard builds around a set of mine positions. */
  function FreshBoard(mines: set<int>): seq<Tile> {
    seq(BoardSize, i => Tile(i, i in mines, false, false))
  }

  /** A fresh board has exactly the given mines, nothing revealed, and 25 - |mines| safe tiles. */
  lemma FreshBoardCells(mines: set<int>)
    requires forall p :: p in mines ==> 0 <= p < BoardSize
    ensures Numbered(FreshBoard(mines)) && NoMineRevealed(FreshBoard(mines))
    ensures MineCells(FreshBoard(mines)) == mines
    ensures RevealedSafeCells(FreshBoard(mines)) == {}
    ensures |SafeCells(FreshBoard(mines))| == BoardSize - |mines|
  {
    var b := FreshBoard(mines);
    assert MineCells(b) == mines;
    SafeCellsSize(b);
  }

  // ---------------------------------------------------------------- the reveal rule

  function Revealed(t: Tile): Tile {
    t.(isRevealed := true)
  }

  /** Every mine tile revealed, every other tile as it was. */
  function RevealMines(tiles: seq<Tile>): seq<Tile> {
    seq(|tiles|, i requires 0 <= i < |tiles| => if tiles[i].isMine then Revealed(tiles[i]) else tiles[i])
  }

  /** The reveal rule of a click on tile `tileId` while the round is in `gameState`. */
  function Click(tiles: seq<Tile>, revealedCount: nat, gameState: Phase, tileId: int): ClickOutcome
    requires 0 <= tileId < |tiles|
  {
    if gameState != Playing || tiles[tileId].isRevealed then
      ClickOutcome(tiles, revealedCount, None)
    else
      var newTiles := tiles[tileId := Revealed(tiles[tileId])];
      if tiles[tileId].isMine then
        ClickOutcome(RevealMines(newTiles), revealedCount, Some(TileReport(true, revealedCount)))
      else
        ClickOutcome(newTiles, revealedCount + 1, Some(TileReport(false, revealedCount + 1)))
  }

  /** A second click on the same tile changes nothing and reports nothing. */
  lemma ClickTwiceIsClickOnce(tiles: seq<Tile>, revealedCount: nat, gameState: Phase, tileId: int)
    requires 0 <= tileId < |tiles|
    ensures var once := Click(tiles, revealedCount, gameState, tileId);
            |once.tiles| == |tiles| &&
            Click(once.tiles, once.revealedCount, gameState, tileId) == once.(report := None)
  {
  }

  /** A safe click reveals that tile alone and counts it. */
  lemma SafeClick(tiles: seq<Tile>, revealedCount: nat, tileId: int)
    requires 0 <= tileId < |tiles|
    requires !tiles[tileId].isMine && !tiles[tileId].isRevealed
    ensures var o := Click(tiles, revealedCount, Playing, tileId);
            && o.report == Some(TileReport(false, revealedCount + 1))
            && o.revealedCount == revealedCount + 1
            && |o.tiles| == |tiles| && o.tiles[tileId].isRevealed && !o.tiles[tileId].isMine
            && (forall j :: 0 <= j < |tiles| && j != tileId ==> o.tiles[j] == tiles[j])
            && (NoMineRevealed(tiles) ==> NoMineRevealed(o.tiles))
            && MineCells(o.tiles) == MineCells(tiles)
            && RevealedSafeCells(o.tiles) == RevealedSafeCells(tiles) + {tileId}
            && |RevealedSafeCells(o.tiles)| == |RevealedSafeCells(tiles)| + 1
  {
    RevealSafeTile(tiles, tileId);
  }

  /** Revealing one hidden safe tile adds exactly that tile to the revealed safe cells. */
  lemma RevealSafeTile(tiles: seq<Tile>, tileId: int)
    requires 0 <= tileId < |tiles|
    requires !tiles[tileId].isMine && !tiles[tileId].isRevealed
    ensures var after := tiles[tileId := Revealed(tiles[tileId])];
            && (NoMineRevealed(tiles) ==> NoMineRevealed(after))
            && MineCells(after) == MineCells(tiles)
            && RevealedSafeCells(after) == RevealedSafeCells(tiles) + {tileId}
            && |RevealedSafeCells(after)| == |RevealedSafeCells(tiles)| + 1
  {
    var after := tiles[tileId := Revealed(tiles[tileId])];
    assert RevealedSafeCells(after) == RevealedSafeCells(tiles) + {tileId};
    assert MineCells(after) == MineCells(tiles);
  }

  /**
   * A mine click reveals the clicked tile and every mine, leaves every
   * unrevealed safe tile hidden and keeps the count.
   */
  lemma MineClick(tiles: seq<Tile>, revealedCount: nat, tileId: int)
    requires 0 <= tileId < |tiles|
    requires tiles[tileId].isMine && !tiles[tileId].isRevealed
    ensures var o := Click(tiles, revealedCount, Playing, tileId);
            && o.report == Some(TileReport(true, revealedCount))
            && o.revealedCount == revealedCount
            && |o.tiles| == |tiles| && o.tiles[tileId].isRevealed
            && (forall j :: 0 <= j < |tiles| ==>
                  o.tiles[j].id == tiles[j].id && o.tiles[j].isMine == tiles[j].isMine &&
                  (o.tiles[j].isRevealed <==> tiles[j].isRevealed || tiles[j].isMine))
            && MineCells(o.tiles) == MineCells(tiles)
            && RevealedSafeCells(o.tiles) == RevealedSafeCells(tiles)
  {
    var o := Click(tiles, revealedCount, Playing, tileId);
    assert RevealedSafeCells(o.tiles) == RevealedSafeCells(tiles);
    assert MineCells(o.tiles) == MineCells(tiles);
  }

  /** A click keeps the ids, the mines and the counter's agreement with the revealed safe tiles. */
  lemma ClickKeepsCount(tiles: seq<Tile>, revealedCount: nat, gameState: Phase, tileId: int)
    requires 0 <= tileId < |tiles|
    requires Numbered(tiles) && revealedCount == |RevealedSafeCells(tiles)|
    ensures var o := Click(tiles, revealedCount, gameState, tileId);
            && |o.tiles| == |tiles| && Numbered(o.tiles)
            && o.revealedCount == |RevealedSafeCells(o.tiles)|
            && MineCells(o.tiles) == MineCells(tiles)
  {
    if gameState == Playing && !tiles[tileId].isRevealed {
      if tiles[tileId].isMine {
        MineClick(tiles, revealedCount, tileId);
      } else {
        SafeClick(tiles, revealedCount, tileId);
      }
    }
  }

  // ---------------------------------------------------------------- the board component

  class Board {
    var tiles: array<Tile>
    var revealedCount: nat

    /** Tiles are numbered by position and the counter counts the revealed safe tiles. */
    ghost predicate Valid()
      reads this, tiles
    {
      Numbered(tiles[..]) && revealedCount == |RevealedSafeCells(tiles[..])|
    }

    /** Before the first round the board holds no tiles. */
    constructor ()
      ensures Valid() && tiles.Length == 0 && revealedCount == 0
    {
      tiles := new Tile[0];
      revealedCount := 0;
      new;
      assert RevealedSafeCells(tiles[..]) == {};
    }

    /**
     * initializeBoard: 25 unrevealed, unflagged tiles, then mines at the
     * positions the placement loop collects from the draws.  The draws must
     * name at least `mineCount` distinct positions (see PlaceMinesSpec).
     */
    method InitializeBoard(mineCount: nat, draws: seq<real>)
      requires ValidDraws(draws) && mineCount <= |DrawnCells(draws)|
      modifies this
      ensures Valid() && fresh(tiles) && revealedCount == 0 && NoMineRevealed(tiles[..])
      ensures PlaceMines({}, draws, mineCount).Some?
      ensures tiles[..] == FreshBoard(PlaceMines({}, draws, mineCount).value)
      ensures tiles.Length == BoardSize && |MineCells(tiles[..])| == mineCount
      ensures |SafeCells(tiles[..])| == BoardSize - mineCount
    {
      var newTiles := new Tile[BoardSize];
      for i := 0 to BoardSize
        invariant forall j :: 0 <= j < i ==> newTiles[j] == Tile(j, false, false, false)
        modifies newTiles
      {
        newTiles[i] := Tile(i, false, false, false);
      }

      var minePositions := CollectMinePositions(mineCount, draws);

      var rest := minePositions;
      while rest != {}
        invariant rest <= minePositions
        invariant forall j :: 0 <= j < BoardSize ==> newTiles[j] == Tile(j, j in minePositions - rest, false, false)
        modifies newTiles
        decreases |rest|
      {
        var pos :| pos in rest;
        newTiles[pos] := newTiles[pos].(isMine := true);
        rest := rest - {pos};
      }

      tiles := newTiles;
      revealedCount := 0;
      assert tiles[..] == FreshBoard(minePositions);
      FreshBoardCells(minePositions);
    }

    /** handleTileClick, proved against the reveal rule Click. */
    method HandleTileClick(tileId: int, gameState: Phase) returns (report: Option<TileReport>)
      requires Valid() && 0 <= tileId < tiles.Length
      modifies tiles, this`revealedCount
      ensures Valid()
      ensures ClickOutcome(tiles[..], revealedCount, report) == Click(old(tiles[..]), old(revealedCount), gameState, tileId)
    {
      ghost var before, count := tiles[..], revealedCount;
      ClickKeepsCount(before, count, gameState, tileId);
      if gameState != Playing {
        return None;
      }
      var tile := tiles[tileId];
      if tile.isRevealed {
        return None;
      }
      tiles[tileId] := tiles[tileId].(isRevealed := true);
      if tile.isMine {
        ghost var clicked := tiles[..];
        for j := 0 to tiles.Length
          invariant forall i :: 0 <= i < j ==> tiles[i] == RevealMines(clicked)[i]
          invariant forall i :: j <= i < tiles.Length ==> tiles[i] == clicked[i]
          modifies tiles
        {
          if tiles[j].isMine {
            tiles[j] := tiles[j].(isRevealed := true);
          }
        }
        assert tiles[..] == RevealMines(clicked);
        report := Some(TileReport(true, revealedCount));
      } else {
        revealedCount := revealedCount + 1;
        report := Some(TileReport(false, revealedCount));
      }
      assert tiles[..] == Click(before, count, gameState, tileId).tiles;
    }
  }
}
