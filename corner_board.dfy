/**
 * An earlier board variant: 24 tiles that are either corners (every sixth
 * tile) or regular, and a move of a single step.
 */
module CornerBoard {
  import JsBuiltins
  import Board

  datatype TileType = Corner | Regular | Store | House | Hotel

  datatype Tile = Tile(kind: TileType, position: int)

  const TOTAL_POSITIONS := 24

  /** Builds the board tile by tile; the corners are positions 0, 6, 12 and 18. */
  method CreateBoard() returns (board: seq<Tile>)
    ensures |board| == TOTAL_POSITIONS
    ensures forall i :: 0 <= i < |board| ==> board[i].position == i
    ensures forall i :: 0 <= i < |board| ==> (board[i].kind == Corner <==> i % 6 == 0)
    ensures forall i :: 0 <= i < |board| ==> (board[i].kind == Corner || board[i].kind == Regular)
  {
    board := [];
    for i := 0 to TOTAL_POSITIONS
      invariant |board| == i
      invariant forall k :: 0 <= k < i ==> board[k].position == k
      invariant forall k :: 0 <= k < i ==> board[k].kind == (if k % 6 == 0 then Corner else Regular)
    {
      var isCorner := i % 6 == 0;
      board := board + [Tile(if isCorner then Corner else Regular, i)];
    }
  }

  /** One step in `direction`, wrapping around a board of `boardSize` tiles, as JavaScript computes it. */
  function GetNextPosition(currentPosition: int, direction: Board.Direction, boardSize: int): (r: int)
    requires boardSize > 0
    ensures 0 <= r < boardSize
    ensures r == Board.GetNextPosition(currentPosition, direction, 1, boardSize)
  {
    var x := currentPosition + direction + boardSize;
    var nextPos := JsBuiltins.Rem(x, boardSize);
    var r := if nextPos >= 0 then nextPos else boardSize + nextPos;
    assert (x - r) % boardSize == 0 by {
      if nextPos < 0 {
        JsBuiltins.ModUnique(-boardSize, boardSize, -1, 0);
        JsBuiltins.ModCongruent(x - r, x - nextPos, boardSize);
      }
    }
    JsBuiltins.ModCongruent(x, r, boardSize);
    JsBuiltins.ModUnique(r, boardSize, 0, r);
    JsBuiltins.ModCongruent(x, currentPosition + direction, boardSize);
    r
  }

  /** A step forward followed by a step back returns to the start. */
  lemma StepBackReturns(p: int, n: int)
    requires n > 0 && 0 <= p < n
    ensures GetNextPosition(GetNextPosition(p, 1, n), -1, n) == p
  {
    Board.MoveBackReturns(p, 1, 1, n);
  }

  /** The loop wraps around at both ends. */
  lemma WrapAround()
    ensures GetNextPosition(23, 1, TOTAL_POSITIONS) == 0
    ensures GetNextPosition(0, -1, TOTAL_POSITIONS) == 23
  {
  }
}
