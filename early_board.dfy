/**
 * An earlier version of the building board: the same seven buildings, but
 * the hotel stands at position 11 instead of 9; moves take a single step.
 */
module EarlyBoard {
  import JsBuiltins
  import Board

  datatype TileType = Mansion | House | Store | Hotel | Cottage | Skyscraper | Tutor | Regular

  datatype TileSize = Sm | Lg

  datatype Tile = Tile(kind: TileType, position: int, size: TileSize)

  const TOTAL_POSITIONS := 24

  /** The building this board variant places at a position. */
  ghost function BuildingAt(i: int): (t: TileType)
    ensures t == Regular <==> !(i in {0, 3, 6, 11, 12, 15, 18})
    ensures t == Mansion <==> i == 0
    ensures t == Store <==> i == 3
    ensures t == House <==> i == 6
    ensures t == Hotel <==> i == 11
    ensures t == Cottage <==> i == 12
    ensures t == Tutor <==> i == 15
    ensures t == Skyscraper <==> i == 18
  {
    if i == 0 then Mansion
    else if i == 3 then Store
    else if i == 6 then House
    else if i == 11 then Hotel
    else if i == 12 then Cottage
    else if i == 15 then Tutor
    else if i == 18 then Skyscraper
    else Regular
  }

  /** Builds the board tile by tile: large corners every six tiles, each building at its position. */
  method CreateBoard() returns (board: seq<Tile>)
    ensures |board| == TOTAL_POSITIONS
    ensures forall i :: 0 <= i < |board| ==> board[i].position == i
    ensures forall i :: 0 <= i < |board| ==> (board[i].size == Lg <==> i % 6 == 0)
    ensures forall i :: 0 <= i < |board| ==> board[i].kind == BuildingAt(i)
  {
    board := [];
    var i := 0;
    while i < TOTAL_POSITIONS
      invariant 0 <= i <= TOTAL_POSITIONS && |board| == i
      invariant forall k :: 0 <= k < i ==> board[k].position == k
      invariant forall k :: 0 <= k < i ==> (board[k].size == Lg <==> k % 6 == 0)
      invariant forall k :: 0 <= k < i ==> board[k].kind == BuildingAt(k)
    {
      var tileType := Regular;
      var tileSize := if i % 6 == 0 then Lg else Sm;
      match i {
        case 0 => tileType := Mansion;
        case 3 => tileType := Store;
        case 6 => tileType := House;
        case 11 => tileType := Hotel;
        case 12 => tileType := Cottage;
        case 18 => tileType := Skyscraper;
        case 15 => tileType := Tutor;
        case _ =>
      }
      board := board + [Tile(tileType, i, tileSize)];
      i := i + 1;
    }
  }

  /** One step in `direction`, wrapping around a board of `boardSize` tiles, as JavaScript computes it. */
  function GetNextPosition(currentPosition: int, direction: Board.Direction, boardSize: int): (r: int)
    requires boardSize > 0
    ensures 0 <= r < boardSize
    ensures r == (currentPosition + direction) % boardSize
  {
    var x := currentPosition + direction + boardSize;
    var nextPos := JsBuiltins.Rem(x, boardSize);
    var r := if nextPos >= 0 then nextPos else boardSize + nextPos;
    assert (x - r) % boardSize == 0 by {
      if nextPos < 0 {
        JsBuiltins.ModUnique(-boardSize, boardSize, -1, 0);
        JsBuiltins.ModCongruent(x - r, x - nextPos, boardSize);
      }
    }
    JsBuiltins.ModCongruent(x, r, boardSize);
    JsBuiltins.ModUnique(r, boardSize, 0, r);
    JsBuiltins.ModCongruent(x, currentPosition + direction, boardSize);
    r
  }

  /** A step forward followed by a step back returns to the start. */
  lemma StepBackReturns(p: int, n: int)
    requires n > 0 && 0 <= p < n
    ensures GetNextPosition(GetNextPosition(p, 1, n), -1, n) == p
  {
    var q := GetNextPosition(p, 1, n);
    var t := (p + 1) / n;
    assert p + 1 == t * n + q;
    assert (q - 1) - p == (-t) * n + 0;
    JsBuiltins.ModUnique((q - 1) - p, n, -t, 0);
    JsBuiltins.ModUnique(p, n, 0, p);
    JsBuiltins.ModCongruent(q - 1, p, n);
  }

  /** The two boards agree on every tile except the hotel, which moved from 11 to 9. */
  lemma HotelMoved()
    ensures forall i :: BuildingAt(i) == Hotel <==> i == Board.HOTEL + 2
    ensures forall i :: i != Board.HOTEL && i != Board.HOTEL + 2 ==>
              (BuildingAt(i) == Regular <==> Board.BuildingAt(i) == Board.Regular) &&
              (BuildingAt(i) == Mansion <==> Board.BuildingAt(i) == Board.Mansion) &&
              (BuildingAt(i) == Store <==> Board.BuildingAt(i) == Board.Store) &&
              (BuildingAt(i) == House <==> Board.BuildingAt(i) == Board.House) &&
              (BuildingAt(i) == Cottage <==> Board.BuildingAt(i) == Board.Cottage) &&
              (BuildingAt(i) == Tutor <==> Board.BuildingAt(i) == Board.Tutor) &&
              (BuildingAt(i) == Skyscraper <==> Board.BuildingAt(i) == Board.Skyscraper)
  {
  }
}
