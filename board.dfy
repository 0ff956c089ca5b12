/**
 * The board of the game: 24 tiles in a loop, the special tiles, moving a
 * token around the loop, and the location each position stands for.
 */
module Board {
  import Cards
  import JsBuiltins

  datatype TileType = Mansion | House | Cottage | Skyscraper | Store | Hotel | Tutor | Regular

  datatype TileSize = Sm | Lg

  datatype Tile = Tile(kind: TileType, position: int, size: TileSize)

  /** The direction of a move: back (-1) or forward (1). */
  type Direction = d: int | d == -1 || d == 1 witness 1

  /** The number of tiles, and the default board size of a move. */
  const BOARD_SIZE := 24

  // Positions of the special tiles.
  const MANSION := 0
  const STORE := 3
  const HOUSE := 6
  const HOTEL := 9
  const COTTAGE := 12
  const TUTOR := 15
  const SKYSCRAPER := 18

  /** Where the buildings stand: the positions whose tile is not regular. */
  predicate IsBuildingPosition(i: int)
  {
    i == MANSION || i == STORE || i == HOUSE || i == HOTEL || i == COTTAGE || i == TUTOR || i == SKYSCRAPER
  }

  /** The building at a position: the tile type the board construction gives it. */
  ghost function BuildingAt(i: int): (t: TileType)
    ensures t == Regular <==> !IsBuildingPosition(i)
    ensures t == Mansion <==> i == MANSION
    ensures t == Store <==> i == STORE
    ensures t == House <==> i == HOUSE
    ensures t == Hotel <==> i == HOTEL
    ensures t == Cottage <==> i == COTTAGE
    ensures t == Tutor <==> i == TUTOR
    ensures t == Skyscraper <==> i == SKYSCRAPER
  {
    if i == MANSION then Mansion
    else if i == STORE then Store
    else if i == HOUSE then House
    else if i == HOTEL then Hotel
    else if i == COTTAGE then Cottage
    else if i == TUTOR then Tutor
    else if i == SKYSCRAPER then Skyscraper
    else Regular
  }

  /** Builds the board tile by tile: large corners every six tiles, each building at its position. */
  method CreateBoard() returns (board: seq<Tile>)
    ensures |board| == BOARD_SIZE
    ensures forall i :: 0 <= i < |board| ==> board[i].position == i
    ensures forall i :: 0 <= i < |board| ==> (board[i].size == Lg <==> i % 6 == 0)
    ensures forall i :: 0 <= i < |board| ==> board[i].kind == BuildingAt(i)
  {
    board := [];
    var i := 0;
    while i < BOARD_SIZE
      invariant 0 <= i <= BOARD_SIZE && |board| == i
      invariant forall k :: 0 <= k < i ==> board[k].position == k
      invariant forall k :: 0 <= k < i ==> (board[k].size == Lg <==> k % 6 == 0)
      invariant forall k :: 0 <= k < i ==> board[k].kind == BuildingAt(k)
    {
      var tileType := Regular;
      var tileSize := if i % 6 == 0 then Lg else Sm;
      if i == MANSION {
        tileType := Mansion;
      } else if i == STORE {
        tileType := Store;
      } else if i == HOUSE {
        tileType := House;
      } else if i == HOTEL {
        tileType := Hotel;
      } else if i == COTTAGE {
        tileType := Cottage;
      } else if i == SKYSCRAPER {
        tileType := Skyscraper;
      } else if i == TUTOR {
        tileType := Tutor;
      }
      board := board + [Tile(tileType, i, tileSize)];
      i := i + 1;
    }
  }

  /**
   * The position `moveSize` tiles away in `direction` on a board of
   * `boardSize` tiles, computed as JavaScript does: the truncating `%`,
   * then a correction for a negative remainder. The result is the
   * canonical representative of the target position.
   */
  function GetNextPosition(currentPosition: int, direction: Direction, moveSize: int, boardSize: int): (r: int)
    requires boardSize > 0
    ensures 0 <= r < boardSize
    ensures r == (currentPosition + direction * moveSize) % boardSize
  {
    var x := currentPosition + direction * moveSize + boardSize;
    var nextPos := JsBuiltins.Rem(x, boardSize);
    var r := if nextPos >= 0 then nextPos else boardSize + nextPos;
    assert (x - r) % boardSize == 0 by {
      if nextPos < 0 {
        JsBuiltins.ModUnique(x - nextPos - boardSize - (x - nextPos), boardSize, -1, 0);
        JsBuiltins.ModCongruent(x - r, x - nextPos, boardSize);
      }
    }
    JsBuiltins.ModCongruent(x, r, boardSize);
    JsBuiltins.ModUnique(r, boardSize, 0, r);
    JsBuiltins.ModCongruent(x, currentPosition + direction * moveSize, boardSize);
    r
  }

  /** Moving k tiles one way and then k tiles the other way returns to the start. */
  lemma MoveBackReturns(p: int, d: Direction, k: int, n: int)
    requires n > 0 && 0 <= p < n
    ensures GetNextPosition(GetNextPosition(p, d, k, n), -(d as int), k, n) == p
  {
    var m := d * k;
    assert -(d as int) * k == -m;
    JsBuiltins.ModShift(p + m, -m, n);
    JsBuiltins.ModUnique(p, n, 0, p);
  }

  /**
   * The location a position stands for: the three commercial tiles first,
   * then four ranges of six positions each, one per neighborhood, and a
   * fallback for positions off the board.
   */
  function GetLocationFromPosition(position: int): (loc: Cards.Location)
    ensures position == HOTEL ==> loc == Cards.Hotel
    ensures position == STORE ==> loc == Cards.Store
    ensures position == TUTOR ==> loc == Cards.Tutor
    ensures (21 <= position <= 23 || 0 <= position <= 2) ==> loc == Cards.Hood(Cards.Rich)
    ensures 3 <= position <= 8 && position != STORE ==> loc == Cards.Hood(Cards.Gentrified)
    ensures 9 <= position <= 14 && position != HOTEL ==> loc == Cards.Hood(Cards.Redlined)
    ensures 15 <= position <= 20 && position != TUTOR ==> loc == Cards.Hood(Cards.MiddleIncome)
    ensures !(0 <= position < BOARD_SIZE) ==> loc == Cards.Hood(Cards.Redlined)
  {
    if position == HOTEL then Cards.Hotel
    else if position == STORE then Cards.Store
    else if position == TUTOR then Cards.Tutor
    else if (position >= 21 && position <= 23) || (position >= 0 && position <= 2) then Cards.Hood(Cards.Rich)
    else if position >= 3 && position <= 8 then Cards.Hood(Cards.Gentrified)
    else if position >= 9 && position <= 14 then Cards.Hood(Cards.Redlined)
    else if position >= 15 && position <= 20 then Cards.Hood(Cards.MiddleIncome)
    else Cards.Hood(Cards.Redlined)
  }

  /** The cases of the location switch that come before its fallback. */
  predicate HasLocationCase(position: int)
  {
    position == HOTEL || position == STORE || position == TUTOR ||
    (21 <= position <= 23) || (0 <= position <= 2) || (3 <= position <= 8) ||
    (9 <= position <= 14) || (15 <= position <= 20)
  }

  /**
   * Every position on the board is handled by a case of
   * `GetLocationFromPosition` before its fallback, and nothing off the board
   * is; the guards of `HasLocationCase` are those of that function.
   */
  lemma LocationCasesExhaustive(position: int)
    ensures HasLocationCase(position) <==> 0 <= position < BOARD_SIZE
  {
  }

  /** The starting tile of a neighborhood: one of the four corner buildings. */
  function GetPositionFromNeighborhood(neighborhood: Cards.Neighborhood): (p: int)
    ensures 0 <= p < BOARD_SIZE && p % 6 == 0
    ensures neighborhood == Cards.Rich ==> p == MANSION
    ensures neighborhood == Cards.Gentrified ==> p == SKYSCRAPER
    ensures neighborhood == Cards.Redlined ==> p == HOUSE
    ensures neighborhood == Cards.MiddleIncome ==> p == COTTAGE
  {
    match neighborhood
    case Rich => MANSION
    case Gentrified => SKYSCRAPER
    case Redlined => HOUSE
    case MiddleIncome => COTTAGE
  }

  /** Distinct neighborhoods start on distinct tiles. */
  lemma SpawnTilesDistinct(a: Cards.Neighborhood, b: Cards.Neighborhood)
    ensures GetPositionFromNeighborhood(a) == GetPositionFromNeighborhood(b) ==> a == b
  {
  }

  /** Only the rich neighborhood's starting tile lies in that neighborhood's own range. */
  lemma OnlyRichStartsAtHome(n: Cards.Neighborhood)
    ensures GetLocationFromPosition(GetPositionFromNeighborhood(n)) == Cards.Hood(n) <==> n == Cards.Rich
  {
  }
}
