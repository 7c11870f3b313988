/**
  The few notions of python-chess that both programs rely on directly.
  Everything else about the game (legality, FEN, results) stays abstract
  and is handed to the server and the client as adapter functions.
 */
module Chess {
  import opened Wrappers

  /** `chess.WHITE` / `chess.BLACK`. */
  datatype Color = White | Black {
    function Opponent(): (c: Color)
      ensures c != this
    {
      if this == White then Black else White
    }
  }

  /** A move as `chess.Move(from_square, to_square, promotion)`. */
  datatype Move = Move(from: int, to: int, promotion: Option<int>)

  /** python-chess's `square(file_index, rank_index)`. */
  function Square(file: int, rank: int): int
  {
    rank * 8 + file
  }

  /** The side to move after `plies` half-moves from the initial position. */
  function ToMoveAfter(plies: nat): (c: Color)
    ensures c == White <==> plies % 2 == 0
  {
    if plies % 2 == 0 then White else Black
  }
}
