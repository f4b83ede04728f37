/** The shared vocabulary of the application (types.ts). */
module ChessTypes {

  /** A side of the board: chess.js's `'w' | 'b'`. */
  datatype Player = White | Black

  /** The side that is not `p`. */
  function Opponent(p: Player): (q: Player)
    ensures q != p
  {
    if p == White then Black else White
  }

  /** The one-letter colour code chess.js and chessboard.js use ('w' or 'b'). */
  function ColorCode(p: Player): (c: char)
    ensures c == 'w' || c == 'b'
    ensures p == White <==> c == 'w'
  {
    if p == White then 'w' else 'b'
  }

  /** Who controls a side. */
  datatype PlayerType = Human | AI

  /** The `players` record the hook builds from its options: `{ w: player1, b: player2 }`. */
  datatype Players = Players(w: PlayerType, b: PlayerType)
  {
    function Of(p: Player): PlayerType {
      if p == White then w else b
    }
  }

  /** Which side is drawn at the bottom of the board: `'white' | 'black'`. */
  datatype Orientation = WhiteBottom | BlackBottom

  /** The piece kinds chess.js reports in a move's `captured` field ('p', 'n', 'b', 'r', 'q', 'k'). */
  datatype PieceKind = Pawn | Knight | Bishop | Rook | Queen | King
}
