/**
 * The chess.js rules engine, whose source is not part of this model, seen as an oracle.
 * A position is a value that carries what the engine answers about it (side to move,
 * termination predicates, check, the FEN and the verbose move history); a move either
 * yields a new position or is rejected.
 */
module Engine {
  import opened Wrappers
  import opened ChessTypes

  /** The answers of `turn()`, `isCheckmate()`, `isDraw()`, `isStalemate()`,
      `isThreefoldRepetition()`, `isInsufficientMaterial()`, `isCheck()` and `isGameOver()`. */
  datatype Verdicts = Verdicts(
    turn: Player,
    isCheckmate: bool,
    isDraw: bool,
    isStalemate: bool,
    isThreefoldRepetition: bool,
    isInsufficientMaterial: bool,
    isCheck: bool,
    isGameOver: bool)

  /** The two fields of a verbose history entry the application reads: who moved and what was taken. */
  datatype HistoryMove = HistoryMove(color: Player, captured: Option<PieceKind>)

  /** A game position: its FEN (`fen()`), the engine's verdicts and `history({ verbose: true })`. */
  datatype Position = Position(fen: string, verdicts: Verdicts, history: seq<HistoryMove>)

  /** The argument of `game.move`: a `{from, to, promotion?}` object or a SAN token. */
  datatype MoveRequest =
    | Squares(from: string, to: string, promotion: Option<PieceKind>)
    | Notation(san: string)

  /** The engine: the position `new Chess()` and `reset()` produce, and `move`, which
      returns `None` where chess.js throws (the position is then left as it was). */
  datatype Rules = Rules(initial: Position, move: (Position, MoveRequest) -> Option<Position>)
}
