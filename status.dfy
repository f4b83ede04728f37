/**
 * The status record the hook derives from the engine's verdicts (useChessGame.ts:23-62):
 * checkmate and winner, draw flag and reason, check, and the message shown to the players.
 */
module GameStatus {
  import opened Wrappers
  import opened ChessTypes
  import opened Engine
  import opened Priority

  const StalemateReason := "Rey ahogado"
  const ThreefoldReason := "Triple repetición"
  const InsufficientReason := "Material insuficiente"
  const FiftyMoveReason := "Regla de los 50 movimientos"

  /** What `status` holds. */
  datatype Status = Status(
    isCheckmate: bool,
    isDraw: bool,
    isCheck: bool,
    winner: Option<Player>,
    reason: string,
    displayMessage: string)

  /** After a checkmate the side to move has lost; there is no winner otherwise. */
  function Winner(v: Verdicts): (w: Option<Player>)
    ensures w.Some? <==> v.isCheckmate
    ensures w.Some? ==> w.value == Opponent(v.turn) && w.value != v.turn
  {
    if v.isCheckmate then Some(Opponent(v.turn)) else None
  }

  /** The draw rules in the order the hook tests them; the fifty-move rule is the fallback. */
  function DrawRules(v: Verdicts): seq<Rule<string>>
  {
    [Rule(v.isStalemate, StalemateReason),
     Rule(v.isThreefoldRepetition, ThreefoldReason),
     Rule(v.isInsufficientMaterial, InsufficientReason)]
  }

  /** The one reason reported for a draw; empty when the engine does not report a draw. */
  function DrawReason(v: Verdicts): (r: string)
    ensures !v.isDraw <==> r == ""
    ensures v.isDraw ==> (r == StalemateReason <==> v.isStalemate)
    ensures v.isDraw ==> (r == ThreefoldReason <==> !v.isStalemate && v.isThreefoldRepetition)
    ensures v.isDraw ==> (r == InsufficientReason <==>
                            !v.isStalemate && !v.isThreefoldRepetition && v.isInsufficientMaterial)
    ensures v.isDraw ==> (r == FiftyMoveReason <==>
                            !v.isStalemate && !v.isThreefoldRepetition && !v.isInsufficientMaterial)
  {
    if !v.isDraw then ""
    else if v.isStalemate then StalemateReason
    else if v.isThreefoldRepetition then ThreefoldReason
    else if v.isInsufficientMaterial then InsufficientReason
    else FiftyMoveReason
  }

  /** The reason is the first of the draw rules that holds. */
  lemma DrawReasonByPriority(v: Verdicts)
    requires v.isDraw
    ensures DrawReason(v) == FirstApplicable(DrawRules(v), FiftyMoveReason)
  {
    var rules := DrawRules(v);
    if v.isStalemate {
      FirstApplicableAt(rules, FiftyMoveReason, 0);
    } else if v.isThreefoldRepetition {
      FirstApplicableAt(rules, FiftyMoveReason, 1);
    } else if v.isInsufficientMaterial {
      FirstApplicableAt(rules, FiftyMoveReason, 2);
    } else {
      FirstApplicableNone(rules, FiftyMoveReason);
    }
  }

  /** The four shapes of `displayMessage`. */
  datatype Headline =
    | Mate(winner: Player)
    | Drawn(reason: string)
    | CheckOn(toMove: Player)
    | TurnOf(toMove: Player)

  /** The message rules in the order the hook tests them; the plain turn message is the fallback. */
  function HeadlineRules(v: Verdicts): seq<Rule<Headline>>
  {
    [Rule(v.isCheckmate, Mate(Opponent(v.turn))),
     Rule(v.isDraw, Drawn(DrawReason(v))),
     Rule(v.isCheck, CheckOn(v.turn))]
  }

  /** Checkmate, then the engine's draw, then check, then the side to move. */
  function HeadlineOf(v: Verdicts): (h: Headline)
    ensures h.Mate? <==> v.isCheckmate
    ensures h.Mate? ==> h.winner == Opponent(v.turn)
    ensures h.Drawn? <==> !v.isCheckmate && v.isDraw
    ensures h.Drawn? ==> h.reason == DrawReason(v) && h.reason != ""
    ensures h.CheckOn? <==> !v.isCheckmate && !v.isDraw && v.isCheck
    ensures h.CheckOn? || h.TurnOf? ==> h.toMove == v.turn
  {
    if v.isCheckmate then Mate(Opponent(v.turn))
    else if v.isDraw then Drawn(DrawReason(v))
    else if v.isCheck then CheckOn(v.turn)
    else TurnOf(v.turn)
  }

  /** The headline is the first of the message rules that holds. */
  lemma HeadlineByPriority(v: Verdicts)
    ensures HeadlineOf(v) == FirstApplicable(HeadlineRules(v), TurnOf(v.turn))
  {
    var rules := HeadlineRules(v);
    if v.isCheckmate {
      FirstApplicableAt(rules, TurnOf(v.turn), 0);
    } else if v.isDraw {
      FirstApplicableAt(rules, TurnOf(v.turn), 1);
    } else if v.isCheck {
      FirstApplicableAt(rules, TurnOf(v.turn), 2);
    } else {
      FirstApplicableNone(rules, TurnOf(v.turn));
    }
  }

  /** The Spanish name of a side, as it appears in the messages. */
  function SideName(p: Player): string
  {
    if p == White then "Blancas" else "Negras"
  }

  /** The text of a headline. */
  function Render(h: Headline): (m: string)
    ensures |m| > 10
    ensures m[0] == '¡' <==> !h.TurnOf?
    ensures h.Drawn? ==> m[9] == '(' && m[|m| - 1] == ')' && m[10..|m| - 1] == h.reason
  {
    match h
    case Mate(w) => "¡Jaque mate! " + SideName(w) + " ganan."
    case Drawn(r) => "¡Empate! (" + r + ")"
    case CheckOn(p) => "¡Jaque! Turno de las " + SideName(p)
    case TurnOf(p) => "Turno de las " + SideName(p)
  }

  /** The status record derived from one position's verdicts. */
  function DeriveStatus(v: Verdicts): (s: Status)
    ensures s.isCheckmate == v.isCheckmate && s.isCheck == v.isCheck
    ensures s.winner.Some? <==> s.isCheckmate
    ensures s.winner.Some? ==> s.winner.value == Opponent(v.turn)
    ensures s.isDraw <==> v.isDraw || v.isStalemate || v.isThreefoldRepetition || v.isInsufficientMaterial
    ensures v.isDraw ==> s.isDraw
    ensures s.reason == DrawReason(v)
    ensures s.displayMessage == Render(HeadlineOf(v))
  {
    var winner := Winner(v);
    var reason := DrawReason(v);
    Status(
      v.isCheckmate,
      v.isDraw || v.isStalemate || v.isThreefoldRepetition || v.isInsufficientMaterial,
      v.isCheck,
      winner,
      reason,
      Render(HeadlineOf(v)))
  }
}

module StatusLemmas {
  import opened Wrappers
  import opened ChessTypes
  import opened Engine
  import opened GameStatus

  /** Three characters that tell the four shapes of message apart. */
  function Mark(h: Headline): (char, char, char)
  {
    match h
    case Mate(_) => ('¡', 'J', ' ')
    case Drawn(_) => ('¡', 'E', 'e')
    case CheckOn(_) => ('¡', 'J', '!')
    case TurnOf(_) => ('T', 'u', 'd')
  }

  lemma RenderMark(h: Headline)
    ensures |Render(h)| > 10
    ensures (Render(h)[0], Render(h)[1], Render(h)[6]) == Mark(h)
  {
  }

  /** Distinct headlines are rendered as distinct messages, so the message tells the
      players exactly who won, why the game was drawn, or whose turn it is. */
  lemma {:induction false} RenderInjective(h1: Headline, h2: Headline)
    requires Render(h1) == Render(h2)
    ensures h1 == h2
  {
    var m1, m2 := Render(h1), Render(h2);
    RenderMark(h1);
    RenderMark(h2);
    assert Mark(h1) == Mark(h2);
    match h1 {
      case Mate(_) => assert m1[13] == m2[13];
      case Drawn(r1) =>
        assert r1 == m1[10..|m1| - 1];
        assert h2.reason == m2[10..|m2| - 1];
      case CheckOn(_) => assert m1[21] == m2[21];
      case TurnOf(_) => assert m1[13] == m2[13];
    }
  }

  /** Two positions that show the same message agree on checkmate and on the winner. */
  lemma SameMessageSameWinner(v1: Verdicts, v2: Verdicts)
    requires DeriveStatus(v1).displayMessage == DeriveStatus(v2).displayMessage
    ensures v1.isCheckmate <==> v2.isCheckmate
    ensures DeriveStatus(v1).winner == DeriveStatus(v2).winner
  {
    RenderInjective(HeadlineOf(v1), HeadlineOf(v2));
  }

  /** The verdicts chess.js gives together: its `isDraw()` covers stalemate, threefold
      repetition and insufficient material (besides the fifty-move rule). */
  predicate EngineConsistent(v: Verdicts)
  {
    (v.isStalemate || v.isThreefoldRepetition || v.isInsufficientMaterial) ==> v.isDraw
  }

  /** For such verdicts the returned `isDraw` is the engine's, and a reason is given exactly for a draw. */
  lemma ConsistentDraw(v: Verdicts)
    requires EngineConsistent(v)
    ensures DeriveStatus(v).isDraw == v.isDraw
    ensures DeriveStatus(v).reason != "" <==> DeriveStatus(v).isDraw
  {
  }

  /** The status as the hook serves it: `useMemo(..., [game, playerTurn])` keeps the cached
      record while the side to move is the one it was computed for. */
  function MemoisedStatus(cacheTurn: Player, cached: Status, v: Verdicts): (s: Status)
    ensures v.turn != cacheTurn ==> s == DeriveStatus(v)
    ensures v.turn == cacheTurn ==> s == cached
  {
    if v.turn == cacheTurn then cached else DeriveStatus(v)
  }

  /** A position where White has been mated (for instance after 1. f3 e5 2. g4 Qh4#). */
  function WhiteMated(): Verdicts
  {
    Verdicts(White, true, false, false, false, false, true, true)
  }

  /** The initial position: White to move, nothing over. */
  function InitialVerdicts(): Verdicts
  {
    Verdicts(White, false, false, false, false, false, false, false)
  }

  /** After `resetGame` from a game in which White was mated, the memoised status still
      reports the checkmate and Black's win, though the new position is the initial one. */
  lemma StaleStatusAfterReset()
    ensures MemoisedStatus(White, DeriveStatus(WhiteMated()), InitialVerdicts()).isCheckmate
    ensures MemoisedStatus(White, DeriveStatus(WhiteMated()), InitialVerdicts()).winner == Some(Black)
    ensures !DeriveStatus(InitialVerdicts()).isCheckmate
  {
  }

  /** The status recomputed whenever the FEN changes (the dependency `capturedPieces` already uses, useChessGame.ts:75). */
  function StatusForFen(cacheFen: string, cached: Status, p: Position): (s: Status)
    ensures p.fen != cacheFen ==> s == DeriveStatus(p.verdicts)
  {
    if p.fen == cacheFen then cached else DeriveStatus(p.verdicts)
  }

  /** Keyed on the FEN, the cache is never stale: starting from a record that was right for
      `before`, the status served for `after` is `after`'s own whenever the two positions
      have different FENs or share their verdicts. Two consecutive positions of one game
      always do: a move changes the FEN. (Positions of different games with one FEN may
      differ, since threefold repetition depends on the history.) */
  lemma StatusForFenIsFresh(before: Position, after: Position, cached: Status)
    requires cached == DeriveStatus(before.verdicts)
    requires before.fen == after.fen ==> before.verdicts == after.verdicts
    ensures StatusForFen(before.fen, cached, after) == DeriveStatus(after.verdicts)
  {
  }
}
