/**
 * The `useChessGame` hook (useChessGame.ts): the session object that owns the engine's
 * position, the `fen` snapshot shown by the board, the board orientation and the flag that
 * is raised while the AI opponent's move is being fetched.
 */
module ChessGameHook {
  import opened Wrappers
  import opened ChessTypes
  import opened Engine
  import opened GameStatus

  /** What the move service (`makeAiMove`) gives back: a move token, or a thrown error. */
  datatype AiReply = Reply(token: string) | ServiceError

  /** The guard of the effect that schedules the AI (useChessGame.ts:101): never while a
      request is outstanding, never on a human's turn, never once the game is over, and
      always when the AI is to move in a live game with no request outstanding. */
  function AiShouldMove(players: Players, toMove: Player, s: Status, thinking: bool): (go: bool)
    ensures thinking ==> !go
    ensures go ==> players.Of(toMove) == AI
    ensures go ==> !s.isCheckmate && !s.isDraw
    ensures players.Of(toMove) == AI && !thinking && !s.isCheckmate && !s.isDraw ==> go
  {
    players.Of(toMove) == AI && !s.isCheckmate && !s.isDraw && !thinking
  }

  class ChessGame {
    const rules: Rules
    /** The chess.js instance, updated in place by `move` and `reset`. */
    var game: Position
    var fen: string
    var orientation: Orientation
    var isAiThinking: bool

    /** The `fen` state always holds the FEN of the engine's current position. */
    ghost predicate Valid()
      reads this
    {
      fen == game.fen
    }

    /** The hook's initial state: a new game, White at the bottom, no AI request. */
    constructor (rules: Rules)
      ensures Valid()
      ensures this.rules == rules && game == rules.initial
      ensures orientation == WhiteBottom && !isAiThinking
    {
      this.rules := rules;
      game := rules.initial;
      fen := rules.initial.fen;
      orientation := WhiteBottom;
      isAiThinking := false;
    }

    /** `playerTurn`: the side to move. */
    function PlayerTurn(): Player
      reads this
    {
      game.verdicts.turn
    }

    /** `status`, derived from the current position. */
    function CurrentStatus(): Status
      reads this
    {
      DeriveStatus(game.verdicts)
    }

    /** Whether the effect at lines 100-108 schedules `triggerAiMove`. */
    function AiScheduled(players: Players): bool
      reads this
    {
      AiShouldMove(players, PlayerTurn(), CurrentStatus(), isAiThinking)
    }

    /** `handleMove`: ask the engine to play `m`; on success the `fen` snapshot follows. */
    method HandleMove(m: MoveRequest) returns (accepted: bool)
      requires Valid()
      modifies this
      ensures Valid()
      ensures accepted <==> rules.move(old(game), m).Some?
      ensures accepted ==> game == rules.move(old(game), m).value && fen == game.fen
      ensures !accepted ==> game == old(game) && fen == old(fen)
      ensures orientation == old(orientation) && isAiThinking == old(isAiThinking)
    {
      var result := rules.move(game, m);
      if result.Some? {
        game := result.value;
        fen := game.fen;
        accepted := true;
      } else {
        accepted := false;
      }
    }

    /** `resetGame`: back to the initial position, White at the bottom, flag cleared. */
    method ResetGame()
      requires Valid()
      modifies this
      ensures Valid()
      ensures game == rules.initial && fen == rules.initial.fen
      ensures orientation == WhiteBottom && !isAiThinking
    {
      game := rules.initial;
      fen := game.fen;
      orientation := WhiteBottom;
      isAiThinking := false;
    }

    /** `flipBoard`: the other side goes to the bottom; the game is not touched. */
    method FlipBoard()
      requires Valid()
      modifies this`orientation
      ensures Valid()
      ensures orientation == Flipped(old(orientation))
    {
      orientation := Flipped(orientation);
    }

    /** The effect of lines 100-108, timer left out: when the guard holds, `triggerAiMove`
        is started, and it then always sends a request. */
    method ScheduleAi(players: Players) returns (request: Option<string>)
      requires Valid()
      modifies this`isAiThinking
      ensures Valid()
      ensures old(AiScheduled(players)) ==> request == Some(fen) && isAiThinking
      ensures !old(AiScheduled(players)) ==> request == None && isAiThinking == old(isAiThinking)
    {
      if AiScheduled(players) {
        request := TriggerAiMove();
      } else {
        request := None;
      }
    }

    /** `triggerAiMove` up to its `await`: nothing happens once the game is decided;
        otherwise the flag is raised and the current FEN is what the service is asked about. */
    method TriggerAiMove() returns (request: Option<string>)
      requires Valid()
      modifies this`isAiThinking
      ensures Valid()
      ensures request.None? <==> old(CurrentStatus().isCheckmate || CurrentStatus().isDraw)
      ensures request.None? ==> isAiThinking == old(isAiThinking)
      ensures request.Some? ==> request.value == fen && isAiThinking
      ensures request.Some? ==> forall players: Players :: !AiScheduled(players)
    {
      var status := CurrentStatus();
      if status.isCheckmate || status.isDraw {
        return None;
      }
      isAiThinking := true;
      request := Some(game.fen);
    }

    /** `triggerAiMove` after its `await`: play the returned token if the engine accepts it,
        and in every case (success, rejected token, service error) lower the flag. */
    method ReceiveAiMove(reply: AiReply)
      requires Valid()
      modifies this
      ensures Valid()
      ensures !isAiThinking && orientation == old(orientation)
      ensures reply.Reply? && rules.move(old(game), Notation(reply.token)).Some? ==>
                game == rules.move(old(game), Notation(reply.token)).value
      ensures reply.ServiceError? || rules.move(old(game), Notation(reply.token)).None? ==>
                game == old(game) && fen == old(fen)
    {
      if reply.Reply? {
        // `game.move(aiMove)` then `setFen(game.fen())`: the same state change as `handleMove`.
        var _ := HandleMove(Notation(reply.token));
      }
      isAiThinking := false;
    }

    /** A whole `triggerAiMove` with nothing interleaved at the `await`: `service` stands for
        the move service called with the current FEN. A turn that ends without a move leaves
        the AI scheduled again, since the effect's guard reads the lowered flag. */
    method RunAiTurn(service: string -> AiReply)
      requires Valid()
      modifies this
      ensures Valid() && orientation == old(orientation)
      ensures old(CurrentStatus().isCheckmate || CurrentStatus().isDraw) ==>
                game == old(game) && fen == old(fen) && isAiThinking == old(isAiThinking)
      ensures !old(CurrentStatus().isCheckmate || CurrentStatus().isDraw) ==> !isAiThinking
      ensures !old(CurrentStatus().isCheckmate || CurrentStatus().isDraw) ==>
                var reply := service(old(fen));
                if reply.Reply? && rules.move(old(game), Notation(reply.token)).Some?
                then game == rules.move(old(game), Notation(reply.token)).value && fen == game.fen
                else game == old(game) && fen == old(fen)
      ensures forall players: Players :: old(AiScheduled(players)) && game == old(game) ==> AiScheduled(players)
    {
      var request := TriggerAiMove();
      if request.Some? {
        ReceiveAiMove(service(request.value));
      }
    }
  }

  /** The other orientation. */
  function Flipped(o: Orientation): (r: Orientation)
    ensures r != o
  {
    if o == WhiteBottom then BlackBottom else WhiteBottom
  }

  /** Flipping twice gives the board back as it was. */
  lemma FlipTwice(o: Orientation)
    ensures Flipped(Flipped(o)) == o
  {
  }
}
