/**
 * The board component (ChessboardComponent.tsx): the rules it gives the chessboard.js
 * widget for picking up and dropping pieces, and the way it keeps the single widget
 * instance in step with the game.
 */
module Chessboard {
  import opened Wrappers
  import opened ChessTypes
  import opened Engine
  import opened ChessGameHook

  /** `piece.search(/^c/) !== -1`: the piece code starts with the letter `c`. */
  predicate StartsWith(piece: string, c: char)
  {
    |piece| > 0 && piece[0] == c
  }

  /** `onDragStart`: a piece may be picked up unless the game is over or the piece
      belongs to the side that is not to move. */
  function CanPickUp(v: Verdicts, piece: string): (ok: bool)
    ensures v.isGameOver ==> !ok
    ensures StartsWith(piece, ColorCode(Opponent(v.turn))) ==> !ok
    ensures !v.isGameOver && StartsWith(piece, ColorCode(v.turn)) ==> ok
    ensures ok <==> !v.isGameOver && !StartsWith(piece, ColorCode(Opponent(v.turn)))
  {
    if v.isGameOver then false
    else if (v.turn == White && StartsWith(piece, 'b')) || (v.turn == Black && StartsWith(piece, 'w')) then false
    else true
  }

  /** What `onDrop` tells the widget: put the piece back, or leave it where it was dropped. */
  datatype DropAction = Snapback | Stay

  /** `onDrop`: forward the drop to `handleMove` as a move that promotes to a queen, and
      snap the piece back exactly when the move is refused. */
  method OnDrop(g: ChessGame, source: string, target: string) returns (action: DropAction)
    requires g.Valid()
    modifies g
    ensures g.Valid()
    ensures action == Snapback <==> g.rules.move(old(g.game), Squares(source, target, Some(Queen))).None?
    ensures action == Stay ==> g.game == g.rules.move(old(g.game), Squares(source, target, Some(Queen))).value
    ensures action == Snapback ==> g.game == old(g.game) && g.fen == old(g.fen)
    ensures g.orientation == old(g.orientation) && g.isAiThinking == old(g.isAiThinking)
  {
    var moveSuccessful := g.HandleMove(Squares(source, target, Some(Queen)));
    if !moveSuccessful {
      return Snapback;
    }
    action := Stay;
  }

  /** The chessboard.js widget, as far as this component drives it. */
  class BoardWidget {
    var position: string
    var orientation: Orientation

    /** `window.Chessboard(element, config)` with the config's position and orientation. */
    constructor (position: string, orientation: Orientation)
      ensures this.position == position && this.orientation == orientation
    {
      this.position := position;
      this.orientation := orientation;
    }

    /** `board.position(fen)`. */
    method SetPosition(fen: string)
      modifies this`position
      ensures position == fen
    {
      position := fen;
    }

    /** `board.orientation(o)`. */
    method SetOrientation(o: Orientation)
      modifies this`orientation
      ensures orientation == o
    {
      orientation := o;
    }
  }

  /** The component's `boardInstance` ref: no widget yet, or the one it created. */
  class BoardHost {
    var instance: BoardWidget?

    constructor ()
      ensures instance == null
    {
      instance := null;
    }

    /** The effect body: without a mounted element and the widget script nothing happens;
        with an empty ref a widget is created, otherwise the existing one is updated in
        place. The ref is only non-empty here when the cleanup could not destroy the
        widget (see `Rerender`). */
    method RunEffect(mounted: bool, fen: string, orientation: Orientation)
      modifies this, instance
      ensures !mounted ==> instance == old(instance)
      ensures !mounted && instance != null ==>
                instance.position == old(instance.position) && instance.orientation == old(instance.orientation)
      ensures mounted && old(instance) == null ==> instance != null && fresh(instance)
      ensures mounted && old(instance) != null ==> instance == old(instance)
      ensures mounted ==> instance != null && instance.position == fen && instance.orientation == orientation
    {
      if !mounted {
        return;
      }
      if instance == null {
        instance := new BoardWidget(fen, orientation);
      } else {
        instance.SetOrientation(orientation);
        instance.SetPosition(fen);
      }
    }

    /** `onSnapEnd`: after a drop, redraw the widget from the engine's current FEN. */
    method OnSnapEnd(g: ChessGame)
      modifies instance
      ensures instance != null ==> instance.position == g.game.fen
      ensures instance != null ==> instance.orientation == old(instance.orientation)
    {
      if instance != null {
        instance.SetPosition(g.game.fen);
      }
    }

    /** The effect's cleanup, run before every re-run: a widget that can be destroyed is
        destroyed and the ref cleared, so the next run creates a fresh one. */
    method Cleanup(canDestroy: bool)
      modifies this
      ensures canDestroy ==> instance == null
      ensures !canDestroy ==> instance == old(instance)
    {
      if instance != null && canDestroy {
        instance := null;
      }
    }

    /** A re-run of the effect as React performs it: the previous run's cleanup first,
        then the body. A chessboard.js widget can be destroyed, so every re-run creates
        a new widget and the in-place branch of `RunEffect` is not taken. */
    method Rerender(mounted: bool, fen: string, orientation: Orientation)
      modifies this, instance
      ensures !mounted ==> instance == null
      ensures mounted ==> instance != null && fresh(instance)
      ensures mounted ==> instance.position == fen && instance.orientation == orientation
    {
      Cleanup(true);
      RunEffect(mounted, fen, orientation);
    }
  }
}
