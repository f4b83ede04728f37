# Ajedrez: game orchestration, board gatekeeping and device classification in Dafny

This project models the three small decision procedures of the Ajedrez chess app. The
rules engine (chess.js), the board widget (chessboard.js), the move service and the
Capacitor device plugin are foreign code, so each one is an input to the model.

- **Game hook** (`hooks/useChessGame.ts`). The class `ChessGameHook.ChessGame` holds the
  engine's position, the `fen` snapshot, the board orientation and the `isAiThinking` flag.
  Its methods are `handleMove`, `resetGame`, `flipBoard` and `triggerAiMove`. `Valid()` is
  the invariant that `fen` always holds the FEN of the current position. The status record is the pure function `GameStatus.DeriveStatus`. The
  captured-piece tally is the loop `CapturedTally.CountCaptured`, proved equal to the fold
  `Tally`. The lemmas about `Tally` give the counting, the total and order independence.
- **The engine as an oracle** (`Engine`). A `Position` carries its FEN, the engine's
  verdicts (side to move, checkmate, draw, stalemate, threefold repetition, insufficient
  material, check, game over) and the verbose history, reduced to `(color, captured)`.
  `Rules.move` either returns the next position or `None`. `None` stands for chess.js
  throwing, which leaves the position as it was. `Rules.initial` is the position that
  `new Chess()` and `reset()` produce.
- **The AI bridge**. `triggerAiMove` is split at its `await`:
  - `TriggerAiMove` checks the status, raises the flag and returns the FEN to send;
  - `ReceiveAiMove` plays the returned SAN token if the engine accepts it, and lowers the
    flag on every path.

  `RunAiTurn` runs both with nothing in between. The move service is the parameter
  `service: string -> AiReply`. Splitting the method lets a caller interleave a
  `handleMove` or `resetGame` at the `await`, as the source allows: `ReceiveAiMove` then
  acts on whatever the position is by then.
- **Board component** (`components/ChessboardComponent.tsx`):
  - `CanPickUp` is the `onDragStart` predicate;
  - `OnDrop` forwards a queen-promotion move to `handleMove` and answers `Snapback`
    exactly when the move is refused;
  - `BoardHost` is the `boardInstance` ref. `RunEffect` creates a widget when the ref is
    empty and updates the existing one in place otherwise; `onSnapEnd` resynchronises it.
    React runs the cleanup before every re-run, and a chessboard.js widget can be
    destroyed, so `Rerender` (cleanup, then body) creates a new widget each time. The
    in-place branch is reached only for a widget without `destroy`. The effect re-runs on
    every render: `onMove` is `handleMove`, whose dependency `captureSound` is a new
    object on every render (hooks/useSound.ts:58).
- **Device detection** (`hooks/useDeviceDetection.ts`). `Classify` is the native-platform
  decision tree. `DetectDevice` is `detectDevice`, written step by step as the source is.
  Its contract ties the flags to `Classify`, and it proves that exactly one flag is set on
  native platforms and none elsewhere.

## Model

| member | source | states |
|---|---|---|
| `ChessTypes.Opponent` | hooks/useChessGame.ts:70 | the side opposite to a mover is always the other side |
| `Priority.FirstApplicableAt` | hooks/useChessGame.ts:36-41 | in an if/else-if chain the value chosen is that of the least-indexed condition that holds |
| `Priority.FirstApplicableNone` | hooks/useChessGame.ts:36-41 | when no condition of the chain holds, the final `else` is chosen |
| `GameStatus.Winner` | hooks/useChessGame.ts:30-33 | there is a winner exactly when the position is checkmate, and the winner is the side not to move |
| `GameStatus.DrawReason` | hooks/useChessGame.ts:35-41 | the reason is empty exactly when the engine reports no draw; for a draw each of the four reasons is reported exactly when its condition holds and no earlier one does (stalemate, threefold repetition, insufficient material, fifty-move rule) |
| `GameStatus.DrawReasonByPriority` | hooks/useChessGame.ts:36-41 | for a draw, the reason is the first of the stalemate / repetition / material rules that holds, with the fifty-move rule as the fallback |
| `GameStatus.HeadlineOf` | hooks/useChessGame.ts:43-52 | the message is a checkmate message exactly for checkmate, naming the side not to move as winner; a draw message exactly for an engine draw without mate, always with a non-empty reason; a check message exactly for check without mate or draw; check and turn messages name the side to move |
| `GameStatus.Render` | hooks/useChessGame.ts:43-52 | the Spanish templates: every message but the plain turn one starts with `¡`, and a draw message shows its reason verbatim between the parentheses |
| `GameStatus.HeadlineByPriority` | hooks/useChessGame.ts:43-52 | the message is chosen by the order checkmate, engine draw, check, plain turn |
| `GameStatus.DeriveStatus` | hooks/useChessGame.ts:23-62 | the record has a winner iff checkmate (the side not to move); the returned `isDraw` is the disjunction of the four draw predicates, so it holds whenever the engine reports a draw; `isCheck` is the engine's; the message is rendered from the headline |
| `StatusLemmas.RenderInjective` | hooks/useChessGame.ts:43-52 | different headlines give different messages, so the message tells who won, the draw reason or whose turn it is |
| `StatusLemmas.SameMessageSameWinner` | hooks/useChessGame.ts:43-52 | two positions that show the same message agree on checkmate and on the winner |
| `StatusLemmas.ConsistentDraw` | hooks/useChessGame.ts:36-56 | when the engine's `isDraw` covers its stalemate, repetition and material predicates (as chess.js does), the returned `isDraw` equals the engine's and a reason is given exactly for a draw |
| `StatusLemmas.MemoisedStatus` | hooks/useChessGame.ts:62 | the memoised status is recomputed only when the side to move differs from the one it was cached for |
| `StatusLemmas.StaleStatusAfterReset` | hooks/useChessGame.ts:62 | after a reset from a game in which White was mated, the memoised status still reports checkmate and Black's win |
| `StatusLemmas.StatusForFen` | hooks/useChessGame.ts:62 | a status cached against the FEN is recomputed whenever the FEN changes |
| `StatusLemmas.StatusForFenIsFresh` | hooks/useChessGame.ts:62 | with the FEN as key, the status served is that of the current position whenever the cached and the current position either have different FENs or are the same position with the same verdicts; this holds for every two consecutive positions of one game, which have different FENs unless no move was made (positions of different games with the same FEN may differ in threefold repetition, which chess.js derives from the history) |
| `CapturedTally.Record` | hooks/useChessGame.ts:69-72 | one history entry adds 1 to the count of the kind it took from the side that did not move, and 0 to every other count |
| `CapturedTally.Tally` | hooks/useChessGame.ts:68-73 | the `forEach` fold over the whole history; no count exceeds the number of moves |
| `CapturedTally.RecordTotal` | hooks/useChessGame.ts:69-72 | one history entry raises the sum of all counts by 1 exactly when it took a piece |
| `CapturedTally.TallyCounts` | hooks/useChessGame.ts:64-75 | each count equals the number of history moves that took a piece of that kind from that side |
| `CapturedTally.TallyTotal` | hooks/useChessGame.ts:64-75 | the sum of all counts equals the number of capturing moves |
| `CapturedTally.NonCaptureIsNeutral` | hooks/useChessGame.ts:69 | a move without a capture leaves the tally unchanged |
| `CapturedTally.TallyPositive` | hooks/useChessGame.ts:66-71 | a kind appears in a side's map only with a positive count, as entries are created only by captures |
| `CapturedTally.CapturesIsMultiplicity` | hooks/useChessGame.ts:68-73 | a count is the multiplicity of the matching `(color, captured)` entry in the history |
| `CapturedTally.SameCountsSameTally` | hooks/useChessGame.ts:66 | two tallies without zero entries that agree on every count are the same record |
| `CapturedTally.TallyOrderIndependent` | hooks/useChessGame.ts:64-75 | the tally depends only on which moves are in the history, not on their order |
| `CapturedTally.CountCaptured` | hooks/useChessGame.ts:64-75 | the `forEach` loop computes exactly the tally of the whole history, so recomputing on the same history gives the same record |
| `ChessGameHook.AiShouldMove` | hooks/useChessGame.ts:101 | the AI is never scheduled on a human's turn, never while `isAiThinking` holds, and never once the game is checkmate or drawn; it is always scheduled when the AI is to move in a live game with no request outstanding |
| `ChessGameHook.ChessGame.ScheduleAi` | hooks/useChessGame.ts:100-108 | the effect dispatches a request exactly when the guard holds: then `triggerAiMove` does not return early, the flag is raised and the request is the current FEN; otherwise nothing changes |
| `ChessGameHook.ChessGame.constructor` | hooks/useChessGame.ts:13-16 | a new session starts from the initial position and its FEN, White at the bottom, no AI request |
| `ChessGameHook.ChessGame.HandleMove` | hooks/useChessGame.ts:110-125 | the move is accepted exactly when the engine accepts it; then the position is the engine's result and `fen` its FEN; otherwise position and `fen` are unchanged; orientation and flag are never touched |
| `ChessGameHook.ChessGame.ResetGame` | hooks/useChessGame.ts:127-132 | the position becomes the initial one, `fen` the initial FEN, orientation White at the bottom, and the flag is cleared |
| `ChessGameHook.ChessGame.FlipBoard` | hooks/useChessGame.ts:134-136 | the orientation becomes the other one; position and `fen` are untouched |
| `ChessGameHook.Flipped` | hooks/useChessGame.ts:135 | flipping always changes the orientation |
| `ChessGameHook.FlipTwice` | hooks/useChessGame.ts:135 | two flips give the original orientation |
| `ChessGameHook.ChessGame.TriggerAiMove` | hooks/useChessGame.ts:77-83 | no request and no change when the game is checkmate or draw; otherwise the flag is raised, the request is the current FEN and the AI can no longer be scheduled |
| `ChessGameHook.ChessGame.ReceiveAiMove` | hooks/useChessGame.ts:83-97 | the flag is false afterwards on every path; an accepted token moves the game; a rejected token or a service error leaves position and `fen` unchanged |
| `ChessGameHook.ChessGame.RunAiTurn` | hooks/useChessGame.ts:77-98 | a whole AI turn: nothing changes once the game is decided; otherwise the flag ends false and the position is the engine's answer to the service's token for the current FEN, or unchanged, in which case an AI that was scheduled is scheduled again |
| `Chessboard.CanPickUp` | components/ChessboardComponent.tsx:22-31 | pick-up is refused when the game is over, and for a piece whose code starts with the colour letter of the side not to move; it is allowed in every other case, in particular for the side to move's pieces |
| `Chessboard.OnDrop` | components/ChessboardComponent.tsx:33-44 | the drop is forwarded as `{from: source, to: target, promotion: queen}`; the answer is a snapback exactly when that move is refused, and the game is then unchanged |
| `Chessboard.BoardHost.constructor` | components/ChessboardComponent.tsx:13 | the ref starts without a widget |
| `Chessboard.BoardHost.RunEffect` | components/ChessboardComponent.tsx:16-71 | nothing happens before the element and script are present; the first run creates a fresh widget from the FEN and orientation; later runs keep the same widget and set its orientation and position |
| `Chessboard.BoardHost.OnSnapEnd` | components/ChessboardComponent.tsx:46-51 | an existing widget is redrawn at the engine's current FEN; its orientation is kept |
| `Chessboard.BoardHost.Rerender` | components/ChessboardComponent.tsx:16-89 | a re-run of the effect (cleanup, then body) drops the destroyed widget and, once mounted, creates a fresh one at the new FEN and orientation |
| `Chessboard.BoardHost.Cleanup` | components/ChessboardComponent.tsx:81-87 | a widget that can be destroyed is dropped from the ref, so the next effect run re-creates it |
| `DeviceDetection.InitialDeviceInfo` | hooks/useDeviceDetection.ts:14-21 | the initial record has every flag false, platform `web` and an empty model |
| `DeviceDetection.Touchscreen` | hooks/useDeviceDetection.ts:25-31 | a touch screen is reported exactly when there are touch events, touch points, or a coarse pointer |
| `DeviceDetection.Lower` | hooks/useDeviceDetection.ts:64 | lower-casing keeps the length and maps every character (ASCII letters only) |
| `DeviceDetection.ContainsAt` | hooks/useDeviceDetection.ts:56-65 | `includes` finds an occurrence at any offset |
| `DeviceDetection.ContainsHasOffset` | hooks/useDeviceDetection.ts:56-65 | conversely, whenever `includes` is reported true the needle occurs at some offset, so the model's `Contains` is exactly `includes` |
| `DeviceDetection.Classify` | hooks/useDeviceDetection.ts:44-72 | the native decision tree: a device is classified exactly when its platform is `ios` or `android` |
| `DeviceDetection.VirtualIsPhone` | hooks/useDeviceDetection.ts:51-53 | an emulator counts as a phone |
| `DeviceDetection.IosByModel` | hooks/useDeviceDetection.ts:54-60 | a physical iOS device is a tablet iff its model contains `iPad`, and a phone otherwise |
| `DeviceDetection.AndroidTvWins` | hooks/useDeviceDetection.ts:64-66 | a physical Android device is a TV exactly when its user agent or model shows a TV indicator, whatever the window size |
| `DeviceDetection.AndroidTvUserAgent` | hooks/useDeviceDetection.ts:64-66 | a user agent saying "Android TV" in any letter case makes a physical Android device a TV |
| `DeviceDetection.AndroidBySize` | hooks/useDeviceDetection.ts:67-71 | a physical non-TV Android device is a tablet iff width or height is at least 600, a phone otherwise, and stays a tablet on a larger window |
| `DeviceDetection.DetectDevice` | hooks/useDeviceDetection.ts:23-91 | the touch-screen flag is the same on every path; without the plugin the fallback flags, `web` and an empty model are reported; with it the platform and model are copied and the flags follow `Classify`: exactly one flag on `ios`/`android`, none elsewhere |

## Left out

- chess.js itself (legality, check, mate and draw detection, FEN and SAN parsing) is not part of this model. Its verdicts and its `move` are inputs, as described above.
- The move service (`services/geminiService.ts`) is a network client. It is the parameter `service`, which returns a token or an error. Its trimming, its empty-answer error and its format warning are not modelled.
- The 500 ms `setTimeout` before the AI move and its `clearTimeout` cleanup (useChessGame.ts:103-106) are timing, not state. The model keeps only the guard.
- `ChessGameHook.ChessGame.RunAiTurn`: states an AI turn with nothing interleaved at the `await`. The interleaved case is covered only by calling `TriggerAiMove` and `ReceiveAiMove` separately.
- The capture sound in `handleMove` (useChessGame.ts:115-117) and the `console` and `alert` calls in `triggerAiMove` are side effects with no state in the model. `hooks/useSound.ts` is not part of this model.
- `handleMove` does not consult `isAiThinking`. The model keeps this, so a human move accepted during an outstanding AI request is modelled, not prevented.
- The React memo of `playerTurn` (keyed on `fen`) is not modelled, because `fen` always matches the position.
- `ChessGameHook.ChessGame.TriggerAiMove`, `ChessGameHook.ChessGame.ScheduleAi`, `ChessGameHook.ChessGame.AiScheduled` and `ChessGameHook.ChessGame.RunAiTurn`: read the status through `CurrentStatus`, derived from the current position, not through the memo of useChessGame.ts:62 (treated under Findings). With the memo, if White were the AI (`player1: 'ai'`, which the hook accepts although App.tsx:15-17 never passes it), a reset from a position where White was mated would keep the stale checkmate in the effect's guard and in `triggerAiMove`'s early exit, and the AI would not move until the status were recomputed. The model does not capture that.
- Device detection: the regular-expression fallback used when `Device.getInfo()` throws (useDeviceDetection.ts:77-80) is the parameter `fallback`. The plugin call and the `window`/`navigator` reads are parameters.
- `DeviceDetection.Lower`: case-folds ASCII letters only. JavaScript's `toLowerCase` also folds other letters; the two needles tested against the lower-cased user agent (`android tv`, `googletv`) are ASCII.
- `DeviceDetection.DetectDevice`: assumes `window` exists. The `typeof window` test and the exception a missing `window` would raise in the native branch are not modelled.
- Board component: `Chessboard.BoardWidget.constructor`, `SetPosition` and `SetOrientation` stand for the foreign chessboard.js calls `window.Chessboard(...)`, `board.position(...)` and `board.orientation(...)`. The model keeps only the position and orientation they set. The resize listener, the widget's drawing and animation, the other configuration fields (theme, notation, draggable) and the widget's own drag mechanics are presentation.
- Presentation files (`App.tsx`, the other components, icons) and build configuration are not part of this model. `types.ts` is reused as `ChessTypes`.

## Findings

| source | as written | input that shows it | evidently intended | confidence | as-written member | corrected member |
|---|---|---|---|---|---|---|
| hooks/useChessGame.ts:62 | `status` is memoised on `[game, playerTurn]`. `game` is one mutable object, so the status is recomputed only when the side to move changes | 1. f3 e5 2. g4 Qh4# (White is mated, White to move), then "new game": White is to move again, so the memo returns the old record, which still shows checkmate and "Negras ganan" | status recomputed on every change of the position (its `fen`), as the rest of the hook is | not executed; high | `StatusLemmas.MemoisedStatus`, `StatusLemmas.StaleStatusAfterReset` | `StatusLemmas.StatusForFen`, `StatusLemmas.StatusForFenIsFresh` |

The rest of the model uses the corrected behaviour: `ChessGame.CurrentStatus` derives the
status from the current position on every read.

A rejected AI move is only logged (useChessGame.ts:88-91), and a service error is only
alerted (useChessGame.ts:92-94). Neither stops the game. Lowering `isAiThinking` re-runs the
effect of lines 100-108, whose guard then holds again. So the code asks the service again
after another 500 ms, with no limit on the number of attempts. It does not leave the turn
pending. `ChessGame.RunAiTurn` states this: an AI turn that ends without a move leaves the
AI scheduled.
