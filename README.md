# Tic-Tac-Toe against a language model, modelled in Dafny

The game is a browser Tic-Tac-Toe. The human plays X. O's moves come from a
large-language-model call. This project models the two parts of the game that
hold its logic:

- `App` (`app.dfy`, from `App.tsx`):
  - the eight winning lines, checked in their fixed order;
  - `calculateWinner`, as the loop method `CalculateWinner`, proved equal to the
    function `Evaluate`;
  - the game component's five pieces of state, as the class `Game` with fields
    `board`, `currentPlayer`, `winningInfo`, `isDraw` and `isAiThinking`;
  - the methods that change that state: `UserMove` (`handleUserMove`), `Reset`
    (`resetGame`), `Step` (the effect that runs after every change),
    `ApplyAiMove` (what `triggerAiMove` does once the provider's index has
    arrived) and `AiTurn` (the provider call followed by `ApplyAiMove`).
- `GeminiService` (`gemini_service.dfy`, from `services/geminiService.ts`):
  - the list of available spots;
  - the check of the model's reply;
  - the first-empty-square fallback.

  The SDK call is an input, `Reply`: either the call or the JSON parse failed
  (`CallFailed`), or the reply was parsed and its `move` field is a number or
  something else.
- `Types` (`types.ts`): `Player`, the nine-square `Board`, and `WinningInfo`.

The asynchronous AI turn is cut at its one suspension point:

- `Step` runs the synchronous start of `triggerAiMove`: it raises
  `isAiThinking`.
- `ApplyAiMove(idx)` is the continuation after the `await`. It requires the
  thinking flag to be up.
- `PlayRound` chains the calls for one human move and the AI's answer:
  `UserMove`, `Step`, `AiTurn`, `Step`.

`Game.Valid()` is the invariant of reachable states. The constructor
establishes it and every method keeps it:

- a recorded win is the board's own first complete line;
- a draw means a full board with no complete line;
- while the AI is thinking, it is O's turn in an open game.

Its own `ensures` gives the consequence that a win and a draw are never both
recorded. `Game.Alternating()` says that X has one more mark than O exactly
when O is to move.

Every method except `Reset` also ensures `Keeps(old(board), board)`: a filled
square never changes.

A rejected or missing AI move does not leave the turn stuck with O.
`triggerAiMove` always hands the turn back to X (`App.tsx:76-77`), even when it
leaves the board unchanged, and `ApplyAiMove` models exactly that.

## Model

| member | source | states |
|---|---|---|
| `App.CalculateWinner` | App.tsx:12-31 | the loop over the eight lines returns exactly `Evaluate(squares)` (the first complete line with its label, or nothing) |
| `App.EvaluateNoneIff` | App.tsx:23-30 | the evaluator returns nothing if and only if none of the eight lines has three equal, non-empty squares |
| `App.EvaluateFirst` | App.tsx:13-28 | when line k is complete and no earlier line is, the result is line k's winner, cells and direction label, however many later lines are also complete |
| `App.EvaluateSound` | App.tsx:26-27 | a reported result has three cells, every one holding the reported winner, and is the first complete line in the order rows, columns, diagonals |
| `App.WinnerFromSome` | App.tsx:23-29 | a result found from line k on is the information of some complete line j at or after k, with no complete line between k and j |
| `App.CountPlace` | App.tsx:46-47 | writing a player into one empty square raises that player's count by one and leaves the other player's count alone |
| `App.AiTurnPlacesOneO` | App.tsx:64-69 | on a board with an empty square, the provider's resolved index always passes the write guard, whatever the reply, so O gains exactly one square and X's count is unchanged |
| `App.Game.Valid` | App.tsx:81-90 | the reachable-state invariant, whose ensures gives that a win and a draw are never recorded together |
| `App.Game.constructor` | App.tsx:34-38 | the initial state is an empty board, X to move, no win, no draw, not thinking; it satisfies the invariant and the alternation property |
| `App.Game.UserMove` | App.tsx:42-50 | the move is ignored after a win, on a taken square (which covers a drawn board) and on O's turn (which covers the AI's thinking time); otherwise X is written into square i alone and O is to move; no filled square changes |
| `App.Game.Reset` | App.tsx:52-58 | from any state: nine empty squares, X to move, no win, no draw, not thinking |
| `App.Game.Step` | App.tsx:81-90 | board and turn are left alone; a complete line is recorded first; otherwise a full board is recorded as a draw; otherwise, on O's turn with no recorded win, the thinking flag goes up |
| `App.Game.ApplyAiMove` | App.tsx:66-77 | O is written only at an index other than -1 whose square is empty, and the board is otherwise unchanged; in every case the thinking flag ends down and X is to move |
| `App.Game.AiTurn` | App.tsx:64-77 | the index applied is the one the provider resolves to; it names a square that was empty; the new board is the old one with only that square set to O |
| `App.PlayRound` | App.tsx:42-90 | after one human move that neither wins nor fills the board, O takes the provider's square, X is to move again, and the game records exactly the win or draw the new board shows |
| `App.PlayOpening` | App.tsx:42-77 | X plays 0, the model answers 3, X plays 1, the model answers 4: the board is X, X, _ / O, O, _ / _, _, _, with X to move and the game still open |
| `App.TopRowFinish` | App.tsx:81-84 | on that board X playing 2 records X's top-row win; a later click on square 5 changes nothing |
| `App.TopRowWin` | App.tsx:14 | X on the top row is reported as winner X, cells 0, 1, 2, label "top-row" |
| `App.FullBoardNoWinner` | App.tsx:85-86 | the board X O X / O X O / O X O has no complete line and no empty square, so it is a draw |
| `GeminiService.EmptyFromSpec` | services/geminiService.ts:33-36 | the indices listed from k on are exactly the empty squares at or after k, in strictly increasing order |
| `GeminiService.AvailableSpots` | services/geminiService.ts:84-86 | the available spots are exactly the indices of the empty squares, each once, in strictly increasing order |
| `GeminiService.FirstSpotIsFirstEmpty` | services/geminiService.ts:88 | the list is empty exactly on a full board; otherwise its first entry is the smallest empty index |
| `GeminiService.Fallback` | services/geminiService.ts:84-88 | the fallback is -1 exactly on a full board, and otherwise the smallest index whose square is empty |
| `GeminiService.ChooseMove` | services/geminiService.ts:70-88 | the result is -1 or an empty square of the board, and -1 only when the board is full; an accepted reply is returned as the number it is; a rejected one yields the smallest empty square |
| `GeminiService.ValidReplyHonoured` | services/geminiService.ts:70-72 | a reply naming an empty square by its integer index is the move returned |
| `GeminiService.RejectedReplyFallsBack` | services/geminiService.ts:70-81 | a failed call or parse, a field that is not a number, a number below 0 or above 8, a fraction, or a taken square all take the fallback path |
| `GeminiService.FailureOnLastSquare` | services/geminiService.ts:81-88 | when the call fails on a board whose only empty square is 8, the move is 8 |
| `GeminiService.OccupiedReplyNeverPlayed` | services/geminiService.ts:71-79 | a reply of 3 when X holds square 3 never resolves to 3 |

`getAiMove` never modifies the board it is given (services/geminiService.ts:53-88).
In the model this holds by construction: `ChooseMove` is a function of a board
value.

## Left out

- The Gemini SDK call, the API-key check, the model configuration and JSON
  schema, the prompt strings and `JSON.parse` (services/geminiService.ts:1-30,
  38-50, 55-68). These are foreign calls and text. Their outcome is the
  `Reply` input.
- Joining the available spots into the prompt text
  (services/geminiService.ts:36). That string only feeds the prompt. The list
  itself is modelled.
- Non-finite numbers in the `move` field: `Number` holds a real. A JSON number
  too large for a double parses to ±Infinity. It fails the range test, just as
  a large real does, so the outcome is the same.
- The 500 ms delay and the `async`/`await` suspension (App.tsx:62, 64). The
  provider's answer is applied in one step, `ApplyAiMove`.
- React's scheduling of `useState` updates and of the effect. `Step` is called
  explicitly after each change. React reruns the effect only when the board,
  the turn or the winner changes. Calling `Step` again in an unchanged state
  sets the same values again.
- A response that arrives after a reset. The source has no guard for it: the
  pending `triggerAiMove` would write its captured board back. `ApplyAiMove`
  requires the thinking flag, and `Reset` lowers it, so the model has no
  pending AI turn after a reset. It does not model what the source does then.
- Console logging (App.tsx:71, 73; services/geminiService.ts:8, 74, 82).
- Rendering and styling: App.tsx:93-143 and the components under
  `components/`. The squares being disabled while the AI thinks is also
  presentation; the turn check in `UserMove` already covers that time.
- Human indices outside 0..8. The board only forwards clicks on its nine
  squares, so `UserMove` requires `0 <= i < 9`.
- App.Game.ApplyAiMove: keeps `Alternating()` only when it writes O. The source
  also allows a rejected index on a board with empty squares, and then the turn
  passes without an O. `ChooseMove` never produces such an index on a non-full
  board, which `AiTurn` shows.
- App.Game.Valid: guarantees "a draw implies a full board with no win", not the
  converse. Right after a mutation, before `Step` runs, the board can be full
  while `isDraw` is still false, just as in the source.
