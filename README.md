# ChessBoard session model

A Dafny model of the logic in the `ChessBoard` screen of a React Native chess
app (`src/components/ChessBoard.tsx`). The screen draws an 8×8 board, lets the
player drag pieces, keeps a ten-minute countdown clock per side and has Play/Pause
and Reset buttons. It does not implement any chess rules: every question about
the position goes to the external `chess.js` library. The model covers what the
screen computes itself:

- `formatTime`, the `m:ss` text of a timer (`clock.dfy`), built from the
  JavaScript number formatting, truncating `%` and `padStart` modelled in
  `numbers.dfy`;
- `getPieceSymbol`, the glyph drawn for each piece (`pieces.dfy`);
- the algebraic name of a board cell (`a`–`h`, then `8 - row`) and the range
  guard applied when a drag ends (`squares.dfy`);
- the game session (`session.dfy`). Its state is the board snapshot, `isPlaying`,
  `currentPlayer`, `whiteTime` and `blackTime`. It changes through the
  one-second clock tick, `handleMove`, `handleReset` and `handlePlayPause`. The
  pure functions `TickState`, `TickWinner`, `MoveOutcomeOf`, `MoveState`,
  `ResetState` and `PlayPauseState` specify each step on a `State` value. The
  class `Session.ChessBoard` holds the same state as mutable fields. Each of its
  methods is proved to leave the fields exactly as the matching function says.
  The run lemmas cover any sequence of `Event`s.

The chess library is an oracle. A `Library` maps the request the screen sends
(from, to, promotion always a queen) to `Refused`, or to `Played` with the new
board and the checkmate, draw and stalemate flags. When the library throws, or
returns no move, the screen does the same thing in both cases: it changes
nothing. Both cases are therefore `Refused`. They differ only in what is
logged: a throw logs "Invalid move", a move the library declines logs nothing.
`chess.get(from)` is modelled as a
lookup in the `board` snapshot. This is sound because the screen copies
`chess.board()` into `board` after every change to the library's position:
once at mount, after each accepted move, and on reset. The standard starting
layout (`InitialBoard`) is what the library's board holds after `reset()`.

The `alert` and `console.log` calls are modelled as return values:
- `Tick` returns the side that wins on time;
- `HandleMove` returns a `MoveOutcome`: `Paused`, `NotYourTurn`, `InvalidMove`,
  or `Moved` with the `Ending`, which is checkmate won by the mover, a draw,
  stalemate, or play continues.

After checkmate, a draw or stalemate the screen sets `isPlaying` to false.
It does not refuse later moves with an error. Pressing Play again resumes the
clocks, and any later move is decided by the library.

## Model

| member | source | states |
|---|---|---|
| Numbers.NumberToString | src/components/ChessBoard.tsx:40 | The text of a whole number starts with '-' exactly when it is negative. A non-negative number's text is all digits and reads back as the number; a negative number's text after the '-' reads back as its magnitude. |
| Numbers.NatToDecimal | src/components/ChessBoard.tsx:40 | A natural number's decimal text is non-empty, all digits, one digit exactly below 10, and starts with '0' only for 0. |
| Numbers.TruncRemainder | src/components/ChessBoard.tsx:39 | JavaScript `%`: the remainder has the sign of the dividend, its size is below the divisor, and it differs from the dividend by a multiple of the divisor (the truncated quotient). |
| Numbers.PadStart | src/components/ChessBoard.tsx:40 | `padStart` gives length max(length of the text, width), ends with the original text, and has only fill characters in front. |
| Numbers.ParseNatToDecimal | src/components/ChessBoard.tsx:40 | Reading a number's decimal text back gives the number. |
| Numbers.NatToDecimalInjective | src/components/ChessBoard.tsx:40 | Different numbers have different decimal texts. |
| Clock.FormatTime | src/components/ChessBoard.tsx:37-41 | The timer text starts with '-' exactly for negative input. For seconds ≥ 0 it is minute digits, ':', and two digits whose first is 0–5. |
| Clock.SecondsField | src/components/ChessBoard.tsx:39-40 | For seconds ≥ 0 the padded field is exactly two digits: the tens and units of seconds mod 60. |
| Clock.FormatTimeDigits | src/components/ChessBoard.tsx:37-41 | For seconds ≥ 0 the text is the decimal minute count, ':', then the tens and units digits of seconds mod 60. |
| Clock.ParseClockDigits | src/components/ChessBoard.tsx:37-41 | Minute digits of seconds / 60, ':', and the two digits of seconds mod 60 read back as exactly those seconds. |
| Clock.FormatTimeRoundTrip | src/components/ChessBoard.tsx:37-41 | For every seconds ≥ 0 the text reads back as minutes * 60 + ss = seconds, with ss below 60. |
| Clock.FormatTimeInjective | src/components/ChessBoard.tsx:37-41 | Distinct non-negative times never show the same text. |
| Clock.StartingClockText | src/components/ChessBoard.tsx:161-162 | A full 600-second clock shows "10:00". |
| Clock.FirstTickClockText | src/components/ChessBoard.tsx:37-41 | One second below the full clock, 599 seconds, shows "9:59". |
| Pieces.PieceSymbol | src/components/ChessBoard.tsx:25-35 | Each of the 12 pieces has a one-character glyph. It is a white outline symbol (U+2654–U+2659) exactly for white, a filled one (U+265A–U+265F) exactly for black, and it reads back as that piece. |
| Pieces.SymbolPieceInverse | src/components/ChessBoard.tsx:25-35 | Every glyph the reverse lookup accepts is the glyph of the piece it names. |
| Pieces.PieceSymbolInjective | src/components/ChessBoard.tsx:25-35 | The 12 glyphs are pairwise distinct. |
| Squares.SquareName | src/components/ChessBoard.tsx:275-277 | For a cell in 0..7 × 0..7 the label has two characters: the file with code 97 + column, then the rank digit 8 - row. It parses back to the same cell. |
| Squares.ParseSquareInverse | src/components/ChessBoard.tsx:121-123 | Every algebraic name a1..h8 is the label of the cell it parses to. |
| Squares.SquareNamesDistinct | src/components/ChessBoard.tsx:275-277 | Distinct cells have distinct labels. |
| Squares.DragTarget | src/components/ChessBoard.tsx:120-125 | A target is emitted exactly when both indices are in 0..7, and it names that cell. |
| Session.PieceAt | src/components/ChessBoard.tsx:204 | A name that is not a square name gives no piece. On an 8×8 board a square name gives the entry in the row and column it parses to. |
| Session.MoverOwns | src/components/ChessBoard.tsx:204-205 | A name that is not a square name never passes the turn check. On an 8×8 board a square name passes exactly when its cell holds a piece of the side to move. |
| Session.PieceAtSquareName | src/components/ChessBoard.tsx:204 | Looking up a drawn cell's label in an 8×8 snapshot gives the piece drawn in that cell. |
| Session.InitialLayout | src/components/ChessBoard.tsx:240-241 | The board after reset is 8×8 and has the standard layout: pawn ranks, empty middle ranks, e1 white king, d8 black queen. |
| Session.TickState | src/components/ChessBoard.tsx:167-188 | A tick changes nothing while paused. It never touches the board, the turn or the other clock. A positive active clock loses exactly 1. An active clock ≤ 0 becomes 0 and the game stops. |
| Session.TickWinner | src/components/ChessBoard.tsx:171-184 | A timeout is announced exactly when the tick stops a running game. The winner is the side not to move, and the clock of the side to move was ≤ 0. |
| Session.TimeoutOneTickAfterZero | src/components/ChessBoard.tsx:169-177 | A clock at 1 goes to 0 with the game still running. The timeout and the stop come on the following tick. |
| Session.EndingOf | src/components/ChessBoard.tsx:220-232 | Play continues exactly when the library reports no checkmate, no draw and no stalemate. Checkmate wins for the side that moved and takes precedence. A draw is reported exactly when there is no checkmate. Stalemate is reported exactly when there is neither checkmate nor draw. |
| Session.MoveOutcomeOf | src/components/ChessBoard.tsx:197-236 | The move is ignored exactly when paused. It is refused as not your turn exactly when the from-square is empty or holds the other side's piece. It is invalid exactly when the library refuses, and made exactly when the library plays it. A made move reports the ending `EndingOf` gives for the library's answer and the mover. |
| Session.MoveState | src/components/ChessBoard.tsx:197-237 | Every rejection leaves the state unchanged. A made move takes the library's board, flips the turn exactly once, and keeps both clocks. It stops the game exactly on checkmate, draw or stalemate. The turn changes exactly when the move is made. |
| Session.NoDoubleMove | src/components/ChessBoard.tsx:205-218 | Right after a side's move, an attempt to move one of its own pieces is refused and changes nothing. |
| Session.ResetState | src/components/ChessBoard.tsx:239-246 | After reset the board is the initial one, the game is paused, White is to move, and both clocks are 600. |
| Session.ResetWaitsForPlay | src/components/ChessBoard.tsx:239-246 | After reset, ticks and dropped pieces change nothing until Play is pressed. |
| Session.WhiteMovesFirst | src/components/ChessBoard.tsx:204-208 | After reset and Play, a drag passes the turn check exactly when it starts from a white piece. |
| Session.PlayPauseState | src/components/ChessBoard.tsx:248-250 | Play/Pause negates `isPlaying` and changes nothing else. |
| Session.PlayPauseTwice | src/components/ChessBoard.tsx:248-250 | Pressing Play/Pause twice restores the original state. |
| Session.PausedIgnoresTicksAndMoves | src/components/ChessBoard.tsx:164-200 | While the game is paused, ticks and dropped pieces change nothing. |
| Session.ClocksStayNonNegative | src/components/ChessBoard.tsx:168-188 | Clocks that start ≥ 0 stay ≥ 0 through any sequence of ticks, moves and button presses. |
| Session.ClocksOnlyRunDown | src/components/ChessBoard.tsx:168-188 | With no Reset, starting from clocks ≥ 0, no clock ever gains time. The two clocks together lose at most one second per tick. |
| Session.ChessBoard.constructor | src/components/ChessBoard.tsx:156-162 | The state hooks start as the initial board, paused, White to move, and 600/600. |
| Session.ChessBoard.Tick | src/components/ChessBoard.tsx:168-188 | The interval callback leaves the fields equal to `TickState` of the old fields. It returns `TickWinner`. |
| Session.ChessBoard.HandleMove | src/components/ChessBoard.tsx:197-237 | `handleMove` leaves the fields equal to `MoveState` of the old fields. It returns `MoveOutcomeOf`. |
| Session.ChessBoard.HandleReset | src/components/ChessBoard.tsx:239-246 | `handleReset` leaves the fields equal to `ResetState`. |
| Session.ChessBoard.HandlePlayPause | src/components/ChessBoard.tsx:248-250 | `handlePlayPause` leaves the fields equal to `PlayPauseState`. |

## Left out

- Chess rules: move legality, castling, en passant, promotion, check, checkmate, draw and stalemate detection, and the library's own turn tracking all belong to `chess.js`. Its source is not part of this model, so it is an oracle (`Library`). The board it returns is taken as given.
- The order of the end-of-game tests (checkmate, then draw, then stalemate) is kept as written. Whether the library can ever report stalemate without also reporting a draw is a property of the library and is not modelled.
- Gesture and animation: the shared values, the spring animation, and the `Math.round` of the floating-point drag offset divided by the window-derived square size. The rounded target column and row are inputs to `DragTarget`.
- Timer scheduling: `setInterval`, `clearInterval` and the effect lifecycle. The interval is re-created whenever `isPlaying` or `currentPlayer` changes, which resets the sub-second phase. The model treats one interval firing as one call of `Tick`, serialized with the other handlers.
- React rendering semantics: each handler is modelled as acting on the current state. Stale closures and batched state updates are not modelled.
- `alert` and `console.log` are output only. Their content is returned as `TickWinner` and `MoveOutcome` values.
- Clock.FormatTime: models whole numbers of seconds only. JavaScript numbers are floating point, but the clocks only ever hold integers (600 minus whole ticks).
- A malformed from-square reads as an empty square (`PieceAt` gives `None`). The model assumes the library's `get` answers that way, and the screen only ever passes labels of drawn cells.
- Rendering and layout: JSX, square colours, the `Timer` and `ControlButtons` components, and the style sheet.
