# Tic-tac-toe engine, modelled in Dafny

This project models the game engine of a console tic-tac-toe program written in C (`game.c`). The program keeps its state in two globals: a `char board[3][3]` and a `char currentPlayer`. A round starts with `initializeBoard`, which writes each cell's position digit '1'..'9' into it. Then X moves first. Each entered position goes through `makeMove`. A move that was made is checked with `checkWin` first and `checkDraw` second. The player changes through `switchPlayer` only when neither ends the round. The round loop runs until `gameOver` is set.

The project has three modules:

- `Board` (board.dfy): the board as a value. It has nine cells read row by row, so the cell in row r and column c is cell 3*r + c, which is position 3*r + c + 1. It defines the position digits, the eight lines, `Wins`, `Full`, the mark and free-cell counts, and lemmas about writing a mark into a cell.
- `Rules` (rules.dfy): the turn step of the round loop as a function `Turn` from state and position to the new state and an `Outcome`. The outcome is `Rejected`, `Won`, `Drawn` or `Continues`; it stands for the program's printed messages. `Play` is the round loop over a sequence of entered positions. `Invariant` is a property of every state a round reaches, and the lemmas prove that each turn keeps it.
- `Engine` (game.dfy): class `Game`, with the program's state updated in place. It has `board: array2<char>`, `currentPlayer: char` and the loop flag `gameOver: bool`. Each core function of `game.c` is a method. Each method is proved against the value view: `Cells()` gives the nine cells, and `Snapshot()` gives the whole state.

A cell is free when it holds neither 'X' nor 'O', which is the test `makeMove` and `checkDraw` use. From `NewRound` on, every cell holds 'X', 'O' or its own digit (`WellFormed`, part of `Game.Valid`). Before that the storage holds zero characters, as C leaves its globals.

In three places the model follows the code more literally than one might expect:

- A cell is a character, not a three-state value.
- `checkDraw` reports only that the board is full. The rule that a win comes before a draw lives in the round loop (game.c:59-69), so it is proved about `Turn` and `Game.Step`.
- No error code rejects a move after the round is over. The round loop simply stops reading positions (game.c:41), so `Game.Step` requires `!gameOver` and `Play` stops at the first state that is over.

## Model

| member | source | states |
|---|---|---|
| `Board.Digit` | game.c:95-98 | the label of free cell k is the digit '1' + k, which is never a mark |
| `Board.Opponent` | game.c:203-205 | the next player is always X or O, and is O exactly when the current player is X |
| `Board.OpponentTwice` | game.c:203-205 | for a player X or O, switching changes the player and switching twice gives the same player back |
| `Board.Place` | game.c:140 | writing a mark changes exactly the chosen cell and keeps the board's size |
| `Board.Initial` | game.c:94-101 | the fresh board that `initializeBoard` writes: nine cells, each holding its own position digit (proved by `Board.InitialDigits` and `Board.InitialIsEmpty`) |
| `Board.InitialDigits` | game.c:94-101 | cell k of the fresh board holds the digit of position k + 1 |
| `Board.InitialIsEmpty` | game.c:94-101 | the fresh board is well formed, has no mark, nine free cells and no line for either player, and is not full |
| `Board.CountAfterPlace` | game.c:140 | writing p into a cell adds one to the count of p and removes one from the count of the cell's old content |
| `Board.EmptyCountAfterPlace` | game.c:140 | writing into a cell changes the free-cell count according to whether the old and the new content are marks |
| `Board.MarkingUsesOneCell` | game.c:131-141 | marking a free cell leaves exactly one free cell fewer |
| `Board.FullIffNoneEmpty` | game.c:188-198 | the board is full exactly when the count of free cells is zero |
| `Board.NoneMarked` | game.c:94-101 | on a board without marks every cell is free and neither mark is counted |
| `Board.PlaceKeepsWellFormed` | game.c:135-140 | writing X or O into a cell keeps every cell a mark or its own digit |
| `Board.PlaceGivesNoLineToOthers` | game.c:148-182 | a move by one player never completes a line for another player |
| `Board.WinNeedsThreeMarks` | game.c:148-182 | a player who holds a line has at least three marks on the board |
| `Rules.Start` | game.c:36-38 | a round starts on a nine-cell board with X to move and the loop running |
| `Rules.Turn` | game.c:57-76 | a turn keeps the board at nine cells (its meaning is stated by the lemmas below) |
| `Rules.Play` | game.c:41-77 | the round loop keeps the board at nine cells (its meaning is stated by the lemmas below) |
| `Rules.StartInvariant` | game.c:36-38 | the starting state satisfies the round invariant |
| `Rules.RejectedChangesNothing` | game.c:124-137 | a move is rejected exactly when its position is outside 1..9 or its cell holds a mark; a rejected move changes neither the board, the player nor the flag |
| `Rules.AcceptedMoveOutcome` | game.c:57-73 | an accepted move writes the mover's mark into the chosen cell; a line for the mover is a win even on a full board; otherwise a full board is a draw; the player changes only when neither holds |
| `Rules.TurnKeepsInvariant` | game.c:57-73 | every turn keeps the invariant: cells well formed, X has one mark more than O exactly when X moved last, a running round has no line and a free cell, and an ended round has a line for its last mover or a full board, and no line for the other player |
| `Rules.PlayKeepsInvariant` | game.c:41-77 | the round loop keeps the invariant for any sequence of entered positions |
| `Rules.RoundInvariant` | game.c:34-77 | every round started fresh satisfies the invariant after any entered positions, so a won round has exactly one player with a line |
| `Rules.AcceptedMoveTakesOneCell` | game.c:57-73 | an accepted move uses exactly one free cell, and the move into the last free cell always ends the round |
| `Rules.NoWinBeforeFifthMark` | game.c:59-63 | in any reachable state, a player can hold a line only once at least five marks are on the board |
| `Rules.FreshMoveThenRepeat` | game.c:124-141 | every position 1..9 is accepted on a fresh board and passes the turn to O; the same position entered again is rejected |
| `Rules.TurnContinues` | game.c:57-73 | an accepted move that completes no line and leaves a free cell writes the mark and passes the turn to the other player |
| `Rules.PlayFirst` | game.c:41-77 | a running round takes the turn for its first entered position and continues with the rest |
| `Rules.OpeningAtOne` | game.c:57-73 | from the starting state, X's move at 1 marks the top-left cell and passes the turn to O |
| `Rules.TopRowWin` | game.c:34-77 | a round with the entered positions 1, 4, 2, 5, 3 ends with X holding the top row on the board XXXOO6789, X the winner, whatever positions follow (chained through `Rules.TopRowFrom1`..`4`) |
| `Rules.FullBoardDraw` | game.c:34-77 | a round with the entered positions 1, 2, 3, 5, 4, 6, 8, 7, 9 ends on the full board XOXXOOOXX as a draw, X still the player, whatever positions follow (chained through `Rules.DrawFrom1`..`8`) |
| `Rules.LastCellDraw` | game.c:65-69 | on the board XOXXOOOX9, X's move at 9 fills the board without a line and ends the round as a draw, with the player unchanged (the general rule is `Rules.AcceptedMoveOutcome`) |
| `Rules.LastCellWin` | game.c:59-69 | on the board XOXOXOOX9, X's move at 9 fills the board and completes a diagonal, and it is a win, not a draw (the general rule is `Rules.AcceptedMoveOutcome`) |
| `Engine.Game.constructor` | game.c:11-12 | the storage is a 3x3 array of zero characters, the player is zero and the loop flag is clear |
| `Engine.Game.InitializeBoard` | game.c:94-101 | the running-counter loop leaves the cells equal to the fresh board, with each cell holding its own position digit |
| `Engine.Game.MakeMove` | game.c:124-142 | a move succeeds exactly when its position is in 1..9 and its cell holds no mark; on failure the board is unchanged; on success only array cell ((p-1)/3, (p-1)%3) changes, it gets the current player's mark, the player is unchanged, one free cell fewer is left, and the board stays well formed |
| `Engine.Game.CheckWin` | game.c:148-182 | the row loop, the column loop and the two diagonal tests return true exactly when the current player holds one of the eight lines, and change nothing |
| `Engine.Game.CheckDraw` | game.c:188-198 | the nested scan returns true exactly when every cell holds X or O, and changes nothing |
| `Engine.Game.SwitchPlayer` | game.c:203-205 | the player becomes O after X and X after anything else |
| `Engine.Game.NewRound` | game.c:36-38 | after round set-up the object is valid and its state is the starting state |
| `Engine.Game.Step` | game.c:57-76 | one pass of the loop body produces exactly the new state and the outcome of `Turn`, and keeps the object valid |
| `Engine.Game.PlayRound` | game.c:34-77 | a round over the entered positions ends in the state of `Play`, which satisfies the round invariant |

## Left out

- `displayBoard` and `displayInstructions` (game.c:106-118, 210-225): they only print. The label a free cell shows is its digit, given by `Board.Digit`.
- Reading input with `scanf` and discarding a bad line with `getchar` (game.c:44-54): console input. A line that is not a number changes no state and the loop asks again, so `Play` and `Game.PlayRound` take the numbers that were read, in order, as a sequence.
- The play-again prompt (game.c:79-85): console input. Each round is a fresh `Game.NewRound` or `Game.PlayRound`.
- The printed messages (game.c:45-46, 52, 61, 67, 75): presentation. The outcome a message announces is the `Outcome` that `Turn` and `Game.Step` return.
- C `int` width: `makeMove` checks the range before doing any arithmetic on the position, so unbounded integers behave the same for every `int` input. The `char` counter in `initializeBoard` only goes from '1' to ':', so it does not wrap.
- End of input: when the input ends before the round does, `scanf` at game.c:49 fails, and the loop `while (getchar() != '\n');` at game.c:51 never ends, because `getchar` keeps returning `EOF`. The model does not capture that hang: when the entered positions run out, `Play` and `Game.PlayRound` stop in a running state.
