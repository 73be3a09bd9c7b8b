/**
  The game engine as the program runs it: a 3x3 character array and the
  current player, updated in place, and the flag that ends the round loop.
  Each method is proved against the value view of the same state (Board and
  Rules): the nine cells read row by row, the player and the flag.
 */
module Engine {
  import opened Board
  import opened Rules

  class Game {
    var board: array2<char>
    var currentPlayer: char
    var gameOver: bool

    /** The board is the 3x3 array the program declares. */
    predicate Shaped()
      reads this
    {
      board.Length0 == 3 && board.Length1 == 3
    }

    /** The cells read row by row: row r, column c is cell 3*r + c. */
    ghost function Cells(): (b: seq<char>)
      reads this, board
      requires Shaped()
      ensures |b| == 9
      ensures forall r, c :: 0 <= r < 3 && 0 <= c < 3 ==> b[3 * r + c] == board[r, c]
    {
      [board[0, 0], board[0, 1], board[0, 2],
       board[1, 0], board[1, 1], board[1, 2],
       board[2, 0], board[2, 1], board[2, 2]]
    }

    /** Every cell is a mark or its own digit, and the player is X or O. */
    ghost predicate Valid()
      reads this, board
    {
      Shaped() && WellFormed(Cells()) && Marked(currentPlayer)
    }

    /** The state of the round as a value. */
    ghost function Snapshot(): (s: State)
      reads this, board
      requires Shaped()
      ensures s.board == Cells() && s.player == currentPlayer && s.over == gameOver
    {
      State(Cells(), currentPlayer, gameOver)
    }

    /** The program's storage before any round: the array and the player are
        zero, as C leaves its globals, and the round loop has not started. */
    constructor ()
      ensures Shaped() && fresh(board)
      ensures forall r, c :: 0 <= r < 3 && 0 <= c < 3 ==> board[r, c] == '\0'
      ensures currentPlayer == '\0' && !gameOver
    {
      board := new char[3, 3]((r, c) => '\0');
      currentPlayer := '\0';
      gameOver := false;
    }

    /** Fills the cells with the digits '1' to '9', row by row, from a running
        counter. */
    method InitializeBoard()
      requires Shaped()
      modifies board
      ensures Cells() == Initial()
    {
      var num := '1';
      for i := 0 to 3
        invariant num as int == '1' as int + 3 * i
        invariant forall r, c :: 0 <= r < i && 0 <= c < 3 ==> board[r, c] == Digit(3 * r + c)
      {
        for j := 0 to 3
          invariant num as int == '1' as int + 3 * i + j
          invariant forall r, c :: 0 <= r < i && 0 <= c < 3 ==> board[r, c] == Digit(3 * r + c)
          invariant forall c :: 0 <= c < j ==> board[i, c] == Digit(3 * i + c)
        {
          board[i, j] := num;
          num := (num as int + 1) as char;
        }
      }
      InitialIsEmpty();
    }

    /** Places the current player's mark at a position 1..9. The move is
        refused, and nothing changes, when the position is out of range or its
        cell already holds a mark; otherwise exactly that cell changes and one
        free cell fewer is left. */
    method MakeMove(position: int) returns (ok: bool)
      requires Valid()
      modifies board
      ensures Valid()
      ensures ok <==> InRange(position) && !Marked(old(Cells())[position - 1])
      ensures !ok ==> Cells() == old(Cells())
      ensures ok ==> board[(position - 1) / 3, (position - 1) % 3] == currentPlayer
      ensures ok ==> Cells() == Place(old(Cells()), position - 1, currentPlayer)
      ensures ok ==> EmptyCount(Cells()) == EmptyCount(old(Cells())) - 1
    {
      if position < 1 || position > 9 {
        return false;
      }
      var row := (position - 1) / 3;
      var col := (position - 1) % 3;
      ghost var before := Cells();
      assert before[position - 1] == board[row, col];
      if board[row, col] == 'X' || board[row, col] == 'O' {
        return false;
      }
      board[row, col] := currentPlayer;
      ok := true;
      ghost var after := Place(before, position - 1, currentPlayer);
      forall k | 0 <= k < 9 ensures Cells()[k] == after[k] {
        assert Cells()[3 * (k / 3) + k % 3] == board[k / 3, k % 3];
      }
      MarkingUsesOneCell(before, position - 1, currentPlayer);
      PlaceKeepsWellFormed(before, position - 1, currentPlayer);
    }

    /** Reports whether the current player holds a whole row, column or
        diagonal; rows are examined first, then columns, then the diagonals. */
    method CheckWin() returns (won: bool)
      requires Shaped()
      ensures won == Wins(Cells(), currentPlayer)
    {
      for i := 0 to 3
        invariant forall r :: 0 <= r < i ==> !Owns(Cells(), currentPlayer, Row(r))
      {
        if board[i, 0] == currentPlayer && board[i, 1] == currentPlayer && board[i, 2] == currentPlayer {
          assert Owns(Cells(), currentPlayer, Lines[i]);
          return true;
        }
      }
      for i := 0 to 3
        invariant forall r :: 0 <= r < 3 ==> !Owns(Cells(), currentPlayer, Row(r))
        invariant forall c :: 0 <= c < i ==> !Owns(Cells(), currentPlayer, Column(c))
      {
        if board[0, i] == currentPlayer && board[1, i] == currentPlayer && board[2, i] == currentPlayer {
          assert Owns(Cells(), currentPlayer, Lines[3 + i]);
          return true;
        }
      }
      if board[0, 0] == currentPlayer && board[1, 1] == currentPlayer && board[2, 2] == currentPlayer {
        assert Owns(Cells(), currentPlayer, Lines[6]);
        return true;
      }
      if board[0, 2] == currentPlayer && board[1, 1] == currentPlayer && board[2, 0] == currentPlayer {
        assert Owns(Cells(), currentPlayer, Lines[7]);
        return true;
      }
      return false;
    }

    /** Reports whether every cell holds a mark. */
    method CheckDraw() returns (draw: bool)
      requires Shaped()
      ensures draw == Full(Cells())
    {
      for i := 0 to 3
        invariant forall r, c :: 0 <= r < i && 0 <= c < 3 ==> Marked(board[r, c])
      {
        for j := 0 to 3
          invariant forall r, c :: 0 <= r < i && 0 <= c < 3 ==> Marked(board[r, c])
          invariant forall c :: 0 <= c < j ==> Marked(board[i, c])
        {
          if board[i, j] != 'X' && board[i, j] != 'O' {
            assert !Marked(Cells()[3 * i + j]);
            return false;
          }
        }
      }
      return true;
    }

    /** X passes the turn to O, and anything else to X. */
    method SwitchPlayer()
      modifies this`currentPlayer
      ensures currentPlayer == Opponent(old(currentPlayer))
    {
      currentPlayer := if currentPlayer == 'X' then 'O' else 'X';
    }

    /** The start of a round: a fresh board, X to move, the loop running. */
    method NewRound()
      requires Shaped()
      modifies board, this`currentPlayer, this`gameOver
      ensures Valid() && Snapshot() == Start()
    {
      InitializeBoard();
      InitialDigits();
      assert WellFormed(Cells());
      currentPlayer := 'X';
      gameOver := false;
    }

    /** One pass of the round loop with a position already read: the move is
        tried; a move that was made is checked for a win first and a draw
        second, and the turn passes only when neither ends the round. */
    method Step(position: int) returns (outcome: Outcome)
      requires Valid() && !gameOver
      modifies board, this`currentPlayer, this`gameOver
      ensures Valid()
      ensures TurnResult(Snapshot(), outcome) == Turn(old(Snapshot()), position)
    {
      var ok := MakeMove(position);
      if ok {
        var won := CheckWin();
        if won {
          gameOver := true;
          outcome := Won(currentPlayer);
        } else {
          var draw := CheckDraw();
          if draw {
            gameOver := true;
            outcome := Drawn;
          } else {
            SwitchPlayer();
            outcome := Continues;
          }
        }
      } else {
        outcome := Rejected;
      }
    }

    /** A whole round over the positions entered, in order: the loop stops
        reading positions once the round is over. Every state it reaches keeps
        the round invariant. */
    method PlayRound(moves: seq<int>)
      requires Shaped()
      modifies board, this`currentPlayer, this`gameOver
      ensures Valid() && Snapshot() == Play(Start(), moves)
      ensures Invariant(Snapshot())
    {
      NewRound();
      var i := 0;
      while i < |moves| && !gameOver
        invariant 0 <= i <= |moves|
        invariant Valid()
        invariant Play(Start(), moves) == Play(Snapshot(), moves[i..])
      {
        assert moves[i..][1..] == moves[i + 1..];
        var _ := Step(moves[i]);
        i := i + 1;
      }
      RoundInvariant(moves);
    }
  }
}
