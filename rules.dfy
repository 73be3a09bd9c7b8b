/**
  The turn step of a round as a function of the game state: the move is tried,
  a successful move is checked for a win first and a draw second, and the
  player changes only while the game goes on. A round is the same step applied
  to each entered position until the game is over.
 */
module Rules {
  import opened Board

  /** Everything one round keeps: the nine cells, whose turn it is, and
      whether the round has ended. */
  datatype State = State(board: seq<char>, player: char, over: bool)

  /** What a turn reports to the player. */
  datatype Outcome = Rejected | Won(winner: char) | Drawn | Continues

  datatype TurnResult = TurnResult(after: State, outcome: Outcome)

  /** The state a round starts in: a fresh board, X to move. */
  function Start(): (s: State)
    ensures |s.board| == 9 && s.player == 'X' && !s.over
  {
    State(Initial(), 'X', false)
  }

  /** A position the players may type. */
  predicate InRange(position: int) {
    1 <= position <= 9
  }

  /** The move is accepted: the position is in range and its cell is free. */
  predicate Legal(b: seq<char>, position: int)
    requires |b| == 9
  {
    InRange(position) && !Marked(b[position - 1])
  }

  /** One turn of a running round. */
  function Turn(s: State, position: int): (t: TurnResult)
    requires |s.board| == 9 && !s.over
    ensures |t.after.board| == 9
  {
    if !Legal(s.board, position) then
      TurnResult(s, Rejected)
    else
      var b := Place(s.board, position - 1, s.player);
      if Wins(b, s.player) then
        TurnResult(State(b, s.player, true), Won(s.player))
      else if Full(b) then
        TurnResult(State(b, s.player, true), Drawn)
      else
        TurnResult(State(b, Opponent(s.player), false), Continues)
  }

  /** The round: turns are taken for the entered positions, in order, until
      the game is over; positions left after that are not read. */
  function Play(s: State, moves: seq<int>): (s': State)
    requires |s.board| == 9
    ensures |s'.board| == 9
    decreases |moves|
  {
    if moves == [] || s.over then s else Play(Turn(s, moves[0]).after, moves[1..])
  }

  /** What holds of every state a round passes through:
      - every cell holds a mark or its own digit, and the player is X or O;
      - X has placed one mark more than O exactly when the last mover was X
        (while the round runs, the last mover is the one not to move);
      - a running round has no line and a free cell;
      - an ended round was ended by the player it stopped at: that player
        holds a line, or the board is full, and the other player holds none. */
  ghost predicate Invariant(s: State) {
    && WellFormed(s.board)
    && Marked(s.player)
    && Count(s.board, 'X') == Count(s.board, 'O') + (if (s.player == 'X') == s.over then 1 else 0)
    && (!s.over ==> !Wins(s.board, 'X') && !Wins(s.board, 'O') && !Full(s.board))
    && (s.over ==> (Wins(s.board, s.player) || Full(s.board)) && !Wins(s.board, Opponent(s.player)))
  }

  lemma StartInvariant()
    ensures Invariant(Start())
  {
    InitialIsEmpty();
  }

  /** A rejected move changes nothing, and a move is rejected exactly when
      it is out of range or its cell is taken. */
  lemma RejectedChangesNothing(s: State, position: int)
    requires |s.board| == 9 && !s.over
    ensures Turn(s, position).outcome == Rejected <==> !InRange(position) || Marked(s.board[position - 1])
    ensures Turn(s, position).outcome == Rejected ==> Turn(s, position).after == s
  {
  }

  /** An accepted move writes the mover's mark into exactly the chosen cell,
      and a win is reported before a draw: a full board with a line for the
      mover is a win. The player changes only when neither holds. */
  lemma AcceptedMoveOutcome(s: State, position: int)
    requires |s.board| == 9 && !s.over && Legal(s.board, position)
    ensures var t := Turn(s, position);
      && t.after.board == Place(s.board, position - 1, s.player)
      && (Wins(t.after.board, s.player) ==> t.outcome == Won(s.player) && t.after.over && t.after.player == s.player)
      && (!Wins(t.after.board, s.player) && Full(t.after.board) ==> t.outcome == Drawn && t.after.over && t.after.player == s.player)
      && (!Wins(t.after.board, s.player) && !Full(t.after.board) ==> t.outcome == Continues && !t.after.over && t.after.player == Opponent(s.player))
  {
  }

  /** Every turn of a round keeps the invariant. */
  lemma TurnKeepsInvariant(s: State, position: int)
    requires Invariant(s) && !s.over
    ensures Invariant(Turn(s, position).after)
  {
    if Legal(s.board, position) {
      var k := position - 1;
      var p := s.player;
      var b := Place(s.board, k, p);
      var q := Opponent(p);
      CountAfterPlace(s.board, k, p, 'X');
      CountAfterPlace(s.board, k, p, 'O');
      PlaceGivesNoLineToOthers(s.board, k, p, q);
      PlaceKeepsWellFormed(s.board, k, p);
    }
  }

  /** The invariant holds after any sequence of entered positions. */
  lemma {:induction false} PlayKeepsInvariant(s: State, moves: seq<int>)
    requires Invariant(s)
    ensures Invariant(Play(s, moves))
    decreases |moves|
  {
    if moves != [] && !s.over {
      TurnKeepsInvariant(s, moves[0]);
      PlayKeepsInvariant(Turn(s, moves[0]).after, moves[1..]);
    }
  }

  /** Every round, for any positions entered, stays in a state of the invariant:
      in particular a won round has exactly one player with a line. */
  lemma RoundInvariant(moves: seq<int>)
    ensures Invariant(Play(Start(), moves))
  {
    StartInvariant();
    PlayKeepsInvariant(Start(), moves);
  }

  /** An accepted move takes one free cell, and the move that takes the last
      free cell always ends the round. */
  lemma AcceptedMoveTakesOneCell(s: State, position: int)
    requires Invariant(s) && !s.over && Legal(s.board, position)
    ensures EmptyCount(Turn(s, position).after.board) == EmptyCount(s.board) - 1
    ensures EmptyCount(s.board) == 1 ==> Turn(s, position).after.over
  {
    var b := Place(s.board, position - 1, s.player);
    MarkingUsesOneCell(s.board, position - 1, s.player);
    FullIffNoneEmpty(b);
  }

  /** No one holds a line before five marks are on the board: a round is
      never won before its fifth accepted move. */
  lemma NoWinBeforeFifthMark(s: State, p: char)
    requires Invariant(s) && Wins(s.board, p)
    ensures Count(s.board, 'X') + Count(s.board, 'O') >= 5
  {
    WinNeedsThreeMarks(s.board, p);
  }

  /** A move into any cell of a fresh board is accepted and the turn passes
      to O; the same position entered again is rejected. */
  lemma FreshMoveThenRepeat(position: int)
    requires InRange(position)
    ensures Turn(Start(), position).outcome == Continues
    ensures Turn(Start(), position).after.player == 'O'
    ensures Turn(Turn(Start(), position).after, position).outcome == Rejected
  {
    var k := position - 1;
    var b := Place(Initial(), k, 'X');
    assert forall j :: 0 <= j < 9 && j != k ==> b[j] == Initial()[j];
    assert !Full(b) by {
      var j := if k == 0 then 1 else 0;
      assert b[j] == Initial()[j];
    }
    assert !Wins(b, 'X') by {
      forall i | 0 <= i < |Lines| ensures !Owns(b, 'X', Lines[i]) {
        var l := Lines[i];
        assert l.a != l.b && l.a < 9 && l.b < 9;
        assert l.a == k || b[l.a] == Initial()[l.a];
      }
    }
  }

  /** A turn that neither completes a line nor fills the board: the mark is
      written and the turn passes on. */
  lemma TurnContinues(s: State, position: int, b: seq<char>, free: nat)
    requires |s.board| == 9 && !s.over && InRange(position) && !Marked(s.board[position - 1])
    requires b == s.board[position - 1 := s.player]
    requires free < 9 && !Marked(b[free])
    requires forall i :: 0 <= i < |Lines| ==> !Owns(b, s.player, Lines[i])
    ensures Turn(s, position) == TurnResult(State(b, Opponent(s.player), false), Continues)
  {
  }

  /** A running round takes a turn for its first entered position and goes on
      with the rest. */
  lemma PlayFirst(s: State, position: int, rest: seq<int>)
    requires |s.board| == 9 && !s.over
    ensures Play(s, [position] + rest) == Play(Turn(s, position).after, rest)
  {
    assert ([position] + rest)[1..] == rest;
  }

  /** X opening at 1 marks the top-left cell and passes the turn to O. */
  lemma OpeningAtOne()
    ensures Turn(Start(), 1) == TurnResult(State("X23456789", 'O', false), Continues)
  {
    TurnContinues(Start(), 1, "X23456789", 8);
  }

  // The round 1, 4, 2, 5, 3 from the state after its k-th move (TopRowFrom<k>).

  lemma TopRowFrom4(rest: seq<int>)
    ensures Play(State("XX3OO6789", 'X', false), [3] + rest) == State("XXXOO6789", 'X', true)
  {
    assert Turn(State("XX3OO6789", 'X', false), 3) == TurnResult(State("XXXOO6789", 'X', true), Won('X')) by {
      assert Owns("XXXOO6789", 'X', Lines[0]);
    }
    PlayFirst(State("XX3OO6789", 'X', false), 3, rest);
  }

  lemma TopRowFrom3(rest: seq<int>)
    ensures Play(State("XX3O56789", 'O', false), [5] + ([3] + rest)) == State("XXXOO6789", 'X', true)
  {
    TurnContinues(State("XX3O56789", 'O', false), 5, "XX3OO6789", 8);
    TopRowFrom4(rest);
    PlayFirst(State("XX3O56789", 'O', false), 5, [3] + rest);
  }

  lemma TopRowFrom2(rest: seq<int>)
    ensures Play(State("X23O56789", 'X', false), [2] + ([5] + ([3] + rest))) == State("XXXOO6789", 'X', true)
  {
    TurnContinues(State("X23O56789", 'X', false), 2, "XX3O56789", 8);
    TopRowFrom3(rest);
    PlayFirst(State("X23O56789", 'X', false), 2, [5] + ([3] + rest));
  }

  lemma TopRowFrom1(rest: seq<int>)
    ensures Play(State("X23456789", 'O', false), [4] + ([2] + ([5] + ([3] + rest)))) == State("XXXOO6789", 'X', true)
  {
    TurnContinues(State("X23456789", 'O', false), 4, "X23O56789", 8);
    TopRowFrom2(rest);
    PlayFirst(State("X23456789", 'O', false), 4, [2] + ([5] + ([3] + rest)));
  }

  /** The round 1, 4, 2, 5, 3: X completes the top row with the fifth move,
      the round ends with X the winner, and no later position is read. */
  lemma TopRowWin(rest: seq<int>)
    ensures Play(Start(), [1, 4, 2, 5, 3] + rest) == State("XXXOO6789", 'X', true)
  {
    OpeningAtOne();
    TopRowFrom1(rest);
    assert [1, 4, 2, 5, 3] + rest == [1] + ([4] + ([2] + ([5] + ([3] + rest))));
    PlayFirst(Start(), 1, [4] + ([2] + ([5] + ([3] + rest))));
  }

  // The round 1, 2, 3, 5, 4, 6, 8, 7, 9 from the state after its k-th move (DrawFrom<k>).

  lemma DrawFrom8(rest: seq<int>)
    ensures Play(State("XOXXOOOX9", 'X', false), [9] + rest) == State("XOXXOOOXX", 'X', true)
  {
    LastCellDraw();
    PlayFirst(State("XOXXOOOX9", 'X', false), 9, rest);
  }

  lemma DrawFrom7(rest: seq<int>)
    ensures Play(State("XOXXOO7X9", 'O', false), [7] + ([9] + rest)) == State("XOXXOOOXX", 'X', true)
  {
    TurnContinues(State("XOXXOO7X9", 'O', false), 7, "XOXXOOOX9", 8);
    DrawFrom8(rest);
    PlayFirst(State("XOXXOO7X9", 'O', false), 7, [9] + rest);
  }

  lemma DrawFrom6(rest: seq<int>)
    ensures Play(State("XOXXOO789", 'X', false), [8] + ([7] + ([9] + rest))) == State("XOXXOOOXX", 'X', true)
  {
    TurnContinues(State("XOXXOO789", 'X', false), 8, "XOXXOO7X9", 8);
    DrawFrom7(rest);
    PlayFirst(State("XOXXOO789", 'X', false), 8, [7] + ([9] + rest));
  }

  lemma DrawFrom5(rest: seq<int>)
    ensures Play(State("XOXXO6789", 'O', false), [6] + ([8] + ([7] + ([9] + rest)))) == State("XOXXOOOXX", 'X', true)
  {
    TurnContinues(State("XOXXO6789", 'O', false), 6, "XOXXOO789", 8);
    DrawFrom6(rest);
    PlayFirst(State("XOXXO6789", 'O', false), 6, [8] + ([7] + ([9] + rest)));
  }

  lemma DrawFrom4(rest: seq<int>)
    ensures Play(State("XOX4O6789", 'X', false), [4] + ([6] + ([8] + ([7] + ([9] + rest))))) == State("XOXXOOOXX", 'X', true)
  {
    TurnContinues(State("XOX4O6789", 'X', false), 4, "XOXXO6789", 8);
    DrawFrom5(rest);
    PlayFirst(State("XOX4O6789", 'X', false), 4, [6] + ([8] + ([7] + ([9] + rest))));
  }

  lemma DrawFrom3(rest: seq<int>)
    ensures Play(State("XOX456789", 'O', false), [5] + ([4] + ([6] + ([8] + ([7] + ([9] + rest)))))) == State("XOXXOOOXX", 'X', true)
  {
    TurnContinues(State("XOX456789", 'O', false), 5, "XOX4O6789", 8);
    DrawFrom4(rest);
    PlayFirst(State("XOX456789", 'O', false), 5, [4] + ([6] + ([8] + ([7] + ([9] + rest)))));
  }

  lemma DrawFrom2(rest: seq<int>)
    ensures Play(State("XO3456789", 'X', false), [3] + ([5] + ([4] + ([6] + ([8] + ([7] + ([9] + rest))))))) == State("XOXXOOOXX", 'X', true)
  {
    TurnContinues(State("XO3456789", 'X', false), 3, "XOX456789", 8);
    DrawFrom3(rest);
    PlayFirst(State("XO3456789", 'X', false), 3, [5] + ([4] + ([6] + ([8] + ([7] + ([9] + rest))))));
  }

  lemma DrawFrom1(rest: seq<int>)
    ensures Play(State("X23456789", 'O', false), [2] + ([3] + ([5] + ([4] + ([6] + ([8] + ([7] + ([9] + rest)))))))) == State("XOXXOOOXX", 'X', true)
  {
    TurnContinues(State("X23456789", 'O', false), 2, "XO3456789", 8);
    DrawFrom2(rest);
    PlayFirst(State("X23456789", 'O', false), 2, [3] + ([5] + ([4] + ([6] + ([8] + ([7] + ([9] + rest)))))));
  }

  /** On the board XOXXOOOX9, X's move at 9 fills the board without a line:
      the round ends drawn, X still the player. */
  lemma LastCellDraw()
    ensures Turn(State("XOXXOOOX9", 'X', false), 9) == TurnResult(State("XOXXOOOXX", 'X', true), Drawn)
  {
  }

  /** The round 1, 2, 3, 5, 4, 6, 8, 7, 9 fills the board with no line for
      either player: it ends drawn at the ninth move, X still the player. */
  lemma FullBoardDraw(rest: seq<int>)
    ensures Play(Start(), [1, 2, 3, 5, 4, 6, 8, 7, 9] + rest) == State("XOXXOOOXX", 'X', true)
  {
    OpeningAtOne();
    DrawFrom1(rest);
    assert [1, 2, 3, 5, 4, 6, 8, 7, 9] + rest == [1] + ([2] + ([3] + ([5] + ([4] + ([6] + ([8] + ([7] + ([9] + rest))))))));
    PlayFirst(Start(), 1, [2] + ([3] + ([5] + ([4] + ([6] + ([8] + ([7] + ([9] + rest))))))));
  }

  /** On the board XOXOXOOX9, X's move at 9 fills the board and completes
      the diagonal from top-left: that is a win, not a draw. */
  lemma LastCellWin()
    ensures Turn(State("XOXOXOOX9", 'X', false), 9) == TurnResult(State("XOXOXOOXX", 'X', true), Won('X'))
  {
    assert Owns("XOXOXOOXX", 'X', Lines[6]);
  }
}
