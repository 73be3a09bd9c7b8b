/**
  The 3x3 board of the game as a value: nine cells numbered 0..8 row by row,
  so that the cell in row r and column c has index 3*r + c and the position
  the players type is that index plus one. A cell that holds neither 'X' nor
  'O' is free; a fresh board holds in every cell the digit of its own position.
 */
module Board {

  /** One of the two marks, 'X' and 'O'. A cell is taken exactly when it
      holds a mark, and the player to move is named by the mark it places. */
  predicate Marked(c: char) {
    c == 'X' || c == 'O'
  }

  /** The digit shown in a free cell: '1' for index 0 up to '9' for index 8. */
  function Digit(k: int): (d: char)
    requires 0 <= k < 9
    ensures '1' <= d <= '9' && d as int - '1' as int == k
    ensures !Marked(d)
  {
    ('1' as int + k) as char
  }

  /** Every cell holds a mark or the digit of its own position. */
  predicate WellFormed(b: seq<char>) {
    |b| == 9 && forall k :: 0 <= k < 9 ==> Marked(b[k]) || b[k] == Digit(k)
  }

  /** The board a round starts with: each cell shows its own position. */
  function Initial(): (b: seq<char>)
    ensures |b| == 9
  {
    "123456789"
  }

  /** The player who moves after p. */
  function Opponent(p: char): (q: char)
    ensures Marked(q)
    ensures p == 'X' <==> q == 'O'
  {
    if p == 'X' then 'O' else 'X'
  }

  /** Passing the turn twice gives it back to the same player. */
  lemma OpponentTwice(p: char)
    requires Marked(p)
    ensures Opponent(p) != p && Opponent(Opponent(p)) == p
  {
  }

  /** Three cell indices that make a winning line. */
  datatype Line = Line(a: nat, b: nat, c: nat)

  function Row(i: nat): Line {
    Line(3 * i, 3 * i + 1, 3 * i + 2)
  }

  function Column(i: nat): Line {
    Line(i, i + 3, i + 6)
  }

  /** The eight lines, in the order they are examined: rows, columns, the
      diagonal from top-left and the diagonal from top-right. */
  const Lines: seq<Line> :=
    [Row(0), Row(1), Row(2), Column(0), Column(1), Column(2), Line(0, 4, 8), Line(2, 4, 6)]

  /** p holds all three cells of line l. */
  predicate Owns(b: seq<char>, p: char, l: Line) {
    l.a < |b| && l.b < |b| && l.c < |b| && b[l.a] == p && b[l.b] == p && b[l.c] == p
  }

  /** p holds a whole row, column or diagonal. */
  predicate Wins(b: seq<char>, p: char) {
    exists i :: 0 <= i < |Lines| && Owns(b, p, Lines[i])
  }

  /** No cell is free. */
  predicate Full(b: seq<char>) {
    forall k :: 0 <= k < |b| ==> Marked(b[k])
  }

  /** The board after p is written into cell k. */
  function Place(b: seq<char>, k: nat, p: char): (b': seq<char>)
    requires k < |b|
    ensures |b'| == |b| && b'[k] == p
    ensures forall j :: 0 <= j < |b| && j != k ==> b'[j] == b[j]
  {
    b[k := p]
  }

  /** How many cells hold c. */
  function Count(b: seq<char>, c: char): nat {
    if b == [] then 0 else (if b[0] == c then 1 else 0) + Count(b[1..], c)
  }

  /** How many cells are free. */
  function EmptyCount(b: seq<char>): nat {
    if b == [] then 0 else (if Marked(b[0]) then 0 else 1) + EmptyCount(b[1..])
  }

  /** Writing p into cell k moves one cell from the count of its old content
      to the count of p. */
  lemma {:induction false} CountAfterPlace(b: seq<char>, k: nat, p: char, c: char)
    requires k < |b|
    ensures Count(Place(b, k, p), c)
         == Count(b, c) + (if p == c then 1 else 0) - (if b[k] == c then 1 else 0)
  {
    if k > 0 {
      CountAfterPlace(b[1..], k - 1, p, c);
      assert Place(b, k, p)[1..] == Place(b[1..], k - 1, p);
    } else {
      assert Place(b, k, p)[1..] == b[1..];
    }
  }

  /** Writing p into cell k changes the number of free cells by what k and p are. */
  lemma {:induction false} EmptyCountAfterPlace(b: seq<char>, k: nat, p: char)
    requires k < |b|
    ensures EmptyCount(Place(b, k, p))
         == EmptyCount(b) + (if Marked(p) then 0 else 1) - (if Marked(b[k]) then 0 else 1)
  {
    if k > 0 {
      EmptyCountAfterPlace(b[1..], k - 1, p);
      assert Place(b, k, p)[1..] == Place(b[1..], k - 1, p);
    } else {
      assert Place(b, k, p)[1..] == b[1..];
    }
  }

  /** Marking a free cell leaves exactly one free cell fewer. */
  lemma MarkingUsesOneCell(b: seq<char>, k: nat, p: char)
    requires k < |b| && !Marked(b[k]) && Marked(p)
    ensures EmptyCount(Place(b, k, p)) == EmptyCount(b) - 1
  {
    EmptyCountAfterPlace(b, k, p);
  }

  /** The board is full exactly when no cell is free. */
  lemma {:induction false} FullIffNoneEmpty(b: seq<char>)
    ensures Full(b) <==> EmptyCount(b) == 0
  {
    if b != [] {
      FullIffNoneEmpty(b[1..]);
      if Full(b) {
        assert Full(b[1..]) by {
          forall k | 0 <= k < |b[1..]| ensures Marked(b[1..][k]) {
            assert b[1..][k] == b[k + 1];
          }
        }
      }
      if EmptyCount(b) == 0 {
        forall k | 0 <= k < |b| ensures Marked(b[k]) {
          if k > 0 {
            assert b[k] == b[1..][k - 1];
          }
        }
      }
    }
  }

  /** On a board with no mark every cell is free and neither mark is counted. */
  lemma {:induction false} NoneMarked(b: seq<char>)
    requires forall k :: 0 <= k < |b| ==> !Marked(b[k])
    ensures EmptyCount(b) == |b| && Count(b, 'X') == 0 && Count(b, 'O') == 0
  {
    if b != [] {
      assert forall k :: 0 <= k < |b[1..]| ==> b[1..][k] == b[k + 1];
      NoneMarked(b[1..]);
    }
  }

  /** Each cell of the fresh board holds its own digit. */
  lemma InitialDigits()
    ensures forall k :: 0 <= k < 9 ==> Initial()[k] == Digit(k)
  {
  }

  /** The fresh board: every cell shows its digit, so no cell is taken, no
      one has a line, nine cells are free and no mark is counted. */
  lemma InitialIsEmpty()
    ensures WellFormed(Initial())
    ensures forall k :: 0 <= k < 9 ==> Initial()[k] == Digit(k) && !Marked(Initial()[k])
    ensures !Full(Initial()) && !Wins(Initial(), 'X') && !Wins(Initial(), 'O')
    ensures Count(Initial(), 'X') == 0 && Count(Initial(), 'O') == 0
    ensures EmptyCount(Initial()) == 9
  {
    InitialDigits();
    var b := Initial();
    assert !Full(b) by { assert !Marked(b[0]); }
    NoneMarked(b);
  }

  /** Writing a mark into a cell keeps every cell a mark or its own digit. */
  lemma PlaceKeepsWellFormed(b: seq<char>, k: nat, p: char)
    requires WellFormed(b) && k < 9 && Marked(p)
    ensures WellFormed(Place(b, k, p))
  {
  }

  /** Writing p into a cell cannot give a line to anyone but p. */
  lemma PlaceGivesNoLineToOthers(b: seq<char>, k: nat, p: char, q: char)
    requires k < |b| && q != p && !Wins(b, q)
    ensures !Wins(Place(b, k, p), q)
  {
  }

  /** A line needs three of the player's marks. */
  lemma WinNeedsThreeMarks(b: seq<char>, p: char)
    requires Wins(b, p)
    ensures Count(b, p) >= 3
  {
    var i :| 0 <= i < |Lines| && Owns(b, p, Lines[i]);
    var l := Lines[i];
    assert l.a != l.b && l.a != l.c && l.b != l.c;
    var z := Opponent(p);
    var b1 := Place(b, l.a, z);
    CountAfterPlace(b, l.a, z, p);
    var b2 := Place(b1, l.b, z);
    CountAfterPlace(b1, l.b, z, p);
    CountAfterPlace(b2, l.c, z, p);
  }
}
