/**
 * Square naming and colouring of the board (`createBoard`) and the position of a board
 * cell (`renderPieces`). Ranks `r` and files `c` run from 1 to 8 as in `createBoard`;
 * `renderPieces` indexes the engine's 8x8 board by row `rIndex` (0 is rank 8) and column
 * `cIndex` (0 is file a).
 */
module Squares {

  const Files: string := "abcdefgh"

  datatype Colour = White | Black

  /** A square element of the board: its `data-square` name and its colour class. */
  datatype Square = Square(name: string, colour: Colour)

  /** The decimal digit of a rank, as JavaScript writes the number `r`. */
  function RankDigit(r: nat): char
    requires 1 <= r <= 8
  {
    ('0' as int + r) as char
  }

  /** The name of the square on file index `f` (0 is a) and rank `r`: letter, then digit. */
  function SquareName(f: nat, r: nat): (name: string)
    requires f < 8 && 1 <= r <= 8
  {
    [Files[f], RankDigit(r)]
  }

  /** Distinct squares have distinct names. */
  lemma SquareNameInjective(f1: nat, r1: nat, f2: nat, r2: nat)
    requires f1 < 8 && 1 <= r1 <= 8 && f2 < 8 && 1 <= r2 <= 8
    ensures SquareName(f1, r1) == SquareName(f2, r2) ==> f1 == f2 && r1 == r2
  {
  }

  /** The square `createBoard` makes for rank `r` and file `c`. */
  function Cell(r: nat, c: nat): Square
    requires 1 <= r <= 8 && 1 <= c <= 8
  {
    Square(SquareName(c - 1, r), if (r + c) % 2 == 1 then Black else White)
  }

  /** The board as `createBoard` lays it out: rank 8 first, files a to h within a rank. */
  ghost predicate IsBoard(squares: seq<Square>)
  {
    |squares| == 64 &&
    forall r, c :: 1 <= r <= 8 && 1 <= c <= 8 ==> squares[(8 - r) * 8 + c - 1] == Cell(r, c)
  }

  /** `createBoard`: the 64 squares in document order, by two nested loops. */
  method CreateBoard() returns (squares: seq<Square>)
    ensures IsBoard(squares)
  {
    squares := [];
    var r := 8;
    while r >= 1
      invariant 0 <= r <= 8
      invariant |squares| == (8 - r) * 8
      invariant forall r', c :: r < r' <= 8 && 1 <= c <= 8 ==> squares[(8 - r') * 8 + c - 1] == Cell(r', c)
    {
      var c := 1;
      while c <= 8
        invariant 1 <= c <= 9
        invariant |squares| == (8 - r) * 8 + c - 1
        invariant forall r', c' :: r < r' <= 8 && 1 <= c' <= 8 ==> squares[(8 - r') * 8 + c' - 1] == Cell(r', c')
        invariant forall c' :: 1 <= c' < c ==> squares[(8 - r) * 8 + c' - 1] == Cell(r, c')
      {
        var file := Files[c - 1];
        var name := [file, RankDigit(r)];
        var colour := if (r + c) % 2 == 1 then Black else White;
        squares := squares + [Square(name, colour)];
        c := c + 1;
      }
      r := r - 1;
    }
  }

  /** Colours alternate: squares sharing an edge differ, diagonal neighbours agree. */
  lemma ColoursAlternate(r: nat, c: nat)
    requires 1 <= r < 8 && 1 <= c < 8
    ensures Cell(r, c).colour != Cell(r + 1, c).colour
    ensures Cell(r, c).colour != Cell(r, c + 1).colour
    ensures Cell(r, c).colour == Cell(r + 1, c + 1).colour
  {
  }

  /** The name `renderPieces` computes for the board cell in row `rIndex`, column `cIndex`. */
  function PieceSquare(rIndex: nat, cIndex: nat): string
    requires rIndex < 8 && cIndex < 8
  {
    SquareName(cIndex, 8 - rIndex)
  }

  /** Cell [rIndex][cIndex] of the engine's board lands on square number rIndex * 8 + cIndex. */
  lemma PieceSquareOnBoard(squares: seq<Square>, rIndex: nat, cIndex: nat)
    requires IsBoard(squares) && rIndex < 8 && cIndex < 8
    ensures squares[rIndex * 8 + cIndex].name == PieceSquare(rIndex, cIndex)
  {
    var r, c := 8 - rIndex, cIndex + 1;
    assert (8 - r) * 8 + c - 1 == rIndex * 8 + cIndex;
    assert squares[(8 - r) * 8 + c - 1] == Cell(r, c);
  }

  /** Distinct cells of the engine's board go to distinct squares. */
  lemma PieceSquareInjective(r1: nat, c1: nat, r2: nat, c2: nat)
    requires r1 < 8 && c1 < 8 && r2 < 8 && c2 < 8
    ensures PieceSquare(r1, c1) == PieceSquare(r2, c2) ==> r1 == r2 && c1 == c2
  {
  }

  /** The board holds 64 distinct names, so the cell-to-square map is a bijection onto them. */
  lemma BoardNamesDistinct(squares: seq<Square>, i: nat, j: nat)
    requires IsBoard(squares) && i < j < 64
    ensures squares[i].name != squares[j].name
  {
    PieceSquareOnBoard(squares, i / 8, i % 8);
    PieceSquareOnBoard(squares, j / 8, j % 8);
    PieceSquareInjective(i / 8, i % 8, j / 8, j % 8);
  }
}
