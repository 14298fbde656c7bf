/**
 * Board squares: the grid index (row, column) of the drawn board, where row 0
 * is rank 8 and column 0 is file a, and the library's algebraic name such as
 * "e4". The board labels each piece with the name of its square, and a drag
 * that ends on the board produces the name of the target square.
 */
module Squares {
  import opened Wrappers
  import opened Numbers

  datatype Cell = Cell(row: int, column: int)

  predicate OnBoard(row: int, column: int) {
    0 <= row < 8 && 0 <= column < 8
  }

  /** An algebraic square name: a file letter a..h and a rank digit 1..8. */
  predicate IsSquareName(name: string) {
    |name| == 2 && 'a' <= name[0] <= 'h' && '1' <= name[1] <= '8'
  }

  /**
   * `${String.fromCharCode(97 + column)}${8 - row}`: the file letter is
   * character code 97 + column, the rank is the decimal text of 8 - row.
   */
  function SquareName(row: int, column: int): (name: string)
    requires OnBoard(row, column)
    ensures IsSquareName(name)
    ensures name[0] as int == 97 + column && DigitValue(name[1]) == 8 - row
    ensures ParseSquare(name) == Some(Cell(row, column))
  {
    [(97 + column) as char] + NumberToString(8 - row)
  }

  /** The grid cell an algebraic name denotes; `None` for any other text. */
  function ParseSquare(name: string): (r: Option<Cell>)
    ensures r.Some? <==> IsSquareName(name)
    ensures r.Some? ==> OnBoard(r.value.row, r.value.column)
  {
    if IsSquareName(name) then Some(Cell(8 - DigitValue(name[1]), name[0] as int - 97)) else None
  }

  /** Every square name is the label of exactly the cell it parses to. */
  lemma ParseSquareInverse(name: string)
    requires IsSquareName(name)
    ensures var cell := ParseSquare(name).value; SquareName(cell.row, cell.column) == name
  {
    var cell := ParseSquare(name).value;
    var shown := SquareName(cell.row, cell.column);
    assert shown[0] == name[0] && shown[1] == name[1];
  }

  /** Distinct cells of the board carry distinct labels. */
  lemma SquareNamesDistinct(r1: int, c1: int, r2: int, c2: int)
    requires OnBoard(r1, c1) && OnBoard(r2, c2)
    requires SquareName(r1, c1) == SquareName(r2, c2)
    ensures r1 == r2 && c1 == c2
  {
  }

  /**
   * The end of a drag in `ChessPiece`: the target square's name is produced
   * only when both rounded target indices lie in 0..7.
   */
  function DragTarget(targetColumn: int, targetRow: int): (target: Option<string>)
    ensures target.Some? <==> OnBoard(targetRow, targetColumn)
    ensures target.Some? ==> ParseSquare(target.value) == Some(Cell(targetRow, targetColumn))
  {
    if targetColumn >= 0 && targetColumn < 8 && targetRow >= 0 && targetRow < 8 then
      Some(SquareName(targetRow, targetColumn))
    else
      None
  }
}
