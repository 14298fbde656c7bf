/**
 * Pieces as the chess library describes them (a kind and a colour) and the
 * glyph the board draws for each one (`getPieceSymbol`).
 */
module Pieces {
  import opened Wrappers

  /** The library's colours "w" and "b". */
  datatype Color = White | Black

  /** The library's piece symbols "p", "n", "b", "r", "q" and "k". */
  datatype PieceKind = Pawn | Knight | Bishop | Rook | Queen | King

  datatype Piece = Piece(kind: PieceKind, color: Color)

  function Opponent(c: Color): (o: Color)
    ensures o != c
  {
    if c == White then Black else White
  }

  /** The white chess symbols U+2654..U+2659: drawn in outline. */
  predicate IsOutlineGlyph(c: char) {
    '\U{2654}' <= c <= '\U{2659}'
  }

  /** The black chess symbols U+265A..U+265F: drawn filled. */
  predicate IsFilledGlyph(c: char) {
    '\U{265A}' <= c <= '\U{265F}'
  }

  /**
   * `getPieceSymbol(piece, color)`: the one-character glyph for each of the
   * twelve pieces. A colour other than white gets the filled glyph.
   */
  function PieceSymbol(kind: PieceKind, color: Color): (glyph: string)
    ensures |glyph| == 1
    ensures color == White <==> IsOutlineGlyph(glyph[0])
    ensures color == Black <==> IsFilledGlyph(glyph[0])
    ensures SymbolPiece(glyph) == Some(Piece(kind, color))
  {
    var white := color == White;
    match kind
    case Pawn => if white then "\U{2659}" else "\U{265F}"    // ♙ ♟
    case Knight => if white then "\U{2658}" else "\U{265E}"  // ♘ ♞
    case Bishop => if white then "\U{2657}" else "\U{265D}"  // ♗ ♝
    case Rook => if white then "\U{2656}" else "\U{265C}"    // ♖ ♜
    case Queen => if white then "\U{2655}" else "\U{265B}"   // ♕ ♛
    case King => if white then "\U{2654}" else "\U{265A}"    // ♔ ♚
  }

  /** Which piece a glyph stands for; `None` for any other text. */
  function SymbolPiece(glyph: string): Option<Piece> {
    if |glyph| != 1 then None
    else
      var c := glyph[0];
      var color := if IsOutlineGlyph(c) then White else Black;
      var offset := if IsOutlineGlyph(c) then c as int - 0x2654 else c as int - 0x265A;
      if !IsOutlineGlyph(c) && !IsFilledGlyph(c) then None
      else if offset == 0 then Some(Piece(King, color))
      else if offset == 1 then Some(Piece(Queen, color))
      else if offset == 2 then Some(Piece(Rook, color))
      else if offset == 3 then Some(Piece(Bishop, color))
      else if offset == 4 then Some(Piece(Knight, color))
      else Some(Piece(Pawn, color))
  }

  /** Every glyph the symbol reader accepts is the glyph of the piece it names. */
  lemma SymbolPieceInverse(glyph: string)
    requires SymbolPiece(glyph).Some?
    ensures PieceSymbol(SymbolPiece(glyph).value.kind, SymbolPiece(glyph).value.color) == glyph
  {
    var c := glyph[0];
    assert glyph == [c];
  }

  /** The twelve glyphs are pairwise distinct. */
  lemma PieceSymbolInjective(p: Piece, q: Piece)
    requires PieceSymbol(p.kind, p.color) == PieceSymbol(q.kind, q.color)
    ensures p == q
  {
  }
}
