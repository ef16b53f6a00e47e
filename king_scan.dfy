/**
 * Finding the king of the side to move on the engine's 8x8 board, and the
 * check/checkmate mark both boards put on its square.
 *
 * The engine's `board()` is a row-major grid: row 0 is rank 8, row 7 is
 * rank 1, column 0 is file a. A square named "<file><rank>" therefore sits
 * at row 8 - rank and column file - 'a'.
 */
module KingScan {
  import opened ChessTypes
  import opened Notation

  type Board = seq<seq<Option<Piece>>>

  /** The shape of the engine's `board()`: eight rows of eight squares. */
  predicate IsGrid(board: Board)
  {
    |board| == 8 && forall i :: 0 <= i < 8 ==> |board[i]| == 8
  }

  predicate IsKing(p: Option<Piece>, color: Color)
  {
    p.Some? && p.value.kind == 'k' && p.value.color == color
  }

  /** Some square of the board holds the king of `color`. */
  ghost predicate HasKing(board: Board, color: Color)
    requires IsGrid(board)
  {
    exists i, j :: 0 <= i < 8 && 0 <= j < 8 && IsKing(board[i][j], color)
  }

  /** (i, j) is the first square in row-major order holding the king of `color`. */
  ghost predicate FirstKingAt(board: Board, color: Color, i: int, j: int)
    requires IsGrid(board)
  {
    && 0 <= i < 8 && 0 <= j < 8
    && IsKing(board[i][j], color)
    && (forall i', j' :: 0 <= i' < 8 && 0 <= j' < 8 && (i' < i || (i' == i && j' < j)) ==>
          !IsKing(board[i'][j'], color))
  }

  /** A square name from "a1" to "h8". */
  predicate IsSquareName(s: string)
  {
    |s| == 2 && 'a' <= s[0] <= 'h' && '1' <= s[1] <= '8'
  }

  /** `String.fromCharCode(97 + j) + (8 - i)`: the name of row i, column j. */
  function SquareName(i: int, j: int): string
    requires 0 <= i < 8 && 0 <= j < 8
  {
    [(97 + j) as char] + DecimalString(8 - i)
  }

  /** The piece on a named square, as the engine's `get(square)` reads it. */
  function PieceOn(board: Board, square: string): Option<Piece>
    requires IsGrid(board) && IsSquareName(square)
  {
    board[8 - (square[1] as int - 48)][square[0] as int - 97]
  }

  /** Naming a board cell gives a square name from a1 to h8, and that name
      leads back to the same cell. */
  lemma SquareNameRoundTrip(board: Board, i: int, j: int)
    requires IsGrid(board) && 0 <= i < 8 && 0 <= j < 8
    ensures IsSquareName(SquareName(i, j))
    ensures PieceOn(board, SquareName(i, j)) == board[i][j]
  {
    assert DecimalString(8 - i) == [DigitChar(8 - i)];
  }

  /** Distinct cells have distinct names. */
  lemma SquareNameInjective(i: int, j: int, i': int, j': int)
    requires 0 <= i < 8 && 0 <= j < 8 && 0 <= i' < 8 && 0 <= j' < 8
    requires SquareName(i, j) == SquareName(i', j')
    ensures i == i' && j == j'
  {
    assert DecimalString(8 - i) == [DigitChar(8 - i)];
    assert DecimalString(8 - i') == [DigitChar(8 - i')];
    assert SquareName(i, j)[0] == SquareName(i', j')[0];
    assert SquareName(i, j)[1] == SquareName(i', j')[1];
  }

  /** The king search of `highlightCheckAndCheckmate`: scan the rows in
      order, each row left to right, and stop at the first king of `color`.
      None exactly when there is no such king; otherwise the name of the
      first one in that order, a name from a1 to h8 whose square holds it. */
  method FindKing(board: Board, color: Color) returns (kingPos: Option<string>)
    requires IsGrid(board)
    ensures kingPos.None? <==> !HasKing(board, color)
    ensures kingPos.Some? ==>
      exists i, j :: FirstKingAt(board, color, i, j) && kingPos.value == SquareName(i, j)
    ensures kingPos.Some? ==>
      IsSquareName(kingPos.value) && IsKing(PieceOn(board, kingPos.value), color)
  {
    kingPos := None;
    ghost var ki, kj := 0, 0;
    var i := 0;
    while i < 8
      invariant 0 <= i <= 8
      invariant kingPos.None?
      invariant forall i', j' :: 0 <= i' < i && 0 <= j' < 8 ==> !IsKing(board[i'][j'], color)
    {
      var j := 0;
      while j < 8
        invariant 0 <= j <= 8
        invariant kingPos.None?
        invariant forall j' :: 0 <= j' < j ==> !IsKing(board[i][j'], color)
      {
        if IsKing(board[i][j], color) {
          kingPos := Some(SquareName(i, j));
          ki, kj := i, j;
          break;
        }
        j := j + 1;
      }
      if kingPos.Some? {
        break;
      }
      i := i + 1;
    }
    if kingPos.Some? {
      assert FirstKingAt(board, color, ki, kj);
      SquareNameRoundTrip(board, ki, kj);
    }
  }

  /** The square mark `highlightCheckAndCheckmate` adds. */
  datatype KingMark = KingMark(square: string, cls: string)

  /** `highlightCheckAndCheckmate`: only when the side to move is in check
      or mated, its king's square gets "checkmate" (mate) or "check". */
  method CheckHighlight(view: EngineView, board: Board) returns (mark: Option<KingMark>)
    requires IsGrid(board)
    ensures mark.Some? <==> (view.inCheck || view.inCheckmate) && HasKing(board, view.turn)
    ensures mark.Some? ==>
      && IsSquareName(mark.value.square)
      && IsKing(PieceOn(board, mark.value.square), view.turn)
      && mark.value.cls == (if view.inCheckmate then "checkmate" else "check")
  {
    mark := None;
    if view.inCheck || view.inCheckmate {
      var kingPos := FindKing(board, view.turn);
      if kingPos.Some? {
        if view.inCheckmate {
          mark := Some(KingMark(kingPos.value, "checkmate"));
        } else if view.inCheck {
          mark := Some(KingMark(kingPos.value, "check"));
        }
      }
    }
  }
}
