/**
 * The interactive board component (src/components/ChessBoard.tsx): the click/selection
 * state machine over a chess position, and the pure display helpers (orientation, square
 * shading, piece glyphs, which piece is drawn in which cell).
 *
 * The chess rules are chess.js's; the component only reads a position through
 * `game.board()`, `game.get`, `game.turn()` and `game.moves({square})`, which the
 * `Position` value below stands for.
 */
module ChessBoard {
  import opened Common

  datatype PieceType = Pawn | Knight | Bishop | Rook | Queen | King

  /** A chess.js piece: colour `w`/`b` and type `p n b r q k`. */
  datatype Piece = Piece(color: Side, kind: PieceType)

  /** A board coordinate such as `e4`: a file letter and a rank number. */
  datatype Square = Square(file: char, rank: int)

  predicate ValidSquare(sq: Square) {
    'a' <= sq.file <= 'h' && 1 <= sq.rank <= 8
  }

  /** Column of a file letter in `game.board()` (`a` is column 0). */
  function FileIndex(f: char): int {
    f as int - 'a' as int
  }

  /**
   * The part of a chess.js game the component reads: `grid` is `game.board()` (row 0 is
   * rank 8, column 0 is file a), `turn` is `game.turn()`, and `destinations(sq)` is
   * `game.moves({square: sq, verbose: true}).map(m => m.to)`.
   */
  datatype Position = Position(
    grid: seq<seq<Option<Piece>>>,
    turn: Side,
    destinations: Square -> seq<Square>)

  predicate WellFormed(game: Position) {
    |game.grid| == 8 && forall r :: 0 <= r < 8 ==> |game.grid[r]| == 8
  }

  /** `game.get(square)`: the piece on a square, read from the same grid as `game.board()`. */
  function PieceAt(game: Position, sq: Square): Option<Piece>
    requires WellFormed(game)
  {
    if ValidSquare(sq) then game.grid[8 - sq.rank][FileIndex(sq.file)] else None
  }

  /** `piece && piece.color === game.turn()`: the square holds a piece of the side to move. */
  predicate Friendly(game: Position, sq: Square)
    requires WellFormed(game)
  {
    PieceAt(game, sq).Some? && PieceAt(game, sq).value.color == game.turn
  }

  // ---------------------------------------------------------------------------
  // Selection state machine (handleSquareClick, lines 24-60)
  // ---------------------------------------------------------------------------

  /** The two state hooks `selectedSquare` and `possibleMoves`. */
  datatype Selection = Selection(selected: Option<Square>, possibleMoves: seq<Square>) {
    /** With nothing selected, nothing is highlighted. */
    predicate Valid() {
      selected.None? ==> possibleMoves == []
    }
  }

  const Idle := Selection(None, [])

  /**
   * The selection that a click on `square` leaves behind: the old one, nothing, or a
   * friendly piece highlighted with exactly the destinations chess.js gives it.
   */
  function AfterClick(s: Selection, square: Square, allowMoves: bool, game: Position,
                      onMove: (Square, Square) -> bool): (r: Selection)
    requires WellFormed(game)
    ensures !allowMoves ==> r == s
    ensures r == s || r == Idle
            || (r.selected.Some? && r.selected.value == square && Friendly(game, square)
                && r.possibleMoves == game.destinations(square))
  {
    if !allowMoves then s
    else match s.selected
      case Some(from) =>
        if from == square then Idle
        else if square in s.possibleMoves then (if onMove(from, square) then Idle else s)
        else if Friendly(game, square) then Selection(Some(square), game.destinations(square))
        else Idle
      case None =>
        if Friendly(game, square) then Selection(Some(square), game.destinations(square)) else s
  }

  /** The `onMove(from, to)` call that a click makes, if any. */
  function MoveCall(s: Selection, square: Square, allowMoves: bool): (c: Option<(Square, Square)>)
    ensures c.Some? <==> allowMoves && s.selected.Some? && s.selected.value != square && square in s.possibleMoves
    ensures c.Some? ==> c.value == (s.selected.value, square)
  {
    if allowMoves && s.selected.Some? && s.selected.value != square && square in s.possibleMoves
    then Some((s.selected.value, square))
    else None
  }

  /** With `allowMoves` false a click changes nothing and calls nothing. */
  lemma ClickDisabled(s: Selection, square: Square, game: Position, onMove: (Square, Square) -> bool)
    requires WellFormed(game)
    ensures AfterClick(s, square, false, game, onMove) == s
    ensures MoveCall(s, square, false).None?
  {
  }

  /** Clicking the selected square again deselects it and clears the highlights. */
  lemma ClickSelectedDeselects(s: Selection, square: Square, game: Position, onMove: (Square, Square) -> bool)
    requires WellFormed(game) && s.selected == Some(square)
    ensures AfterClick(s, square, true, game, onMove) == Idle
    ensures MoveCall(s, square, true).None?
  {
  }

  /**
   * Clicking a highlighted destination makes exactly one call `onMove(selected, square)`;
   * if it succeeds the board returns to idle, otherwise the selection is kept as it was.
   */
  lemma ClickDestinationMoves(s: Selection, square: Square, game: Position, onMove: (Square, Square) -> bool)
    requires WellFormed(game) && s.selected.Some? && s.selected.value != square
    requires square in s.possibleMoves
    ensures MoveCall(s, square, true) == Some((s.selected.value, square))
    ensures onMove(s.selected.value, square) ==> AfterClick(s, square, true, game, onMove) == Idle
    ensures !onMove(s.selected.value, square) ==> AfterClick(s, square, true, game, onMove) == s
  {
  }

  /**
   * With a selection, a click on another, non-highlighted square selects it when it holds
   * a piece of the side to move (highlighting exactly its legal destinations) and clears
   * the selection otherwise.
   */
  lemma ClickOtherSquare(s: Selection, square: Square, game: Position, onMove: (Square, Square) -> bool)
    requires WellFormed(game) && s.selected.Some? && s.selected.value != square
    requires square !in s.possibleMoves
    ensures MoveCall(s, square, true).None?
    ensures Friendly(game, square) ==>
      AfterClick(s, square, true, game, onMove) == Selection(Some(square), game.destinations(square))
    ensures !Friendly(game, square) ==> AfterClick(s, square, true, game, onMove) == Idle
  {
  }

  /**
   * With no selection, a click on a piece of the side to move selects it with its legal
   * destinations; a click on an empty square or an enemy piece changes nothing.
   */
  lemma ClickFirstSelection(s: Selection, square: Square, game: Position, onMove: (Square, Square) -> bool)
    requires WellFormed(game) && s.selected.None?
    ensures MoveCall(s, square, true).None?
    ensures Friendly(game, square) ==>
      AfterClick(s, square, true, game, onMove) == Selection(Some(square), game.destinations(square))
    ensures !Friendly(game, square) ==> AfterClick(s, square, true, game, onMove) == s
  {
  }

  /**
   * Against a fixed position, every click keeps the selection consistent: nothing selected
   * means nothing highlighted, and a selected square holds a piece of the side to move and
   * highlights exactly that piece's legal destinations.
   */
  predicate Consistent(s: Selection, game: Position)
    requires WellFormed(game)
  {
    match s.selected
    case None => s.possibleMoves == []
    case Some(sq) => Friendly(game, sq) && s.possibleMoves == game.destinations(sq)
  }

  lemma ClickKeepsConsistent(s: Selection, square: Square, allowMoves: bool, game: Position,
                             onMove: (Square, Square) -> bool)
    requires WellFormed(game) && Consistent(s, game)
    ensures Consistent(AfterClick(s, square, allowMoves, game, onMove), game)
    ensures AfterClick(s, square, allowMoves, game, onMove).Valid()
  {
  }

  /** The component instance: its two state hooks, plus a record of the `onMove` calls it made. */
  class BoardWidget {
    var selectedSquare: Option<Square>
    var possibleMoves: seq<Square>
    var moveRequests: seq<(Square, Square)>

    function State(): Selection
      reads this
    {
      Selection(selectedSquare, possibleMoves)
    }

    ghost predicate Valid()
      reads this
    {
      State().Valid()
    }

    constructor ()
      ensures Valid() && State() == Idle && moveRequests == []
    {
      selectedSquare := None;
      possibleMoves := [];
      moveRequests := [];
    }

    /** `handleSquareClick(square)`; `onMove` is the callback prop, answered by the caller. */
    method HandleSquareClick(square: Square, allowMoves: bool, game: Position, onMove: (Square, Square) -> bool)
      requires Valid() && WellFormed(game)
      modifies this
      ensures Valid()
      ensures State() == AfterClick(old(State()), square, allowMoves, game, onMove)
      ensures moveRequests == old(moveRequests) +
        (match MoveCall(old(State()), square, allowMoves) case Some(c) => [c] case None => [])
    {
      if !allowMoves {
        return;
      }
      if selectedSquare.Some? {
        var from := selectedSquare.value;
        if from == square {
          selectedSquare := None;
          possibleMoves := [];
        } else if square in possibleMoves {
          moveRequests := moveRequests + [(from, square)];
          var moveResult := onMove(from, square);
          if moveResult {
            selectedSquare := None;
            possibleMoves := [];
          }
        } else {
          var piece := PieceAt(game, square);
          if piece.Some? && piece.value.color == game.turn {
            selectedSquare := Some(square);
            possibleMoves := game.destinations(square);
          } else {
            selectedSquare := None;
            possibleMoves := [];
          }
        }
      } else {
        var piece := PieceAt(game, square);
        if piece.Some? && piece.value.color == game.turn {
          selectedSquare := Some(square);
          possibleMoves := game.destinations(square);
        }
      }
    }
  }

  // ---------------------------------------------------------------------------
  // Display helpers (lines 11-14, 21-22, 62-65, 85-89, 94-97)
  // ---------------------------------------------------------------------------

  /** The file letters left to right for the given orientation. */
  function Files(orientation: Side): seq<char> {
    if orientation == White then ['a', 'b', 'c', 'd', 'e', 'f', 'g', 'h']
    else ['h', 'g', 'f', 'e', 'd', 'c', 'b', 'a']
  }

  /** The rank numbers top to bottom for the given orientation. */
  function Ranks(orientation: Side): seq<int> {
    if orientation == White then [8, 7, 6, 5, 4, 3, 2, 1] else [1, 2, 3, 4, 5, 6, 7, 8]
  }

  function Reversed<T>(s: seq<T>): (r: seq<T>)
    ensures |r| == |s|
    ensures forall i :: 0 <= i < |s| ==> r[i] == s[|s| - 1 - i]
  {
    if s == [] then [] else Reversed(s[1..]) + [s[0]]
  }

  /** Black's view lists the files and the ranks in the reverse order of White's. */
  lemma BlackViewReversesWhite()
    ensures Files(Black) == Reversed(Files(White))
    ensures Ranks(Black) == Reversed(Ranks(White))
  {
    ReversedByIndex(Files(White), Files(Black));
    ReversedByIndex(Ranks(White), Ranks(Black));
  }

  /** A list that holds the elements of `s` from last to first is `Reversed(s)`. */
  lemma ReversedByIndex<T>(s: seq<T>, t: seq<T>)
    requires |t| == |s| && forall i :: 0 <= i < |s| ==> t[i] == s[|s| - 1 - i]
    ensures t == Reversed(s)
  {
  }

  /** The square shown in display cell (fileIndex, rankIndex). */
  function SquareAt(orientation: Side, fileIndex: int, rankIndex: int): Square
    requires 0 <= fileIndex < 8 && 0 <= rankIndex < 8
  {
    Square(Files(orientation)[fileIndex], Ranks(orientation)[rankIndex])
  }

  /**
   * `getSquareColor`: a cell is light iff the sum of its display indices is even, so the
   * diagonal from the top-left corner is light; `ShadeFollowsSquare` relates it to squares.
   */
  predicate IsLight(fileIndex: int, rankIndex: int)
    ensures fileIndex == rankIndex ==> IsLight(fileIndex, rankIndex)
  {
    (fileIndex + rankIndex) % 2 == 0
  }

  /** The display cell in which a square is drawn. */
  function CellOf(orientation: Side, sq: Square): (cell: (int, int))
    requires ValidSquare(sq)
    ensures 0 <= cell.0 < 8 && 0 <= cell.1 < 8
    ensures SquareAt(orientation, cell.0, cell.1) == sq
  {
    if orientation == White then (FileIndex(sq.file), 8 - sq.rank)
    else ('h' as int - sq.file as int, sq.rank - 1)
  }

  /** No other cell shows the square: each square is drawn exactly once. */
  lemma CellOfOnly(orientation: Side, sq: Square, fileIndex: int, rankIndex: int)
    requires ValidSquare(sq) && 0 <= fileIndex < 8 && 0 <= rankIndex < 8
    requires SquareAt(orientation, fileIndex, rankIndex) == sq
    ensures (fileIndex, rankIndex) == CellOf(orientation, sq)
  {
  }

  /**
   * A square gets the same shade in both orientations, light exactly when its file index
   * plus its rank is even (so a1 is dark and h1 is light, as on a real board).
   */
  lemma {:induction false} ShadeFollowsSquare(orientation: Side, sq: Square)
    requires ValidSquare(sq)
    ensures IsLight(CellOf(orientation, sq).0, CellOf(orientation, sq).1)
            <==> (FileIndex(sq.file) + sq.rank) % 2 == 0
  {
    var f, r := FileIndex(sq.file), sq.rank;
    if orientation == White {
      assert CellOf(orientation, sq) == (f, 8 - r);
      EvenShift(f + r, 4 - r);
    } else {
      assert CellOf(orientation, sq) == (7 - f, r - 1);
      EvenShift(f + r, 3 - f);
    }
  }

  /** Adding an even number keeps the parity. */
  lemma EvenShift(x: int, k: int)
    ensures ((x + 2 * k) % 2 == 0) == (x % 2 == 0)
  {
  }

  /** The `pieceSymbols` key of a piece: colour letter and upper-case type letter, e.g. `wK`. */
  function SymbolKey(p: Piece): string {
    [if p.color == White then 'w' else 'b'] +
    [match p.kind
      case Pawn => 'P' case Knight => 'N' case Bishop => 'B'
      case Rook => 'R' case Queen => 'Q' case King => 'K']
  }

  const PieceSymbols: map<string, string> := map[
    "wK" := "♔", "wQ" := "♕", "wR" := "♖", "wB" := "♗", "wN" := "♘", "wP" := "♙",
    "bK" := "♚", "bQ" := "♛", "bR" := "♜", "bB" := "♝", "bN" := "♞", "bP" := "♟"]

  /**
   * `getPieceSymbol`: the glyph of a piece, or the empty text when there is none. Every
   * piece has a glyph, and the glyph tells which piece it is.
   */
  function PieceSymbol(piece: Option<Piece>): (glyph: string)
    ensures piece.None? <==> glyph == ""
    ensures piece.Some? ==> PieceOfSymbol(glyph) == piece
  {
    match piece
    case None => ""
    case Some(p) =>
      SymbolTableCovers(p);
      if SymbolKey(p) in PieceSymbols then PieceSymbols[SymbolKey(p)] else ""
  }

  /** Reads a glyph back as the piece it depicts. */
  function PieceOfSymbol(glyph: string): Option<Piece> {
    if glyph == "♔" then Some(Piece(White, King)) else if glyph == "♕" then Some(Piece(White, Queen))
    else if glyph == "♖" then Some(Piece(White, Rook)) else if glyph == "♗" then Some(Piece(White, Bishop))
    else if glyph == "♘" then Some(Piece(White, Knight)) else if glyph == "♙" then Some(Piece(White, Pawn))
    else if glyph == "♚" then Some(Piece(Black, King)) else if glyph == "♛" then Some(Piece(Black, Queen))
    else if glyph == "♜" then Some(Piece(Black, Rook)) else if glyph == "♝" then Some(Piece(Black, Bishop))
    else if glyph == "♞" then Some(Piece(Black, Knight)) else if glyph == "♟" then Some(Piece(Black, Pawn))
    else None
  }

  /** Every piece has a key in the 12-entry table, whose glyph depicts exactly that piece. */
  lemma {:induction false} SymbolTableCovers(p: Piece)
    ensures SymbolKey(p) in PieceSymbols
    ensures PieceSymbols[SymbolKey(p)] != ""
    ensures PieceOfSymbol(PieceSymbols[SymbolKey(p)]) == Some(p)
  {
    if p.color == White {
      match p.kind {
        case Pawn => assert SymbolKey(p) == "wP" && PieceSymbols["wP"] == "♙";
        case Knight => assert SymbolKey(p) == "wN" && PieceSymbols["wN"] == "♘";
        case Bishop => assert SymbolKey(p) == "wB" && PieceSymbols["wB"] == "♗";
        case Rook => assert SymbolKey(p) == "wR" && PieceSymbols["wR"] == "♖";
        case Queen => assert SymbolKey(p) == "wQ" && PieceSymbols["wQ"] == "♕";
        case King => assert SymbolKey(p) == "wK" && PieceSymbols["wK"] == "♔";
      }
    } else {
      match p.kind {
        case Pawn => assert SymbolKey(p) == "bP" && PieceSymbols["bP"] == "♟";
        case Knight => assert SymbolKey(p) == "bN" && PieceSymbols["bN"] == "♞";
        case Bishop => assert SymbolKey(p) == "bB" && PieceSymbols["bB"] == "♝";
        case Rook => assert SymbolKey(p) == "bR" && PieceSymbols["bR"] == "♜";
        case Queen => assert SymbolKey(p) == "bQ" && PieceSymbols["bQ"] == "♛";
        case King => assert SymbolKey(p) == "bK" && PieceSymbols["bK"] == "♚";
      }
    }
  }

  /** Distinct pieces are drawn with distinct glyphs. */
  lemma PieceSymbolInjective(p: Piece, q: Piece)
    requires PieceSymbol(Some(p)) == PieceSymbol(Some(q))
    ensures p == q
  {
  }

  /** `files.indexOf(file)`: the first position of `x`, or -1. */
  function IndexOf(s: seq<char>, x: char): (i: int)
    ensures -1 <= i < |s|
    ensures i >= 0 ==> s[i] == x && forall j :: 0 <= j < i ==> s[j] != x
    ensures i == -1 ==> x !in s
  {
    if s == [] then -1
    else if s[0] == x then 0
    else
      var j := IndexOf(s[1..], x);
      if j == -1 then -1 else j + 1
  }

  /**
   * The piece drawn in display cell (fileIndex, rankIndex) as line 97 computes it:
   * `board[8 - rank][files.indexOf(file)]`, where `files` is the orientation's own list.
   */
  function DrawnPieceAsWritten(game: Position, orientation: Side, fileIndex: int, rankIndex: int): (piece: Option<Piece>)
    requires WellFormed(game) && 0 <= fileIndex < 8 && 0 <= rankIndex < 8
    ensures orientation == White ==> piece == PieceAt(game, SquareAt(White, fileIndex, rankIndex))
  {
    IndexOfOwnFile(orientation, fileIndex);
    WhiteCellSquare(fileIndex, rankIndex);
    var files := Files(orientation);
    var rank := Ranks(orientation)[rankIndex];
    var col := IndexOf(files, files[fileIndex]);
    game.grid[8 - rank][col]
  }

  /** As written, the column read is the display column itself, not the square's file column. */
  lemma {:induction false} AsWrittenReadsDisplayColumn(game: Position, orientation: Side, fileIndex: int, rankIndex: int)
    requires WellFormed(game) && 0 <= fileIndex < 8 && 0 <= rankIndex < 8
    ensures DrawnPieceAsWritten(game, orientation, fileIndex, rankIndex)
            == game.grid[8 - Ranks(orientation)[rankIndex]][fileIndex]
  {
    IndexOfOwnFile(orientation, fileIndex);
  }

  /** In the white orientation a cell shows the square in its own column and row. */
  lemma WhiteCellSquare(fileIndex: int, rankIndex: int)
    requires 0 <= fileIndex < 8 && 0 <= rankIndex < 8
    ensures ValidSquare(SquareAt(White, fileIndex, rankIndex))
    ensures FileIndex(SquareAt(White, fileIndex, rankIndex).file) == fileIndex
    ensures SquareAt(White, fileIndex, rankIndex).rank == Ranks(White)[rankIndex] == 8 - rankIndex
  {
  }

  /** The files of either orientation are distinct, so each file is found at its own index. */
  lemma IndexOfOwnFile(orientation: Side, fileIndex: int)
    requires 0 <= fileIndex < 8
    ensures IndexOf(Files(orientation), Files(orientation)[fileIndex]) == fileIndex
  {
    var files := Files(orientation);
    assert forall j, k :: 0 <= j < k < 8 ==> files[j] != files[k];
  }

  /**
   * Counter-example for the black orientation: with the white queen on d1 and the white king
   * on e1, the cell labelled d1 (display column 4, row 0) draws the king.
   */
  lemma MirroredForBlack()
    ensures var g := Position(
              seq(8, r => seq(8, c => if r == 7 && c == 3 then Some(Piece(White, Queen))
                                      else if r == 7 && c == 4 then Some(Piece(White, King))
                                      else None)),
              White, sq => []);
            WellFormed(g)
            && SquareAt(Black, 4, 0) == Square('d', 1)
            && PieceAt(g, Square('d', 1)) == Some(Piece(White, Queen))
            && DrawnPieceAsWritten(g, Black, 4, 0) == Some(Piece(White, King))
  {
    var g := Position(
      seq(8, r => seq(8, c => if r == 7 && c == 3 then Some(Piece(White, Queen))
                              else if r == 7 && c == 4 then Some(Piece(White, King))
                              else None)),
      White, sq => []);
    AsWrittenReadsDisplayColumn(g, Black, 4, 0);
  }

  /** The piece drawn in a display cell: the piece on the square that cell is labelled with. */
  function DrawnPiece(game: Position, orientation: Side, fileIndex: int, rankIndex: int): (piece: Option<Piece>)
    requires WellFormed(game) && 0 <= fileIndex < 8 && 0 <= rankIndex < 8
    ensures orientation == White ==> piece == DrawnPieceAsWritten(game, White, fileIndex, rankIndex)
  {
    PieceAt(game, SquareAt(orientation, fileIndex, rankIndex))
  }

  /**
   * Every square's piece is drawn in the cell where that square is shown, in both
   * orientations; for the white orientation this is exactly what line 97 draws.
   */
  lemma {:induction false} DrawnPieceFollowsSquare(game: Position, orientation: Side, sq: Square)
    requires WellFormed(game) && ValidSquare(sq)
    ensures DrawnPiece(game, orientation, CellOf(orientation, sq).0, CellOf(orientation, sq).1) == PieceAt(game, sq)
    ensures orientation == White ==>
      DrawnPieceAsWritten(game, White, CellOf(White, sq).0, CellOf(White, sq).1) == PieceAt(game, sq)
  {
    if orientation == White {
      AsWrittenReadsDisplayColumn(game, White, CellOf(White, sq).0, CellOf(White, sq).1);
    }
  }
}
