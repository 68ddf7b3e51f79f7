/**
 * The skeleton chess rules of the `Chess` class: the starting position,
 * a move check that knows only board bounds, piece ownership and "no capture
 * of one's own piece", and stubs for checkmate and move generation.
 *
 * A piece is a one-letter string; upper case is white. Colour is decided the
 * way the source decides it, `piece === piece.toUpperCase()`, so a character
 * without case counts as white.
 */
module ChessRules {
  import opened Common

  type Square = Option<char>

  /** An 8x8 grid of squares, row 0 being black's back rank. */
  type ChessBoard = b: seq<seq<Square>> | |b| == 8 && forall r :: 0 <= r < 8 ==> |b[r]| == 8
    witness seq(8, _ => seq(8, _ => None))

  const BoardSize: int := 8

  predicate IsWhitePiece(p: char) {
    p == UpperChar(p)
  }

  function BackRank(white: bool): seq<Square> {
    var pieces := if white then "RNBQKBNR" else "rnbqkbnr";
    seq(8, i requires 0 <= i < 8 => Some(pieces[i]))
  }

  function PawnRank(white: bool): seq<Square> {
    seq(8, _ => Some(if white then 'P' else 'p'))
  }

  function EmptyRank(): seq<Square> {
    seq(8, _ => None)
  }

  /** `getInitialState`: black pieces on rows 0-1, four empty rows, white pieces on rows 6-7. */
  function InitialState(): (b: ChessBoard)
    ensures forall r, c :: 0 <= r < 2 && 0 <= c < 8 ==> b[r][c].Some? && !IsWhitePiece(b[r][c].value)
    ensures forall r, c :: 6 <= r < 8 && 0 <= c < 8 ==> b[r][c].Some? && IsWhitePiece(b[r][c].value)
    ensures forall r, c :: 2 <= r < 6 && 0 <= c < 8 ==> b[r][c].None?
  {
    [BackRank(false), PawnRank(false), EmptyRank(), EmptyRank(),
     EmptyRank(), EmptyRank(), PawnRank(true), BackRank(true)]
  }

  datatype Coord = Coord(row: int, col: int)

  predicate InBounds(c: Coord) {
    0 <= c.row < BoardSize && 0 <= c.col < BoardSize
  }

  function At(b: ChessBoard, c: Coord): Square
    requires InBounds(c)
  {
    b[c.row][c.col]
  }

  /** The piece belongs to the other side of `player` ("white" or "black"; any other name owns everything). */
  predicate WrongSide(player: string, piece: char) {
    (player == "white" && !IsWhitePiece(piece)) || (player == "black" && IsWhitePiece(piece))
  }

  /** The piece belongs to `player` itself. */
  predicate OwnPiece(player: string, piece: char) {
    (player == "white" && IsWhitePiece(piece)) || (player == "black" && !IsWhitePiece(piece))
  }

  /**
   * `isValidMove`: every coordinate in 0..7, a piece on the source square,
   * that piece on the mover's side, and no own piece on the destination.
   * There are no per-piece movement rules.
   */
  predicate IsValidMove(b: ChessBoard, from: Coord, to: Coord, player: string)
  {
    && InBounds(from) && InBounds(to)
    && At(b, from).Some?
    && !WrongSide(player, At(b, from).value)
    && (At(b, to).Some? ==> !OwnPiece(player, At(b, to).value))
  }

  /** The four reasons `isValidMove` gives false, and that it gives true otherwise. */
  lemma IsValidMoveCases(b: ChessBoard, from: Coord, to: Coord, player: string)
    ensures !InBounds(from) || !InBounds(to) ==> !IsValidMove(b, from, to, player)
    ensures InBounds(from) && At(b, from).None? ==> !IsValidMove(b, from, to, player)
    ensures InBounds(from) && At(b, from).Some? && WrongSide(player, At(b, from).value)
            ==> !IsValidMove(b, from, to, player)
    ensures InBounds(to) && At(b, to).Some? && OwnPiece(player, At(b, to).value)
            ==> !IsValidMove(b, from, to, player)
    ensures InBounds(from) && InBounds(to) && At(b, from).Some? && !WrongSide(player, At(b, from).value)
            && (At(b, to).None? || !OwnPiece(player, At(b, to).value))
            ==> IsValidMove(b, from, to, player)
  {
  }

  /** A white or black mover can never move onto a square of its own colour. */
  lemma NoOwnCapture(b: ChessBoard, from: Coord, to: Coord, player: string)
    requires player == "white" || player == "black"
    requires IsValidMove(b, from, to, player)
    ensures At(b, to).None? || IsWhitePiece(At(b, to).value) != IsWhitePiece(At(b, from).value)
  {
  }

  /**
   * A move onto its own square passes the check only for a mover that is
   * neither "white" nor "black"; `makeMove` then deletes the piece.
   */
  lemma StandStillOnlyForOthers(b: ChessBoard, c: Coord, player: string)
    requires IsValidMove(b, c, c, player)
    ensures player != "white" && player != "black"
  {
  }

  /** `isCheckmate` is a stub that always answers false. */
  function IsCheckmate(b: ChessBoard, player: string): (r: bool)
    ensures !r
  {
    false
  }

  /** `getAvailableMoves` is a stub that always answers the empty list. */
  function GetAvailableMoves(b: ChessBoard, player: string): (r: seq<(Coord, Coord)>)
    ensures r == []
  {
    []
  }

  datatype ChessMoveOutcome = ChessMoveOutcome(board: ChessBoard, isCheckmate: bool, capturedPiece: Square)

  datatype ChessMoveError = InvalidMove

  /** The board after `board[to] = board[from]; board[from] = null`, on a copy. */
  function Relocate(b: ChessBoard, from: Coord, to: Coord): (r: ChessBoard)
    requires InBounds(from) && InBounds(to)
    ensures from != to ==> At(r, to) == At(b, from) && At(r, from) == None
    ensures from == to ==> At(r, from) == None
    ensures forall c :: InBounds(c) && c != from && c != to ==> At(r, c) == At(b, c)
  {
    var piece := At(b, from);
    var b1 := b[to.row := b[to.row][to.col := piece]];
    b1[from.row := b1[from.row][from.col := None]]
  }

  /**
   * `makeMove`: throws "Invalid move" exactly when `isValidMove` is false;
   * otherwise moves the piece on a copy of the board and reports the piece
   * that stood on the destination.
   */
  function MakeMove(b: ChessBoard, from: Coord, to: Coord, player: string): (r: Result<ChessMoveOutcome, ChessMoveError>)
    ensures r.Err? <==> !IsValidMove(b, from, to, player)
    ensures r.Ok? ==> r.value.capturedPiece == At(b, to) && !r.value.isCheckmate
    ensures r.Ok? && from != to ==> At(r.value.board, to) == At(b, from) && At(r.value.board, from) == None
    ensures r.Ok? && from == to ==> At(r.value.board, from) == None
    ensures r.Ok? ==> forall c :: InBounds(c) && c != from && c != to ==> At(r.value.board, c) == At(b, c)
  {
    if !IsValidMove(b, from, to, player) then Err(InvalidMove)
    else
      var nb := Relocate(b, from, to);
      Ok(ChessMoveOutcome(nb, IsCheckmate(nb, if player == "white" then "black" else "white"), At(b, to)))
  }
}
