/**
 * Building a board from the two piece strings of the command line
 * (init_board) and reading one cell back (get_symbol).
 */
module Codec {
  import opened Board

  /** The 2-bit value init_board leaves in the field of `c`: black wins over white. */
  function StatusBits(white: string, black: string, c: Cell): (v: bv32)
    ensures v == WHITE || v == BLACK || v == 0
  {
    if Label(c) in black then BLACK else if Label(c) in white then WHITE else 0
  }

  /** Every field of `board` holds the status the piece strings give it; the high nibble is clear. */
  ghost predicate HoldsStatus(board: bv32, white: string, black: string) {
    board >> 28 == 0 && forall c: Cell :: FieldAt(board, c) == StatusBits(white, black, c)
  }

  /** Appending a label to a piece string adds exactly that label's cell. */
  lemma AppendLabel(s: string, ch: char, c: Cell)
    requires IsLabel(ch)
    ensures (Label(c) in s + [ch]) <==> (Label(c) in s || c == CellOf(ch))
  {
    CellOfLabel(c);
  }

  /** A white label, appended while there are no black labels yet, makes its cell white. */
  lemma AppendWhite(white: string, ch: char, c: Cell)
    requires IsLabel(ch)
    ensures StatusBits(white + [ch], [], c) == if c == CellOf(ch) then WHITE else StatusBits(white, [], c)
  {
    AppendLabel(white, ch, c);
  }

  /** A black label makes its cell black, whatever the white string says. */
  lemma AppendBlack(white: string, black: string, ch: char, c: Cell)
    requires IsLabel(ch)
    ensures StatusBits(white, black + [ch], c) == if c == CellOf(ch) then BLACK else StatusBits(white, black, c)
  {
    AppendLabel(black, ch, c);
  }

  lemma WhiteCell(board: bv32, white: string, ch: char, d: Cell, c: Cell)
    requires IsLabel(ch) && d == CellOf(ch) && FieldAt(board, c) == StatusBits(white, [], c)
    ensures FieldAt(Place(board, WHITE, FieldOffset(d)), c) == StatusBits(white + [ch], [], c)
  {
    FieldOfPlace(board, WHITE, d, c);
    AppendWhite(white, ch, c);
  }

  lemma BlackCell(board: bv32, white: string, black: string, ch: char, d: Cell, c: Cell)
    requires IsLabel(ch) && d == CellOf(ch) && FieldAt(board, c) == StatusBits(white, black, c)
    ensures FieldAt(Place(board, BLACK, FieldOffset(d)), c) == StatusBits(white, black + [ch], c)
  {
    FieldOfPlace(board, BLACK, d, c);
    AppendBlack(white, black, ch, c);
  }

  /** Adding a white label, while there are no black labels yet, ORs 01 into its cell's field. */
  lemma AddWhite(board: bv32, white: string, ch: char, d: Cell)
    requires IsLabel(ch) && d == CellOf(ch) && HoldsStatus(board, white, [])
    ensures HoldsStatus(Place(board, WHITE, FieldOffset(d)), white + [ch], [])
  {
    forall c: Cell ensures FieldAt(Place(board, WHITE, FieldOffset(d)), c) == StatusBits(white + [ch], [], c) {
      WhiteCell(board, white, ch, d, c);
    }
    HighOfPlace(board, WHITE, FieldOffset(d));
  }

  /** Adding a black label ORs 11 into its cell's field. */
  lemma AddBlack(board: bv32, white: string, black: string, ch: char, d: Cell)
    requires IsLabel(ch) && d == CellOf(ch) && HoldsStatus(board, white, black)
    ensures HoldsStatus(Place(board, BLACK, FieldOffset(d)), white, black + [ch])
  {
    forall c: Cell ensures FieldAt(Place(board, BLACK, FieldOffset(d)), c) == StatusBits(white, black + [ch], c) {
      BlackCell(board, white, black, ch, d, c);
    }
    HighOfPlace(board, BLACK, FieldOffset(d));
  }

  /** One iteration of init_board's white loop. */
  lemma WhiteStep(board: bv32, white: string, i: int, offset: bv6)
    requires 0 <= i < |white| && IsLabel(white[i]) && offset == PosOffset(white[i])
    requires HoldsStatus(board, white[..i], [])
    ensures HoldsStatus(Place(board, WHITE, offset), white[..i + 1], [])
  {
    AddWhite(board, white[..i], white[i], CellOf(white[i]));
    assert white[..i + 1] == white[..i] + [white[i]];
  }

  /** One iteration of init_board's black loop. */
  lemma BlackStep(board: bv32, white: string, black: string, i: int, offset: bv6)
    requires 0 <= i < |black| && IsLabel(black[i]) && offset == PosOffset(black[i])
    requires HoldsStatus(board, white, black[..i])
    ensures HoldsStatus(Place(board, BLACK, offset), white, black[..i + 1])
  {
    AddBlack(board, white, black[..i], black[i], CellOf(black[i]));
    assert black[..i + 1] == black[..i] + [black[i]];
  }

  /** init_board: white pieces first, then black ones, so a label in both strings ends up black. */
  method InitBoard(whitePieces: string, blackPieces: string) returns (board: bv32)
    requires AllLabels(whitePieces) && AllLabels(blackPieces)
    ensures HoldsStatus(board, whitePieces, blackPieces)
    ensures WellFormed(board)
  {
    board := 0;
    for i := 0 to |whitePieces|
      invariant HoldsStatus(board, whitePieces[..i], [])
    {
      var offset := PosOffset(whitePieces[i]);
      WhiteStep(board, whitePieces, i, offset);
      board := Place(board, WHITE, offset);
    }
    assert whitePieces[..|whitePieces|] == whitePieces;
    for i := 0 to |blackPieces|
      invariant HoldsStatus(board, whitePieces, blackPieces[..i])
    {
      var offset := PosOffset(blackPieces[i]);
      BlackStep(board, whitePieces, blackPieces, i, offset);
      board := Place(board, BLACK, offset);
    }
    assert blackPieces[..|blackPieces|] == blackPieces;
    StatusWellFormed(board, whitePieces, blackPieces);
  }

  /** A board holding the statuses of some piece strings is well formed. */
  lemma StatusWellFormed(board: bv32, white: string, black: string)
    requires HoldsStatus(board, white, black)
    ensures WellFormed(board)
  {
    forall c: Cell ensures FieldAt(board, c) != 2 {
      assert FieldAt(board, c) == StatusBits(white, black, c);
    }
  }

  /** get_symbol: '-' for an unoccupied field, 'x' for black, 'o' for white. */
  function GetSymbol(board: bv32, posIndex: Cell): (s: char)
    ensures s == '-' <==> FieldAt(board, posIndex) & 1 == 0
    ensures s == 'o' <==> FieldAt(board, posIndex) == WHITE
    ensures s == 'x' <==> FieldAt(board, posIndex) == BLACK
  {
    var offset := FieldOffset(posIndex);
    var val := (board >> offset) & 3;
    if val & 1 == 0 then '-'
    else if val & 2 != 0 then 'x' else 'o'
  }

  /** Reading back a board built from piece strings gives each label's colour; black wins over white. */
  lemma SymbolOfStatus(board: bv32, white: string, black: string, c: Cell)
    requires HoldsStatus(board, white, black)
    ensures GetSymbol(board, c) == if Label(c) in black then 'x' else if Label(c) in white then 'o' else '-'
  {
    assert FieldAt(board, c) == StatusBits(white, black, c);
  }
}
