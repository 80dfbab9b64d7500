/**
 * The packed board of the solver. Every one of the 14 cells 'A'..'N' owns a
 * 2-bit field of a 32-bit word: cell 'A' sits at bits 27..26 and cell 'N' at
 * bits 1..0. Bit 0 of a field says the cell is occupied, bit 1 that the piece
 * on it is black, so 00 is empty, 01 a white piece and 11 a black piece.
 */
module Board {

  const NUM_POSITIONS: int := 14

  /** Field value of a white piece (binary 01) and of a black piece (binary 11); 00 is empty. */
  const WHITE: bv32 := 1
  const BLACK: bv32 := 3

  /** A cell by index: 'A' is 0 and 'N' is 13. */
  type Cell = c: int | 0 <= c < 14

  predicate IsLabel(ch: char) {
    'A' <= ch <= 'N'
  }

  predicate AllLabels(s: string) {
    forall i :: 0 <= i < |s| ==> IsLabel(s[i])
  }

  function Label(c: Cell): (ch: char)
    ensures IsLabel(ch)
  {
    ('A' as int + c) as char
  }

  function CellOf(ch: char): (c: Cell)
    requires IsLabel(ch)
    ensures Label(c) == ch
  {
    ch as int - 'A' as int
  }

  lemma CellOfLabel(c: Cell)
    ensures CellOf(Label(c)) == c
  {
  }

  // ---------------------------------------------------------------------------
  // Field offsets. They are 6-bit values so that they serve as shift amounts
  // of the 32-bit board directly.

  /** An offset at which a field may start: even and at most 26. */
  predicate IsOffset(o: bv6) {
    o <= 26 && o % 2 == 0
  }

  /** Offset of the field of the cell with index `c`, 2 * (13 - c). */
  function FieldOffset(c: Cell): (o: bv6)
    ensures IsOffset(o)
  {
    if c == 0 then 26 else if c == 1 then 24 else if c == 2 then 22
    else if c == 3 then 20 else if c == 4 then 18 else if c == 5 then 16
    else if c == 6 then 14 else if c == 7 then 12 else if c == 8 then 10
    else if c == 9 then 8 else if c == 10 then 6 else if c == 11 then 4
    else if c == 12 then 2 else 0
  }

  /** The cell whose field starts at offset `o`, or -1 when no field starts there. */
  function OffsetCell(o: bv6): int {
    if o == 26 then 0 else if o == 24 then 1 else if o == 22 then 2
    else if o == 20 then 3 else if o == 18 then 4 else if o == 16 then 5
    else if o == 14 then 6 else if o == 12 then 7 else if o == 10 then 8
    else if o == 8 then 9 else if o == 6 then 10 else if o == 4 then 11
    else if o == 2 then 12 else if o == 0 then 13 else -1
  }

  lemma OffsetCellOf(c: Cell)
    ensures OffsetCell(FieldOffset(c)) == c
  {
    match c
      case 0 => case 1 => case 2 => case 3 => case 4 => case 5 => case 6 =>
      case 7 => case 8 => case 9 => case 10 => case 11 => case 12 => case 13 =>
  }

  /** pos_offset computes 2 * (NUM_POSITIONS - 1 - (pos - 'A')): the table holds exactly that. */
  lemma OffsetFormula(c: Cell)
    ensures FieldOffset(c) as int == 2 * (NUM_POSITIONS - 1 - c)
  {
    match c
      case 0 => case 1 => case 2 => case 3 => case 4 => case 5 => case 6 =>
      case 7 => case 8 => case 9 => case 10 => case 11 => case 12 => case 13 =>
  }

  /** Fields of different cells start at different offsets, so they never overlap. */
  lemma OffsetsDistinct(c: Cell, d: Cell)
    ensures c != d <==> FieldOffset(c) != FieldOffset(d)
  {
    OffsetCellOf(c);
    OffsetCellOf(d);
  }

  /** pos_offset: the offset of the field of the cell labelled `pos`. */
  function PosOffset(pos: char): (o: bv6)
    requires IsLabel(pos)
    ensures o == FieldOffset(CellOf(pos))
  {
    FieldOffset(pos as int - 'A' as int)
  }

  lemma PosOffsetsDistinct(p: char, q: char)
    requires IsLabel(p) && IsLabel(q)
    ensures p != q <==> PosOffset(p) != PosOffset(q)
  {
    OffsetsDistinct(CellOf(p), CellOf(q));
  }

  // ---------------------------------------------------------------------------
  // Fields.

  /** The 2-bit field that starts at offset `o`, read the way the solver reads it. */
  function Bits(board: bv32, o: bv6): bv32
    requires IsOffset(o)
  {
    (board >> o) & 3
  }

  /** The 2-bit field of cell `c`. */
  function FieldAt(board: bv32, c: Cell): bv32 {
    Bits(board, FieldOffset(c))
  }

  // ---------------------------------------------------------------------------
  // Bit-level facts about move_piece's word, stated over offsets.

  /** The word move_piece writes: both fields cleared, the piece copied to `ot`. */
  function Relocated(board: bv32, of: bv6, ot: bv6): bv32
    requires IsOffset(of) && IsOffset(ot)
  {
    (board & !(3 << of) & !(3 << ot)) | (Bits(board, of) << ot)
  }

  lemma RelocatedTarget(board: bv32, of: bv6, ot: bv6)
    requires IsOffset(of) && IsOffset(ot)
    ensures Bits(Relocated(board, of, ot), ot) == Bits(board, of)
  {
  }

  lemma RelocatedSource(board: bv32, of: bv6, ot: bv6)
    requires IsOffset(of) && IsOffset(ot) && of != ot
    ensures Bits(Relocated(board, of, ot), of) == 0
  {
  }

  lemma RelocatedOther(board: bv32, of: bv6, ot: bv6, p: bv6)
    requires IsOffset(of) && IsOffset(ot) && IsOffset(p) && p != of && p != ot
    ensures Bits(Relocated(board, of, ot), p) == Bits(board, p)
  {
  }

  lemma RelocatedHigh(board: bv32, of: bv6, ot: bv6)
    requires IsOffset(of) && IsOffset(ot)
    ensures Relocated(board, of, ot) >> 28 == board >> 28
  {
  }

  /** The word init_board writes when it ORs the code `v` in at offset `o`. */
  function Place(board: bv32, v: bv32, o: bv6): bv32
    requires IsOffset(o)
  {
    board | (v << o)
  }

  /** OR-ing a code of at most two bits in at offset `o` ORs it into the field at `o` ... */
  lemma BitsOfPlaceSame(board: bv32, v: bv32, o: bv6)
    requires v <= 3 && IsOffset(o)
    ensures Bits(Place(board, v, o), o) == Bits(board, o) | v
  {
  }

  /** ... and leaves the field at any other offset alone. */
  lemma BitsOfPlaceOther(board: bv32, v: bv32, o: bv6, p: bv6)
    requires v <= 3 && IsOffset(o) && IsOffset(p) && p != o
    ensures Bits(Place(board, v, o), p) == Bits(board, p)
  {
  }

  lemma HighOfPlace(board: bv32, v: bv32, o: bv6)
    requires v <= 3 && IsOffset(o)
    ensures Place(board, v, o) >> 28 == board >> 28
  {
  }

  /** Placing a code in the field of `d` leaves every other field alone. */
  lemma FieldOfPlace(board: bv32, v: bv32, d: Cell, c: Cell)
    requires v <= 3
    ensures FieldAt(Place(board, v, FieldOffset(d)), c)
         == if c == d then FieldAt(board, c) | v else FieldAt(board, c)
  {
    OffsetsDistinct(c, d);
    if c == d {
      BitsOfPlaceSame(board, v, FieldOffset(d));
    } else {
      BitsOfPlaceOther(board, v, FieldOffset(d), FieldOffset(c));
    }
  }

  /** CHECK_BIT: bit `o` of the board, the occupied bit of the field starting there. */
  function CheckBit(board: bv32, o: bv6): bv32
    requires IsOffset(o)
  {
    (board >> o) & 1
  }

  lemma CheckBitOfBits(board: bv32, o: bv6)
    requires IsOffset(o)
    ensures CheckBit(board, o) == Bits(board, o) & 1
  {
  }

  /** Every field is one of 00, 01, 11 and the four high bits are clear. */
  predicate WellFormed(board: bv32) {
    board >> 28 == 0 && forall c: Cell :: FieldAt(board, c) != 2
  }
}
