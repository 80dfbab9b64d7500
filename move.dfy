/**
 * move_piece: moving the piece of one cell to another cell of the packed board.
 * The C function writes the new word through a pointer; here it is returned.
 */
module Move {
  import opened Board

  /** move_piece: unchanged when `from` is empty or the occupied bit of `to` is set. */
  function MovePiece(board: bv32, from: char, to: char): bv32
    requires IsLabel(from) && IsLabel(to)
  {
    var fromOffset := PosOffset(from);
    var toOffset := PosOffset(to);
    var piece := Bits(board, fromOffset);
    if piece == 0 then board
    else if CheckBit(board, toOffset) == 1 then board
    else Relocated(board, fromOffset, toOffset)
  }

  /**
   * The move is carried out: a piece on `f` and the occupied bit of `t` clear.
   * These are move_piece's own checks, weaker than the rule Generator.Legal the
   * generator applies before calling it: every legal step passes them.
   */
  predicate CanMove(board: bv32, f: Cell, t: Cell) {
    FieldAt(board, f) != 0 && FieldAt(board, t) & 1 == 0
  }

  lemma PosOffsetLabel(c: Cell)
    ensures PosOffset(Label(c)) == FieldOffset(c)
  {
    CellOfLabel(c);
  }

  /** When the move cannot be made, the board is returned as it was. */
  lemma MoveRefused(board: bv32, f: Cell, t: Cell)
    requires !CanMove(board, f, t)
    ensures MovePiece(board, Label(f), Label(t)) == board
  {
    PosOffsetLabel(f);
    PosOffsetLabel(t);
    CheckBitOfBits(board, FieldOffset(t));
  }

  /** A move that is carried out goes through the relocation of the field of `f` to `t`. */
  lemma MoveRelocates(board: bv32, f: Cell, t: Cell)
    requires CanMove(board, f, t)
    ensures MovePiece(board, Label(f), Label(t)) == Relocated(board, FieldOffset(f), FieldOffset(t))
  {
    PosOffsetLabel(f);
    PosOffsetLabel(t);
    CheckBitOfBits(board, FieldOffset(t));
  }

  /**
   * A move that is carried out gives `t` the old field of `f`, empties `f`, and
   * leaves every other field and the high nibble as they were.
   */
  lemma MoveFields(board: bv32, f: Cell, t: Cell, c: Cell)
    requires CanMove(board, f, t)
    ensures FieldAt(MovePiece(board, Label(f), Label(t)), c)
         == if c == t then FieldAt(board, f) else if c == f then 0 else FieldAt(board, c)
    ensures MovePiece(board, Label(f), Label(t)) >> 28 == board >> 28
  {
    MoveRelocates(board, f, t);
    var of, ot, p := FieldOffset(f), FieldOffset(t), FieldOffset(c);
    OffsetsDistinct(c, t);
    OffsetsDistinct(c, f);
    OffsetsDistinct(f, t);
    RelocatedHigh(board, of, ot);
    if c == t {
      RelocatedTarget(board, of, ot);
    } else if c == f {
      RelocatedSource(board, of, ot);
    } else {
      RelocatedOther(board, of, ot, p);
    }
  }

  /** The fields of a board, in cell order. */
  function Fields(board: bv32): (fs: seq<bv32>)
    ensures |fs| == NUM_POSITIONS
    ensures forall c: Cell :: fs[c] == FieldAt(board, c)
  {
    seq(NUM_POSITIONS, c requires 0 <= c < NUM_POSITIONS => FieldAt(board, c))
  }

  /** How many fields of the board hold `v`. */
  function PieceCount(board: bv32, v: bv32): nat {
    multiset(Fields(board))[v]
  }

  lemma MoveSwapsFields(board: bv32, f: Cell, t: Cell)
    requires CanMove(board, f, t) && f != t
    ensures Fields(MovePiece(board, Label(f), Label(t))) == Fields(board)[t := FieldAt(board, f)][f := 0]
  {
    var r := MovePiece(board, Label(f), Label(t));
    forall c: Cell ensures Fields(r)[c] == Fields(board)[t := FieldAt(board, f)][f := 0][c] {
      MoveFields(board, f, t, c);
    }
  }

  /**
   * On a well-formed board, a move that is carried out keeps the board well formed
   * and keeps the multiset of field values, so the number of white pieces and the
   * number of black pieces do not change.
   */
  lemma MovePreservesCounts(board: bv32, f: Cell, t: Cell)
    requires WellFormed(board) && CanMove(board, f, t)
    ensures WellFormed(MovePiece(board, Label(f), Label(t)))
    ensures multiset(Fields(MovePiece(board, Label(f), Label(t)))) == multiset(Fields(board))
    ensures PieceCount(MovePiece(board, Label(f), Label(t)), WHITE) == PieceCount(board, WHITE)
    ensures PieceCount(MovePiece(board, Label(f), Label(t)), BLACK) == PieceCount(board, BLACK)
  {
    var r := MovePiece(board, Label(f), Label(t));
    assert FieldAt(board, t) != 2;
    assert FieldAt(board, t) == 0;
    var fs := Fields(board);
    MoveSwapsFields(board, f, t);
    forall c: Cell ensures FieldAt(r, c) != 2 {
      MoveFields(board, f, t, c);
    }
    MoveFields(board, f, t, 0);
    var moved: seq<bv32> := fs[t := fs[f]][f := fs[t]];
    assert multiset(moved) == multiset(fs);
  }
}
