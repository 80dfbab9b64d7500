/**
 * The board graph of the puzzle and the packed move codes.
 *
 * main holds the graph as a table of four neighbour slots per cell; a row lists
 * the cell's neighbours in ascending order and pads with -1. generateNextState
 * reads a row up to the first -1. A move from cell `f` to cell `t` is packed
 * into one int as `(f << 4) | t` and unpacked again when the path is printed.
 */
module Topology {
  import opened Board

  const SLOTS: int := 4

  /**
   * Slot `k` of the neighbour table of main, row by row for 'A'..'N': a row
   * lists the neighbours in ascending order and pads with -1.
   */
  function Slot(i: Cell, k: int): (n: int)
    requires 0 <= k < SLOTS
    ensures n == -1 || 0 <= n < NUM_POSITIONS
  {
    match i
    case 0 => if k == 0 then 1 else -1                                  // A
    case 1 => if k == 0 then 0 else if k == 1 then 2 else -1            // B
    case 2 => if k == 0 then 1 else if k == 1 then 3 else if k == 2 then 11 else -1 // C
    case 3 => if k == 0 then 2 else if k == 1 then 4 else -1            // D
    case 4 => if k == 0 then 3 else if k == 1 then 5 else -1            // E
    case 5 => if k == 0 then 4 else if k == 1 then 6 else -1            // F
    case 6 => if k == 0 then 5 else -1                                  // G
    case 7 => if k == 0 then 8 else -1                                  // H
    case 8 => if k == 0 then 7 else if k == 1 then 9 else -1            // I
    case 9 => if k == 0 then 8 else if k == 1 then 10 else -1           // J
    case 10 => if k == 0 then 9 else if k == 1 then 11 else -1          // K
    case 11 => if k == 0 then 2 else if k == 1 then 10 else if k == 2 then 12 else -1 // L
    case 12 => if k == 0 then 11 else if k == 1 then 13 else -1         // M
    case 13 => if k == 0 then 12 else -1                                // N
  }

  /** The number of slots of row `i` before its first -1: the slots the generator reads. */
  function Degree(i: Cell): (d: nat)
    ensures 1 <= d < SLOTS
    ensures forall k :: 0 <= k < d ==> Slot(i, k) != -1
    ensures Slot(i, d) == -1
  {
    match i
    case 0 => 1
    case 1 => 2
    case 2 => 3
    case 3 => 2
    case 4 => 2
    case 5 => 2
    case 6 => 1
    case 7 => 1
    case 8 => 2
    case 9 => 2
    case 10 => 2
    case 11 => 3
    case 12 => 2
    case 13 => 1
  }

  /** The neighbours of `f` that the generator reads, in table order. */
  function Neighbors(f: Cell): (ns: seq<int>)
    ensures |ns| == Degree(f)
    ensures forall k :: 0 <= k < |ns| ==> ns[k] == Slot(f, k)
  {
    var row := [Slot(f, 0), Slot(f, 1), Slot(f, 2)];
    row[..Degree(f)]
  }

  /** `t` is read as a neighbour of `f`. */
  predicate Adjacent(f: Cell, t: int) {
    t in Neighbors(f)
  }

  /** Every row lists its neighbours in strictly ascending order. */
  lemma RowsAscending(i: Cell, k: int, l: int)
    requires 0 <= k < l < Degree(i)
    ensures Slot(i, k) < Slot(i, l)
  {
  }

  /** No cell is its own neighbour. */
  lemma NoLoops(i: Cell)
    ensures !Adjacent(i, i)
  {
  }

  /** The table lists every edge from both ends: the graph is undirected. */
  lemma AdjacentSymmetric(f: Cell, t: Cell)
    ensures Adjacent(f, t) <==> Adjacent(t, f)
  {
    if Adjacent(f, t) {
      var k :| 0 <= k < Degree(f) && Slot(f, k) == t;
      ReverseSlot(f, k);
    }
    if Adjacent(t, f) {
      var k :| 0 <= k < Degree(t) && Slot(t, k) == f;
      ReverseSlot(t, k);
    }
  }

  /** The edge in slot `k` of the row of `f` is listed in the row of its target as well. */
  lemma ReverseSlot(f: Cell, k: int)
    requires 0 <= k < Degree(f)
    ensures Adjacent(Slot(f, k), f)
  {
    var t := Slot(f, k);
    var l := if Slot(t, 0) == f then 0 else if Slot(t, 1) == f then 1 else 2;
    match f
      case 0 => case 1 => case 2 => case 3 => case 4 => case 5 => case 6 =>
      case 7 => case 8 => case 9 => case 10 => case 11 => case 12 => case 13 =>
    assert Neighbors(t)[l] == f;
  }

  // ---------------------------------------------------------------------------
  // Move codes.

  /** The code generateNextState stores for a move from cell `f` to cell `t`: (f << 4) | t. */
  function PackMove(f: Cell, t: Cell): int {
    f * 16 + t
  }

  /** The source cell index print_path reads back: (move >> 4) & 0b1111. */
  function MoveFrom(move: int): int {
    (move / 16) % 16
  }

  /** The target cell index print_path reads back: move & 0b1111. */
  function MoveTo(move: int): int {
    move % 16
  }

  /** Unpacking a packed move gives back its two cells. */
  lemma UnpackPack(f: Cell, t: Cell)
    ensures MoveFrom(PackMove(f, t)) == f && MoveTo(PackMove(f, t)) == t
  {
  }

  /** Move codes order moves by source cell first and target cell second. */
  lemma PackMoveOrder(f: Cell, t: Cell, f': Cell, t': Cell)
    ensures PackMove(f, t) < PackMove(f', t') <==> f < f' || (f == f' && t < t')
  {
  }
}
