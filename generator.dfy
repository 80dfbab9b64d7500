/**
 * generateNextState: every one-move successor of a board that is not in the
 * visited set yet is put on the queue and marked visited. Cells are scanned in
 * ascending index and each cell's neighbours in table order.
 *
 * The specification is a list of candidate moves in that scan order
 * (Candidates) and a filter over it (Expand) that keeps a move when its board
 * is neither visited already nor produced by an earlier candidate.
 */
module Generator {
  import opened Board
  import opened Move
  import opened Topology
  import opened Queue
  import opened Visited

  /** A move of the piece on cell `from` to cell `to`. */
  datatype Step = Step(from: Cell, to: Cell)

  /** The move code generateNextState stores for a step. */
  function Code(s: Step): int {
    PackMove(s.from, s.to)
  }

  /** The step a move code stands for, once both halves name a cell. */
  predicate ValidMove(move: int) {
    0 <= MoveFrom(move) < NUM_POSITIONS && 0 <= MoveTo(move) < NUM_POSITIONS
  }

  function StepOf(move: int): Step
    requires ValidMove(move)
  {
    Step(MoveFrom(move), MoveTo(move))
  }

  lemma StepOfCode(s: Step)
    ensures ValidMove(Code(s)) && StepOf(Code(s)) == s
  {
    UnpackPack(s.from, s.to);
  }

  /**
   * A move generateNextState makes: `to` is read as a neighbour of `from`, the
   * occupied bit of `from` is set and the field of `to` is 00. This is the one
   * rule of the search; Open and MakesMove restate it for the scan, and
   * move_piece's own check CanMove is weaker (LegalIsCarriedOut).
   */
  predicate Legal(board: bv32, s: Step) {
    Adjacent(s.from, s.to) && FieldAt(board, s.from) & 1 == 1 && FieldAt(board, s.to) == 0
  }

  /** The board a step leads to: move_piece applied to the two labels. */
  function Successor(board: bv32, s: Step): bv32 {
    MovePiece(board, Label(s.from), Label(s.to))
  }

  /** A legal step is carried out by move_piece: it is never refused. */
  lemma LegalIsCarriedOut(board: bv32, s: Step)
    requires Legal(board, s)
    ensures CanMove(board, s.from, s.to)
    ensures Successor(board, s) == Relocated(board, FieldOffset(s.from), FieldOffset(s.to))
  {
    MoveRelocates(board, s.from, s.to);
  }

  // ---------------------------------------------------------------------------
  // Candidate moves in scan order.

  /**
   * generateNextState moves the piece on `f` to `t` when the occupied bit of
   * `f` is set and the field of `t` is 00. The candidate lists below are
   * stated for any such test `open`; the generator's is Open(board). It is
   * Legal without the adjacency test, which the lists take from the table:
   * CandidatesExact proves the two agree.
   */
  function Open(board: bv32): (Cell, Cell) -> bool {
    (f: Cell, t: Cell) => FieldAt(board, f) & 1 == 1 && FieldAt(board, t) == 0
  }

  /** The move in slot `k` of the row of cell `i`, if the slot is open. */
  function SlotMoves(open: (Cell, Cell) -> bool, i: Cell, k: int): seq<Step>
    requires 0 <= k < Degree(i)
  {
    if open(i, Slot(i, k)) then [Step(i, Slot(i, k))] else []
  }

  /** The moves of cell `i` through the slots before `j`. */
  function RowMoves(open: (Cell, Cell) -> bool, i: Cell, j: int): seq<Step>
    requires 0 <= j <= Degree(i)
    decreases j
  {
    if j == 0 then [] else RowMoves(open, i, j - 1) + SlotMoves(open, i, j - 1)
  }

  /** The moves of the cells before `i`. */
  function MovesBefore(open: (Cell, Cell) -> bool, i: int): seq<Step>
    requires 0 <= i <= NUM_POSITIONS
    decreases i
  {
    if i == 0 then [] else MovesBefore(open, i - 1) + RowMoves(open, i - 1, Degree(i - 1))
  }

  /** Every move generateNextState considers, in the order it considers them. */
  function Candidates(board: bv32): seq<Step> {
    MovesBefore(Open(board), NUM_POSITIONS)
  }

  /** A cell none of whose slots is open contributes no move. */
  lemma {:induction false} RowMovesClosed(open: (Cell, Cell) -> bool, i: Cell, j: int)
    requires 0 <= j <= Degree(i) && forall t :: !open(i, t)
    ensures RowMoves(open, i, j) == []
  {
    if j > 0 {
      RowMovesClosed(open, i, j - 1);
    }
  }

  lemma {:induction false} RowMovesMembers(open: (Cell, Cell) -> bool, i: Cell, j: int)
    requires 0 <= j <= Degree(i)
    ensures forall s :: s in RowMoves(open, i, j) <==> s.from == i && s.to in Neighbors(i)[..j] && open(i, s.to)
  {
    if j > 0 {
      RowMovesMembers(open, i, j - 1);
      assert Neighbors(i)[..j] == Neighbors(i)[..j - 1] + [Slot(i, j - 1)];
    }
  }

  lemma {:induction false} MovesBeforeMembers(open: (Cell, Cell) -> bool, i: int)
    requires 0 <= i <= NUM_POSITIONS
    ensures forall s :: s in MovesBefore(open, i) <==> s.from < i && Adjacent(s.from, s.to) && open(s.from, s.to)
  {
    if i > 0 {
      MovesBeforeMembers(open, i - 1);
      RowMovesMembers(open, i - 1, Degree(i - 1));
      assert Neighbors(i - 1)[..Degree(i - 1)] == Neighbors(i - 1);
    }
  }

  /** The candidates are exactly the legal moves. */
  lemma CandidatesExact(board: bv32, s: Step)
    ensures s in Candidates(board) <==> Legal(board, s)
  {
    MovesBeforeMembers(Open(board), NUM_POSITIONS);
  }

  /** Move codes strictly increase along `moves`. */
  predicate Ordered(moves: seq<Step>) {
    forall a, b {:trigger Code(moves[a]), Code(moves[b])} :: 0 <= a < b < |moves| ==> Code(moves[a]) < Code(moves[b])
  }

  /** A slot contributes its own move or nothing. */
  lemma SlotMovesShape(open: (Cell, Cell) -> bool, i: Cell, k: int)
    requires 0 <= k < Degree(i)
    ensures SlotMoves(open, i, k) == [] || SlotMoves(open, i, k) == [Step(i, Slot(i, k))]
  {
  }

  /** Ordered moves stay ordered when followed by nothing or by a step with a larger code than all of them. */
  lemma OrderedExtend(xs: seq<Step>, extra: seq<Step>, s: Step)
    requires Ordered(xs)
    requires forall x :: x in xs ==> Code(x) < Code(s)
    requires extra == [] || extra == [s]
    ensures Ordered(xs + extra)
  {
    if extra == [] {
      assert xs + extra == xs;
    } else {
      var zs := xs + extra;
      forall a, b | 0 <= a < b < |zs| ensures Code(zs[a]) < Code(zs[b]) {
        if b == |xs| {
          assert zs[a] == xs[a] && xs[a] in xs;
        }
      }
    }
  }

  /** The moves of a row all leave cell `i` and go no further than the last slot read. */
  lemma {:induction false} RowMovesBound(open: (Cell, Cell) -> bool, i: Cell, j: int)
    requires 0 < j <= Degree(i)
    ensures forall s :: s in RowMoves(open, i, j) ==> s.from == i && s.to <= Slot(i, j - 1)
  {
    assert RowMoves(open, i, j) == RowMoves(open, i, j - 1) + SlotMoves(open, i, j - 1);
    if j > 1 {
      RowMovesBound(open, i, j - 1);
      RowsAscending(i, j - 2, j - 1);
    } else {
      assert RowMoves(open, i, j - 1) == [];
    }
  }

  lemma {:induction false} RowMovesOrdered(open: (Cell, Cell) -> bool, i: Cell, j: int)
    requires 0 <= j <= Degree(i)
    ensures Ordered(RowMoves(open, i, j))
  {
    if j > 0 {
      var last := Step(i, Slot(i, j - 1));
      RowMovesOrdered(open, i, j - 1);
      if j > 1 {
        RowMovesBound(open, i, j - 1);
        RowsAscending(i, j - 2, j - 1);
      }
      assert forall x :: x in RowMoves(open, i, j - 1) ==> Code(x) < Code(last);
      SlotMovesShape(open, i, j - 1);
      OrderedExtend(RowMoves(open, i, j - 1), SlotMoves(open, i, j - 1), last);
    }
  }

  /** The moves of the cells before `i` all leave a cell before `i`. */
  lemma {:induction false} MovesBeforeBound(open: (Cell, Cell) -> bool, i: int)
    requires 0 <= i <= NUM_POSITIONS
    ensures forall s :: s in MovesBefore(open, i) ==> s.from < i
  {
    if i > 0 {
      MovesBeforeBound(open, i - 1);
      RowMovesBound(open, i - 1, Degree(i - 1));
    }
  }

  lemma {:induction false} MovesBeforeOrdered(open: (Cell, Cell) -> bool, i: int)
    requires 0 <= i <= NUM_POSITIONS
    ensures Ordered(MovesBefore(open, i))
  {
    if i > 0 {
      MovesBeforeOrdered(open, i - 1);
      MovesBeforeBound(open, i - 1);
      RowMovesOrdered(open, i - 1, Degree(i - 1));
      RowMovesBound(open, i - 1, Degree(i - 1));
      OrderedConcat(MovesBefore(open, i - 1), RowMoves(open, i - 1, Degree(i - 1)), i - 1);
    }
  }

  /** Moves of cells before `c` followed by ordered moves of `c` stay ordered. */
  lemma OrderedConcat(xs: seq<Step>, ys: seq<Step>, c: Cell)
    requires Ordered(xs) && Ordered(ys)
    requires forall s :: s in xs ==> s.from < c
    requires forall s :: s in ys ==> s.from == c
    ensures Ordered(xs + ys)
  {
    var zs := xs + ys;
    forall a, b | 0 <= a < b < |zs| ensures Code(zs[a]) < Code(zs[b]) {
      if a < |xs| <= b {
        assert zs[a] == xs[a] && xs[a] in xs;
        assert zs[b] == ys[b - |xs|] && ys[b - |xs|] in ys;
        PackMoveOrder(zs[a].from, zs[a].to, zs[b].from, zs[b].to);
      }
    }
  }

  /** generateNextState considers moves in ascending order of their codes. */
  lemma CandidatesOrdered(board: bv32)
    ensures Ordered(Candidates(board))
  {
    MovesBeforeOrdered(Open(board), NUM_POSITIONS);
  }

  // ---------------------------------------------------------------------------
  // The filter.

  /** The boards of a run of queue entries. */
  function BoardsOf(entries: seq<QueueEntry>): set<bv32>
    decreases |entries|
  {
    if entries == [] then {} else BoardsOf(entries[..|entries| - 1]) + {entries[|entries| - 1].board}
  }

  lemma {:induction false} BoardsOfMember(entries: seq<QueueEntry>, b: bv32)
    ensures b in BoardsOf(entries) <==> exists k :: 0 <= k < |entries| && entries[k].board == b
  {
    if entries != [] {
      var prefix := entries[..|entries| - 1];
      BoardsOfMember(prefix, b);
      if b in BoardsOf(prefix) {
        var k :| 0 <= k < |prefix| && prefix[k].board == b;
        assert entries[k].board == b;
      }
      if exists k :: 0 <= k < |entries| && entries[k].board == b {
        var k :| 0 <= k < |entries| && entries[k].board == b;
        if k < |prefix| {
          assert prefix[k].board == b;
        }
      }
    }
  }

  lemma BoardsOfAppend(entries: seq<QueueEntry>, e: QueueEntry)
    ensures BoardsOf(entries + [e]) == BoardsOf(entries) + {e.board}
  {
    assert (entries + [e])[..|entries|] == entries;
  }

  /** The filter applied to one more offered entry, after it kept `prior`. */
  function Extend(seen: set<bv32>, prior: seq<QueueEntry>, e: QueueEntry): seq<QueueEntry> {
    if e.board in seen || e.board in BoardsOf(prior) then prior else prior + [e]
  }

  /**
   * The filter of generateNextState, with `seen` the visited set on entry: an
   * offered entry is kept when its board is neither visited nor the board of
   * an entry kept before it.
   */
  function Filter(seen: set<bv32>, offers: seq<QueueEntry>): seq<QueueEntry>
    decreases |offers|
  {
    if offers == [] then []
    else Extend(seen, Filter(seen, offers[..|offers| - 1]), offers[|offers| - 1])
  }

  /** Every kept entry was offered, and its board was not visited. */
  lemma {:induction false} FilterSound(seen: set<bv32>, offers: seq<QueueEntry>)
    ensures forall e :: e in Filter(seen, offers) ==> e in offers && e.board !in seen
  {
    if offers != [] {
      var rest := offers[..|offers| - 1];
      FilterSound(seen, rest);
      assert forall e :: e in rest ==> e in offers;
    }
  }

  /** The board of entry `k` of a run. */
  function BoardAt(entries: seq<QueueEntry>, k: int): bv32
    requires 0 <= k < |entries|
  {
    entries[k].board
  }

  /** No two entries of a run carry the same board. */
  predicate DistinctBoards(entries: seq<QueueEntry>) {
    forall a, b :: 0 <= a < b < |entries| ==> BoardAt(entries, a) != BoardAt(entries, b)
  }

  /** No board is kept twice. */
  lemma {:induction false} FilterDistinct(seen: set<bv32>, offers: seq<QueueEntry>)
    ensures DistinctBoards(Filter(seen, offers))
  {
    if offers != [] {
      var prior := Filter(seen, offers[..|offers| - 1]);
      FilterDistinct(seen, offers[..|offers| - 1]);
      var e := offers[|offers| - 1];
      if !(e.board in seen || e.board in BoardsOf(prior)) {
        var es := prior + [e];
        forall a, b | 0 <= a < b < |es| ensures BoardAt(es, a) != BoardAt(es, b) {
          if b == |es| - 1 {
            BoardsOfMember(prior, e.board);
            assert prior[a] == es[a];
          } else {
            assert BoardAt(prior, a) != BoardAt(prior, b);
          }
        }
      }
    }
  }

  /** After the filter, the board of every offered entry is visited or kept. */
  lemma {:induction false} FilterComplete(seen: set<bv32>, offers: seq<QueueEntry>)
    ensures forall e :: e in offers ==> e.board in seen || e.board in BoardsOf(Filter(seen, offers))
  {
    if offers != [] {
      var rest := offers[..|offers| - 1];
      var prior := Filter(seen, rest);
      var e := offers[|offers| - 1];
      FilterComplete(seen, rest);
      assert offers == rest + [e];
      if !(e.board in seen || e.board in BoardsOf(prior)) {
        BoardsOfAppend(prior, e);
      }
    }
  }

  /** Move codes strictly increase along a run of entries. */
  predicate Increasing(entries: seq<QueueEntry>) {
    forall a, b :: 0 <= a < b < |entries| ==> entries[a].move < entries[b].move
  }

  /** The filter keeps offered entries in their order. */
  lemma {:induction false} FilterOrdered(seen: set<bv32>, offers: seq<QueueEntry>)
    requires Increasing(offers)
    ensures Increasing(Filter(seen, offers))
  {
    if offers != [] {
      var rest := offers[..|offers| - 1];
      FilterOrdered(seen, rest);
      FilterSound(seen, rest);
      var prior := Filter(seen, rest);
      forall e | e in prior ensures e.move < offers[|offers| - 1].move {
        var k :| 0 <= k < |rest| && rest[k] == e;
      }
    }
  }

  /** The queue entry a move offers: the board it leads to, its code and the link. */
  function Offer(board: bv32, s: Step, predecessor: int): QueueEntry {
    QueueEntry(Successor(board, s), Code(s), predecessor)
  }

  /** The entries `moves` offer, in order. */
  function Offers(board: bv32, moves: seq<Step>, predecessor: int): (es: seq<QueueEntry>)
    ensures |es| == |moves|
    decreases |moves|
  {
    if moves == [] then []
    else Offers(board, moves[..|moves| - 1], predecessor) + [Offer(board, moves[|moves| - 1], predecessor)]
  }

  lemma {:induction false} OffersIndex(board: bv32, moves: seq<Step>, predecessor: int)
    ensures forall k :: 0 <= k < |moves| ==> Offers(board, moves, predecessor)[k] == Offer(board, moves[k], predecessor)
  {
    if moves != [] {
      OffersIndex(board, moves[..|moves| - 1], predecessor);
    }
  }

  /** The entries generateNextState enqueues for `moves` when `seen` is the visited set on entry. */
  function Expand(board: bv32, seen: set<bv32>, moves: seq<Step>, predecessor: int): seq<QueueEntry> {
    Filter(seen, Offers(board, moves, predecessor))
  }

  /**
   * Every enqueued entry carries the given predecessor, a code that unpacks to
   * a legal move, and the board that move leads to; that board was not visited.
   */
  lemma ExpandSound(board: bv32, seen: set<bv32>, moves: seq<Step>, predecessor: int)
    requires forall s :: s in moves ==> Legal(board, s)
    ensures forall e :: e in Expand(board, seen, moves, predecessor) ==>
      e.board !in seen && e.predecessor == predecessor && ValidMove(e.move) &&
      Legal(board, StepOf(e.move)) && e.board == Successor(board, StepOf(e.move))
  {
    var offers := Offers(board, moves, predecessor);
    FilterSound(seen, offers);
    OffersIndex(board, moves, predecessor);
    forall e | e in Expand(board, seen, moves, predecessor)
      ensures ValidMove(e.move) && Legal(board, StepOf(e.move)) && e.board == Successor(board, StepOf(e.move))
    {
      var k :| 0 <= k < |offers| && offers[k] == e;
      StepOfCode(moves[k]);
    }
  }

  /** No board is enqueued twice. */
  lemma ExpandDistinct(board: bv32, seen: set<bv32>, moves: seq<Step>, predecessor: int)
    ensures DistinctBoards(Expand(board, seen, moves, predecessor))
  {
    FilterDistinct(seen, Offers(board, moves, predecessor));
  }

  /** After generateNextState, the board of every considered move is visited or enqueued. */
  lemma ExpandComplete(board: bv32, seen: set<bv32>, moves: seq<Step>, predecessor: int)
    ensures forall s :: s in moves ==>
      Successor(board, s) in seen || Successor(board, s) in BoardsOf(Expand(board, seen, moves, predecessor))
  {
    var offers := Offers(board, moves, predecessor);
    FilterComplete(seen, offers);
    OffersIndex(board, moves, predecessor);
    forall s | s in moves
      ensures Successor(board, s) in seen || Successor(board, s) in BoardsOf(Expand(board, seen, moves, predecessor))
    {
      var k :| 0 <= k < |moves| && moves[k] == s;
      assert offers[k] in offers;
    }
  }

  /** Over ordered moves, the enqueued move codes strictly increase. */
  lemma ExpandOrdered(board: bv32, seen: set<bv32>, moves: seq<Step>, predecessor: int)
    requires Ordered(moves)
    ensures Increasing(Expand(board, seen, moves, predecessor))
  {
    OffersIndex(board, moves, predecessor);
    FilterOrdered(seen, Offers(board, moves, predecessor));
  }

  /** One more move puts one more offered entry through the filter. */
  lemma ExpandAppend(board: bv32, seen: set<bv32>, moves: seq<Step>, s: Step, predecessor: int)
    ensures Expand(board, seen, moves + [s], predecessor) ==
      Extend(seen, Expand(board, seen, moves, predecessor), Offer(board, s, predecessor))
  {
    var offers := Offers(board, moves + [s], predecessor);
    assert (moves + [s])[..|moves|] == moves;
    assert offers[..|offers| - 1] == Offers(board, moves, predecessor);
  }

  /** A run of moves followed by nothing or by one more move `s`. */
  lemma ExpandMaybe(board: bv32, seen: set<bv32>, moves: seq<Step>, extra: seq<Step>, s: Step, predecessor: int)
    requires extra == [] || extra == [s]
    ensures Expand(board, seen, moves + extra, predecessor) ==
      if extra == [] then Expand(board, seen, moves, predecessor)
      else Extend(seen, Expand(board, seen, moves, predecessor), Offer(board, s, predecessor))
  {
    if extra == [] {
      assert moves + extra == moves;
    } else {
      ExpandAppend(board, seen, moves, s, predecessor);
    }
  }

  lemma AppendAssociative(a: seq<Step>, b: seq<Step>, c: seq<Step>)
    ensures a + (b + c) == (a + b) + c
  {
  }

  /** Moving the scan past slot `j` of an occupied cell `i` puts that slot's move through the filter. */
  lemma ExtendDone(board: bv32, seen: set<bv32>, done: seq<Step>, i: Cell, j: int, predecessor: int)
    requires 0 <= j < Degree(i) && FieldAt(board, i) & 1 == 1
    ensures var prior := Expand(board, seen, done + RowMoves(Open(board), i, j), predecessor);
      Expand(board, seen, done + RowMoves(Open(board), i, j + 1), predecessor) ==
        if FieldAt(board, Slot(i, j)) == 0 then Extend(seen, prior, Offer(board, Step(i, Slot(i, j)), predecessor)) else prior
  {
    var row, extra := RowMoves(Open(board), i, j), SlotMoves(Open(board), i, j);
    assert RowMoves(Open(board), i, j + 1) == row + extra;
    AppendAssociative(done, row, extra);
    SlotMovesShape(Open(board), i, j);
    ExpandMaybe(board, seen, done + row, extra, Step(i, Slot(i, j)), predecessor);
  }

  // ---------------------------------------------------------------------------
  // The scan, slot by slot.

  /**
   * generateNextState makes the move in slot `k` of the row of cell `i`: Legal
   * for the step to that slot's neighbour, read slot by slot as the loop does.
   */
  predicate MakesMove(board: bv32, i: Cell, k: int)
    requires 0 <= k < SLOTS
  {
    k < Degree(i) && FieldAt(board, i) & 1 == 1 && FieldAt(board, Slot(i, k)) == 0
  }

  /**
   * The entries generateNextState has enqueued, with `seen` the visited set on
   * entry, once it has scanned every slot of the cells before `i` and the
   * first `j` slots of cell `i`.
   */
  function Scan(board: bv32, seen: set<bv32>, i: int, j: int, predecessor: int): seq<QueueEntry>
    requires 0 <= i <= NUM_POSITIONS && 0 <= j <= SLOTS && (i == NUM_POSITIONS ==> j == 0)
    decreases i, j
  {
    if j == 0 then
      if i == 0 then [] else Scan(board, seen, i - 1, SLOTS, predecessor)
    else
      var prior := Scan(board, seen, i, j - 1, predecessor);
      if MakesMove(board, i, j - 1) then Extend(seen, prior, Offer(board, Step(i, Slot(i, j - 1)), predecessor)) else prior
  }

  /** Scanning slot `j` of occupied cell `i` puts the move along it through the filter when the neighbour is empty. */
  lemma ScanStep(board: bv32, seen: set<bv32>, i: Cell, j: int, predecessor: int)
    requires 0 <= j < Degree(i) && FieldAt(board, i) & 1 == 1
    ensures var prior := Scan(board, seen, i, j, predecessor);
      Scan(board, seen, i, j + 1, predecessor) ==
        if FieldAt(board, Slot(i, j)) == 0 then Extend(seen, prior, Offer(board, Step(i, Slot(i, j)), predecessor)) else prior
  {
  }

  /** The slots from `j` on make no move when the cell is empty or the row has ended. */
  lemma {:induction false} SkipSlots(board: bv32, seen: set<bv32>, i: Cell, j: int, predecessor: int)
    requires 0 <= j <= SLOTS
    requires FieldAt(board, i) & 1 == 0 || Degree(i) <= j
    ensures Scan(board, seen, i, SLOTS, predecessor) == Scan(board, seen, i, j, predecessor)
    decreases SLOTS - j
  {
    if j < SLOTS {
      SkipSlots(board, seen, i, j + 1, predecessor);
    }
  }

  /** Scanning slot `j` of cell `i` puts the move of that slot, if any, through the filter. */
  lemma ScanSlot(board: bv32, seen: set<bv32>, done: seq<Step>, i: Cell, j: int, predecessor: int)
    requires 0 <= j < Degree(i)
    requires Scan(board, seen, i, j, predecessor) == Expand(board, seen, done + RowMoves(Open(board), i, j), predecessor)
    ensures Scan(board, seen, i, j + 1, predecessor) == Expand(board, seen, done + RowMoves(Open(board), i, j + 1), predecessor)
  {
    if FieldAt(board, i) & 1 == 1 {
      ExtendDone(board, seen, done, i, j, predecessor);
    } else {
      RowMovesClosed(Open(board), i, j + 1);
      RowMovesClosed(Open(board), i, j);
    }
  }

  /** Within the row of cell `i`, the scan filters the candidates in order. */
  lemma {:induction false} ScanRow(board: bv32, seen: set<bv32>, done: seq<Step>, i: Cell, j: int, predecessor: int)
    requires 0 <= j <= Degree(i)
    requires Scan(board, seen, i, 0, predecessor) == Expand(board, seen, done, predecessor)
    ensures Scan(board, seen, i, j, predecessor) == Expand(board, seen, done + RowMoves(Open(board), i, j), predecessor)
  {
    if j == 0 {
      assert done + RowMoves(Open(board), i, 0) == done;
    } else {
      ScanRow(board, seen, done, i, j - 1, predecessor);
      ScanSlot(board, seen, done, i, j - 1, predecessor);
    }
  }

  /** Up to each cell, the scan enqueues what the filter keeps of the candidates before it. */
  lemma {:induction false} ScanCells(board: bv32, seen: set<bv32>, i: int, predecessor: int)
    requires 0 <= i <= NUM_POSITIONS
    ensures Scan(board, seen, i, 0, predecessor) == Expand(board, seen, MovesBefore(Open(board), i), predecessor)
  {
    if i > 0 {
      ScanCells(board, seen, i - 1, predecessor);
      ScanRow(board, seen, MovesBefore(Open(board), i - 1), i - 1, Degree(i - 1), predecessor);
      SkipSlots(board, seen, i - 1, Degree(i - 1), predecessor);
    }
  }

  /** The whole scan enqueues what the filter keeps of the candidates. */
  lemma ScanAll(board: bv32, seen: set<bv32>, predecessor: int)
    ensures Scan(board, seen, NUM_POSITIONS, 0, predecessor) == Expand(board, seen, Candidates(board), predecessor)
  {
    ScanCells(board, seen, NUM_POSITIONS, predecessor);
  }

  // ---------------------------------------------------------------------------
  // The generator.

  /**
   * generateNextState: the queue grows by the filtered candidates of `board`,
   * each with `predecessor` as its link, and exactly their boards join the
   * visited set.
   */
  method GenerateNextState(queue: Queue, visited: VisitedSet, board: bv32, predecessor: int)
    requires queue.Valid() && visited.Valid()
    modifies queue, visited, visited.table
    ensures queue.Valid() && visited.Valid()
    ensures queue.entries == old(queue.entries) + Expand(board, old(visited.elements), Candidates(board), predecessor)
    ensures visited.elements == old(visited.elements) + BoardsOf(Expand(board, old(visited.elements), Candidates(board), predecessor))
  {
    ghost var seen := visited.elements;
    ghost var before := queue.entries;
    ghost var kept: seq<QueueEntry> := [];
    for i := 0 to NUM_POSITIONS
      invariant queue.Valid() && visited.Valid()
      invariant kept == Scan(board, seen, i, 0, predecessor)
      invariant queue.entries == before + kept && visited.elements == seen + BoardsOf(kept)
    {
      kept := ScanCell(queue, visited, board, i, predecessor, seen, before, kept);
    }
    ScanAll(board, seen, predecessor);
  }

  /** The body of the outer loop of generateNextState: cell `i` is skipped unless its occupied bit is set. */
  method ScanCell(queue: Queue, visited: VisitedSet, board: bv32, i: Cell, predecessor: int,
                  ghost seen: set<bv32>, ghost before: seq<QueueEntry>, ghost prior: seq<QueueEntry>)
    returns (ghost kept: seq<QueueEntry>)
    requires queue.Valid() && visited.Valid()
    requires prior == Scan(board, seen, i, 0, predecessor)
    requires queue.entries == before + prior && visited.elements == seen + BoardsOf(prior)
    modifies queue, visited, visited.table
    ensures queue.Valid() && visited.Valid()
    ensures kept == Scan(board, seen, i, SLOTS, predecessor)
    ensures queue.entries == before + kept && visited.elements == seen + BoardsOf(kept)
  {
    var from := Label(i);
    var state := Bits(board, PosOffset(from));
    PosOffsetLabel(i);
    if state & 1 == 0 {
      SkipSlots(board, seen, i, 0, predecessor);
      return prior;
    }
    kept := ScanNeighbors(queue, visited, board, i, predecessor, seen, before, prior);
  }

  /** The inner loop of generateNextState: the slots of occupied cell `i`, up to the first -1. */
  method ScanNeighbors(queue: Queue, visited: VisitedSet, board: bv32, i: Cell, predecessor: int,
                       ghost seen: set<bv32>, ghost before: seq<QueueEntry>, ghost prior: seq<QueueEntry>)
    returns (ghost kept: seq<QueueEntry>)
    requires FieldAt(board, i) & 1 == 1
    requires queue.Valid() && visited.Valid()
    requires prior == Scan(board, seen, i, 0, predecessor)
    requires queue.entries == before + prior && visited.elements == seen + BoardsOf(prior)
    modifies queue, visited, visited.table
    ensures queue.Valid() && visited.Valid()
    ensures kept == Scan(board, seen, i, SLOTS, predecessor)
    ensures queue.entries == before + kept && visited.elements == seen + BoardsOf(kept)
  {
    kept := prior;
    for j := 0 to SLOTS
      invariant j <= Degree(i)
      invariant queue.Valid() && visited.Valid()
      invariant kept == Scan(board, seen, i, j, predecessor)
      invariant queue.entries == before + kept && visited.elements == seen + BoardsOf(kept)
    {
      var neighbor := Slot(i, j);
      if neighbor == -1 {
        SkipSlots(board, seen, i, j, predecessor);
        break;
      }
      ScanStep(board, seen, i, j, predecessor);
      kept := TrySlot(queue, visited, board, i, j, predecessor, seen, before, kept);
    }
  }

  /**
   * One slot of the inner loop of generateNextState: when the neighbour's
   * field is 00, the move along the slot goes through the filter.
   */
  method TrySlot(queue: Queue, visited: VisitedSet, board: bv32, i: Cell, j: int, predecessor: int,
                 ghost seen: set<bv32>, ghost before: seq<QueueEntry>, ghost prior: seq<QueueEntry>)
    returns (ghost kept: seq<QueueEntry>)
    requires 0 <= j < Degree(i)
    requires queue.Valid() && visited.Valid()
    requires queue.entries == before + prior && visited.elements == seen + BoardsOf(prior)
    modifies queue, visited, visited.table
    ensures queue.Valid() && visited.Valid()
    ensures kept == if FieldAt(board, Slot(i, j)) == 0 then Extend(seen, prior, Offer(board, Step(i, Slot(i, j)), predecessor)) else prior
    ensures queue.entries == before + kept && visited.elements == seen + BoardsOf(kept)
  {
    var neighbor := Slot(i, j);
    var from := Label(i);
    var to := Label(neighbor);
    var toState := Bits(board, PosOffset(to));
    PosOffsetLabel(neighbor);
    kept := prior;
    if toState == 0 {
      var newBoard := MovePiece(board, from, to);
      var move := PackMove(i, neighbor);
      var added := Visit(queue, visited, newBoard, move, predecessor);
      if added {
        kept := prior + [QueueEntry(newBoard, move, predecessor)];
        BoardsOfAppend(prior, QueueEntry(newBoard, move, predecessor));
      }
    }
  }

  /**
   * The body of the innermost test of generateNextState: a board that is not
   * visited yet is enqueued and marked visited; a visited one changes nothing.
   */
  method Visit(queue: Queue, visited: VisitedSet, newBoard: bv32, move: int, predecessor: int) returns (added: bool)
    requires queue.Valid() && visited.Valid()
    modifies queue, visited, visited.table
    ensures queue.Valid() && visited.Valid()
    ensures added <==> newBoard !in old(visited.elements)
    ensures added ==> queue.entries == old(queue.entries) + [QueueEntry(newBoard, move, predecessor)]
    ensures added ==> visited.elements == old(visited.elements) + {newBoard}
    ensures !added ==> queue.entries == old(queue.entries) && visited.elements == old(visited.elements)
  {
    var found := visited.LookupBoardState(newBoard);
    if !found {
      queue.Enqueue(newBoard, move, predecessor);
      visited.InsertBoardState(newBoard);
    }
    added := !found;
  }
}
