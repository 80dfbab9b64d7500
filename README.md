# Sliding-piece puzzle solver, modelled in Dafny

The solver in `prog_bin.c` takes a puzzle on a 14-cell board with cells
labelled 'A' to 'N'. White and black pieces start on some cells and must reach
a goal placement. Each move slides one piece to an empty neighbouring cell.
The solver answers with the shortest sequence of moves, found by breadth-first
search.

- A board is packed into one 32-bit word with two bits per cell.
- The search keeps three structures:
  - a FIFO queue of boards waiting to be expanded, each with the move that
    produced it and the index of the entry it was expanded from;
  - a chained hash table of visited boards;
  - a predecessor table, indexed by the order in which boards leave the queue.
- When the goal board leaves the queue, `reconstruct_path` follows the
  predecessor links back to the start and reverses them.

The model follows that structure, one module per part of the program:

| module | file | models |
|---|---|---|
| `Board` | board.dfy | the packed word: cell offsets, 2-bit fields, the bit operations of `init_board` and `move_piece` |
| `Codec` | codec.dfy | `init_board` (a loop over each piece string) and `get_symbol` |
| `Move` | move.dfy | `move_piece` and the piece counts it preserves |
| `Topology` | topology.dfy | the neighbour table of `main` and the packed move codes |
| `Queue` | queue.dfy | the queue, as a class whose node list is a sequence field |
| `Visited` | visited.dfy | the hash table, as a class over an array of chains |
| `Predecessors` | predecessors.dfy | the predecessor table, `set_predecessor` and `reconstruct_path` on arrays |
| `Generator` | generator.dfy | `generateNextState`, a nested loop proved against a filter over a list of candidate moves |
| `Search` | search.dfy | the main loop of `main`, proved against a ghost log of every enqueued entry |
| `Arguments` | arguments.dfy | the argument checks at the top of `main` |

What the search is proved to do:

- When it reports a goal at entry `goalState`, the path it reconstructs
  replays, move by move, from the start board to the goal. Every move on it is
  legal.
- When the queue runs out, no sequence of legal moves leads from the start
  board to the goal, unless the goal is the start board itself.
- No board is enqueued twice. The start board is never enqueued.
- Fewer than TABLE_SIZE entries are taken from the queue, so the predecessor
  table is never overrun.
- A goal equal to the start board is never reported. The start board is marked
  visited before the loop, so it never enters the queue, and `main` answers
  "No solution found." (`Search.Search`, last postcondition).

The move rules are passed to the loop lemmas as two functions, `legal` and
`next`. The lemmas about the loop therefore hold for any rules. `main`'s rules
are `Generator.Legal` and `Generator.Successor`.

## Model

| member | source | states |
|---|---|---|
| Board.Label | prog_bin.c:19 | the label of a cell index is one of 'A'..'N' |
| Board.CellOf | prog_bin.c:19 | `pos - 'A'` turns a label back into the cell whose label it is |
| Board.CellOfLabel | prog_bin.c:19 | labels and cell indices convert into each other losslessly |
| Board.FieldOffset | prog_bin.c:17-20 | a cell's field offset is even and at most 26 |
| Board.OffsetCellOf | prog_bin.c:17-20 | different cells get different offsets: the offset determines the cell |
| Board.OffsetFormula | prog_bin.c:19 | the offset of cell c is 2 * (NUM_POSITIONS - 1 - c) |
| Board.OffsetsDistinct | prog_bin.c:17-20 | two cells share an offset exactly when they are the same cell |
| Board.PosOffset | prog_bin.c:17-20 | pos_offset of a label is the field offset of its cell |
| Board.PosOffsetsDistinct | prog_bin.c:17-20 | two labels share an offset exactly when they are equal |
| Board.Bits | prog_bin.c:44 | no contract of its own: the field read `(board >> offset) & 0b11` of lines 44, 63, 364 and 375; the Relocated, Place and CheckBit lemmas below state what the stores and CHECK_BIT do to it |
| Board.Relocated | prog_bin.c:57 | no contract of its own: move_piece's store; RelocatedTarget, RelocatedSource, RelocatedOther and RelocatedHigh give its effect |
| Board.RelocatedTarget | prog_bin.c:57 | after move_piece's store, the target field holds the piece read from the source field |
| Board.RelocatedSource | prog_bin.c:57 | after the store, the source field is empty when source and target differ |
| Board.RelocatedOther | prog_bin.c:57 | after the store, every other field is unchanged |
| Board.RelocatedHigh | prog_bin.c:57 | the store leaves bits 28..31 unchanged |
| Board.Place | prog_bin.c:25-34 | no contract of its own: init_board's OR of a piece code at an offset; BitsOfPlaceSame, BitsOfPlaceOther, HighOfPlace and FieldOfPlace give its effect |
| Board.BitsOfPlaceSame | prog_bin.c:25-34 | OR-ing a piece code in at an offset ORs it into that field |
| Board.BitsOfPlaceOther | prog_bin.c:25-34 | OR-ing a piece code in at one offset leaves every other field unchanged |
| Board.HighOfPlace | prog_bin.c:25-34 | OR-ing a piece code in leaves bits 28..31 unchanged |
| Board.FieldOfPlace | prog_bin.c:25-34 | the same two facts, stated per cell |
| Board.CheckBit | prog_bin.c:15 | no contract of its own: CHECK_BIT; CheckBitOfBits ties it to the field read |
| Board.CheckBitOfBits | prog_bin.c:15 | CHECK_BIT at a field's offset is the field's occupied bit |
| Codec.StatusBits | prog_bin.c:22-36 | the field init_board leaves for a cell is 00, 01 or 11 |
| Codec.AppendLabel | prog_bin.c:25-34 | appending a label to a piece string adds exactly that label's cell |
| Codec.AppendWhite | prog_bin.c:25-29 | one more white label turns exactly its cell white |
| Codec.AppendBlack | prog_bin.c:30-34 | one more black label turns exactly its cell black, whatever the white string says |
| Codec.WhiteCell | prog_bin.c:28 | one white store gives each field its intended status |
| Codec.BlackCell | prog_bin.c:33 | one black store gives each field its intended status |
| Codec.AddWhite | prog_bin.c:28 | one white store keeps the board in step with the white string read so far |
| Codec.AddBlack | prog_bin.c:33 | one black store keeps the board in step with the strings read so far |
| Codec.WhiteStep | prog_bin.c:25-29 | one iteration of the white loop keeps its invariant |
| Codec.BlackStep | prog_bin.c:30-34 | one iteration of the black loop keeps its invariant |
| Codec.InitBoard | prog_bin.c:22-36 | every cell named in the black string is black; every other cell named in the white string is white; every other cell is empty; bits 28..31 are zero |
| Codec.StatusWellFormed | prog_bin.c:22-36 | a board built by init_board has no field 10 and no high bits |
| Codec.GetSymbol | prog_bin.c:60-67 | '-' exactly when the occupied bit is clear, 'o' exactly for a white field, 'x' exactly for a black field |
| Codec.SymbolOfStatus | prog_bin.c:22-67 | the symbol of a cell of an initialised board is 'x' if the black string names it, else 'o' if the white string does, else '-' |
| Move.PosOffsetLabel | prog_bin.c:40-41 | pos_offset of a cell's label is that cell's field offset |
| Move.MovePiece | prog_bin.c:38-58 | no contract of its own: MoveRefused gives both early returns, MoveRelocates and MoveFields the store, MoveSwapsFields and MovePreservesCounts what a move does to the fields and piece counts |
| Move.MoveRefused | prog_bin.c:44-55 | with no piece on the source, or the target occupied, the board is unchanged |
| Move.MoveRelocates | prog_bin.c:38-58 | otherwise move_piece performs the relocating store |
| Move.MoveFields | prog_bin.c:38-58 | after a move the target holds the source's piece and the source is empty; every other field and the high bits are unchanged |
| Move.MoveSwapsFields | prog_bin.c:38-58 | a move updates the field list at exactly the source and the target |
| Move.MovePreservesCounts | prog_bin.c:38-58 | a move of a well-formed board keeps it well formed and keeps the multiset of fields, so the white and black piece counts are unchanged |
| Topology.Slot | prog_bin.c:483-497 | each slot of the neighbour table holds -1 or a cell index |
| Topology.Degree | prog_bin.c:483-497 | the slots before a row's first -1 are exactly the ones generateNextState reads; every row has 1 to 3 of them |
| Topology.Neighbors | prog_bin.c:368-372 | the neighbours read are the row's slots up to the first -1, in order |
| Topology.RowsAscending | prog_bin.c:483-497 | every row lists its neighbours in strictly ascending order |
| Topology.NoLoops | prog_bin.c:483-497 | no cell is its own neighbour |
| Topology.AdjacentSymmetric | prog_bin.c:483-497 | the graph is undirected: each edge is listed from both ends |
| Topology.ReverseSlot | prog_bin.c:483-497 | the edge in any slot is listed in its target's row too |
| Topology.PackMove | prog_bin.c:382 | no contract of its own: `f << 4` OR-ed with `t`, written f * 16 + t, which is equal for cells below 16; UnpackPack and PackMoveOrder give its properties |
| Topology.MoveFrom | prog_bin.c:344 | no contract of its own: `(move >> 4) & 0b1111`, written (move / 16) % 16; UnpackPack shows it recovers the source cell |
| Topology.MoveTo | prog_bin.c:345 | no contract of its own: `move & 0b1111`, written move % 16; UnpackPack shows it recovers the target cell |
| Topology.UnpackPack | prog_bin.c:382 | print_path's unpacking gives back both cells of a packed move |
| Topology.PackMoveOrder | prog_bin.c:382 | move codes order moves by source cell, then by target cell |
| Queue.Queue.constructor | prog_bin.c:135-140 | init_queue: the queue is empty and its size is 0 |
| Queue.Queue.IsEmpty | prog_bin.c:142-145 | the queue is empty exactly when it holds no entries, exactly when its size is 0 |
| Queue.Queue.Enqueue | prog_bin.c:147-171 | the new entry goes behind the last one; the size grows by one |
| Queue.Queue.Dequeue | prog_bin.c:173-187 | on an empty queue: no entry, nothing changes; otherwise the head entry is returned and removed, and the size drops by one |
| Queue.FirstInFirstOut | prog_bin.c:147-187 | two entries enqueued on an empty queue are dequeued in the same order |
| Visited.HashBoardState | prog_bin.c:224-227 | a board's bucket is below TABLE_SIZE |
| Visited.VisitedSet.constructor | prog_bin.c:229-235 | init_hash_table: every chain empty, the set is empty |
| Visited.VisitedSet.InsertBoardState | prog_bin.c:237-249 | the board joins the set, at the head of its bucket's chain |
| Visited.VisitedSet.LookupBoardState | prog_bin.c:251-264 | the lookup answers 1 exactly when the board was inserted before |
| Visited.InsertThenLookup | prog_bin.c:237-264 | a board just inserted is found |
| Predecessors.InitPredecessorTable | prog_bin.c:291-298 | every link and every move becomes -1; the boards are unchanged |
| Predecessors.SetPredecessor | prog_bin.c:300-305 | entry `index` becomes the given board, link and move; nothing else changes |
| Predecessors.Ancestry | prog_bin.c:317-324 | the chain of indices followed back from an entry starts at that entry and is at most one longer than its index |
| Predecessors.AncestryLinks | prog_bin.c:317-324 | each index of the chain is the link of the one before it; the last one's link is -1 |
| Predecessors.Reversed | prog_bin.c:328-335 | reversal keeps the length |
| Predecessors.ReversedIndex | prog_bin.c:328-335 | position k of the reversal is position n-1-k of the original |
| Predecessors.PathLinks | prog_bin.c:307-336 | the reconstructed path ends at the goal index and starts at an entry with link -1; each index on it is the link of the next |
| Predecessors.ReconstructPath | prog_bin.c:307-336 | path_length is the chain's length; the first path_length slots hold the chain in start-to-goal order; the rest of the path is unchanged |
| Predecessors.ReversePrefix | prog_bin.c:328-335 | the in-place swap loop reverses the first n slots and leaves the rest |
| Generator.StepOfCode | prog_bin.c:382 | a step's move code decodes back to the step |
| Generator.Legal | prog_bin.c:364-376 | no contract of its own: the tests generateNextState applies before a move; CandidatesExact shows the scan makes exactly these moves, LegalIsCarriedOut that move_piece never refuses them |
| Generator.Successor | prog_bin.c:378-379 | no contract of its own: move_piece on a copy of the board; LegalIsCarriedOut and SuccessorPreservesCounts give its effect |
| Generator.LegalIsCarriedOut | prog_bin.c:364-380 | a move generateNextState makes passes move_piece's checks and performs the relocating store |
| Generator.RowMovesClosed | prog_bin.c:364-366 | a cell with no piece contributes no move |
| Generator.RowMovesMembers | prog_bin.c:368-387 | the moves a cell contributes are exactly its open neighbour slots read so far |
| Generator.MovesBeforeMembers | prog_bin.c:361-389 | the moves from the cells scanned so far are exactly the open moves from those cells |
| Generator.CandidatesExact | prog_bin.c:359-390 | a move is a candidate exactly when it is legal: a piece on an adjacent source, an empty target |
| Generator.SlotMovesShape | prog_bin.c:376-387 | a slot contributes its own move or nothing |
| Generator.OrderedExtend | prog_bin.c:359-390 | adding a move with a larger code keeps the codes ascending |
| Generator.RowMovesBound | prog_bin.c:368-387 | a row's moves so far go from that cell to targets no larger than the last slot read |
| Generator.RowMovesOrdered | prog_bin.c:368-387 | a row's moves come out in ascending code order |
| Generator.MovesBeforeBound | prog_bin.c:361-389 | the moves from the cells scanned so far start below the current cell |
| Generator.MovesBeforeOrdered | prog_bin.c:361-389 | the scan produces moves in ascending code order |
| Generator.OrderedConcat | prog_bin.c:361-389 | the moves of earlier cells followed by a later cell's moves stay in ascending order |
| Generator.CandidatesOrdered | prog_bin.c:359-390 | the candidate moves come in strictly ascending code order |
| Generator.BoardsOfMember | prog_bin.c:359-390 | a board is among the entries' boards exactly when some entry carries it |
| Generator.BoardsOfAppend | prog_bin.c:384-385 | enqueuing one entry adds exactly its board |
| Generator.FilterSound | prog_bin.c:379-386 | every kept entry was offered, and its board was not visited |
| Generator.FilterDistinct | prog_bin.c:379-386 | no board is kept twice |
| Generator.FilterComplete | prog_bin.c:379-386 | every offered board is visited already or kept |
| Generator.FilterOrdered | prog_bin.c:379-386 | kept entries stay in the order they were offered |
| Generator.Offers | prog_bin.c:378-385 | one offered entry per candidate move |
| Generator.OffersIndex | prog_bin.c:378-385 | offer k carries move k's successor board, its code and the predecessor |
| Generator.ExpandSound | prog_bin.c:359-390 | every enqueued entry carries the given predecessor, a code that decodes to a legal move, and the board that move leads to; that board was not visited |
| Generator.ExpandDistinct | prog_bin.c:359-390 | no board is enqueued twice in one expansion |
| Generator.ExpandComplete | prog_bin.c:359-390 | after an expansion every successor of the board is visited or enqueued |
| Generator.ExpandOrdered | prog_bin.c:359-390 | enqueued entries come in ascending move-code order |
| Generator.ExpandAppend | prog_bin.c:379-386 | one more candidate either adds its entry or changes nothing |
| Generator.ExpandMaybe | prog_bin.c:376-387 | a slot that contributes nothing leaves the expansion unchanged; one that contributes a move extends it by that move |
| Generator.ExtendDone | prog_bin.c:368-387 | reading slot j of an occupied cell extends the expansion exactly when the slot's target is empty |
| Generator.ScanStep | prog_bin.c:368-387 | one slot of the loop: the neighbour's entry is offered exactly when its field is 00 |
| Generator.SkipSlots | prog_bin.c:365-372 | `continue` on an empty cell and `break` on -1 add nothing for the remaining slots |
| Generator.ScanSlot | prog_bin.c:368-387 | one slot of the loop keeps the scan in step with the filter over the candidates |
| Generator.ScanRow | prog_bin.c:368-387 | the inner loop over a row keeps the scan in step with the filter |
| Generator.ScanCells | prog_bin.c:361-389 | the outer loop keeps the scan in step with the filter over the moves of the cells scanned |
| Generator.ScanAll | prog_bin.c:359-390 | the completed scan is the filter over all candidate moves |
| Generator.GenerateNextState | prog_bin.c:359-390 | the queue grows by the filtered candidate entries in scan order; exactly their boards join the visited set |
| Generator.ScanCell | prog_bin.c:362-366 | one cell of the outer loop: nothing for an empty cell, its row's entries otherwise |
| Generator.ScanNeighbors | prog_bin.c:368-388 | the inner loop enqueues the row's new entries and stops at the first -1 |
| Generator.TrySlot | prog_bin.c:370-387 | one neighbour slot: its entry is offered when the target field is 00, otherwise nothing changes |
| Generator.Visit | prog_bin.c:379-386 | an unvisited board is enqueued and marked visited; a visited one changes nothing |
| Search.LegalPlayAppend | prog_bin.c:498-548 | a legal play followed by a move allowed after it is a legal play, ending one move further |
| Search.LegalPlayPrefix | prog_bin.c:498-548 | a prefix of a legal play is a legal play |
| Search.PlayStaysIn | prog_bin.c:498-548 | a set of boards closed under the moves holds every board a legal play reaches |
| Search.SuccessorPreservesCounts | prog_bin.c:376-380 | a move generateNextState makes keeps the board well formed and its piece counts |
| Search.PlayPreservesCounts | prog_bin.c:498-548 | every board the search reaches has the start board's piece counts |
| Search.StepsAlong | prog_bin.c:338-345 | one move per index on the path |
| Search.PathPlays | prog_bin.c:526-535 | the path reconstructed for entry k replays from the start board to that entry's board, every move legal |
| Search.RecordsDescend | prog_bin.c:526-541 | every recorded link points to an earlier entry or is -1; every recorded move decodes |
| Search.DistinctCount | prog_bin.c:379-386 | entries with distinct boards have as many boards as entries |
| Search.BoardsOfConcat | prog_bin.c:498-548 | the boards of two entry lists joined are the union of their boards |
| Search.DistinctConcat | prog_bin.c:379-386 | entry lists with distinct, disjoint boards join into one with distinct boards |
| Search.ExpandChildren | prog_bin.c:359-390 | generateNextState's output is an expansion under Legal and Successor |
| Search.InitialState | prog_bin.c:508-510 | after the start board is visited and expanded, the loop's state holds with nothing taken |
| Search.AdvanceLinks | prog_bin.c:541 | new entries link to the entry they were expanded from, which replays to their parent board |
| Search.AdvanceBoards | prog_bin.c:541 | after an expansion, boards stay distinct, the start board stays out of the queue, and the visited set is the start board plus every enqueued board |
| Search.AdvanceExpanded | prog_bin.c:541 | every board taken so far, and the start board, has all its successors visited |
| Search.AdvanceState | prog_bin.c:516-543 | one pass of the loop on a non-goal board keeps the loop's state |
| Search.Capacity | prog_bin.c:516-526 | while the queue is non-empty, fewer than TABLE_SIZE entries have been taken, so set_predecessor stays in the table |
| Search.GoalFound | prog_bin.c:529-537 | when the goal leaves the queue, the reconstructed path replays from the start to the goal and the goal is not the start board |
| Search.Exhausted | prog_bin.c:516-543 | with the queue empty, no legal play reaches the goal from the start, unless the goal is the start |
| Search.Search | prog_bin.c:500-546 | a reported goal state comes with a path that replays from start to goal; no report means the goal is unreachable or is the start board; goal equal to start is never reported |
| Search.Explore | prog_bin.c:513-546 | the loop ends with a path to the goal or with proof that no play reaches it |
| Search.TakeEntry | prog_bin.c:518-543 | one pass: the recorded goal with its path, or the loop's state one entry further |
| Search.Begin | prog_bin.c:500-510 | marking the start board visited and expanding it establishes the loop's state |
| Arguments.StrChr | prog_bin.c:414 | strchr finds an occurrence with no earlier one |
| Arguments.StrRChr | prog_bin.c:414 | strrchr finds an occurrence with no later one |
| Arguments.DuplicateTest | prog_bin.c:412-419 | first and last occurrence differ for some character exactly when the string repeats a character |
| Arguments.HasDuplicate | prog_bin.c:412-419 | the loop reports a duplicate exactly when the string repeats a character |
| Arguments.FirstInvalid | prog_bin.c:444-451 | the loop stops at the first character outside 'A'..'N'; it runs to the end exactly when every character is a label |
| Arguments.CheckArguments | prog_bin.c:398-476 | accepted exactly when there are 4 arguments, matching piece counts, no repeated cell in any argument and only labels 'A'..'N'; each rejection names the first check that fails, in main's order |
| Arguments.SharedCellAccepted | prog_bin.c:398-476 | a cell named in both the white and the black string passes every check |

## Left out

- Printing is not modelled: `print_board`, `print_path`'s output, `print_queue`, the messages of `main` and `move_piece`, and the timing with `clock`.
  - `print_path`'s decoding of move codes is modelled (`Topology.UnpackPack`).
  - `move_piece`'s error returns are modelled, without their messages.
- The non-binary `print_board` branch, which `#define BINARY` compiles out, is not modelled.
- `free_queue`, `free_hash_table` and the `free` calls are not modelled: Dafny's memory is garbage-collected.
- `malloc` never fails in the model. The `perror` paths of `enqueue` and `insert_board_state`, and a NULL `path`, are left out.
- Two `main` branches that cannot be taken are omitted:
  - the NULL check after `dequeue`, since the loop runs only while the queue is non-empty;
  - the NULL checks of `reconstruct_path`, whose arguments are never NULL.
- Queue.Queue: the linked nodes with head and tail pointers are modelled as the sequence of entries from head to tail, so node aliasing is not modelled.
- Visited.VisitedSet: each chain of hash entries is modelled as a sequence of boards, newest first.
- Topology.Slot: the neighbour table is a constant function rather than an array passed to `generateNextState`.
- Search.Search: requires a set `universe` of boards that holds the start board, is closed under legal moves and has at most TABLE_SIZE boards; this bound is what keeps `main` inside its arrays. The boards with the start board's piece counts are closed under moves (`Search.SuccessorPreservesCounts`), but that there are at most TABLE_SIZE of them (C(14,k)·C(14−k,m) for k white and m black pieces) is not proved, and an overrun of the arrays is not modelled.
- Search.Search: does not prove that the path is a shortest one. It proves that the path replays from start to goal and that an empty queue means no path exists. Breadth-first optimality is not stated.
- Predecessors.InitPredecessorTable: models `init_predecessor_table`, which `main` never calls. The search starts from the zero-initialised global table, as `main` does.
- Arguments.CheckArguments: an argument is modelled as the characters before its NUL terminator, each character standing for one byte of the argument (a character that takes several bytes in the encoding is that many characters here), so `strlen` is the sequence length. The four duplicate loops and the four label loops of `main` are each one loop over argv[1..4] in the same order. The verdict names the argument rather than printing the message.
- `prog.c`, an early stub that reads the start position into an array of structs and prints it, is not modelled: it has no queue and no search.
