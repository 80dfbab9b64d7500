/**
 * The breadth-first search of main. The start board is marked visited and
 * expanded with link -1; then every board taken from the queue is numbered by
 * `iteration`, recorded in the predecessor table, compared with the goal and,
 * when it is not the goal, expanded with its number as the link of its
 * children. When the goal is taken from the queue, its path is reconstructed.
 *
 * The proof keeps a ghost log of every entry ever enqueued, in order: entry
 * `k` of the log is the k-th board taken from the queue. The facts about the
 * loop are stated over the rules of the puzzle passed as two functions,
 * `legal` (the moves generateNextState makes) and `next` (the board a move
 * leads to); main's rules are Legal and Successor.
 */
module Search {
  import opened Board
  import opened Move
  import opened Topology
  import opened Queue
  import opened Visited
  import opened Predecessors
  import opened Generator

  // ---------------------------------------------------------------------------
  // Plays.

  /** The board after applying the steps in order. */
  function Play(next: (bv32, Step) -> bv32, board: bv32, steps: seq<Step>): bv32
    decreases |steps|
  {
    if steps == [] then board
    else next(Play(next, board, steps[..|steps| - 1]), steps[|steps| - 1])
  }

  /** Every step of the play is allowed on the board it is applied to. */
  ghost predicate LegalPlay(legal: (bv32, Step) -> bool, next: (bv32, Step) -> bv32, board: bv32, steps: seq<Step>) {
    forall k :: 0 <= k < |steps| ==> legal(Play(next, board, steps[..k]), steps[k])
  }

  /** A legal play followed by a step that is allowed after it is a legal play. */
  lemma LegalPlayAppend(legal: (bv32, Step) -> bool, next: (bv32, Step) -> bv32, board: bv32, steps: seq<Step>, s: Step)
    requires LegalPlay(legal, next, board, steps) && legal(Play(next, board, steps), s)
    ensures LegalPlay(legal, next, board, steps + [s])
    ensures Play(next, board, steps + [s]) == next(Play(next, board, steps), s)
  {
    var ss := steps + [s];
    assert ss[..|steps|] == steps;
    forall k | 0 <= k < |ss| ensures legal(Play(next, board, ss[..k]), ss[k]) {
      if k < |steps| {
        assert ss[..k] == steps[..k];
      }
    }
  }

  /** Every prefix of a legal play is a legal play. */
  lemma LegalPlayPrefix(legal: (bv32, Step) -> bool, next: (bv32, Step) -> bv32, board: bv32, steps: seq<Step>)
    requires LegalPlay(legal, next, board, steps) && steps != []
    ensures LegalPlay(legal, next, board, steps[..|steps| - 1])
  {
    var ss := steps[..|steps| - 1];
    forall k | 0 <= k < |ss| ensures legal(Play(next, board, ss[..k]), ss[k]) {
      assert ss[..k] == steps[..k];
    }
  }

  /** Every allowed step from a board of `from` leads to a board of `to`. */
  ghost predicate SuccessorsIn(legal: (bv32, Step) -> bool, next: (bv32, Step) -> bv32, from: set<bv32>, to: set<bv32>) {
    forall b, s :: b in from && legal(b, s) ==> next(b, s) in to
  }

  /** A set of boards closed under the allowed steps holds every board a legal play reaches from it. */
  lemma {:induction false} PlayStaysIn(legal: (bv32, Step) -> bool, next: (bv32, Step) -> bv32,
                                       boards: set<bv32>, board: bv32, steps: seq<Step>)
    requires board in boards && SuccessorsIn(legal, next, boards, boards) && LegalPlay(legal, next, board, steps)
    ensures Play(next, board, steps) in boards
  {
    if steps != [] {
      var prefix := steps[..|steps| - 1];
      LegalPlayPrefix(legal, next, board, steps);
      PlayStaysIn(legal, next, boards, board, prefix);
    }
  }

  /** A legal move keeps the board well formed and keeps the number of white and of black pieces. */
  lemma SuccessorPreservesCounts(board: bv32, s: Step)
    requires WellFormed(board) && Legal(board, s)
    ensures WellFormed(Successor(board, s))
    ensures PieceCount(Successor(board, s), WHITE) == PieceCount(board, WHITE)
    ensures PieceCount(Successor(board, s), BLACK) == PieceCount(board, BLACK)
  {
    LegalIsCarriedOut(board, s);
    MovePreservesCounts(board, s.from, s.to);
  }

  /**
   * A legal play of the puzzle keeps the board well formed and keeps both piece
   * counts, so the boards with the start board's counts are closed under it.
   */
  lemma {:induction false} PlayPreservesCounts(board: bv32, steps: seq<Step>)
    requires WellFormed(board) && LegalPlay(Legal, Successor, board, steps)
    ensures WellFormed(Play(Successor, board, steps))
    ensures PieceCount(Play(Successor, board, steps), WHITE) == PieceCount(board, WHITE)
    ensures PieceCount(Play(Successor, board, steps), BLACK) == PieceCount(board, BLACK)
  {
    if steps != [] {
      var prefix := steps[..|steps| - 1];
      LegalPlayPrefix(Legal, Successor, board, steps);
      PlayPreservesCounts(board, prefix);
      assert Legal(Play(Successor, board, steps[..|prefix|]), steps[|prefix|]);
      SuccessorPreservesCounts(Play(Successor, board, prefix), steps[|prefix|]);
    }
  }

  // ---------------------------------------------------------------------------
  // The log of enqueued entries.

  /** The board entry `k` of the log was expanded from: the start board for link -1. */
  ghost function Parent(log: seq<QueueEntry>, start: bv32, k: int): bv32
    requires 0 <= k < |log|
    requires log[k].predecessor == -1 || 0 <= log[k].predecessor < k
  {
    var p := log[k].predecessor;
    if p == -1 then start else log[p].board
  }

  /**
   * Entry `k` of the log links to -1 or to an earlier entry, and its code
   * unpacks to a step allowed on its parent's board that leads to its own board.
   */
  ghost predicate LinkedEntry(legal: (bv32, Step) -> bool, next: (bv32, Step) -> bv32, log: seq<QueueEntry>, start: bv32, k: int)
    requires 0 <= k < |log|
  {
    var p := log[k].predecessor;
    (p == -1 || 0 <= p < k) && ValidMove(log[k].move) &&
    legal(Parent(log, start, k), StepOf(log[k].move)) &&
    log[k].board == next(Parent(log, start, k), StepOf(log[k].move))
  }

  ghost predicate WellLinked(legal: (bv32, Step) -> bool, next: (bv32, Step) -> bv32, log: seq<QueueEntry>, start: bv32) {
    forall k :: 0 <= k < |log| ==> LinkedEntry(legal, next, log, start, k)
  }

  /** The first `n` slots of the predecessor table record the first `n` entries of the log. */
  ghost predicate Records(preds: seq<Predecessor>, log: seq<QueueEntry>, n: int) {
    0 <= n <= |preds| && n <= |log| &&
    forall k :: 0 <= k < n ==> preds[k] == Predecessor(log[k].board, log[k].predecessor, log[k].move)
  }

  /** The steps print_path reads along a path: each recorded move code unpacked into its two cells. */
  function StepsAlong(preds: seq<Predecessor>, path: seq<int>): (steps: seq<Step>)
    requires forall k :: 0 <= k < |path| ==> 0 <= path[k] < |preds| && ValidMove(preds[path[k]].move)
    ensures |steps| == |path|
    decreases |path|
  {
    if path == [] then []
    else StepsAlong(preds, path[..|path| - 1]) + [StepOf(preds[path[|path| - 1]].move)]
  }

  /**
   * The path reconstruct_path produces for a recorded entry, played from the
   * start board, is legal and ends on that entry's board.
   */
  lemma {:induction false} PathPlays(legal: (bv32, Step) -> bool, next: (bv32, Step) -> bv32,
                                     preds: seq<Predecessor>, log: seq<QueueEntry>, start: bv32, k: int)
    requires 0 <= k < |log| && WellLinked(legal, next, log, start) && Records(preds, log, k + 1)
    ensures LinksDescend(preds, k)
    ensures var path := Reversed(Ancestry(preds, k));
      (forall i :: 0 <= i < |path| ==> 0 <= path[i] <= k && ValidMove(preds[path[i]].move)) &&
      LegalPlay(legal, next, start, StepsAlong(preds, path)) &&
      Play(next, start, StepsAlong(preds, path)) == log[k].board
  {
    RecordsDescend(legal, next, preds, log, start, k);
    PathLinks(preds, k);
    var p := preds[k].predecessor;
    var path := Reversed(Ancestry(preds, k));
    assert LinkedEntry(legal, next, log, start, k);
    var s := StepOf(log[k].move);
    if p == -1 {
      assert path == [k];
      assert StepsAlong(preds, path) == [] + [s];
      LegalPlayAppend(legal, next, start, [], s);
    } else {
      PathPlays(legal, next, preds, log, start, p);
      var prefix := Reversed(Ancestry(preds, p));
      assert Ancestry(preds, k) == [k] + Ancestry(preds, p);
      assert path == prefix + [k];
      assert path[..|path| - 1] == prefix;
      assert StepsAlong(preds, path) == StepsAlong(preds, prefix) + [s];
      LegalPlayAppend(legal, next, start, StepsAlong(preds, prefix), s);
    }
  }

  /** Up to entry `k`, the recorded links point to earlier entries and the recorded codes unpack to moves. */
  lemma RecordsDescend(legal: (bv32, Step) -> bool, next: (bv32, Step) -> bv32,
                       preds: seq<Predecessor>, log: seq<QueueEntry>, start: bv32, k: int)
    requires 0 <= k < |log| && WellLinked(legal, next, log, start) && Records(preds, log, k + 1)
    ensures LinksDescend(preds, k)
    ensures forall j :: 0 <= j <= k ==> ValidMove(preds[j].move)
  {
    forall j | 0 <= j <= k ensures (preds[j].predecessor == -1 || 0 <= preds[j].predecessor < j) && ValidMove(preds[j].move) {
      assert LinkedEntry(legal, next, log, start, j);
    }
  }

  /** A set no larger than its superset. */
  lemma SubsetSize(a: set<bv32>, b: set<bv32>)
    requires a <= b
    ensures |a| <= |b|
  {
    assert b == a + (b - a);
    assert a * (b - a) == {};
  }

  /** The boards of a run with distinct boards are as many as its entries. */
  lemma {:induction false} DistinctCount(entries: seq<QueueEntry>)
    requires DistinctBoards(entries)
    ensures |BoardsOf(entries)| == |entries|
    decreases |entries|
  {
    if entries != [] {
      var prefix := entries[..|entries| - 1];
      forall a, b | 0 <= a < b < |prefix| ensures BoardAt(prefix, a) != BoardAt(prefix, b) {
        assert BoardAt(entries, a) != BoardAt(entries, b);
      }
      DistinctCount(prefix);
      forall k | 0 <= k < |prefix| ensures prefix[k].board != entries[|entries| - 1].board {
        assert BoardAt(entries, k) != BoardAt(entries, |entries| - 1);
      }
      BoardsOfMember(prefix, entries[|entries| - 1].board);
    }
  }

  lemma {:induction false} BoardsOfConcat(a: seq<QueueEntry>, b: seq<QueueEntry>)
    ensures BoardsOf(a + b) == BoardsOf(a) + BoardsOf(b)
    decreases |b|
  {
    if b == [] {
      assert a + b == a;
    } else {
      var prefix := b[..|b| - 1];
      BoardsOfConcat(a, prefix);
      assert (a + b)[..|a + b| - 1] == a + prefix;
    }
  }

  lemma DistinctConcat(a: seq<QueueEntry>, b: seq<QueueEntry>)
    requires DistinctBoards(a) && DistinctBoards(b) && BoardsOf(a) !! BoardsOf(b)
    ensures DistinctBoards(a + b)
  {
    var c := a + b;
    forall i, j | 0 <= i < j < |c| ensures BoardAt(c, i) != BoardAt(c, j) {
      if j < |a| {
        assert c[i] == a[i] && c[j] == a[j];
        assert BoardAt(a, i) != BoardAt(a, j);
      } else if |a| <= i {
        assert c[i] == b[i - |a|] && c[j] == b[j - |a|];
        assert BoardAt(b, i - |a|) != BoardAt(b, j - |a|);
      } else {
        assert c[i] == a[i] && c[j] == b[j - |a|];
        BoardsOfMember(a, c[i].board);
        BoardsOfMember(b, c[j].board);
      }
    }
  }

  // ---------------------------------------------------------------------------
  // One expansion.

  /**
   * What generateNextState enqueues for `board` with link `predecessor` when
   * `seen` is the visited set: entries with that link whose codes are legal
   * moves on `board` leading to their new, distinct boards; and afterwards
   * every successor of `board` is visited or enqueued.
   */
  ghost predicate Expansion(legal: (bv32, Step) -> bool, next: (bv32, Step) -> bv32,
                            board: bv32, seen: set<bv32>, predecessor: int, extra: seq<QueueEntry>) {
    (forall e :: e in extra ==>
      e.predecessor == predecessor && e.board !in seen && ValidMove(e.move) &&
      legal(board, StepOf(e.move)) && e.board == next(board, StepOf(e.move))) &&
    DistinctBoards(extra) &&
    forall s :: legal(board, s) ==> next(board, s) in seen + BoardsOf(extra)
  }

  /** generateNextState performs an expansion under the rules of the puzzle. */
  lemma ExpandChildren(board: bv32, seen: set<bv32>, predecessor: int)
    ensures Expansion(Legal, Successor, board, seen, predecessor, Expand(board, seen, Candidates(board), predecessor))
  {
    var extra := Expand(board, seen, Candidates(board), predecessor);
    forall s | s in Candidates(board) ensures Legal(board, s) {
      CandidatesExact(board, s);
    }
    ExpandSound(board, seen, Candidates(board), predecessor);
    ExpandDistinct(board, seen, Candidates(board), predecessor);
    ExpandComplete(board, seen, Candidates(board), predecessor);
    forall s | Legal(board, s) ensures Successor(board, s) in seen + BoardsOf(extra) {
      CandidatesExact(board, s);
    }
  }

  // ---------------------------------------------------------------------------
  // The state of the main loop.

  /**
   * The state of main at the top of its loop, after `n` boards have been taken
   * from the queue: `records` is the predecessor table, `seen` the visited set
   * and `queued` the queue.
   */
  ghost predicate SearchState(legal: (bv32, Step) -> bool, next: (bv32, Step) -> bv32,
                              start: bv32, goal: bv32, universe: set<bv32>, log: seq<QueueEntry>, n: int,
                              records: seq<Predecessor>, seen: set<bv32>, queued: seq<QueueEntry>)
  {
    // the queue holds the entries not taken yet
    0 <= n <= |log| && queued == log[n..] &&
    // the table records the entries taken
    |records| == TABLE_SIZE && Records(records, log, n) &&
    WellLinked(legal, next, log, start) &&
    // no board is enqueued twice, the start board never, and they are all visited
    DistinctBoards(log) && start !in BoardsOf(log) && seen == {start} + BoardsOf(log) &&
    seen <= universe &&
    // no board taken so far is the goal
    (forall k :: 0 <= k < n ==> log[k].board != goal) &&
    // the start board and the boards taken so far have been expanded
    SuccessorsIn(legal, next, {start} + BoardsOf(log[..n]), seen)
  }

  /** After the start board is visited and expanded, the loop's state holds with nothing taken yet. */
  lemma InitialState(legal: (bv32, Step) -> bool, next: (bv32, Step) -> bv32, start: bv32, goal: bv32,
                     universe: set<bv32>, records: seq<Predecessor>, log: seq<QueueEntry>)
    requires start in universe && SuccessorsIn(legal, next, universe, universe) && |records| == TABLE_SIZE
    requires Expansion(legal, next, start, {start}, -1, log)
    ensures SearchState(legal, next, start, goal, universe, log, 0, records, {start} + BoardsOf(log), log)
  {
    forall k | 0 <= k < |log| ensures LinkedEntry(legal, next, log, start, k) {
      assert log[k] in log;
    }
    forall b | b in BoardsOf(log) ensures b != start && b in universe {
      BoardsOfMember(log, b);
      var k :| 0 <= k < |log| && log[k].board == b;
      assert log[k] in log;
    }
    assert log[..0] == [];
  }

  /** The links of the entries an expansion of entry `n` appends. */
  lemma AdvanceLinks(legal: (bv32, Step) -> bool, next: (bv32, Step) -> bv32, start: bv32,
                     log: seq<QueueEntry>, n: int, seen: set<bv32>, extra: seq<QueueEntry>)
    requires WellLinked(legal, next, log, start) && 0 <= n < |log|
    requires Expansion(legal, next, log[n].board, seen, n, extra)
    ensures WellLinked(legal, next, log + extra, start)
  {
    var all := log + extra;
    forall k | 0 <= k < |all| ensures LinkedEntry(legal, next, all, start, k) {
      if k < |log| {
        assert LinkedEntry(legal, next, log, start, k);
        var p := log[k].predecessor;
        if p != -1 {
          assert all[p] == log[p];
        }
      } else {
        assert all[k] == extra[k - |log|] && extra[k - |log|] in extra;
        assert all[n] == log[n];
      }
    }
  }

  /** The boards an expansion of entry `n` appends are new, distinct and inside the universe. */
  lemma AdvanceBoards(legal: (bv32, Step) -> bool, next: (bv32, Step) -> bv32, start: bv32, universe: set<bv32>,
                      log: seq<QueueEntry>, n: int, seen: set<bv32>, extra: seq<QueueEntry>)
    requires SuccessorsIn(legal, next, universe, universe) && 0 <= n < |log|
    requires DistinctBoards(log) && start !in BoardsOf(log) && seen == {start} + BoardsOf(log) && seen <= universe
    requires Expansion(legal, next, log[n].board, seen, n, extra)
    ensures DistinctBoards(log + extra) && start !in BoardsOf(log + extra)
    ensures seen + BoardsOf(extra) == {start} + BoardsOf(log + extra) && seen + BoardsOf(extra) <= universe
  {
    BoardsOfMember(log, log[n].board);
    forall b | b in BoardsOf(extra) ensures b !in seen && b in universe {
      BoardsOfMember(extra, b);
      var k :| 0 <= k < |extra| && extra[k].board == b;
      assert extra[k] in extra;
    }
    DistinctConcat(log, extra);
    BoardsOfConcat(log, extra);
  }

  /** Entry `n` joins the expanded boards: its successors are now visited. */
  lemma AdvanceExpanded(legal: (bv32, Step) -> bool, next: (bv32, Step) -> bv32, start: bv32,
                        log: seq<QueueEntry>, n: int, seen: set<bv32>, extra: seq<QueueEntry>)
    requires 0 <= n < |log| && SuccessorsIn(legal, next, {start} + BoardsOf(log[..n]), seen)
    requires Expansion(legal, next, log[n].board, seen, n, extra)
    ensures SuccessorsIn(legal, next, {start} + BoardsOf((log + extra)[..n + 1]), seen + BoardsOf(extra))
  {
    assert (log + extra)[..n + 1][..n] == log[..n];
    assert (log + extra)[..n + 1][n] == log[n];
  }

  /**
   * One turn of the main loop: entry `n` is taken from the queue, recorded, is
   * not the goal and is expanded with `n` as its children's link.
   */
  lemma AdvanceState(legal: (bv32, Step) -> bool, next: (bv32, Step) -> bv32, start: bv32, goal: bv32,
                     universe: set<bv32>, log: seq<QueueEntry>, n: int,
                     records: seq<Predecessor>, seen: set<bv32>, queued: seq<QueueEntry>, extra: seq<QueueEntry>)
    requires SuccessorsIn(legal, next, universe, universe) && n < TABLE_SIZE
    requires SearchState(legal, next, start, goal, universe, log, n, records, seen, queued)
    requires queued != [] && queued[0].board != goal
    requires Expansion(legal, next, queued[0].board, seen, n, extra)
    ensures SearchState(legal, next, start, goal, universe, log + extra, n + 1,
                        records[n := Predecessor(queued[0].board, queued[0].predecessor, queued[0].move)],
                        seen + BoardsOf(extra), queued[1..] + extra)
  {
    assert queued[0] == log[n];
    AdvanceLinks(legal, next, start, log, n, seen, extra);
    AdvanceBoards(legal, next, start, universe, log, n, seen, extra);
    AdvanceExpanded(legal, next, start, log, n, seen, extra);
    DropAppend(log, extra, n + 1);
  }

  lemma AppendToEmpty(before: seq<QueueEntry>, log: seq<QueueEntry>)
    requires before == []
    ensures before + log == log
  {
  }

  lemma DropAppend(log: seq<QueueEntry>, extra: seq<QueueEntry>, m: int)
    requires 0 <= m <= |log|
    ensures log[m..] + extra == (log + extra)[m..]
  {
  }

  /** While the queue is not empty, the number of the next entry fits the predecessor table. */
  lemma Capacity(legal: (bv32, Step) -> bool, next: (bv32, Step) -> bv32, start: bv32, goal: bv32,
                 universe: set<bv32>, log: seq<QueueEntry>, n: int,
                 records: seq<Predecessor>, seen: set<bv32>, queued: seq<QueueEntry>)
    requires |universe| <= TABLE_SIZE
    requires SearchState(legal, next, start, goal, universe, log, n, records, seen, queued)
    requires queued != []
    ensures n < TABLE_SIZE
  {
    DistinctCount(log);
    SubsetSize(seen, universe);
    assert |seen| == |BoardsOf(log)| + 1;
  }

  /**
   * `path`, read from the predecessor table `preds`, is the solution main
   * prints for the goal recorded as entry `goalState`: the chain of links from
   * that entry back to an entry with link -1, reversed, whose recorded moves,
   * played from the start board, are legal and end on the goal.
   */
  ghost predicate Solved(start: bv32, goal: bv32, preds: seq<Predecessor>, path: seq<int>, goalState: int) {
    0 <= goalState < |preds| && LinksDescend(preds, goalState) &&
    path == Reversed(Ancestry(preds, goalState)) &&
    1 <= |path| <= goalState + 1 && path[|path| - 1] == goalState && preds[goalState].board == goal &&
    (forall i :: 0 <= i < |path| ==> 0 <= path[i] <= goalState && ValidMove(preds[path[i]].move)) &&
    LegalPlay(Legal, Successor, start, StepsAlong(preds, path)) &&
    Play(Successor, start, StepsAlong(preds, path)) == goal
  }

  /**
   * When the goal is taken from the queue as entry `n` and recorded, the path
   * to it replays from the start board to the goal; the goal is never the
   * start board.
   */
  lemma GoalFound(start: bv32, goal: bv32, universe: set<bv32>, log: seq<QueueEntry>, n: int,
                  records: seq<Predecessor>, seen: set<bv32>, queued: seq<QueueEntry>)
    requires n < TABLE_SIZE
    requires SearchState(Legal, Successor, start, goal, universe, log, n, records, seen, queued)
    requires queued != [] && queued[0].board == goal
    ensures var preds := records[n := Predecessor(queued[0].board, queued[0].predecessor, queued[0].move)];
      LinksDescend(preds, n) && Solved(start, goal, preds, Reversed(Ancestry(preds, n)), n)
    ensures goal != start
  {
    var preds := records[n := Predecessor(queued[0].board, queued[0].predecessor, queued[0].move)];
    assert queued[0] == log[n];
    assert Records(preds, log, n + 1);
    PathPlays(Legal, Successor, preds, log, start, n);
    PathLinks(preds, n);
    BoardsOfMember(log, goal);
  }

  /**
   * When the queue runs empty, no legal play leads from the start board to the
   * goal, unless the goal is the start board itself, which is never compared.
   */
  lemma Exhausted(legal: (bv32, Step) -> bool, next: (bv32, Step) -> bv32, start: bv32, goal: bv32,
                  universe: set<bv32>, log: seq<QueueEntry>, n: int,
                  records: seq<Predecessor>, seen: set<bv32>, queued: seq<QueueEntry>)
    requires SearchState(legal, next, start, goal, universe, log, n, records, seen, queued) && queued == []
    ensures forall steps :: LegalPlay(legal, next, start, steps) && Play(next, start, steps) == goal ==> goal == start
  {
    assert log[..n] == log;
    forall steps | LegalPlay(legal, next, start, steps) && Play(next, start, steps) == goal
      ensures goal == start
    {
      PlayStaysIn(legal, next, seen, start, steps);
      if goal != start {
        BoardsOfMember(log, goal);
      }
    }
  }

  // ---------------------------------------------------------------------------
  // The main loop.

  /**
   * The search of main from `boardStart` to `boardGoal`. `universe` is any set
   * of boards that holds the start board, is closed under legal moves and has
   * no more than TABLE_SIZE boards (the boards with the start board's piece
   * counts are one such set, by PlayPreservesCounts); it bounds the number of
   * boards taken from the queue, so the predecessor table is never overrun,
   * and it makes the loop end.
   */
  method Search(boardStart: bv32, boardGoal: bv32, ghost universe: set<bv32>)
    returns (goalState: int, predecessors: array<Predecessor>, path: array<int>, pathLength: int)
    requires boardStart in universe && SuccessorsIn(Legal, Successor, universe, universe) && |universe| <= TABLE_SIZE
    ensures fresh(predecessors) && fresh(path)
    ensures predecessors.Length == TABLE_SIZE && path.Length == TABLE_SIZE
    ensures goalState == -1 || 0 <= goalState < TABLE_SIZE
    ensures goalState != -1 ==>
      0 <= pathLength <= path.Length && Solved(boardStart, boardGoal, predecessors[..], path[..pathLength], goalState)
    ensures goalState == -1 ==>
      forall steps :: LegalPlay(Legal, Successor, boardStart, steps) && Play(Successor, boardStart, steps) == boardGoal ==>
        boardGoal == boardStart
    ensures boardGoal == boardStart ==> goalState == -1
  {
    var queue := new Queue();
    var visited := new VisitedSet();
    goalState := -1;
    predecessors := new Predecessor[TABLE_SIZE](_ => Predecessor(0, 0, 0));
    path := new int[TABLE_SIZE];
    pathLength := 0;

    ghost var log := Begin(queue, visited, boardStart, boardGoal, universe, predecessors[..]);
    goalState, pathLength := Explore(queue, visited, predecessors, path, boardStart, boardGoal, universe, log);
  }

  /** The loop of main, from the state Begin leaves. */
  method Explore(queue: Queue, visited: VisitedSet, predecessors: array<Predecessor>, path: array<int>,
                 boardStart: bv32, boardGoal: bv32, ghost universe: set<bv32>, ghost log: seq<QueueEntry>)
    returns (goalState: int, pathLength: int)
    requires path.Length == TABLE_SIZE
    requires SuccessorsIn(Legal, Successor, universe, universe) && |universe| <= TABLE_SIZE
    requires queue.Valid() && visited.Valid()
    requires SearchState(Legal, Successor, boardStart, boardGoal, universe, log, 0,
                         predecessors[..], visited.elements, queue.entries)
    modifies queue, visited, visited.table, predecessors, path
    ensures goalState == -1 || 0 <= goalState < TABLE_SIZE
    ensures goalState != -1 ==>
      boardGoal != boardStart &&
      0 <= pathLength <= path.Length && Solved(boardStart, boardGoal, predecessors[..], path[..pathLength], goalState)
    ensures goalState == -1 ==>
      forall steps :: LegalPlay(Legal, Successor, boardStart, steps) && Play(Successor, boardStart, steps) == boardGoal ==>
        boardGoal == boardStart
  {
    goalState, pathLength := -1, 0;
    ghost var log := log;
    var iteration := 0;
    while !queue.IsEmpty()
      invariant queue.Valid() && visited.Valid()
      invariant SearchState(Legal, Successor, boardStart, boardGoal, universe, log, iteration,
                            predecessors[..], visited.elements, queue.entries)
      invariant goalState == -1 && 0 <= iteration <= TABLE_SIZE
      decreases TABLE_SIZE - iteration
    {
      goalState, pathLength, log := TakeEntry(queue, visited, predecessors, path, boardStart, boardGoal,
                                              universe, log, iteration);
      if goalState != -1 {
        return;
      }
      iteration := iteration + 1;
    }
    Exhausted(Legal, Successor, boardStart, boardGoal, universe, log, iteration, predecessors[..], visited.elements, queue.entries);
  }

  /**
   * The body of main's loop: the head of the queue, entry `iteration` of the
   * log, is dequeued and recorded in the predecessor table; when it is the
   * goal its path is reconstructed (goalState is then `iteration`), otherwise
   * it is expanded with `iteration` as its children's link.
   */
  method TakeEntry(queue: Queue, visited: VisitedSet, predecessors: array<Predecessor>, path: array<int>,
                   boardStart: bv32, boardGoal: bv32, ghost universe: set<bv32>, ghost log: seq<QueueEntry>,
                   iteration: int)
    returns (goalState: int, pathLength: int, ghost log': seq<QueueEntry>)
    requires queue.Valid() && visited.Valid() && path.Length == TABLE_SIZE
    requires SuccessorsIn(Legal, Successor, universe, universe) && |universe| <= TABLE_SIZE
    requires SearchState(Legal, Successor, boardStart, boardGoal, universe, log, iteration,
                         predecessors[..], visited.elements, queue.entries)
    requires queue.entries != []
    modifies queue, visited, visited.table, predecessors, path
    ensures queue.Valid() && visited.Valid()
    ensures goalState == -1 ==>
      SearchState(Legal, Successor, boardStart, boardGoal, universe, log', iteration + 1,
                  predecessors[..], visited.elements, queue.entries) &&
      iteration < TABLE_SIZE
    ensures goalState != -1 ==>
      goalState == iteration && boardGoal != boardStart && 0 <= pathLength <= path.Length &&
      Solved(boardStart, boardGoal, predecessors[..], path[..pathLength], goalState)
  {
    ghost var records := predecessors[..];
    ghost var queued := queue.entries;
    var state := queue.Dequeue();
    var currentBoard := state.value.board;
    var predecessor := state.value.predecessor;
    var move := state.value.move;
    Capacity(Legal, Successor, boardStart, boardGoal, universe, log, iteration, records, visited.elements, queued);

    SetPredecessor(predecessors, iteration, predecessor, move, currentBoard);

    if currentBoard == boardGoal {
      goalState := iteration;
      GoalFound(boardStart, boardGoal, universe, log, iteration, records, visited.elements, queued);
      pathLength := ReconstructPath(predecessors, iteration, path);
      log' := log;
      return;
    }

    goalState, pathLength := -1, 0;
    ghost var seen := visited.elements;
    GenerateNextState(queue, visited, currentBoard, iteration);
    ExpandChildren(currentBoard, seen, iteration);
    ghost var extra := Expand(currentBoard, seen, Candidates(currentBoard), iteration);
    AdvanceState(Legal, Successor, boardStart, boardGoal, universe, log, iteration, records, seen, queued, extra);
    log' := log + extra;
  }

  /** main before its loop: the start board is marked visited and expanded with link -1. */
  method Begin(queue: Queue, visited: VisitedSet, boardStart: bv32, boardGoal: bv32,
               ghost universe: set<bv32>, ghost records: seq<Predecessor>)
    returns (ghost log: seq<QueueEntry>)
    requires queue.Valid() && visited.Valid() && queue.entries == [] && visited.elements == {}
    requires boardStart in universe && SuccessorsIn(Legal, Successor, universe, universe) && |records| == TABLE_SIZE
    modifies queue, visited, visited.table
    ensures queue.Valid() && visited.Valid()
    ensures SearchState(Legal, Successor, boardStart, boardGoal, universe, log, 0, records, visited.elements, queue.entries)
  {
    visited.InsertBoardState(boardStart);
    assert visited.elements == {boardStart};
    ghost var before := queue.entries;
    GenerateNextState(queue, visited, boardStart, -1);
    log := Expand(boardStart, {boardStart}, Candidates(boardStart), -1);
    AppendToEmpty(before, log);
    ExpandChildren(boardStart, {boardStart}, -1);
    InitialState(Legal, Successor, boardStart, boardGoal, universe, records, log);
  }
}
