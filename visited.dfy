/**
 * The visited set: a chained hash table of TABLE_SIZE buckets keyed by the
 * board modulo TABLE_SIZE. A bucket's chain is kept as the sequence of the
 * boards on it, newest first.
 */
module Visited {

  const TABLE_SIZE: int := 0x10_0000

  /** hash_board_state: the bucket of a board. */
  function HashBoardState(board: bv32): (key: int)
    ensures 0 <= key < TABLE_SIZE
  {
    board as int % TABLE_SIZE
  }

  class VisitedSet {
    /** hash_table: the chains, one per bucket. */
    const table: array<seq<bv32>>

    /** Every board inserted since the table was initialised. */
    ghost var elements: set<bv32>

    ghost predicate Valid()
      reads this, table
    {
      table.Length == TABLE_SIZE &&
      (forall board {:trigger HashBoardState(board)} :: board in elements <==> board in table[HashBoardState(board)]) &&
      (forall k, board :: 0 <= k < TABLE_SIZE && board in table[k] ==> HashBoardState(board) == k)
    }

    /** init_hash_table: every chain empty. */
    constructor ()
      ensures Valid() && fresh(table)
      ensures elements == {}
    {
      table := new seq<bv32>[TABLE_SIZE](_ => []);
      elements := {};
    }

    /** insert_board_state: the board is put in front of the chain of its bucket. */
    method InsertBoardState(board: bv32)
      requires Valid()
      modifies this, table
      ensures Valid()
      ensures elements == old(elements) + {board}
      ensures table[HashBoardState(board)] == [board] + old(table[HashBoardState(board)])
    {
      var key := HashBoardState(board);
      table[key] := [board] + table[key];
      elements := elements + {board};
    }

    /** lookup_board_state: walks the chain of the board's bucket, comparing exact boards. */
    method LookupBoardState(board: bv32) returns (found: bool)
      requires Valid()
      ensures found <==> board in elements
    {
      var key := HashBoardState(board);
      var current := table[key];
      while current != []
        invariant (board in table[key]) <==> (board in current)
        decreases |current|
      {
        if current[0] == board {
          return true;
        }
        current := current[1..];
      }
      return false;
    }
  }

  /** After an insertion, looking the same board up finds it. */
  method InsertThenLookup(visited: VisitedSet, board: bv32) returns (found: bool)
    requires visited.Valid()
    modifies visited, visited.table
    ensures found
  {
    visited.InsertBoardState(board);
    found := visited.LookupBoardState(board);
  }
}
