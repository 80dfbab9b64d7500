/**
 * The FIFO queue of the breadth-first search. The solver keeps it as a singly
 * linked list with a head, a tail and a size; here the list from head to tail
 * is the sequence `entries`, and `size` is kept beside it as the solver keeps
 * it. Each entry carries a board, the move that produced it and the index of
 * the entry it was expanded from.
 */
module Queue {

  /** The data a queue node carries. */
  datatype QueueEntry = QueueEntry(board: bv32, move: int, predecessor: int)

  datatype Option<T> = None | Some(value: T)

  class Queue {
    /** The entries from head to tail. */
    var entries: seq<QueueEntry>
    var size: int

    /** The size field counts the entries. */
    ghost predicate Valid()
      reads this
    {
      size == |entries|
    }

    /** init_queue: an empty queue. */
    constructor ()
      ensures Valid() && entries == []
    {
      entries := [];
      size := 0;
    }

    /** is_queue_empty: the queue is empty exactly when it holds no entries. */
    function IsEmpty(): (b: bool)
      reads this
      requires Valid()
      ensures b <==> entries == []
      ensures b <==> size == 0
    {
      entries == []
    }

    /** enqueue: the new entry goes behind the last one and the size grows by one. */
    method Enqueue(board: bv32, move: int, predecessor: int)
      requires Valid()
      modifies this
      ensures Valid()
      ensures entries == old(entries) + [QueueEntry(board, move, predecessor)]
      ensures size == old(size) + 1
    {
      entries := entries + [QueueEntry(board, move, predecessor)];
      size := size + 1;
    }

    /**
     * dequeue: nothing on an empty queue, which is left as it was; otherwise
     * the head entry is returned and removed and the size drops by one.
     */
    method Dequeue() returns (state: Option<QueueEntry>)
      requires Valid()
      modifies this
      ensures Valid()
      ensures old(entries) == [] ==> state == None && entries == [] && size == old(size)
      ensures old(entries) != [] ==> state == Some(old(entries)[0]) && entries == old(entries)[1..]
    {
      if entries == [] {
        return None;
      }
      state := Some(entries[0]);
      entries := entries[1..];
      size := size - 1;
    }
  }

  /** Entries leave the queue in the order they entered it. */
  method FirstInFirstOut(queue: Queue, a: QueueEntry, b: QueueEntry) returns (first: Option<QueueEntry>, second: Option<QueueEntry>)
    requires queue.Valid() && queue.entries == []
    modifies queue
    ensures first == Some(a) && second == Some(b)
  {
    queue.Enqueue(a.board, a.move, a.predecessor);
    queue.Enqueue(b.board, b.move, b.predecessor);
    first := queue.Dequeue();
    second := queue.Dequeue();
  }
}
