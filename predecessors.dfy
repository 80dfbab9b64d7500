/**
 * The predecessor table: entry `i` records the i-th board taken from the
 * queue, the index of the entry it was expanded from (-1 for a child of the
 * start board) and the packed move that produced it. reconstruct_path follows
 * these links back from the goal and reverses what it collected.
 */
module Predecessors {

  datatype Predecessor = Predecessor(board: bv32, predecessor: int, move: int)

  /** init_predecessor_table: every link and every move becomes -1; boards stay. */
  method InitPredecessorTable(predecessors: array<Predecessor>)
    modifies predecessors
    ensures forall i :: 0 <= i < predecessors.Length ==>
      predecessors[i] == Predecessor(old(predecessors[i]).board, -1, -1)
  {
    for i := 0 to predecessors.Length
      invariant forall k :: 0 <= k < i ==> predecessors[k] == Predecessor(old(predecessors[k]).board, -1, -1)
      invariant forall k :: i <= k < predecessors.Length ==> predecessors[k] == old(predecessors[k])
    {
      predecessors[i] := predecessors[i].(predecessor := -1, move := -1);
    }
  }

  /** set_predecessor: entry `index` is overwritten; the others keep their values. */
  method SetPredecessor(predecessors: array<Predecessor>, index: int, predecessor: int, move: int, board: bv32)
    requires 0 <= index < predecessors.Length
    modifies predecessors
    ensures predecessors[..] == old(predecessors[..])[index := Predecessor(board, predecessor, move)]
  {
    predecessors[index] := Predecessor(board, predecessor, move);
  }

  /** Up to entry `last`, every link is -1 or points to an earlier entry. */
  ghost predicate LinksDescend(preds: seq<Predecessor>, last: int) {
    last < |preds| &&
    forall k :: 0 <= k <= last ==> preds[k].predecessor == -1 || 0 <= preds[k].predecessor < k
  }

  /** The indices reconstruct_path collects from entry `i`: `i`, its predecessor, and so on. */
  ghost function Ancestry(preds: seq<Predecessor>, i: int): (chain: seq<int>)
    requires 0 <= i && LinksDescend(preds, i)
    ensures 1 <= |chain| <= i + 1
    ensures chain[0] == i
    decreases i
  {
    var p := preds[i].predecessor;
    if p == -1 then [i] else [i] + Ancestry(preds, p)
  }

  /** Along the collected chain each index is the link of the one before it, and the last has link -1. */
  lemma {:induction false} AncestryLinks(preds: seq<Predecessor>, i: int)
    requires 0 <= i && LinksDescend(preds, i)
    ensures forall k :: 0 <= k < |Ancestry(preds, i)| ==> 0 <= Ancestry(preds, i)[k] <= i
    ensures forall k :: 0 <= k < |Ancestry(preds, i)| - 1 ==>
      preds[Ancestry(preds, i)[k]].predecessor == Ancestry(preds, i)[k + 1]
    ensures preds[Ancestry(preds, i)[|Ancestry(preds, i)| - 1]].predecessor == -1
  {
    var p := preds[i].predecessor;
    if p != -1 {
      AncestryLinks(preds, p);
      var chain, rest := Ancestry(preds, i), Ancestry(preds, p);
      assert chain == [i] + rest;
      assert forall k :: 1 <= k < |chain| ==> chain[k] == rest[k - 1];
    }
  }

  /** The sequence `s` back to front. */
  function Reversed(s: seq<int>): (r: seq<int>)
    ensures |r| == |s|
  {
    if s == [] then [] else Reversed(s[1..]) + [s[0]]
  }

  lemma {:induction false} ReversedIndex(s: seq<int>, k: int)
    requires 0 <= k < |s|
    ensures Reversed(s)[k] == s[|s| - 1 - k]
  {
    if k < |s| - 1 {
      ReversedIndex(s[1..], k);
    }
  }

  /**
   * The path reconstruct_path produces runs from an entry with link -1 to the
   * goal entry, and every entry on it is linked to the one before it.
   */
  lemma PathLinks(preds: seq<Predecessor>, goalIndex: int)
    requires 0 <= goalIndex && LinksDescend(preds, goalIndex)
    ensures var path := Reversed(Ancestry(preds, goalIndex));
      1 <= |path| <= goalIndex + 1 &&
      path[|path| - 1] == goalIndex &&
      (forall k :: 0 <= k < |path| ==> 0 <= path[k] <= goalIndex) &&
      preds[path[0]].predecessor == -1 &&
      (forall k :: 0 <= k < |path| - 1 ==> preds[path[k + 1]].predecessor == path[k])
  {
    var chain := Ancestry(preds, goalIndex);
    var path := Reversed(chain);
    var n := |chain|;
    AncestryLinks(preds, goalIndex);
    forall k | 0 <= k < n ensures path[k] == chain[n - 1 - k] {
      ReversedIndex(chain, k);
    }
  }

  /**
   * reconstruct_path: the first pass collects the chain of links from the
   * goal entry back to an entry with link -1; the second pass reverses it in
   * place. Slots of `path` past the result are left alone.
   */
  method ReconstructPath(predecessors: array<Predecessor>, goalIndex: int, path: array<int>)
    returns (pathLength: int)
    requires 0 <= goalIndex < path.Length
    requires LinksDescend(predecessors[..], goalIndex)
    modifies path
    ensures pathLength == |Ancestry(predecessors[..], goalIndex)|
    ensures path[..pathLength] == Reversed(Ancestry(predecessors[..], goalIndex))
    ensures forall k :: pathLength <= k < path.Length ==> path[k] == old(path[k])
  {
    ghost var preds := predecessors[..];
    ghost var chain := Ancestry(preds, goalIndex);
    var currentIndex := goalIndex;
    var index := 0;
    while currentIndex != -1
      invariant -1 <= currentIndex <= goalIndex
      invariant currentIndex == -1 ==> index == |chain|
      invariant currentIndex != -1 ==> 0 <= index < |chain| && chain[index..] == Ancestry(preds, currentIndex)
      invariant path[..index] == chain[..index]
      invariant forall k :: index <= k < path.Length ==> path[k] == old(path[k])
      decreases currentIndex + 1
    {
      path[index] := currentIndex;
      var next := predecessors[currentIndex].predecessor;
      if next != -1 {
        assert chain[index + 1..] == chain[index..][1..];
      }
      currentIndex := next;
      index := index + 1;
    }
    pathLength := index;
    assert path[..pathLength] == chain;
    ReversePrefix(path, pathLength);
  }

  /** The second pass of reconstruct_path: the first `n` slots of `path` are reversed in place. */
  method ReversePrefix(path: array<int>, n: int)
    requires 0 <= n <= path.Length
    modifies path
    ensures path[..n] == Reversed(old(path[..n]))
    ensures forall k :: n <= k < path.Length ==> path[k] == old(path[k])
  {
    ghost var collected := path[..n];
    for i := 0 to n / 2
      invariant forall k :: 0 <= k < i ==> path[k] == collected[n - 1 - k] && path[n - 1 - k] == collected[k]
      invariant forall k :: i <= k < n - i ==> path[k] == collected[k]
      invariant forall k :: n <= k < path.Length ==> path[k] == old(path[k])
    {
      var temp := path[i];
      path[i] := path[n - 1 - i];
      path[n - 1 - i] := temp;
    }
    forall k | 0 <= k < n ensures path[..n][k] == Reversed(collected)[k] {
      ReversedIndex(collected, k);
    }
  }
}
