/**
 * The argument checks main runs before it builds any board. The command line
 * is `argv`: argv[0] is the program name, argv[1] and argv[2] the white and
 * black starting cells and argv[3] and argv[4] the white and black goal cells,
 * each a string of cell labels. An argument is the text before its NUL
 * terminator and each character stands for one byte of it, so strlen is the
 * length of the sequence.
 */
module Arguments {
  import opened Board

  /** What main does after its checks: go on, or stop with one of its messages. */
  datatype Verdict =
    | Proceed
    | Usage
    | PieceCountMismatch
      /** Argument `arg` names some cell twice. */
    | DuplicatePosition(arg: int)
      /** Argument `arg` holds `ch`, which is not one of 'A'..'N'. */
    | InvalidPosition(arg: int, ch: char)

  /** No character occurs twice in `s`. */
  predicate Distinct(s: string) {
    forall i, j :: 0 <= i < j < |s| ==> s[i] != s[j]
  }

  /** The command line main accepts. */
  predicate ValidArguments(argv: seq<string>) {
    && |argv| == 5
    && |argv[1]| == |argv[3]|
    && |argv[2]| == |argv[4]|
    && (forall k :: 1 <= k <= 4 ==> Distinct(argv[k]) && AllLabels(argv[k]))
  }

  /** strchr: the position of the first occurrence of `c` in `s`. */
  function StrChr(s: string, c: char): (k: int)
    requires c in s
    ensures 0 <= k < |s| && s[k] == c
    ensures forall m :: 0 <= m < k ==> s[m] != c
  {
    if s[0] == c then 0 else 1 + StrChr(s[1..], c)
  }

  /** strrchr: the position of the last occurrence of `c` in `s`. */
  function StrRChr(s: string, c: char): (k: int)
    requires c in s
    ensures 0 <= k < |s| && s[k] == c
    ensures forall m :: k < m < |s| ==> s[m] != c
  {
    if s[|s| - 1] == c then |s| - 1 else StrRChr(s[..|s| - 1], c)
  }

  /**
   * The duplicate test main applies to each character: the first and the last
   * occurrence of some character differ exactly when the string repeats a
   * character.
   */
  lemma DuplicateTest(s: string)
    ensures (exists i :: 0 <= i < |s| && StrChr(s, s[i]) != StrRChr(s, s[i])) <==> !Distinct(s)
  {
    if !Distinct(s) {
      var i, j :| 0 <= i < j < |s| && s[i] == s[j];
      assert StrChr(s, s[i]) <= i < j <= StrRChr(s, s[i]);
    }
    if i :| 0 <= i < |s| && StrChr(s, s[i]) != StrRChr(s, s[i]) {
      var first, last := StrChr(s, s[i]), StrRChr(s, s[i]);
      assert first < last && s[first] == s[last];
    }
  }

  /** One duplicate loop of main: scans `s`, comparing strchr with strrchr. */
  method HasDuplicate(s: string) returns (duplicate: bool)
    ensures duplicate <==> !Distinct(s)
  {
    for i := 0 to |s|
      invariant forall i' :: 0 <= i' < i ==> StrChr(s, s[i']) == StrRChr(s, s[i'])
    {
      if StrChr(s, s[i]) != StrRChr(s, s[i]) {
        DuplicateTest(s);
        return true;
      }
    }
    DuplicateTest(s);
    return false;
  }

  /** One label loop of main: the position of the first character outside 'A'..'N', or |s|. */
  method FirstInvalid(s: string) returns (bad: int)
    ensures 0 <= bad <= |s|
    ensures AllLabels(s[..bad])
    ensures bad < |s| ==> !IsLabel(s[bad])
    ensures bad == |s| <==> AllLabels(s)
  {
    for i := 0 to |s|
      invariant AllLabels(s[..i])
    {
      if s[i] < 'A' || s[i] > 'N' {
        return i;
      }
    }
    assert s[..|s|] == s;
    return |s|;
  }

  /**
   * The argument checks of main, in its order: the argument count, then the
   * piece counts, then duplicates in argv[1] to argv[4], then labels in
   * argv[1] to argv[4]. The first failing check decides the verdict.
   */
  method CheckArguments(argv: seq<string>) returns (verdict: Verdict)
    ensures verdict == Proceed <==> ValidArguments(argv)
    ensures verdict == Usage <==> |argv| != 5
    ensures verdict == PieceCountMismatch <==>
      |argv| == 5 && (|argv[1]| != |argv[3]| || |argv[2]| != |argv[4]|)
    ensures verdict.DuplicatePosition? ==>
      && |argv| == 5 && |argv[1]| == |argv[3]| && |argv[2]| == |argv[4]|
      && 1 <= verdict.arg <= 4 && !Distinct(argv[verdict.arg])
      && (forall k :: 1 <= k < verdict.arg ==> Distinct(argv[k]))
    ensures verdict.InvalidPosition? ==>
      && |argv| == 5 && |argv[1]| == |argv[3]| && |argv[2]| == |argv[4]|
      && (forall k :: 1 <= k <= 4 ==> Distinct(argv[k]))
      && 1 <= verdict.arg <= 4
      && (forall k :: 1 <= k < verdict.arg ==> AllLabels(argv[k]))
      && (exists i :: 0 <= i < |argv[verdict.arg]| && argv[verdict.arg][i] == verdict.ch
                      && AllLabels(argv[verdict.arg][..i]))
      && !IsLabel(verdict.ch)
  {
    if |argv| != 5 {
      return Usage;
    }
    if |argv[1]| != |argv[3]| || |argv[2]| != |argv[4]| {
      return PieceCountMismatch;
    }
    for k := 1 to 5
      invariant forall k' :: 1 <= k' < k ==> Distinct(argv[k'])
    {
      var duplicate := HasDuplicate(argv[k]);
      if duplicate {
        return DuplicatePosition(k);
      }
    }
    for k := 1 to 5
      invariant forall k' :: 1 <= k' < k ==> AllLabels(argv[k'])
    {
      var bad := FirstInvalid(argv[k]);
      if bad < |argv[k]| {
        return InvalidPosition(k, argv[k][bad]);
      }
    }
    return Proceed;
  }

  /**
   * main does not compare the white cells with the black ones: a cell named
   * in both passes every check.
   */
  lemma SharedCellAccepted()
    ensures ValidArguments(["solver", "AB", "B", "CD", "D"])
  {
    var argv := ["solver", "AB", "B", "CD", "D"];
    assert argv[1][0] != argv[1][1];
    assert argv[3][0] != argv[3][1];
  }
}
