/*
 * Turning the solver's move codes into standard cube notation: one code to
 * its letter, a sequence element by element, a whole solution key by key,
 * and a sequence to one comma-separated line of text.
 */
module Translator {
  import opened CubeState
  import opened MoveAlgebra

  /** The notation table, indexed by move code; entry 0 is a placeholder. */
  const Notation: seq<string> := [
    "0", "U", "D", "L", "R", "B", "F",
    "U2", "D2", "L2", "R2", "B2", "F2",
    "U'", "D'", "L'", "R'", "B'", "F'"
  ]

  /** The face a code turns, in code order: U, D, L, R, B, F. */
  function FaceLetter(face: nat): char
    requires face < 6
  {
    ['U', 'D', 'L', 'R', 'B', 'F'][face]
  }

  /** The mark after the letter: none for a quarter turn, "2" for a half turn, "'" for an anticlockwise turn. */
  function TurnMark(kind: nat): string
    requires kind < 3
  {
    if kind == 0 then "" else if kind == 1 then "2" else "'"
  }

  /**
   * The notation of a move; a code outside 1..18 (including 0) has none.
   * Codes 1..6 are quarter turns of U, D, L, R, B, F, codes 7..12 half turns
   * and codes 13..18 anticlockwise turns of the same faces.
   */
  function MoveToString(m: UInt32): (r: string)
    ensures 1 <= m <= 18 ==> r == [FaceLetter((m - 1) % 6)] + TurnMark((m - 1) / 6)
    ensures (m == 0 || m > 18) ==> r == ""
  {
    if 0 < m < |Notation| then Notation[m] else ""
  }

  /** A code has notation exactly when it is a real move. */
  lemma MoveHasNotation(m: UInt32)
    ensures MoveToString(m) != "" <==> 1 <= m <= 18
  {
  }

  /** Different moves never print alike, so the notation can be read back. */
  lemma MoveToStringInjective(m: UInt32, n: UInt32)
    requires 1 <= m <= 18 && 1 <= n <= 18
    requires MoveToString(m) == MoveToString(n)
    ensures m == n
  {
    assert MoveToString(m)[0] == MoveToString(n)[0];
    assert |MoveToString(m)| == |MoveToString(n)|;
  }

  /** The inverse of a quarter turn prints as the same letter with a prime, and the other way round. */
  lemma InverseNotation(m: UInt32)
    requires 1 <= m <= 6
    ensures MoveToString(GetMoveInverse(m)) == MoveToString(m) + "'"
    ensures MoveToString(GetMoveInverse(GetMoveInverse(m))) == MoveToString(m)
  {
    var face := (m - 1) as nat;
    assert (m + 11) % 6 == face && (m + 11) / 6 == 2;
    assert MoveToString(m) == [FaceLetter(face)];
    assert MoveToString(m + 12) == [FaceLetter(face)] + "'";
    InverseIsInvolution(m);
  }

  /** No notation contains a comma, so a comma in a printed line always separates two moves. */
  predicate NoComma(s: string)
  {
    forall i :: 0 <= i < |s| ==> s[i] != ','
  }

  lemma MoveToStringHasNoComma(m: UInt32)
    ensures NoComma(MoveToString(m))
  {
  }

  /** Each code of `s` in notation, in the same order. */
  function Translated(s: seq<UInt32>): (r: seq<string>)
    ensures |r| == |s|
    ensures forall i :: 0 <= i < |s| ==> r[i] == MoveToString(s[i])
  {
    seq(|s|, i requires 0 <= i < |s| => MoveToString(s[i]))
  }

  /** Fills a fresh array of the same length with the notation of each code. */
  method SequenceToString(s: seq<UInt32>) returns (r: seq<string>)
    ensures r == Translated(s)
  {
    var a := new string[|s|];
    for i := 0 to |s|
      invariant a[..i] == Translated(s)[..i]
    {
      a[i] := MoveToString(s[i]);
    }
    r := a[..];
    assert a[..|s|] == a[..];
  }

  /** Translates every sequence of a solution, keeping exactly its keys. */
  method SolutionToString(solution: map<string, seq<UInt32>>) returns (r: map<string, seq<string>>)
    ensures r.Keys == solution.Keys
    ensures forall k :: k in solution ==> r[k] == Translated(solution[k])
  {
    r := map[];
    var todo := solution.Keys;
    while todo != {}
      invariant todo <= solution.Keys
      invariant r.Keys == solution.Keys - todo
      invariant forall k :: k in r ==> r[k] == Translated(solution[k])
      decreases todo
    {
      var k :| k in todo;
      var translated := SequenceToString(solution[k]);
      r := r[k := translated];
      todo := todo - {k};
    }
  }

  /** `parts` separated by ", ", the last part appended last; no parts give "". */
  function Join(parts: seq<string>): string
  {
    if |parts| == 0 then ""
    else if |parts| == 1 then parts[0]
    else Join(parts[..|parts| - 1]) + ", " + parts[|parts| - 1]
  }

  /** What is shown for a solution: a reassurance when it is empty, its moves joined by ", " otherwise. */
  function Describe(s: seq<UInt32>): string
  {
    if |s| == 0 then "No turns needed!" else Join(Translated(s))
  }

  /** Joining one more part appends a separator and that part. */
  lemma JoinOneMore(parts: seq<string>, i: nat)
    requires 1 <= i < |parts|
    ensures Join(parts[..i + 1]) == Join(parts[..i]) + ", " + parts[i]
  {
    assert parts[..i + 1][..i] == parts[..i];
  }

  /** Builds the line left to right: the first move, then ", " and each further move. */
  method GetStringOfSequence(sequence: seq<UInt32>) returns (r: string)
    ensures r == Describe(sequence)
  {
    var parts := SequenceToString(sequence);
    if |parts| == 0 {
      return "No turns needed!";
    }
    r := parts[0];
    for i := 1 to |parts|
      invariant r == Join(parts[..i])
    {
      JoinOneMore(parts, i);
      r := r + ", ";
      r := r + parts[i];
    }
    assert parts[..|parts|] == parts;
  }

  /** The position of the last comma in `s`, or -1 when it has none. */
  function LastComma(s: string): (i: int)
    ensures -1 <= i < |s|
    ensures i >= 0 ==> s[i] == ',' && NoComma(s[i + 1..])
    ensures i == -1 ==> NoComma(s)
    ensures forall k :: 0 <= k < |s| && s[k] == ',' ==> k <= i
  {
    if |s| == 0 then -1
    else if s[|s| - 1] == ',' then |s| - 1
    else LastComma(s[..|s| - 1])
  }

  /** Reading a line back: the pieces between the ", " separators. */
  function Split(s: string): (r: seq<string>)
    ensures |r| > 0
    decreases |s|
  {
    var i := LastComma(s);
    if i < 0 then [s]
    else if i + 2 <= |s| then Split(s[..i]) + [s[i + 2..]]
    else Split(s[..i]) + [""]
  }

  /** A comma with none after it is the last comma. */
  lemma LastCommaAt(s: string, p: nat)
    requires p < |s| && s[p] == ','
    requires forall k :: p < k < |s| ==> s[k] != ','
    ensures LastComma(s) == p
  {
    var i := LastComma(s);
    assert p <= i;
  }

  /** Only the separator of `j + ", " + x` can be a comma from position `|j|` on. */
  lemma NoCommaAfterSeparator(j: string, x: string)
    requires NoComma(x)
    ensures (j + ", " + x)[|j|] == ','
    ensures forall k :: |j| < k < |j + ", " + x| ==> (j + ", " + x)[k] != ','
  {
    var s := j + ", " + x;
    forall k | |j| < k < |s|
      ensures s[k] != ','
    {
      if k > |j| + 1 {
        assert s[k] == x[k - |j| - 2];
      }
    }
  }

  /** The last comma of `j + ", " + x` is the separator when `x` holds none. */
  lemma LastCommaOfJoin(j: string, x: string)
    requires NoComma(x)
    ensures LastComma(j + ", " + x) == |j|
  {
    NoCommaAfterSeparator(j, x);
    LastCommaAt(j + ", " + x, |j|);
  }

  /** Splitting a joined line gives back its parts when no part holds a comma. */
  lemma {:induction false} SplitJoin(parts: seq<string>)
    requires |parts| > 0
    requires forall k :: 0 <= k < |parts| ==> NoComma(parts[k])
    ensures Split(Join(parts)) == parts
  {
    if |parts| > 1 {
      var init, last := parts[..|parts| - 1], parts[|parts| - 1];
      SplitJoin(init);
      var s := Join(init) + ", " + last;
      LastCommaOfJoin(Join(init), last);
      assert s[..|Join(init)|] == Join(init);
      assert s[|Join(init)| + 2..] == last;
      assert init + [last] == parts;
    }
  }

  /** A printed solution can be read back move by move. */
  lemma DescribeReadsBack(s: seq<UInt32>)
    requires |s| > 0
    ensures Split(Describe(s)) == Translated(s)
  {
    forall k | 0 <= k < |s|
      ensures NoComma(Translated(s)[k])
    {
      MoveToStringHasNoComma(s[k]);
    }
    SplitJoin(Translated(s));
  }

  /** An empty solution and a quarter turn followed by its undo, as they are shown. */
  lemma DescribeExamples()
    ensures Describe([]) == "No turns needed!"
    ensures Describe([1, 13]) == "U, U'"
    ensures Describe([7]) == "U2"
  {
    assert Translated([1, 13]) == ["U", "U'"];
    assert ["U", "U'"][..1] == ["U"];
    assert Translated([7]) == ["U2"];
  }
}
