/*
 * The move algebra of the solver: inverses of move codes and of sequences, joining a
 * forward path with a backward one, the successor table that prunes the search, and
 * the acceptance rule of random scrambles.
 */
module MoveAlgebra {
  import opened Wrappers
  import opened CubeState

  // ---------------------------------------------------------------------------------
  // Inverses
  // ---------------------------------------------------------------------------------

  /**
   * `GetMoveInverse`: a quarter turn is undone by the anticlockwise turn of the same
   * face and the other way round, a half turn undoes itself; 0 and any code the
   * table does not hold give 0.
   */
  function GetMoveInverse(m: UInt32): (r: UInt32)
    ensures 1 <= m <= 6 ==> r == m + 12
    ensures 7 <= m <= 12 ==> r == m
    ensures 13 <= m <= 18 ==> r == m - 12
    ensures (m == 0 || m > 18) ==> r == 0
  {
    var table: seq<UInt32> := [0, 13, 14, 15, 16, 17, 18, 7, 8, 9, 10, 11, 12, 1, 2, 3, 4, 5, 6];
    if m < |table| then table[m] else 0
  }

  /** Taking the inverse twice gives back every code of the table. */
  lemma InverseIsInvolution(m: UInt32)
    requires m <= 18
    ensures GetMoveInverse(GetMoveInverse(m)) == m
  {
  }

  /** Undoing `s`: the inverse of each move, last move first. */
  function InverseSequence(s: seq<UInt32>): (r: seq<UInt32>)
    ensures |r| == |s|
    ensures forall i :: 0 <= i < |s| ==> r[i] == GetMoveInverse(s[|s| - 1 - i])
    decreases |s|
  {
    if s == [] then [] else [GetMoveInverse(s[|s| - 1])] + InverseSequence(s[..|s| - 1])
  }

  lemma UndoUQuarter(b: Boards)
    ensures RotateU3(RotateU1(b)) == b
  {
  }

  lemma UndoUAnti(b: Boards)
    ensures RotateU1(RotateU3(b)) == b
  {
  }

  lemma UndoUHalf(b: Boards)
    ensures RotateU2(RotateU2(b)) == b
  {
  }

  lemma UndoDQuarter(b: Boards)
    ensures RotateD3(RotateD1(b)) == b
  {
  }

  lemma UndoDAnti(b: Boards)
    ensures RotateD1(RotateD3(b)) == b
  {
  }

  lemma UndoDHalf(b: Boards)
    ensures RotateD2(RotateD2(b)) == b
  {
  }

  lemma UndoLQuarter(b: Boards)
    ensures RotateL3(RotateL1(b)) == b
  {
  }

  lemma UndoLAnti(b: Boards)
    ensures RotateL1(RotateL3(b)) == b
  {
  }

  lemma UndoLHalf(b: Boards)
    ensures RotateL2(RotateL2(b)) == b
  {
  }

  lemma UndoRQuarter(b: Boards)
    ensures RotateR3(RotateR1(b)) == b
  {
  }

  lemma UndoRAnti(b: Boards)
    ensures RotateR1(RotateR3(b)) == b
  {
  }

  lemma UndoRHalf(b: Boards)
    ensures RotateR2(RotateR2(b)) == b
  {
  }

  // A back or front turn moves more of each word than the other turns do; its inverse is
  // checked one word at a time, which keeps each proof small.

  lemma UndoBQuarterUp(b: Boards)
    ensures RotateB3(RotateB1(b)).up == b.up
  {
  }

  lemma UndoBQuarterDown(b: Boards)
    ensures RotateB3(RotateB1(b)).down == b.down
  {
  }

  lemma UndoBQuarterLeft(b: Boards)
    ensures RotateB3(RotateB1(b)).left == b.left
  {
  }

  lemma UndoBQuarterRight(b: Boards)
    ensures RotateB3(RotateB1(b)).right == b.right
  {
  }

  lemma UndoBQuarterBack(b: Boards)
    ensures RotateB3(RotateB1(b)).back == b.back
  {
  }

  lemma UndoBQuarter(b: Boards)
    ensures RotateB3(RotateB1(b)) == b
  {
    UndoBQuarterUp(b);
    UndoBQuarterDown(b);
    UndoBQuarterLeft(b);
    UndoBQuarterRight(b);
    UndoBQuarterBack(b);
  }

  lemma UndoBAntiUp(b: Boards)
    ensures RotateB1(RotateB3(b)).up == b.up
  {
  }

  lemma UndoBAntiDown(b: Boards)
    ensures RotateB1(RotateB3(b)).down == b.down
  {
  }

  lemma UndoBAntiLeft(b: Boards)
    ensures RotateB1(RotateB3(b)).left == b.left
  {
  }

  lemma UndoBAntiRight(b: Boards)
    ensures RotateB1(RotateB3(b)).right == b.right
  {
  }

  lemma UndoBAntiBack(b: Boards)
    ensures RotateB1(RotateB3(b)).back == b.back
  {
  }

  lemma UndoBAnti(b: Boards)
    ensures RotateB1(RotateB3(b)) == b
  {
    UndoBAntiUp(b);
    UndoBAntiDown(b);
    UndoBAntiLeft(b);
    UndoBAntiRight(b);
    UndoBAntiBack(b);
  }

  lemma UndoBHalfUp(b: Boards)
    ensures RotateB2(RotateB2(b)).up == b.up
  {
  }

  lemma UndoBHalfDown(b: Boards)
    ensures RotateB2(RotateB2(b)).down == b.down
  {
  }

  lemma UndoBHalfLeft(b: Boards)
    ensures RotateB2(RotateB2(b)).left == b.left
  {
  }

  lemma UndoBHalfRight(b: Boards)
    ensures RotateB2(RotateB2(b)).right == b.right
  {
  }

  lemma UndoBHalfBack(b: Boards)
    ensures RotateB2(RotateB2(b)).back == b.back
  {
  }

  lemma UndoBHalf(b: Boards)
    ensures RotateB2(RotateB2(b)) == b
  {
    UndoBHalfUp(b);
    UndoBHalfDown(b);
    UndoBHalfLeft(b);
    UndoBHalfRight(b);
    UndoBHalfBack(b);
  }

  lemma UndoFQuarterUp(b: Boards)
    ensures RotateF3(RotateF1(b)).up == b.up
  {
  }

  lemma UndoFQuarterDown(b: Boards)
    ensures RotateF3(RotateF1(b)).down == b.down
  {
  }

  lemma UndoFQuarterLeft(b: Boards)
    ensures RotateF3(RotateF1(b)).left == b.left
  {
  }

  lemma UndoFQuarterRight(b: Boards)
    ensures RotateF3(RotateF1(b)).right == b.right
  {
  }

  lemma UndoFQuarterFront(b: Boards)
    ensures RotateF3(RotateF1(b)).front == b.front
  {
  }

  lemma UndoFQuarter(b: Boards)
    ensures RotateF3(RotateF1(b)) == b
  {
    UndoFQuarterUp(b);
    UndoFQuarterDown(b);
    UndoFQuarterLeft(b);
    UndoFQuarterRight(b);
    UndoFQuarterFront(b);
  }

  lemma UndoFAntiUp(b: Boards)
    ensures RotateF1(RotateF3(b)).up == b.up
  {
  }

  lemma UndoFAntiDown(b: Boards)
    ensures RotateF1(RotateF3(b)).down == b.down
  {
  }

  lemma UndoFAntiLeft(b: Boards)
    ensures RotateF1(RotateF3(b)).left == b.left
  {
  }

  lemma UndoFAntiRight(b: Boards)
    ensures RotateF1(RotateF3(b)).right == b.right
  {
  }

  lemma UndoFAntiFront(b: Boards)
    ensures RotateF1(RotateF3(b)).front == b.front
  {
  }

  lemma UndoFAnti(b: Boards)
    ensures RotateF1(RotateF3(b)) == b
  {
    UndoFAntiUp(b);
    UndoFAntiDown(b);
    UndoFAntiLeft(b);
    UndoFAntiRight(b);
    UndoFAntiFront(b);
  }

  lemma UndoFHalfUp(b: Boards)
    ensures RotateF2(RotateF2(b)).up == b.up
  {
  }

  lemma UndoFHalfDown(b: Boards)
    ensures RotateF2(RotateF2(b)).down == b.down
  {
  }

  lemma UndoFHalfLeft(b: Boards)
    ensures RotateF2(RotateF2(b)).left == b.left
  {
  }

  lemma UndoFHalfRight(b: Boards)
    ensures RotateF2(RotateF2(b)).right == b.right
  {
  }

  lemma UndoFHalfFront(b: Boards)
    ensures RotateF2(RotateF2(b)).front == b.front
  {
  }

  lemma UndoFHalf(b: Boards)
    ensures RotateF2(RotateF2(b)) == b
  {
    UndoFHalfUp(b);
    UndoFHalfDown(b);
    UndoFHalfLeft(b);
    UndoFHalfRight(b);
    UndoFHalfFront(b);
  }

  /** Every move code, followed by its inverse, restores all six words. */
  lemma MoveThenInverse(b: Boards, m: UInt32)
    ensures RotatedBitboards(RotatedBitboards(b, m), GetMoveInverse(m)) == b
  {
    match m
    case 1 => UndoUQuarter(b);
    case 7 => UndoUHalf(b);
    case 13 => UndoUAnti(b);
    case 2 => UndoDQuarter(b);
    case 8 => UndoDHalf(b);
    case 14 => UndoDAnti(b);
    case 3 => UndoLQuarter(b);
    case 9 => UndoLHalf(b);
    case 15 => UndoLAnti(b);
    case 4 => UndoRQuarter(b);
    case 10 => UndoRHalf(b);
    case 16 => UndoRAnti(b);
    case 5 => UndoBQuarter(b);
    case 11 => UndoBHalf(b);
    case 17 => UndoBAnti(b);
    case 6 => UndoFQuarter(b);
    case 12 => UndoFHalf(b);
    case 18 => UndoFAnti(b);
    case _ =>
  }

  /** The inverse of a move code, followed by the move, restores all six words too. */
  lemma InverseThenMove(b: Boards, m: UInt32)
    ensures RotatedBitboards(RotatedBitboards(b, GetMoveInverse(m)), m) == b
  {
    if IsMove(m) {
      MoveThenInverse(b, GetMoveInverse(m));
    }
  }

  /** Running `s` and then its inverse sequence restores the words. */
  lemma {:induction false} UndoSequence(b: Boards, s: seq<UInt32>)
    ensures ApplySequence(ApplySequence(b, s), InverseSequence(s)) == b
    decreases |s|
  {
    if s != [] {
      var s', m := s[..|s| - 1], s[|s| - 1];
      var mid := ApplySequence(b, s');
      calc {
        ApplySequence(ApplySequence(b, s), InverseSequence(s));
        { assert InverseSequence(s) == [GetMoveInverse(m)] + InverseSequence(s');
          ApplyAppend(ApplySequence(b, s), [GetMoveInverse(m)], InverseSequence(s')); }
        ApplySequence(ApplySequence(RotatedBitboards(mid, m), [GetMoveInverse(m)]), InverseSequence(s'));
        { MoveThenInverse(mid, m); }
        ApplySequence(mid, InverseSequence(s'));
        { UndoSequence(b, s'); }
        b;
      }
    }
  }

  /** Running the inverse sequence of `s` and then `s` restores the words. */
  lemma {:induction false} RedoSequence(b: Boards, s: seq<UInt32>)
    ensures ApplySequence(ApplySequence(b, InverseSequence(s)), s) == b
    decreases |s|
  {
    if s != [] {
      var s', m := s[..|s| - 1], s[|s| - 1];
      var back := ApplySequence(b, [GetMoveInverse(m)]);
      calc {
        ApplySequence(ApplySequence(b, InverseSequence(s)), s);
        { assert InverseSequence(s) == [GetMoveInverse(m)] + InverseSequence(s');
          ApplyAppend(b, [GetMoveInverse(m)], InverseSequence(s')); }
        RotatedBitboards(ApplySequence(ApplySequence(back, InverseSequence(s')), s'), m);
        { RedoSequence(back, s'); }
        RotatedBitboards(back, m);
        { ApplySingle(b, GetMoveInverse(m));
          InverseThenMove(b, m); }
        b;
      }
    }
  }

  /**
   * Where a cube's recorded history started: its words with the history undone. A
   * clean cube is its own origin.
   */
  function Origin(c: Cube): Boards
  {
    ApplySequence(c.boards, InverseSequence(c.sequence))
  }

  /** A cube's history, replayed from its origin, gives back its words. */
  lemma ReplayFromOrigin(c: Cube)
    ensures ApplySequence(Origin(c), c.sequence) == c.boards
  {
    RedoSequence(c.boards, c.sequence);
  }

  /** `RotatedByMove` extends the history without changing where it started. */
  lemma OriginOfRotatedByMove(c: Cube, m: UInt32)
    ensures Origin(RotatedByMove(c, m)) == Origin(c)
  {
    var n := RotatedByMove(c, m);
    assert n.sequence[..|n.sequence| - 1] == c.sequence;
    assert InverseSequence(n.sequence) == [GetMoveInverse(m)] + InverseSequence(c.sequence);
    ApplyAppend(n.boards, [GetMoveInverse(m)], InverseSequence(c.sequence));
    MoveThenInverse(c.boards, m);
  }

  // ---------------------------------------------------------------------------------
  // Joining paths
  // ---------------------------------------------------------------------------------

  /** `MergeSequences`: `forwards`, then the moves of `backwards` inverted, last first. */
  method MergeSequences(forwards: seq<UInt32>, backwards: seq<UInt32>) returns (r: seq<UInt32>)
    ensures r == forwards + InverseSequence(backwards)
  {
    var merged := new UInt32[|forwards| + |backwards|];
    var i := 0;
    while i < |forwards|
      invariant 0 <= i <= |forwards|
      invariant merged[..i] == forwards[..i]
    {
      merged[i] := forwards[i];
      i := i + 1;
    }
    var j := |backwards| - 1;
    while j >= 0
      invariant -1 <= j < |backwards|
      invariant i == |forwards| + |backwards| - 1 - j
      invariant merged[..i] == forwards + InverseSequence(backwards)[..i - |forwards|]
    {
      merged[i] := GetMoveInverse(backwards[j]);
      i := i + 1;
      j := j - 1;
    }
    r := merged[..];
  }

  /**
   * The merged sequence is a path: if `forwards` leads from `a` to a state that
   * `backwards` leads to from `z`, the merge leads from `a` to `z`.
   */
  lemma MergedPathConnects(a: Boards, z: Boards, forwards: seq<UInt32>, backwards: seq<UInt32>)
    requires ApplySequence(a, forwards) == ApplySequence(z, backwards)
    ensures ApplySequence(a, forwards + InverseSequence(backwards)) == z
  {
    ApplyAppend(a, forwards, InverseSequence(backwards));
    UndoSequence(z, backwards);
  }

  lemma MergeExample()
    ensures [1, 2, 3] + InverseSequence([18, 17, 16]) == [1, 2, 3, 4, 5, 6]
  {
  }

  // ---------------------------------------------------------------------------------
  // Successor table
  // ---------------------------------------------------------------------------------

  /**
   * The pruning rule: `sub` may follow `move` unless both turn the same face class
   * (`% 6`), or `move` is even and `sub`'s class is one below `move`'s.
   */
  predicate MayFollow(move: UInt32, sub: UInt32)
  {
    !(move % 6 == sub % 6) && !(move % 2 == 0 && move % 6 == sub % 6 + 1)
  }

  /** The elements of `moves`, in order, that may follow `move`. */
  function Successors(move: UInt32, moves: seq<UInt32>): seq<UInt32>
    decreases |moves|
  {
    if moves == [] then []
    else
      var rest := Successors(move, moves[..|moves| - 1]);
      if MayFollow(move, moves[|moves| - 1]) then rest + [moves[|moves| - 1]] else rest
  }

  /** The successors of `move` are exactly the codes of `moves` that may follow it. */
  lemma {:induction false} SuccessorsAreFollowers(move: UInt32, moves: seq<UInt32>)
    ensures forall s :: s in Successors(move, moves) <==> s in moves && MayFollow(move, s)
    ensures |Successors(move, moves)| <= |moves|
    decreases |moves|
  {
    if moves != [] {
      var init := moves[..|moves| - 1];
      SuccessorsAreFollowers(move, init);
      assert moves == init + [moves[|moves| - 1]];
    }
  }

  /** The greatest element of a non-empty sequence. */
  function MaxOf(s: seq<UInt32>): (r: UInt32)
    requires s != []
    ensures r in s && forall x :: x in s ==> x <= r
    decreases |s|
  {
    if |s| == 1 then s[0]
    else
      var init, last := s[..|s| - 1], s[|s| - 1];
      var m := MaxOf(init);
      assert forall x :: x in s ==> x in init || x == last;
      if last > m then last else m
  }

  /**
   * `NumIndexesNeeded`: one more than the largest code, so that every code indexes the
   * table; 1 for no codes. The `uint` sum wraps, so a largest code of 0xFFFFFFFF gives 0.
   */
  method NumIndexesNeeded(moves: seq<UInt32>) returns (r: UInt32)
    ensures moves == [] ==> r == 1
    ensures moves != [] ==> r == (MaxOf(moves) + 1) % 0x1_0000_0000
  {
    if |moves| == 0 {
      return 1;
    }
    var max := moves[0];
    for i := 0 to |moves|
      invariant max == MaxOf(moves[..if i == 0 then 1 else i])
    {
      assert moves[..i + 1][..i] == moves[..i];
      if moves[i] > max {
        max := moves[i];
      }
    }
    assert moves[..|moves|] == moves;
    // `max + 1` in `uint` arithmetic
    r := if max == 0xFFFF_FFFF then 0 else max + 1;
  }

  /** The table for the codes 2, 5, 5, 8, 9, 0, 7 needs 10 entries. */
  lemma NumIndexesExample()
    ensures MaxOf([2, 5, 5, 8, 9, 0, 7]) + 1 == 10
  {
    assert 9 in [2, 5, 5, 8, 9, 0, 7];
  }

  /** No code in `moves` is the largest `uint`, so that `NumIndexesNeeded` does not wrap. */
  predicate NoWrap(moves: seq<UInt32>)
  {
    forall m :: m in moves ==> m < 0xFFFF_FFFF
  }

  /**
   * `GetSubsequentMoves`: entry 0 lists `moves`; the entry of each code in `moves`
   * lists, in order, the codes of `moves` that may follow it; every other entry is
   * empty (null in the source).
   */
  method GetSubsequentMoves(moves: seq<UInt32>) returns (table: seq<Option<seq<UInt32>>>)
    requires NoWrap(moves)
    ensures |table| == if moves == [] then 1 else MaxOf(moves) + 1
    ensures table[0] == Some(moves)
    ensures forall m :: 0 < m < |table| ==>
              table[m] == if m in moves then Some(Successors(m, moves)) else None
  {
    var n := NumIndexesNeeded(moves);
    assert moves != [] ==> MaxOf(moves) in moves;
    var entries := new Option<seq<UInt32>>[n](_ => None);
    for k := 0 to |moves|
      invariant TableUpTo(entries[..], moves, k)
    {
      var move := moves[k];
      assert move in moves;
      var subMoves := SubsequentOf(move, moves);
      ghost var before := entries[..];
      entries[move] := Some(subMoves);
      TableStep(before, moves, k);
      assert entries[..] == before[move := Some(subMoves)];
    }
    assert moves[..|moves|] == moves;
    entries[0] := Some(moves);
    table := entries[..];
  }

  /** After `k` rounds: the entry of each code among the first `k` of `moves` is filled, the rest empty. */
  ghost predicate TableUpTo(entries: seq<Option<seq<UInt32>>>, moves: seq<UInt32>, k: nat)
    requires k <= |moves|
  {
    forall m :: 0 <= m < |entries| ==>
      entries[m] == if m in moves[..k] then Some(Successors(m, moves)) else None
  }

  /** Filling the entry of the next code of `moves` keeps the table up to date. */
  lemma TableStep(before: seq<Option<seq<UInt32>>>, moves: seq<UInt32>, k: nat)
    requires k < |moves| && moves[k] < |before| && TableUpTo(before, moves, k)
    ensures TableUpTo(before[moves[k] := Some(Successors(moves[k], moves))], moves, k + 1)
  {
    var after := before[moves[k] := Some(Successors(moves[k], moves))];
    assert moves[..k + 1] == moves[..k] + [moves[k]];
    forall m | 0 <= m < |after|
      ensures after[m] == if m in moves[..k + 1] then Some(Successors(m, moves)) else None
    {
      if m != moves[k] {
        assert after[m] == before[m];
      }
    }
  }

  /** The inner loop of `GetSubsequentMoves`: the codes of `moves` that may follow `move`. */
  method SubsequentOf(move: UInt32, moves: seq<UInt32>) returns (subMoves: seq<UInt32>)
    ensures subMoves == Successors(move, moves)
  {
    subMoves := [];
    for j := 0 to |moves|
      invariant subMoves == Successors(move, moves[..j])
    {
      assert moves[..j + 1][..j] == moves[..j];
      if MayFollow(move, moves[j]) {
        subMoves := subMoves + [moves[j]];
      }
    }
    assert moves[..|moves|] == moves;
  }

  lemma SuccessorsExample()
    ensures Successors(1, [1, 2, 3]) == [2, 3]
    ensures Successors(2, [1, 2, 3]) == [3]
    ensures Successors(3, [1, 2, 3]) == [1, 2]
  {
    assert [1, 2, 3][..2] == [1, 2] && [1, 2][..1] == [1] && [1][..0] == [];
  }

  /** The face classes F (`% 6 == 0`) and B (`% 6 == 5`) are never pruned against each other. */
  lemma FrontAndBackNeverPruned(f: UInt32, b: UInt32)
    requires f % 6 == 0 && b % 6 == 5
    ensures MayFollow(f, b) && MayFollow(b, f)
  {
  }

  // ---------------------------------------------------------------------------------
  // Scrambles
  // ---------------------------------------------------------------------------------

  /** The move codes a scramble draws from, in the order of the source's array. */
  const AllMoves: seq<UInt32> := [1, 2, 3, 4, 5, 6, 7, 8, 9, 10, 11, 12, 13, 14, 15, 16, 17, 18]

  /**
   * The rule at lines 455-459 as written: `next` differs in class from `prev`, and no
   * "opposite, same" pattern, where the last test compares the class of the move two
   * back with the code `next` itself rather than with its class.
   */
  predicate AcceptedAsWritten(twoBack: UInt32, prev: UInt32, next: UInt32)
  {
    !(next % 6 == prev % 6)
    && !(next % 2 != 0 && prev % 6 == next % 6 + 1 && twoBack % 6 == next)
    && !(next % 2 == 0 && prev % 6 == next % 6 - 1 && twoBack % 6 == next)
  }

  /** The same rule comparing classes with classes, as the comment beside it describes. */
  predicate Accepted(twoBack: UInt32, prev: UInt32, next: UInt32)
  {
    !(next % 6 == prev % 6)
    && !(next % 2 != 0 && prev % 6 == next % 6 + 1 && twoBack % 6 == next % 6)
    && !(next % 2 == 0 && prev % 6 == next % 6 - 1 && twoBack % 6 == next % 6)
  }

  /** The U/D and L/R face pairs, the opposite pairs that the rule's `+ 1` / `- 1` encodes. */
  predicate OppositeAxis(a: UInt32, b: UInt32)
  {
    (a % 6 == 1 && b % 6 == 2) || (a % 6 == 2 && b % 6 == 1)
    || (a % 6 == 3 && b % 6 == 4) || (a % 6 == 4 && b % 6 == 3)
  }

  /** A scramble in which every move from the third on passes the corrected rule. */
  predicate WellFormedScramble(s: seq<UInt32>)
  {
    (|s| >= 2 ==> s[1] % 6 != s[0] % 6)
    && forall i :: 2 <= i < |s| ==> Accepted(s[i - 2], s[i - 1], s[i])
  }

  /**
   * The corrected rule keeps what the rule promises: consecutive moves turn
   * different faces, and no move returns to the face turned two moves back across
   * the opposite face in between (L R L').
   */
  lemma WellFormedScrambleHasNoCancellingTriple(s: seq<UInt32>, i: int)
    requires WellFormedScramble(s) && 1 <= i < |s|
    ensures s[i] % 6 != s[i - 1] % 6
    ensures i >= 2 && OppositeAxis(s[i - 1], s[i]) ==> s[i - 2] % 6 != s[i] % 6
  {
    if i >= 2 {
      assert Accepted(s[i - 2], s[i - 1], s[i]);
      ClassParity(s[i]);
    }
  }

  /** A code and its face class have the same parity, as 6 is even. */
  lemma ClassParity(x: UInt32)
    ensures x % 2 == (x % 6) % 2
  {
    var q, r := x / 6, x % 6;
    assert x == 6 * q + r;
    assert x % 2 == (2 * (3 * q) + r) % 2 == r % 2;
  }

  /** A scramble in which every move from the third on passes the rule as written. */
  predicate WellFormedScrambleAsWritten(s: seq<UInt32>)
  {
    (|s| >= 2 ==> s[1] % 6 != s[0] % 6)
    && forall i :: 2 <= i < |s| ==> AcceptedAsWritten(s[i - 2], s[i - 1], s[i])
  }

  /** Even as written, consecutive moves of a scramble always turn different faces. */
  lemma AsWrittenNeighboursDiffer(s: seq<UInt32>, i: int)
    requires WellFormedScrambleAsWritten(s) && 1 <= i < |s|
    ensures s[i] % 6 != s[i - 1] % 6
  {
    if i >= 2 {
      assert AcceptedAsWritten(s[i - 2], s[i - 1], s[i]);
    }
  }

  /**
   * The two rules differ only on codes of 6 and above: for a quarter turn of U, D, L,
   * R or B the code is its own class, and the rule as written is the intended one.
   */
  lemma AsWrittenAgreesOnQuarterTurns(twoBack: UInt32, prev: UInt32, next: UInt32)
    requires next < 6
    ensures AcceptedAsWritten(twoBack, prev, next) <==> Accepted(twoBack, prev, next)
  {
    assert next % 6 == next;
  }

  /** As written the rule lets L R L' through. */
  lemma AsWrittenAcceptsCancellingTriple()
    ensures AcceptedAsWritten(3, 4, 15) && OppositeAxis(4, 15) && 3 % 6 == 15 % 6
    ensures !Accepted(3, 4, 15)
  {
  }

  /**
   * `GetScramble`, with the random draws (`random.Next(18)`) supplied as `draws`. The
   * source retries rejected draws for ever; here a scramble that runs out of draws
   * is `None`.
   */
  method GetScramble(size: UInt32, draws: seq<int>) returns (r: Option<seq<UInt32>>)
    requires forall d :: d in draws ==> 0 <= d < 18
    ensures size == 0 ==> r == Some([])
    ensures r.Some? ==> |r.value| == size && WellFormedScrambleAsWritten(r.value)
    ensures r.Some? ==> forall m :: m in r.value ==> IsMove(m)
  {
    if size == 0 {
      return Some([]);
    }
    if |draws| == 0 {
      return None;
    }
    assert |AllMoves| == 18 && draws[0] in draws;
    var scramble: seq<UInt32> := [AllMoves[draws[0]]];
    var next := 1;
    if size == 1 {
      return Some(scramble);
    }
    while true
      invariant 1 <= next <= |draws|
      decreases |draws| - next
    {
      if next == |draws| {
        return None;
      }
      assert draws[next] in draws;
      var nextMove := AllMoves[draws[next]];
      next := next + 1;
      if nextMove % 6 != scramble[0] % 6 {
        scramble := scramble + [nextMove];
        break;
      }
    }
    while |scramble| < size
      invariant 2 <= |scramble| <= size
      invariant 1 <= next <= |draws|
      invariant WellFormedScrambleAsWritten(scramble)
      invariant forall m :: m in scramble ==> IsMove(m)
      decreases |draws| - next
    {
      if next == |draws| {
        return None;
      }
      assert draws[next] in draws;
      var nextMove := AllMoves[draws[next]];
      next := next + 1;
      var i := |scramble|;
      if AcceptedAsWritten(scramble[i - 2], scramble[i - 1], nextMove) {
        scramble := scramble + [nextMove];
      }
    }
    return Some(scramble);
  }
}
