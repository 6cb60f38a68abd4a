/*
 * The solver: five reductions through the nested move groups
 *   <U, D, L, R, F, B> > <U, D, L, R, F> > <U, D, L, R> > <U, L, R> > <U, R> > <U> > {}.
 * The first three and the one-gen reduction search breadth-first from both ends at
 * once: a store of cubes grown from the (masked) start, and a store grown from the
 * target group's cubes, until a cube turns up in both; the path is then the start
 * side's moves followed by the inverse of the target side's moves.
 */
module Solver {
  import opened Wrappers
  import opened CubeState
  import opened MoveAlgebra
  import opened CubePieces
  import opened StageMasks
  import opened Store
  import opened TwoGenShortcutVectors

  /**
   * The outcome of a search: a path; a fault where the source would throw (an empty
   * queue, or a last move with no entry in the successor table); or the round budget
   * spent, where the source loops on without bound.
   */
  datatype SearchResult = Found(path: seq<UInt32>) | Fault | OutOfFuel

  // ---------------------------------------------------------------------------------
  // Stores rooted in a set of cubes
  // ---------------------------------------------------------------------------------

  /** `s` leads from one of `roots` to `b`. */
  ghost predicate Reaches(roots: set<Boards>, s: seq<UInt32>, b: Boards)
  {
    exists r :: r in roots && ApplySequence(r, s) == b
  }

  /** Every sequence a store remembers, and every queued cube's history, leads from a root to its cube. */
  ghost predicate Rooted(store: CubeStore, roots: set<Boards>)
    reads store
  {
    (forall b {:trigger Reaches(roots, store.contents[b], b)} :: b in store.contents ==> Reaches(roots, store.contents[b], b))
    && (forall i :: 0 <= i < |store.queue| ==> Reaches(roots, store.queue[i].sequence, store.queue[i].boards))
  }

  /** One more move extends a path from a root. */
  lemma ReachesStep(roots: set<Boards>, s: seq<UInt32>, b: Boards, m: UInt32)
    requires Reaches(roots, s, b)
    ensures Reaches(roots, s + [m], RotatedBitboards(b, m))
  {
    var r :| r in roots && ApplySequence(r, s) == b;
    ApplyLast(r, s, m);
  }

  /** A cube's history leads from its origin to it. */
  lemma ReachesFromOrigin(c: Cube)
    ensures Reaches({Origin(c)}, c.sequence, c.boards)
  {
    ReplayFromOrigin(c);
  }

  // ---------------------------------------------------------------------------------
  // Shared processes
  // ---------------------------------------------------------------------------------

  /** `s` is `prefix` and one more move, taken from `moves`. */
  predicate OneMoveAfter(prefix: seq<UInt32>, s: seq<UInt32>, moves: seq<UInt32>)
  {
    |s| == |prefix| + 1 && s[..|prefix|] == prefix && s[|prefix|] in moves
  }

  /** Every entry of `contents` is `prefix` and one more move from `moves`. */
  ghost predicate EntriesOneMoveAfter(contents: map<Boards, seq<UInt32>>, prefix: seq<UInt32>, moves: seq<UInt32>)
  {
    forall b :: b in contents ==> OneMoveAfter(prefix, contents[b], moves)
  }

  /**
   * The state of `GetInitialTargets` after its first `i` rounds: a valid store rooted in
   * the target's origin, whose entries are the target's history and one move of `moves`,
   * holding the target turned by each of the first `i` moves.
   */
  ghost predicate TargetsSoFar(store: CubeStore, target: Cube, moves: seq<UInt32>, i: nat)
    reads store
    requires i <= |moves|
  {
    store.Valid() && Rooted(store, {Origin(target)})
    && EntriesOneMoveAfter(store.contents, target.sequence, moves)
    && forall k :: 0 <= k < i ==> RotatedBitboards(target.boards, moves[k]) in store.contents
  }

  /**
   * `GetInitialTargets`: a store holding `target` turned by each move of `moves`,
   * each remembered with the target's history and that move.
   */
  method GetInitialTargets(target: Cube, moves: seq<UInt32>) returns (store: CubeStore)
    ensures fresh(store) && store.Valid()
    ensures forall k :: 0 <= k < |moves| ==> RotatedBitboards(target.boards, moves[k]) in store.contents
    ensures EntriesOneMoveAfter(store.contents, target.sequence, moves)
    ensures Rooted(store, {Origin(target)})
  {
    store := new CubeStore();
    for i := 0 to |moves|
      invariant TargetsSoFar(store, target, moves, i)
    {
      AddTurned(store, target, moves, i);
    }
  }

  /** One round of `GetInitialTargets`: the target turned by the `i`th move is added unless already there. */
  method AddTurned(store: CubeStore, target: Cube, moves: seq<UInt32>, i: nat)
    requires i < |moves| && TargetsSoFar(store, target, moves, i)
    modifies store
    ensures TargetsSoFar(store, target, moves, i + 1)
  {
    ghost var before := store.contents;
    var c := RotatedByMove(target, moves[i]);
    ReachesFromOrigin(target);
    ReachesStep({Origin(target)}, target.sequence, target.boards, moves[i]);
    AddRotated(store, c, Origin(target));
    TurnedTargetsStep(before, store.contents, target, moves, i);
  }

  /** `Add` of a cube one move on from a rooted one. */
  method AddRotated(store: CubeStore, c: Cube, ghost root: Boards)
    requires store.Valid() && Rooted(store, {root}) && Reaches({root}, c.sequence, c.boards)
    modifies store
    ensures store.Valid() && Rooted(store, {root})
    ensures store.contents == old(store.contents) || store.contents == old(store.contents)[c.boards := c.sequence]
    ensures c.boards in store.contents
  {
    var _ := store.Add(c);
  }

  /** The bookkeeping of one round of `GetInitialTargets`. */
  lemma TurnedTargetsStep(before: map<Boards, seq<UInt32>>, after: map<Boards, seq<UInt32>>, target: Cube,
                          moves: seq<UInt32>, i: nat)
    requires i < |moves|
    requires EntriesOneMoveAfter(before, target.sequence, moves)
    requires forall k :: 0 <= k < i ==> RotatedBitboards(target.boards, moves[k]) in before
    requires var t := RotatedBitboards(target.boards, moves[i]);
      t in after && (after == before || after == before[t := target.sequence + [moves[i]]])
    ensures EntriesOneMoveAfter(after, target.sequence, moves)
    ensures forall k :: 0 <= k < i + 1 ==> RotatedBitboards(target.boards, moves[k]) in after
  {
    assert OneMoveAfter(target.sequence, target.sequence + [moves[i]], moves);
  }

  /** `subsequentMoves[lastMove]`: `None` where the index is out of range or the entry is null. */
  function SuccessorsOf(table: seq<Option<seq<UInt32>>>, lastMove: UInt32): (r: Option<seq<UInt32>>)
    ensures r.Some? <==> lastMove < |table| && table[lastMove].Some?
  {
    if lastMove < |table| then table[lastMove] else None
  }

  /**
   * `GetPathFromCubeToList`: a path from `start` to one of the roots of `targetCubes`,
   * with at most `fuel` rounds of the source's `while (true)`.
   */
  method GetPathFromCubeToList(start: Cube, targetCubes: CubeStore, table: seq<Option<seq<UInt32>>>, fuel: nat,
                               ghost roots: set<Boards>)
    returns (r: SearchResult)
    requires targetCubes.Valid() && Rooted(targetCubes, roots)
    modifies targetCubes
    ensures r.Found? ==> ApplySequence(Origin(start), r.path) in roots
  {
    r := Search(start, targetCubes, table, None, fuel, roots);
  }

  /**
   * `GetTwoGenPathFromCubeToList`: as `GetPathFromCubeToList`, but a meeting cube only
   * ends the search when the unmasked `cube` turned by the merged path passes the
   * two-gen test; otherwise the search goes on.
   */
  method GetTwoGenPathFromCubeToList(cube: Cube, start: Cube, targetCubes: CubeStore, table: seq<Option<seq<UInt32>>>,
                                     fuel: nat, ghost roots: set<Boards>)
    returns (r: SearchResult)
    requires targetCubes.Valid() && Rooted(targetCubes, roots)
    modifies targetCubes
    ensures r.Found? ==> ApplySequence(Origin(start), r.path) in roots
    ensures r.Found? ==> TwoGen(ApplySequence(cube.boards, r.path))
  {
    r := Search(start, targetCubes, table, Some(cube), fuel, roots);
  }

  /** The loop both path searches share; `check` is the cube of the two-gen test, if any. */
  method Search(start: Cube, targetCubes: CubeStore, table: seq<Option<seq<UInt32>>>, check: Option<Cube>, fuel: nat,
                ghost roots: set<Boards>)
    returns (r: SearchResult)
    requires targetCubes.Valid() && Rooted(targetCubes, roots)
    modifies targetCubes
    ensures r.Found? ==> ApplySequence(Origin(start), r.path) in roots
    ensures r.Found? && check.Some? ==> TwoGen(ApplySequence(check.value.boards, r.path))
  {
    var startCubes := new CubeStore();
    ghost var startRoot := Origin(start);
    ReachesFromOrigin(start);
    var _ := startCubes.Add(start);
    var round := 0;
    while round < fuel
      invariant fresh(startCubes) && startCubes.Valid() && targetCubes.Valid()
      invariant Rooted(startCubes, {startRoot}) && Rooted(targetCubes, roots)
      decreases fuel - round
    {
      var current := DequeueRooted(startCubes, {startRoot});
      if current.None? {
        return Fault;
      }
      var moves := SuccessorsOf(table, current.value.lastMove);
      if moves.None? {
        return Fault;
      }
      var found := ExpandForwards(current.value, moves.value, startCubes, targetCubes, check, startRoot, roots);
      if found.Some? {
        return Found(found.value);
      }
      current := DequeueRooted(targetCubes, roots);
      if current.None? {
        return Fault;
      }
      moves := SuccessorsOf(table, current.value.lastMove);
      if moves.None? {
        return Fault;
      }
      found := ExpandBackwards(current.value, moves.value, startCubes, targetCubes, check, startRoot, roots);
      if found.Some? {
        return Found(found.value);
      }
      round := round + 1;
    }
    return OutOfFuel;
  }

  /** `Dequeue` on a rooted store: the front cube's history leads from a root. */
  method DequeueRooted(store: CubeStore, ghost roots: set<Boards>) returns (c: Option<Cube>)
    requires store.Valid() && Rooted(store, roots)
    modifies store
    ensures store.Valid() && Rooted(store, roots)
    ensures c.Some? ==> Reaches(roots, c.value.sequence, c.value.boards)
  {
    c := store.Dequeue();
  }

  /** The passes test of a merged path: always, or the two-gen test of `check` turned by it. */
  method Accepts(check: Option<Cube>, path: seq<UInt32>) returns (ok: bool)
    ensures ok <==> check.None? || TwoGen(ApplySequence(check.value.boards, path))
  {
    if check.None? {
      return true;
    }
    var turned := CleanRotatedBySequence(check.value, path);
    ok := IsTwoGenIfLeftBlock(turned);
  }

  /** One forward round: each successor of a start-side cube, checked against the target side. */
  method ExpandForwards(current: Cube, moves: seq<UInt32>, startCubes: CubeStore, targetCubes: CubeStore,
                        check: Option<Cube>, ghost startRoot: Boards, ghost roots: set<Boards>)
    returns (found: Option<seq<UInt32>>)
    requires startCubes != targetCubes && startCubes.Valid() && targetCubes.Valid()
    requires Rooted(startCubes, {startRoot}) && Rooted(targetCubes, roots)
    requires Reaches({startRoot}, current.sequence, current.boards)
    modifies startCubes
    ensures startCubes.Valid() && Rooted(startCubes, {startRoot})
    ensures found.Some? ==> ApplySequence(startRoot, found.value) in roots
    ensures found.Some? && check.Some? ==> TwoGen(ApplySequence(check.value.boards, found.value))
  {
    for i := 0 to |moves|
      invariant startCubes.Valid() && Rooted(startCubes, {startRoot})
    {
      found := ForwardStep(current, moves[i], startCubes, targetCubes, check, startRoot, roots);
      if found.Some? {
        return;
      }
    }
    return None;
  }

  /** The body of the forward loop for one move. */
  method ForwardStep(current: Cube, move: UInt32, startCubes: CubeStore, targetCubes: CubeStore,
                     check: Option<Cube>, ghost startRoot: Boards, ghost roots: set<Boards>)
    returns (found: Option<seq<UInt32>>)
    requires startCubes != targetCubes && startCubes.Valid() && targetCubes.Valid()
    requires Rooted(startCubes, {startRoot}) && Rooted(targetCubes, roots)
    requires Reaches({startRoot}, current.sequence, current.boards)
    modifies startCubes
    ensures startCubes.Valid() && Rooted(startCubes, {startRoot})
    ensures found.Some? ==> ApplySequence(startRoot, found.value) in roots
    ensures found.Some? && check.Some? ==> TwoGen(ApplySequence(check.value.boards, found.value))
  {
    var newCube := RotatedByMove(current, move);
    ReachesStep({startRoot}, current.sequence, current.boards, move);
    var added := AddRooted(startCubes, newCube, {startRoot});
    found := None;
    if added {
      found := MeetTargets(newCube, targetCubes, check, startRoot, roots);
    }
  }

  /** `Add` on a rooted store, with a cube whose history leads from a root. */
  method AddRooted(store: CubeStore, c: Cube, ghost roots: set<Boards>) returns (added: bool)
    requires store.Valid() && Rooted(store, roots) && Reaches(roots, c.sequence, c.boards)
    modifies store
    ensures store.Valid() && Rooted(store, roots)
    ensures added <==> c.boards !in old(store.contents)
    ensures c.boards in store.contents
  {
    added := store.Add(c);
  }

  /** A start-side cube just added, looked up on the target side. */
  method MeetTargets(newCube: Cube, targetCubes: CubeStore, check: Option<Cube>, ghost startRoot: Boards,
                     ghost roots: set<Boards>)
    returns (found: Option<seq<UInt32>>)
    requires targetCubes.Valid() && Rooted(targetCubes, roots)
    requires Reaches({startRoot}, newCube.sequence, newCube.boards)
    ensures found.Some? ==> ApplySequence(startRoot, found.value) in roots
    ensures found.Some? && check.Some? ==> TwoGen(ApplySequence(check.value.boards, found.value))
  {
    found := None;
    var contains := targetCubes.Contains(newCube);
    if contains {
      var backwards := targetCubes.GetSequenceOfEqualCube(newCube);
      var path := MergeSequences(newCube.sequence, backwards.value);
      ConnectAtMeeting({startRoot}, roots, newCube.sequence, backwards.value, newCube.boards);
      var ok := Accepts(check, path);
      if ok {
        found := Some(path);
      }
    }
  }

  /** One backward round: each successor of a target-side cube, checked against the start side. */
  method ExpandBackwards(current: Cube, moves: seq<UInt32>, startCubes: CubeStore, targetCubes: CubeStore,
                         check: Option<Cube>, ghost startRoot: Boards, ghost roots: set<Boards>)
    returns (found: Option<seq<UInt32>>)
    requires startCubes != targetCubes && startCubes.Valid() && targetCubes.Valid()
    requires Rooted(startCubes, {startRoot}) && Rooted(targetCubes, roots)
    requires Reaches(roots, current.sequence, current.boards)
    modifies targetCubes
    ensures targetCubes.Valid() && Rooted(targetCubes, roots)
    ensures found.Some? ==> ApplySequence(startRoot, found.value) in roots
    ensures found.Some? && check.Some? ==> TwoGen(ApplySequence(check.value.boards, found.value))
  {
    for i := 0 to |moves|
      invariant targetCubes.Valid() && Rooted(targetCubes, roots)
    {
      found := BackwardStep(current, moves[i], startCubes, targetCubes, check, startRoot, roots);
      if found.Some? {
        return;
      }
    }
    return None;
  }

  /** The body of the backward loop for one move. */
  method BackwardStep(current: Cube, move: UInt32, startCubes: CubeStore, targetCubes: CubeStore,
                      check: Option<Cube>, ghost startRoot: Boards, ghost roots: set<Boards>)
    returns (found: Option<seq<UInt32>>)
    requires startCubes != targetCubes && startCubes.Valid() && targetCubes.Valid()
    requires Rooted(startCubes, {startRoot}) && Rooted(targetCubes, roots)
    requires Reaches(roots, current.sequence, current.boards)
    modifies targetCubes
    ensures targetCubes.Valid() && Rooted(targetCubes, roots)
    ensures found.Some? ==> ApplySequence(startRoot, found.value) in roots
    ensures found.Some? && check.Some? ==> TwoGen(ApplySequence(check.value.boards, found.value))
  {
    var newCube := RotatedByMove(current, move);
    ReachesStep(roots, current.sequence, current.boards, move);
    var added := AddRooted(targetCubes, newCube, roots);
    found := None;
    if added {
      found := MeetStarts(newCube, startCubes, check, startRoot, roots);
    }
  }

  /** A target-side cube just added, looked up on the start side. */
  method MeetStarts(newCube: Cube, startCubes: CubeStore, check: Option<Cube>, ghost startRoot: Boards,
                    ghost roots: set<Boards>)
    returns (found: Option<seq<UInt32>>)
    requires startCubes.Valid() && Rooted(startCubes, {startRoot})
    requires Reaches(roots, newCube.sequence, newCube.boards)
    ensures found.Some? ==> ApplySequence(startRoot, found.value) in roots
    ensures found.Some? && check.Some? ==> TwoGen(ApplySequence(check.value.boards, found.value))
  {
    found := None;
    var contains := startCubes.Contains(newCube);
    if contains {
      var forwards := startCubes.GetSequenceOfEqualCube(newCube);
      var path := MergeSequences(forwards.value, newCube.sequence);
      ConnectAtMeeting({startRoot}, roots, forwards.value, newCube.sequence, newCube.boards);
      var ok := Accepts(check, path);
      if ok {
        found := Some(path);
      }
    }
  }

  /**
   * Where the two searches meet, the start side's path followed by the inverse of
   * the target side's path leads from the start to a target root.
   */
  lemma ConnectAtMeeting(starts: set<Boards>, roots: set<Boards>, forwards: seq<UInt32>, backwards: seq<UInt32>,
                         meeting: Boards)
    requires Reaches(starts, forwards, meeting) && Reaches(roots, backwards, meeting)
    ensures exists a :: a in starts && ApplySequence(a, forwards + InverseSequence(backwards)) in roots
  {
    var a :| a in starts && ApplySequence(a, forwards) == meeting;
    var z :| z in roots && ApplySequence(z, backwards) == meeting;
    MergedPathConnects(a, z, forwards, backwards);
  }

  /** A cube one move from a root, by the move a stored one-move sequence names, goes back by its inverse. */
  lemma OneMoveBack(root: Boards, s: seq<UInt32>, b: Boards)
    requires Reaches({root}, s, b) && |s| == 1
    ensures ApplySequence(b, [GetMoveInverse(s[0])]) == root
  {
    assert s == [s[0]];
    ApplySingle(root, s[0]);
    ApplySingle(b, GetMoveInverse(s[0]));
    MoveThenInverse(root, s[0]);
  }

  /** A cube without history is its own origin. */
  lemma OriginOfClean(c: Cube)
    requires c.sequence == []
    ensures Origin(c) == c.boards
  {
  }

  // ---------------------------------------------------------------------------------
  // The reductions
  // ---------------------------------------------------------------------------------

  /**
   * `GetFourGenSolution`: moves after which the cube's four-gen mask is the four-gen
   * target, so that F and B are no longer needed. The search draws only on the moves
   * of <U, D, L, R, F>; the contract does not restate that.
   */
  method GetFourGenSolution(cube: Cube, fuel: nat) returns (r: SearchResult)
    ensures r.Found? ==> ApplySequence(Masked(FourGenMask, cube.boards), r.path) == FourGenTarget
    ensures r == Found([]) <==> Masked(FourGenMask, cube.boards) == FourGenTarget
  {
    var start := GetFourGenMaskedCube(cube);
    r := ReduceMaskedCube(start, FourGenTarget, [6, 18], [1, 2, 3, 4, 6, 7, 8, 9, 10, 12, 13, 14, 15, 16, 18], fuel);
  }

  /**
   * `GetThreeGenSolution`: moves after which the cube's three-gen mask is the
   * three-gen target, so that D is no longer needed. The search draws only on the
   * moves of <U, D, L, R>; the contract does not restate that.
   */
  method GetThreeGenSolution(cube: Cube, fuel: nat) returns (r: SearchResult)
    ensures r.Found? ==> ApplySequence(Masked(ThreeGenMask, cube.boards), r.path) == ThreeGenTarget
    ensures r == Found([]) <==> Masked(ThreeGenMask, cube.boards) == ThreeGenTarget
  {
    var start := GetThreeGenMaskedCube(cube);
    r := ReduceMaskedCube(start, ThreeGenTarget, [2, 8, 14], [1, 2, 3, 4, 7, 8, 9, 10, 13, 14, 15, 16], fuel);
  }

  /**
   * The steps the four-gen and three-gen reductions share: nothing when the masked
   * start is the target; the inverse of the stored move when it is one target move
   * away; otherwise a search from the start to the target's one-move neighbours.
   */
  method ReduceMaskedCube(start: Cube, target: Boards, targetMoves: seq<UInt32>, moves: seq<UInt32>, fuel: nat)
    returns (r: SearchResult)
    requires start.sequence == [] && NoWrap(moves)
    ensures r.Found? ==> ApplySequence(start.boards, r.path) == target
    ensures r == Found([]) <==> start.boards == target
  {
    var targetCube := FromBoards(target);
    if Equals(start, targetCube) {
      return Found([]);
    }
    var targetCubes := GetInitialTargets(targetCube, targetMoves);
    OriginOfClean(targetCube);
    var contains := targetCubes.Contains(start);
    if contains {
      var s := targetCubes.GetSequenceOfEqualCube(start);
      OneMoveBack(target, s.value, start.boards);
      return Found([GetMoveInverse(s.value[0])]);
    }
    var table := GetSubsequentMoves(moves);
    r := GetPathFromCubeToList(start, targetCubes, table, fuel, {target});
    OriginOfClean(start);
  }

  /**
   * `GetTwoGenSolution`: moves after which the cube's two-gen mask is the two-gen
   * target and the cube passes the two-gen test, so that L is no longer needed. The
   * search draws only on the moves of <U, L, R>; the contract does not restate that.
   * The one-move shortcut is taken as written, and never fires.
   */
  method GetTwoGenSolution(cube: Cube, fuel: nat) returns (r: SearchResult)
    ensures r.Found? ==> ApplySequence(Masked(TwoGenMask, cube.boards), r.path) == TwoGenTarget
    ensures r.Found? ==> TwoGen(ApplySequence(cube.boards, r.path))
    ensures r == Found([]) <==> Masked(TwoGenMask, cube.boards) == TwoGenTarget && TwoGen(cube.boards)
  {
    var target := FromBoards(TwoGenTarget);
    var start := GetTwoGenMaskedCube(cube);
    if Equals(start, target) {
      var solved := IsTwoGenIfLeftBlock(cube);
      if solved {
        return Found([]);
      }
    }
    var targetCubes := GetInitialTargets(target, [3, 9, 15]);
    OriginOfClean(target);
    var inverse := TryTwoGenShortcutAsWritten(start, targetCubes);
    if inverse.Some? {
      StoredShortcutNeverFires(targetCubes, start.boards);
      assert false;
    }
    var table := GetSubsequentMoves([1, 3, 4, 7, 9, 10, 13, 15, 16]);
    r := GetTwoGenPathFromCubeToList(cube, start, targetCubes, table, fuel, {TwoGenTarget});
    OriginOfClean(start);
  }

  /**
   * The one-move shortcut of `GetTwoGenSolution` as written: when the masked start is
   * one of the target's neighbours, the inverse of the stored move, provided the masked
   * start turned by the stored move itself passes the two-gen test.
   */
  method TryTwoGenShortcutAsWritten(start: Cube, targetCubes: CubeStore) returns (inverse: Option<UInt32>)
    requires targetCubes.Valid() && Rooted(targetCubes, {TwoGenTarget})
    requires EntriesOneMoveAfter(targetCubes.contents, [], [3, 9, 15])
    ensures inverse.Some? ==> ApplySequence(start.boards, [inverse.value]) == TwoGenTarget
    ensures inverse.Some? <==>
      (start.boards in targetCubes.contents && TwoGenShortcutAsWritten(start.boards, targetCubes.contents[start.boards][0]))
  {
    inverse := None;
    var contains := targetCubes.Contains(start);
    if contains {
      var s := targetCubes.GetSequenceOfEqualCube(start);
      var ok := IsTwoGenIfLeftBlock(RotatedByMove(start, s.value[0]));
      if ok {
        OneMoveBack(TwoGenTarget, s.value, start.boards);
        inverse := Some(GetMoveInverse(s.value[0]));
      }
    }
  }

  /**
   * No cube of the two-gen target store passes the shortcut as written: each is the
   * target turned by L, L2 or L', and turning it by that move again is never two-gen.
   */
  lemma StoredShortcutNeverFires(targetCubes: CubeStore, b: Boards)
    requires Rooted(targetCubes, {TwoGenTarget})
    requires EntriesOneMoveAfter(targetCubes.contents, [], [3, 9, 15])
    requires b in targetCubes.contents
    ensures !TwoGenShortcutAsWritten(b, targetCubes.contents[b][0])
  {
    var s := targetCubes.contents[b];
    assert Reaches({TwoGenTarget}, s, b);
    assert OneMoveAfter([], s, [3, 9, 15]);
    assert s == [s[0]];
    ApplySingle(TwoGenTarget, s[0]);
    AsWrittenShortcutNeverFires(s[0]);
  }

  /**
   * The one-move shortcut as evidently intended: when the masked start is one of the
   * target's neighbours, the inverse of the stored move, provided the cube turned by
   * it passes the two-gen test.
   */
  method TryTwoGenShortcut(cube: Cube, start: Cube, targetCubes: CubeStore) returns (inverse: Option<UInt32>)
    requires targetCubes.Valid() && Rooted(targetCubes, {TwoGenTarget})
    requires EntriesOneMoveAfter(targetCubes.contents, [], [3, 9, 15])
    ensures inverse.Some? ==> ApplySequence(start.boards, [inverse.value]) == TwoGenTarget
    ensures inverse.Some? ==> TwoGen(ApplySequence(cube.boards, [inverse.value]))
    ensures inverse.Some? <==>
      (start.boards in targetCubes.contents && TwoGenShortcut(cube.boards, targetCubes.contents[start.boards][0]))
  {
    inverse := None;
    var contains := targetCubes.Contains(start);
    if contains {
      var s := targetCubes.GetSequenceOfEqualCube(start);
      var m := GetMoveInverse(s.value[0]);
      var ok := IsTwoGenIfLeftBlock(RotatedByMove(cube, m));
      if ok {
        OneMoveBack(TwoGenTarget, s.value, start.boards);
        inverse := Some(m);
      }
    }
  }

  /** The cubes of <U>: the solved cube and its three U turns. */
  const OneGenTargets: set<Boards> :=
    {Solved, RotatedBitboards(Solved, 1), RotatedBitboards(Solved, 7), RotatedBitboards(Solved, 13)}

  /** Every entry of a store was added without history. */
  ghost predicate NoHistory(store: CubeStore)
    reads store
  {
    forall b :: b in store.contents ==> store.contents[b] == []
  }

  /**
   * `GetOneGenSolution`: moves after which the cube is solved up to one U turn;
   * nothing when it already is. The search draws only on the moves of <U, R>; the
   * contract does not restate that.
   */
  method GetOneGenSolution(cube: Cube, fuel: nat) returns (r: SearchResult)
    ensures r.Found? ==> ApplySequence(cube.boards, r.path) in OneGenTargets
    ensures r == Found([]) <==> cube.boards in OneGenTargets
  {
    var target := NewCube();
    var start := CleanCopy(cube);
    if Equals(start, target) {
      return Found([]);
    }
    var targetCubes := GetOneGenTargets(target);
    var contains := targetCubes.Contains(start);
    if contains {
      ReachesNothing(OneGenTargets, start.boards);
      return Found([]);
    }
    var table := GetSubsequentMoves([1, 7, 13, 4, 10, 16]);
    r := GetPathFromCubeToList(start, targetCubes, table, fuel, OneGenTargets);
    OriginOfClean(start);
  }

  /**
   * The target store of `GetOneGenSolution`: the solved cube turned by U, U2 and U',
   * each without history but with its last move, then the solved cube itself.
   */
  method GetOneGenTargets(target: Cube) returns (targetCubes: CubeStore)
    requires target == NewCube()
    ensures fresh(targetCubes) && targetCubes.Valid()
    ensures Rooted(targetCubes, OneGenTargets) && NoHistory(targetCubes)
    ensures forall b :: b in OneGenTargets ==> b in targetCubes.contents
  {
    targetCubes := new CubeStore();
    var targetMoves: seq<UInt32> := [1, 7, 13];
    for i := 0 to |targetMoves|
      invariant fresh(targetCubes) && targetCubes.Valid()
      invariant Rooted(targetCubes, OneGenTargets) && NoHistory(targetCubes)
      invariant forall k :: 0 <= k < i ==> RotatedBitboards(Solved, targetMoves[k]) in targetCubes.contents
    {
      ApplySingle(Solved, targetMoves[i]);
      AddOneGenTarget(targetCubes, RotatedWithLastMove(target, targetMoves[i]));
    }
    AddOneGenTarget(targetCubes, target);
    OneGenTargetsIn(targetCubes.contents, RotatedBitboards(Solved, targetMoves[0]),
                    RotatedBitboards(Solved, targetMoves[1]), RotatedBitboards(Solved, targetMoves[2]));
  }

  /** A map holding the solved cube and its three U turns holds every cube of <U>. */
  lemma OneGenTargetsIn(contents: map<Boards, seq<UInt32>>, u1: Boards, u2: Boards, u3: Boards)
    requires u1 == RotatedBitboards(Solved, 1) && u2 == RotatedBitboards(Solved, 7) && u3 == RotatedBitboards(Solved, 13)
    requires Solved in contents && u1 in contents && u2 in contents && u3 in contents
    ensures forall b :: b in OneGenTargets ==> b in contents
  {
  }

  /** One `Add` of `GetOneGenSolution`: a one-gen cube without history. */
  method AddOneGenTarget(store: CubeStore, c: Cube)
    requires store.Valid() && Rooted(store, OneGenTargets) && NoHistory(store)
    requires c.boards in OneGenTargets && c.sequence == []
    modifies store
    ensures store.Valid() && Rooted(store, OneGenTargets) && NoHistory(store)
    ensures c.boards in store.contents
    ensures forall b :: b in old(store.contents) ==> b in store.contents
  {
    ReachesNothing(OneGenTargets, c.boards);
    var _ := store.Add(c);
  }

  /** The empty sequence reaches exactly the roots. */
  lemma ReachesNothing(roots: set<Boards>, b: Boards)
    ensures Reaches(roots, [], b) <==> b in roots
  {
    if b in roots {
      assert ApplySequence(b, []) == b;
    }
  }

  /**
   * `GetZeroGenSolution`: nothing for the solved cube, the first of U, U2, U' that
   * solves it, or nothing when none does.
   */
  method GetZeroGenSolution(cube: Cube) returns (r: seq<UInt32>)
    ensures r == [] || (|r| == 1 && r[0] in [1, 7, 13] && ApplySequence(cube.boards, r) == Solved)
    ensures r == [] && cube.boards != Solved ==> forall m :: m in [1, 7, 13] ==> RotatedBitboards(cube.boards, m) != Solved
    ensures cube.boards in OneGenTargets ==> ApplySequence(cube.boards, r) == Solved
    ensures cube.boards == Solved ==> r == []
  {
    var target := NewCube();
    var start := CleanCopy(cube);
    if Equals(start, target) {
      return [];
    }
    var moves: seq<UInt32> := [1, 7, 13];
    for i := 0 to |moves|
      invariant forall k :: 0 <= k < i ==> RotatedBitboards(cube.boards, moves[k]) != Solved
    {
      if Equals(RotatedByMove(start, moves[i]), target) {
        return [moves[i]];
      }
    }
    if cube.boards in OneGenTargets {
      OneGenTargetsAreOneUTurnFromSolved(cube.boards);
    }
    return [];
  }

  /** Each U turn of the solved cube is undone by a U turn. */
  lemma OneGenTargetsAreOneUTurnFromSolved(b: Boards)
    requires b in OneGenTargets && b != Solved
    ensures exists m :: m in [1, 7, 13] && RotatedBitboards(b, m) == Solved
  {
    if b == RotatedBitboards(Solved, 1) {
      MoveThenInverse(Solved, 1);
    } else if b == RotatedBitboards(Solved, 7) {
      MoveThenInverse(Solved, 7);
    } else {
      MoveThenInverse(Solved, 13);
    }
  }
}
