# Rubik's cube solver, modelled in Dafny

This project models the solving core of a Rubik's cube solver written in C#. The
core has four parts.

- **The cube** (`Cube.cs`). A cube is six 32-bit words, one per face in the order
  U, D, L, R, B, F. Each word holds eight 4-bit stickers. The two colour bits give
  the sticker's face, and the colours are U = 12, D = 10, L = 3, R = 5, B = 9 and
  F = 6. The rest of the cube is:
  - a history of move codes and the last move;
  - the 18 face turns, as word recipes (codes 1..6 are U D L R B F, 7..12 the half
    turns, 13..18 the anticlockwise turns);
  - lookups of an edge sticker's partner, a corner sticker's clockwise neighbour
    and a corner's position;
  - the two-generator test, `IsTwoGenIfLeftBlock`.
- **The solver** (`CubeSolver.cs`). It reduces a scrambled cube through the nested
  groups <U,D,L,R,F,B> > <U,D,L,R,F> > <U,D,L,R> > <U,L,R> > <U,R> > <U> > {}.
  - Each of the first stages masks the cube down to the stickers that matter and
    searches breadth-first from both ends at once, over two stores.
  - The search joins the two half paths with `MergeSequences`.
  - The solver also generates scrambles and the "which move may follow which" table
    that prunes the search.
- **The store** (`CubeStore.cs`). This is a FIFO queue of cubes plus a trie. The trie
  is keyed by the six words in a fixed face order, and it remembers the first
  sequence seen for each distinct cube.
- **The translator** (`Translator.cs`). It turns move codes into standard notation
  ("U", "R2", "F'") and joins them into a line of text.

How each part is modelled:

- **Words and turns.** A cube's words are a datatype `Boards` of six `bv32`
  fields. Each turn recipe is a function on `Boards`, and `RotateBitboard` keeps
  C#'s masking of shift counts to 5 bits.
- **Cubes.** The source's `Cube` objects are only ever mutated while they are
  fresh, so they are values (`Cube`). The methods that loop in the source are
  methods with loops here, proved against functions:
  - `CleanRotatedBySequence`;
  - the mask builders;
  - the corner scans;
  - `IsTwoGenIfLeftBlock`;
  - `MergeSequences`, `GetSubsequentMoves` and `NumIndexesNeeded`;
  - `GetScramble`;
  - the translator's loops.
- **The store.** `CubeStore` is a class with a queue field and a trie field, and a
  ghost map `contents` that says what the trie means. The trie nodes are values;
  `NodeAdd` and `TreeAdd` return the new node together with the "was it new" flag.
- **Search correctness.** Every stored sequence and every queued history leads from
  a root of its store to its cube (`Rooted`). From that, a merged path provably
  takes the start to a target.

## Model

| member | source | states |
|---|---|---|
| CubeState.RotatedBitboards | final-version/Assets/Solver/Cube.cs:118-167 | a code outside 1..18 leaves the words unchanged; a move rotates the turned face's word right by 8, 16 or 24 bits and leaves the opposite face's word as it was |
| CubeState.NewCube | final-version/Assets/Solver/Cube.cs:15-23 | the new cube is solved, with no history and last move 0 |
| CubeState.FromBoards | final-version/Assets/Solver/Cube.cs:25-33 | a cube built from words holds exactly those words, with no history |
| CubeState.CleanCopy | final-version/Assets/Solver/Cube.cs:49-52 | the copy has the same words and no history |
| CubeState.RotatedByMove | final-version/Assets/Solver/Cube.cs:35-45 | the words after the move, the history extended by the move, and the move as last move (also Cube.cs lines 110-114) |
| CubeState.RotatedWithLastMove | final-version/Assets/Solver/Cube.cs:99-108 | the words after the move, an empty history, and the move as last move |
| CubeState.Equals | final-version/Assets/Solver/Cube.cs:1032-1036 | two cubes are equal exactly when their six words are, whatever their histories |
| CubeState.CleanRotatedBySequence | final-version/Assets/Solver/Cube.cs:57-71 | the loop's cube is the clean cube of the words after the whole sequence |
| CubeState.RotatedBySequence | final-version/Assets/Solver/Cube.cs:73-97 | the words after the sequence; the history extended by the sequence and its last move recorded, but only for a non-empty sequence |
| CubeState.ApplyAppend | final-version/Assets/Solver/Cube.cs:63-67 | running `s + t` is running `s`, then `t` |
| CubeState.ApplyLast | final-version/Assets/Solver/Cube.cs:63-67 | running a sequence and one more move is one more turn of the result |
| CubeState.RotateBitboardIsRotateRight | final-version/Assets/Solver/Cube.cs:1176-1181 | the rotation is a right rotation for 8, 16 and 24, and the identity for 0 |
| CubeState.KeepingHistoryIsMoveByMove | final-version/Assets/Solver/Cube.cs:73-97 | the corrected rotation by a sequence is the same as rotating move by move, history included |
| CubeState.RotatedBySequenceDropsHistory | final-version/Assets/Solver/Cube.cs:80-93 | after U, the source's rotation by an empty sequence forgets the U, while the corrected one keeps it |
| CubeState.RotatedBySequenceAgreesWhenNonEmpty | final-version/Assets/Solver/Cube.cs:80-93 | for a non-empty sequence the source's rotation equals the corrected one |
| CubeState.UpTurnsOfSolved | final-version/Assets/Tests/EditMode/CubeTests.cs:98-120 | U, U2 and U' of the solved cube give the words the tests list |
| CubeState.DownTurnsOfSolved | final-version/Assets/Tests/EditMode/CubeTests.cs:122-144 | D, D2 and D' of the solved cube give the listed words |
| CubeState.LeftTurnsOfSolved | final-version/Assets/Tests/EditMode/CubeTests.cs:146-168 | L, L2 and L' of the solved cube give the listed words |
| CubeState.RightTurnsOfSolved | final-version/Assets/Tests/EditMode/CubeTests.cs:170-192 | R, R2 and R' of the solved cube give the listed words |
| CubeState.BackTurnsOfSolved | final-version/Assets/Tests/EditMode/CubeTests.cs:194-216 | B, B2 and B' of the solved cube give the listed words |
| CubeState.FrontTurnsOfSolved | final-version/Assets/Tests/EditMode/CubeTests.cs:218-240 | F, F2 and F' of the solved cube give the listed words |
| CubeState.UpAntiThriceIsQuarter | final-version/Assets/Tests/EditMode/CubeTests.cs:48-58 | U' three times is U, for every cube |
| CubeState.EqualsIgnoresHistory | final-version/Assets/Tests/EditMode/CubeTests.cs:276-287 | U and U'U'U' of the solved cube are equal, though their histories differ |
| CubePieces.GetRelatedEdge | final-version/Assets/Solver/Cube.cs:598-693 | the partner sticker of an edge address is a nibble; any address that is not an edge gives 0 |
| CubePieces.EdgeStickersPairUp | final-version/Assets/Solver/Cube.cs:598-693 | exactly the 24 edge addresses have a partner, on another face, and the partner's partner is the address itself |
| CubePieces.GetClockwiseRelatedCorner | final-version/Assets/Solver/Cube.cs:695-786 | the clockwise neighbour of a corner address is a nibble; any address that is not a corner gives 0 |
| CubePieces.CornerStickersCycle | final-version/Assets/Solver/Cube.cs:695-786 | exactly the 24 corner addresses have a clockwise neighbour; three steps, over three different faces, return to the start |
| CubePieces.GetCornerPosition | final-version/Assets/Solver/Cube.cs:788-831 | the position id is at most 8 |
| CubePieces.CornerPositionOfPiece | final-version/Assets/Solver/Cube.cs:788-831 | every corner address has an id in 1..8, shared with its clockwise neighbour |
| CubePieces.SamePositionSamePiece | final-version/Assets/Solver/Cube.cs:788-831 | two corner addresses share an id only if they are stickers of the same piece, so no id covers more than one piece's three addresses |
| CubePieces.EveryPositionHasACorner | final-version/Assets/Solver/Cube.cs:788-831 | every id 1..8 is the position of some corner address; with the two lemmas above, each id covers exactly the three stickers of one piece |
| CubePieces.NonCornerAddressWithId | final-version/Assets/Solver/Cube.cs:790-829 | the id depends only on face + shift: the B edge address at offset 0 gets the same id as the U corner at offset 4 |
| CubePieces.InsertMoves | final-version/Assets/Solver/Cube.cs:934-954 | every insertion recipe turns only U and R (also Cube.cs lines 977-1001) |
| CubePieces.PermutedDCornersTurnsOnlyUAndR | final-version/Assets/Solver/Cube.cs:910-1008 | the corner scans reach their outcome by U and R turns alone |
| CubePieces.ScanLeavesAlone | final-version/Assets/Solver/Cube.cs:920-958 | a cube with no D sticker on a corner passes through both scans unchanged |
| CubePieces.ScanDCorners | final-version/Assets/Solver/Cube.cs:920-958 | the nested face and corner loops compute the scan function over all six faces (also Cube.cs lines 962-1004) |
| CubePieces.ScanFaceCorners | final-version/Assets/Solver/Cube.cs:922-957 | the inner loop visits the face's four corners in order |
| CubePieces.VisitCorner | final-version/Assets/Solver/Cube.cs:925-955 | one step inserts the corner when it is a D sticker with the given clockwise neighbour, and otherwise leaves the cube alone |
| CubePieces.PermutedDCornersOutcome | final-version/Assets/Solver/Cube.cs:910-1008 | the outcome is the clean cube of both scans applied to the words |
| CubePieces.RotationsOfDesired | final-version/Assets/Solver/Cube.cs:897-905 | some rotation by 0, 8, 16 or 24 bits of the U-corner word equals 0x30905060 exactly when the word is one of its four rotations |
| CubePieces.IsTwoGenIfLeftBlock | final-version/Assets/Solver/Cube.cs:833-908 | the method's answer is the two-generator predicate on the cube's words |
| CubePieces.UCornerWordOf | final-version/Assets/Solver/Cube.cs:847-892 | the loop over the four U corners builds the U-corner word |
| CubePieces.AddCorner | final-version/Assets/Solver/Cube.cs:854-891 | one round adds the corner's contribution: its neighbour when it shows U, itself when no neighbour shows U, and the fixed colour of the third sticker otherwise |
| MoveAlgebra.GetMoveInverse | final-version/Assets/Solver/CubeSolver.cs:395-407 | quarter turns map to anticlockwise turns and back, half turns to themselves, and 0 or any code above 18 to 0 |
| MoveAlgebra.InverseIsInvolution | final-version/Assets/Solver/CubeSolver.cs:395-407 | the inverse of the inverse is the move, for codes 0..18 |
| MoveAlgebra.InverseSequence | final-version/Assets/Solver/CubeSolver.cs:379-384 | the undoing sequence has the same length and holds the inverses, last move first |
| MoveAlgebra.MoveThenInverse | final-version/Assets/Solver/CubeSolver.cs:395-407 | any move followed by its inverse restores all six words |
| MoveAlgebra.InverseThenMove | final-version/Assets/Solver/CubeSolver.cs:395-407 | any move's inverse followed by the move restores all six words |
| MoveAlgebra.UndoSequence | final-version/Assets/Solver/CubeSolver.cs:365-391 | any sequence followed by its undoing sequence restores the cube |
| MoveAlgebra.RedoSequence | final-version/Assets/Solver/CubeSolver.cs:365-391 | the undoing sequence followed by the sequence restores the cube |
| MoveAlgebra.MergeSequences | final-version/Assets/Solver/CubeSolver.cs:365-391 | the merged path is the forward half followed by the inverses of the backward half, last first |
| MoveAlgebra.MergedPathConnects | final-version/Assets/Solver/CubeSolver.cs:340-343 | when the two halves meet at a cube, the merged path takes the start to the target (also CubeSolver.cs lines 353-357) |
| MoveAlgebra.MergeExample | final-version/Assets/Tests/EditMode/CubeSolverTests.cs:172-181 | [1,2,3] merged with [18,17,16] is [1,2,3,4,5,6] |
| MoveAlgebra.SuccessorsAreFollowers | final-version/Assets/Solver/CubeSolver.cs:492-500 | the successors of a move are exactly the codes of the list that may follow it, and there are no more of them than codes |
| MoveAlgebra.MaxOf | final-version/Assets/Solver/CubeSolver.cs:529-535 | the result is an element of the list and no element exceeds it |
| MoveAlgebra.NumIndexesNeeded | final-version/Assets/Solver/CubeSolver.cs:522-539 | 1 for no codes, otherwise one more than the largest code, wrapping at 2^32 as `uint` does |
| MoveAlgebra.NumIndexesExample | final-version/Assets/Tests/EditMode/CubeSolverTests.cs:222-229 | the codes 2,5,5,8,9,0,7 need a table of 10 entries |
| MoveAlgebra.GetSubsequentMoves | final-version/Assets/Solver/CubeSolver.cs:473-520 | the table has one entry per code up to the largest; entry 0 lists all the codes, the entry of each listed code lists in order the codes that may follow it, and every other entry is empty |
| MoveAlgebra.SubsequentOf | final-version/Assets/Solver/CubeSolver.cs:489-510 | the inner loop collects the successors of the move |
| MoveAlgebra.SuccessorsExample | final-version/Assets/Tests/EditMode/CubeSolverTests.cs:194-220 | for the codes 1,2,3: 1 may be followed by 2 and 3, 2 by 3, and 3 by 1 and 2 |
| MoveAlgebra.FrontAndBackNeverPruned | final-version/Assets/Solver/CubeSolver.cs:496 | an F-class code and a B-class code may always follow each other |
| MoveAlgebra.WellFormedScrambleHasNoCancellingTriple | final-version/Assets/Solver/CubeSolver.cs:452-459 | in an accepted scramble consecutive moves turn different faces, and no move returns to the face turned two moves back across the opposite face in between (also CubeSolver.cs line 437) |
| MoveAlgebra.AsWrittenAcceptsCancellingTriple | final-version/Assets/Solver/CubeSolver.cs:458-459 | the rule as written accepts L R L', which the corrected rule refuses |
| MoveAlgebra.GetScramble | final-version/Assets/Solver/CubeSolver.cs:409-471 | size 0 gives the empty scramble; any scramble returned has the requested length, consists of real moves, and every move from the third on passes the acceptance rule as written at lines 455-459 |
| MoveAlgebra.AsWrittenNeighboursDiffer | final-version/Assets/Solver/CubeSolver.cs:452-459 | even under the rule as written, consecutive moves of a scramble turn different faces |
| MoveAlgebra.AsWrittenAgreesOnQuarterTurns | final-version/Assets/Solver/CubeSolver.cs:458-459 | for a next move below 6 (a quarter turn of U, D, L, R or B) the rule as written accepts exactly what the class-to-class rule accepts |
| StageMasks.GetFourGenMaskedCube | final-version/Assets/Solver/CubeSolver.cs:41-70 | the clean cube of the four-gen mask of the words |
| StageMasks.GetThreeGenMaskedCube | final-version/Assets/Solver/CubeSolver.cs:99-123 | the clean cube of the three-gen mask of the words |
| StageMasks.GetTwoGenMaskedCube | final-version/Assets/Solver/CubeSolver.cs:151-187 | the clean cube of the two-gen mask of the words |
| StageMasks.AddFourGenEdge | final-version/Assets/Solver/CubeSolver.cs:57-64 | one round marks the edge with 0xF when it is a U or D sticker, or an F or B sticker whose partner is not U or D |
| StageMasks.AddThreeGenEdge | final-version/Assets/Solver/CubeSolver.cs:109-116 | one round copies the edge when it is an F or B sticker whose partner is D |
| StageMasks.AddTwoGenEdge | final-version/Assets/Solver/CubeSolver.cs:161-169 | one round copies the edge when it is not U and its partner is L |
| StageMasks.AddTwoGenCorner | final-version/Assets/Solver/CubeSolver.cs:172-181 | one round copies the corner when it is the DBL corner seen from B or the DFL corner seen from F |
| StageMasks.NibbleOfFaceMask | final-version/Assets/Solver/CubeSolver.cs:51-66 | after `j` rounds each nibble of a face word below offset 8j is the sticker the mask keeps there, and every nibble above is blank (also CubeSolver.cs lines 105-119 and 157-183) |
| StageMasks.MaskedSticker | final-version/Assets/Solver/CubeSolver.cs:41-187 | sticker by sticker, each mask holds the kept sticker (or the 0xF marker) and blanks the rest |
| StageMasks.EdgeOnlyMasks | final-version/Assets/Solver/CubeSolver.cs:51-66 | the four-gen and three-gen masks leave every corner nibble blank (also CubeSolver.cs lines 105-119) |
| MaskVectors.FourGenMaskOfSolved | final-version/Assets/Tests/EditMode/CubeSolverTests.cs:14-24 | the four-gen mask of the solved cube is {0xF0F0F0F, 0xF0F0F0F, 0, 0, 0xF000F, 0xF000F}, the four-gen target |
| MaskVectors.ThreeGenMaskOfSolved | final-version/Assets/Tests/EditMode/CubeSolverTests.cs:26-36 | the three-gen mask of the solved cube is {0, 0, 0, 0, 0x900, 0x600}, the three-gen target |
| MaskVectors.TwoGenMaskOfSolved | final-version/Assets/Tests/EditMode/CubeSolverTests.cs:38-48 | the two-gen mask of the solved cube is {0, 0xA, 0, 0, 0x99000, 0x66}, the two-gen target |
| TwoGenVectors.TwoGenOfSolved | final-version/Assets/Tests/EditMode/CubeTests.cs:244-249 | the solved cube passes the two-generator test |
| TwoGenVectors.UCornerWordOfSolved | final-version/Assets/Solver/Cube.cs:847-897 | the solved cube's U-corner word after both scans is exactly 0x30905060 |
| TwoGenVectors.ScrambledByTestSequence | final-version/Assets/Tests/EditMode/CubeTests.cs:251-256 | the moves 4,13,16,1,16,13,3 from solved give the words listed |
| TwoGenVectors.NotTwoGenAfterTestSequence | final-version/Assets/Tests/EditMode/CubeTests.cs:251-259 | after 4,13,16,1,16,13,3 the cube fails the two-generator test |
| TwoGenShortcutVectors.NotTwoGenWithoutDCorners | final-version/Assets/Solver/Cube.cs:842-907 | a cube with no D sticker on any corner and a blank U-corner word fails the two-generator test |
| TwoGenShortcutVectors.AsWrittenShortcutNeverFires | final-version/Assets/Solver/CubeSolver.cs:140-143 | for the stored moves L, L2 and L', the shortcut as written turns the target's neighbour further away and never passes the test |
| TwoGenShortcutVectors.ShortcutOnSolvedAfterL | final-version/Assets/Solver/CubeSolver.cs:140-143 | for the solved cube after L, the masked start is stored under L: the check as written fails, while the corrected check passes |
| Store.RelevantIndex | final-version/Assets/Solver/CubeStore.cs:194-215 | tiers 0..5 name a face and every other tier fails |
| Store.RelevantIndexIsPermutation | final-version/Assets/Solver/CubeStore.cs:194-215 | tiers 0..5 name six different faces, and every face is named, so the trie key covers all six words |
| Store.AgreeEverywhereIsEquality | final-version/Assets/Solver/CubeStore.cs:162-178 | agreeing on the words of every tier is equality of cubes |
| Store.NodeNew | final-version/Assets/Solver/CubeStore.cs:109-130 | a new chain holds exactly the cubes that agree with its cube from its tier on, each with the given sequence |
| Store.NodeAdd | final-version/Assets/Solver/CubeStore.cs:132-160 | adding reports whether the cube was new; an old cube changes nothing, a new cube is added with its sequence, and no other entry changes |
| Store.TreeAdd | final-version/Assets/Solver/CubeStore.cs:68-83 | the trie afterwards holds the old cubes plus this one; old sequences are kept and a new cube's is the given one |
| Store.EqualityIsAgreement | final-version/Assets/Solver/CubeStore.cs:85-93 | matching the first key and agreeing from tier 1 on is equality of cubes |
| Store.CubeStore.constructor | final-version/Assets/Solver/CubeStore.cs:13-18 | a fresh store has an empty queue and contains nothing |
| Store.CubeStore.Add | final-version/Assets/Solver/CubeStore.cs:20-33 | returns true exactly when no equal cube was stored; then the cube is enqueued at the back with its sequence; otherwise nothing changes |
| Store.CubeStore.Dequeue | final-version/Assets/Solver/CubeStore.cs:35-42 | returns the front cube and removes it, FIFO; nothing for an empty queue; the contents never change |
| Store.CubeStore.Contains | final-version/Assets/Solver/CubeStore.cs:44-48 | true exactly when a cube with equal words was added |
| Store.CubeStore.GetSequenceOfEqualCube | final-version/Assets/Solver/CubeStore.cs:50-56 | the sequence of the first added cube with equal words; nothing when there is none |
| Solver.ReachesStep | final-version/Assets/Solver/CubeSolver.cs:337 | one more move extends a path from a root to the turned cube |
| Solver.GetInitialTargets | final-version/Assets/Solver/CubeSolver.cs:303-316 | the store holds the target turned by each move, each remembered as the target's history plus that move, all leading from the target's origin |
| Solver.GetPathFromCubeToList | final-version/Assets/Solver/CubeSolver.cs:318-363 | a path found takes the start's origin to one of the target store's roots |
| Solver.GetTwoGenPathFromCubeToList | final-version/Assets/Solver/CubeSolver.cs:189-233 | a path found reaches a root, and the cube turned by it passes the two-generator test |
| Solver.Search | final-version/Assets/Solver/CubeSolver.cs:197-231 | the shared loop alternates a forward and a backward round; any path it returns reaches a root and passes the optional check (also CubeSolver.cs lines 326-361) |
| Solver.DequeueRooted | final-version/Assets/Solver/CubeSolver.cs:200 | a dequeued cube's history leads from a root to it (also CubeSolver.cs line 330) |
| Solver.Accepts | final-version/Assets/Solver/CubeSolver.cs:212 | a candidate path is accepted exactly when there is no check or the checked cube turned by it passes the test (also CubeSolver.cs line 226) |
| Solver.ExpandForwards | final-version/Assets/Solver/CubeSolver.cs:333-345 | the forward round keeps the start store rooted; a path it returns reaches a root |
| Solver.MeetTargets | final-version/Assets/Solver/CubeSolver.cs:340-343 | a new start-side cube found in the target store yields a path from the start to a root |
| Solver.ExpandBackwards | final-version/Assets/Solver/CubeSolver.cs:349-359 | the backward round keeps the target store rooted; a path it returns reaches a root |
| Solver.MeetStarts | final-version/Assets/Solver/CubeSolver.cs:353-357 | a new target-side cube found in the start store yields a path from the start to a root |
| Solver.ConnectAtMeeting | final-version/Assets/Solver/CubeSolver.cs:340-343 | two half paths meeting at one cube merge into a path from a start to a root (also CubeSolver.cs lines 353-357) |
| Solver.ReduceMaskedCube | final-version/Assets/Solver/CubeSolver.cs:13-38 | a path found takes the masked start to the target; the empty path is returned exactly when the start already is the target (also CubeSolver.cs lines 78-96) |
| Solver.GetFourGenSolution | final-version/Assets/Solver/CubeSolver.cs:9-39 | a path found takes the four-gen mask of the cube to the four-gen target; the empty path exactly when the mask already is the target |
| Solver.GetThreeGenSolution | final-version/Assets/Solver/CubeSolver.cs:74-97 | a path found takes the three-gen mask of the cube to the three-gen target; the empty path exactly when the mask already is the target |
| Solver.GetTwoGenSolution | final-version/Assets/Solver/CubeSolver.cs:127-149 | with the one-move shortcut taken as written (it never fires), a path found takes the two-gen mask to the two-gen target, and the cube turned by it passes the two-generator test; the empty path exactly when both already hold |
| Solver.TryTwoGenShortcutAsWritten | final-version/Assets/Solver/CubeSolver.cs:140-143 | the shortcut as written returns a move exactly when the masked start is stored and the masked start turned by its stored move passes the test; that move takes the masked start to the target |
| Solver.StoredShortcutNeverFires | final-version/Assets/Solver/CubeSolver.cs:140-143 | no cube of the two-gen target store passes the shortcut's test as written |
| Solver.TryTwoGenShortcut | final-version/Assets/Solver/CubeSolver.cs:140-143 | the shortcut as evidently intended, which the stage does not take: a move exactly when the masked start is stored and the cube turned by the inverse of its stored move passes the test; that move takes the masked start to the target and leaves the cube two-gen |
| Solver.GetOneGenSolution | final-version/Assets/Solver/CubeSolver.cs:237-273 | a path found takes the cube into <U>; the empty path exactly when the cube already is one U turn from solved |
| Solver.GetOneGenTargets | final-version/Assets/Solver/CubeSolver.cs:250-266 | the target store holds the solved cube and its three U turns, without history |
| Solver.GetZeroGenSolution | final-version/Assets/Solver/CubeSolver.cs:277-299 | the answer is empty or one U turn that solves the cube; the solved cube gets the empty answer; an empty answer for an unsolved cube means no U turn solves it; a cube of <U> is always solved |
| Solver.OneGenTargetsAreOneUTurnFromSolved | final-version/Assets/Solver/CubeSolver.cs:253-266 | each target other than the solved cube is one U turn away from solved |
| SolvedCube.SolveSolvedCube | final-version/Assets/Tests/EditMode/CubeSolverTests.cs:49-95 | every stage, from four-gen down to zero-gen, returns the empty sequence for the solved cube |
| Translator.MoveToString | final-version/Assets/Solver/Translator.cs:10-23 | a code 1..18 prints as its face letter followed by nothing, "2" or "'" according to the kind of turn; 0 and codes above 18 print as "" |
| Translator.MoveHasNotation | final-version/Assets/Solver/Translator.cs:22 | a code has non-empty notation exactly when it is 1..18 |
| Translator.MoveToStringInjective | final-version/Assets/Solver/Translator.cs:10-15 | different moves never print alike |
| Translator.InverseNotation | final-version/Assets/Solver/Translator.cs:10-15 | the inverse of a quarter turn prints as the same letter with a prime |
| Translator.Translated | final-version/Assets/Solver/Translator.cs:25-39 | the same length as the codes, each element the notation of its code |
| Translator.SequenceToString | final-version/Assets/Solver/Translator.cs:25-39 | the loop fills the array with the notation of each code, in order |
| Translator.SolutionToString | final-version/Assets/Solver/Translator.cs:41-57 | the result has exactly the input's keys, each mapped to its translated sequence |
| Translator.GetStringOfSequence | final-version/Assets/Solver/Translator.cs:59-74 | "No turns needed!" for no moves, otherwise the notations joined by ", " |
| Translator.SplitJoin | final-version/Assets/Solver/Translator.cs:65-71 | splitting the joined line at its commas gives back the parts, when no part holds a comma |
| Translator.DescribeReadsBack | final-version/Assets/Solver/Translator.cs:59-74 | a printed non-empty solution reads back move by move |
| Translator.DescribeExamples | final-version/Assets/Solver/Translator.cs:59-74 | [] prints "No turns needed!", [1,13] prints "U, U'", and [7] prints "U2" |

## Left out

- `Cube.ToString` (Cube.cs:1044-1174) and the accessors `GetBitboards`, `GetSequence` and `GetLastMove` are not modelled. The first is presentation; the accessors are the datatype's fields.
- `Cube.GetHashCode` is not modelled: it only throws.
- The words of a cube are always six, so `Cube(uint[])` with another length is not modelled.
- `System.Random` in `GetScramble` becomes a sequence of draws (0..17) passed in. The source's rejection loops draw forever; here, running out of draws gives `None`.
- `GetPathFromCubeToList`, `GetTwoGenPathFromCubeToList` and `Search`: the `while (true)` searches get a round budget `fuel`, and a spent budget gives `OutOfFuel`. Only partial correctness is stated: a path that is found is right. Termination and shortest-path optimality are not stated.
- `Search`: where the source would throw, the result is `Fault`. That covers a `Dequeue` on an empty queue and a last move with no entry in the successor table (a null row).
- `Store.CubeStore.Dequeue`: on an empty queue the source throws. The model returns `None` and changes nothing.
- `Store.CubeStore.GetSequenceOfEqualCube`: for a cube that is absent, the source's `Dictionary` lookups (CubeStore.cs lines 98, 187 and 191) throw `KeyNotFoundException`. The model returns `None`.
- `MoveAlgebra.GetSubsequentMoves` requires that no code is 0xFFFFFFFF. For that code the source's `uint` sum wraps to a zero-length table and the indexing throws. `NumIndexesNeeded` does model the wrap.
- The trie's `CubeTree` and `CubeNode` are values rather than objects. Their `Dictionary` children become maps that `NodeAdd` and `TreeAdd` rebuild, so aliasing between nodes is not modelled. No node is ever shared in the source.
- Neither the masks nor the two-generator test are proved to characterise membership in a move group. The model proves what they compute, and the listed test vectors.
- The Unity scripts (`RotateSide.cs`, `SpinCube.cs`, `TextHandler.cs`) are not part of this model. They are floating-point animation and UI.
- `CubePieces.GetCornerPosition` states only that ids are at most 8. It is not true that every non-corner address gives 0. The source switches on `face + shift`, so some edge addresses share a corner's sum; `NonCornerAddressWithId` shows one. The callers only pass corner addresses.
- `Translator.MoveToString` returns "" for code 0, as the source's guard does, although the table's entry 0 is "0".

## Findings

| source | as written | input that shows it | evidently intended | confidence | as-written member | corrected member |
|---|---|---|---|---|---|---|
| final-version/Assets/Solver/CubeSolver.cs:458-459 | the scramble rule compares the class of the move two back (`scramble[i-2] % 6`) with the code `nextMove` itself | L R L' (3, 4, 15): 15 is not 3, so the triple is accepted although L' undoes L across R | compare classes with classes (`nextMove % 6`) | medium, not executed | MoveAlgebra.AsWrittenAcceptsCancellingTriple | MoveAlgebra.WellFormedScrambleHasNoCancellingTriple |
| final-version/Assets/Solver/CubeSolver.cs:140-143 | the one-move shortcut turns the masked start by the stored move itself and tests that | the solved cube after L: its masked start is stored under L; turned again by L it fails the test, so the shortcut never fires for it | turn the cube itself by the inverse of the stored move (the move the shortcut returns) and test that | medium, not executed | TwoGenShortcutVectors.AsWrittenShortcutNeverFires | Solver.TryTwoGenShortcut |
| final-version/Assets/Solver/Cube.cs:80-93 | `RotatedBySequence` copies the history only for a non-empty sequence | a cube after U rotated by [] comes back with an empty history | keep the history unchanged for an empty sequence | low, not executed | CubeState.RotatedBySequenceDropsHistory | CubeState.KeepingHistoryIsMoveByMove |

For the first two rows, the operations follow the source as written: `GetScramble` applies the rule as written, and `GetTwoGenSolution` takes the shortcut as written, which never fires. The corrected members state the intended behaviour and are proved next to them.
