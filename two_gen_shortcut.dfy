/*
 * The one-move shortcut of the two-gen stage, evaluated on the model. The store of
 * targets holds the two-gen target turned by L, L2 and L', each with that one move as
 * its sequence. As written, the shortcut turns the masked start by the stored move once
 * more and tests the result; those words never pass the two-gen test, so the shortcut
 * never fires. The corrected test turns the cube itself by the inverse of the stored
 * move; on the solved cube turned by L it fires. The two-gen stage takes the shortcut
 * as written, and relies on these lemmas to show that it never fires.
 */
module TwoGenShortcutVectors {
  import opened CubeState
  import opened CubePieces
  import opened StageMasks
  import opened MoveAlgebra
  import opened TwoGenVectors

  /**
   * The check the two-gen shortcut makes as written: the masked start turned by the
   * stored move `m` itself, not by its inverse, and not the cube itself.
   */
  predicate TwoGenShortcutAsWritten(start: Boards, m: UInt32)
  {
    TwoGen(RotatedBitboards(start, m))
  }

  /** The check the shortcut evidently means: the cube turned by the inverse of the stored move is two-gen. */
  predicate TwoGenShortcut(cube: Boards, m: UInt32)
  {
    TwoGen(RotatedBitboards(cube, GetMoveInverse(m)))
  }

  /** Words without a D corner sticker whose U corners read 0 are not two-gen. */
  lemma NotTwoGenWithoutDCorners(b: Boards)
    requires HasNoDCorner(b) && UCornerWord(b, 4) == 0
    ensures !TwoGen(b)
  {
    ScanLeavesAlone(b, 6, 6);
    ScanLeavesAlone(b, 5, 6);
  }

  /** The two-gen target after L2 (or after L twice, or L' twice). */
  const TargetAfterHalfL: Boards := Boards(0x0000_000A, 0x0000_0000, 0x0000_0000, 0x0000_0000, 0x0066_0000, 0x9000_0009)

  lemma TargetAfterHalfLHasNoDCorner()
    ensures HasNoDCorner(TargetAfterHalfL)
  {
  }

  lemma UCornerWordOfTargetAfterHalfL()
    ensures UCornerWord(TargetAfterHalfL, 4) == 0
  {
    assert CornerContribution(TargetAfterHalfL, 4) == 0;
    assert UCornerWord(TargetAfterHalfL, 1) == 0;
    assert CornerContribution(TargetAfterHalfL, 12) == 0;
    assert UCornerWord(TargetAfterHalfL, 2) == 0;
    assert CornerContribution(TargetAfterHalfL, 20) == 0;
    assert UCornerWord(TargetAfterHalfL, 3) == 0;
    assert CornerContribution(TargetAfterHalfL, 28) == 0;
  }

  lemma TargetAfterHalfLNotTwoGen()
    ensures !TwoGen(TargetAfterHalfL)
  {
    TargetAfterHalfLHasNoDCorner();
    UCornerWordOfTargetAfterHalfL();
    NotTwoGenWithoutDCorners(TargetAfterHalfL);
  }

  lemma TargetHasNoDCorner()
    ensures HasNoDCorner(TwoGenTarget)
  {
  }

  lemma UCornerWordOfTarget()
    ensures UCornerWord(TwoGenTarget, 4) == 0
  {
    assert CornerContribution(TwoGenTarget, 4) == 0;
    assert UCornerWord(TwoGenTarget, 1) == 0;
    assert CornerContribution(TwoGenTarget, 12) == 0;
    assert UCornerWord(TwoGenTarget, 2) == 0;
    assert CornerContribution(TwoGenTarget, 20) == 0;
    assert UCornerWord(TwoGenTarget, 3) == 0;
    assert CornerContribution(TwoGenTarget, 28) == 0;
  }

  lemma TargetNotTwoGen()
    ensures !TwoGen(TwoGenTarget)
  {
    TargetHasNoDCorner();
    UCornerWordOfTarget();
    NotTwoGenWithoutDCorners(TwoGenTarget);
  }

  /**
   * As written, the shortcut never fires: for each entry of the target store, the
   * entry turned by its own stored move fails the two-gen test.
   */
  lemma AsWrittenShortcutNeverFires(m: UInt32)
    requires m == 3 || m == 9 || m == 15
    ensures !TwoGenShortcutAsWritten(RotatedBitboards(TwoGenTarget, m), m)
  {
    if m == 9 {
      assert RotatedBitboards(RotatedBitboards(TwoGenTarget, 9), 9) == TwoGenTarget;
      TargetNotTwoGen();
    } else if m == 3 {
      assert RotatedBitboards(TwoGenTarget, 3) == Boards(0x9000_0009, 0x0000_0066, 0x0000_0000, 0x0000_0000, 0x000A_0000, 0x0000_0000);
      assert RotatedBitboards(Boards(0x9000_0009, 0x0000_0066, 0x0000_0000, 0x0000_0000, 0x000A_0000, 0x0000_0000), 3) == TargetAfterHalfL;
      TargetAfterHalfLNotTwoGen();
    } else {
      assert RotatedBitboards(TwoGenTarget, 15) == Boards(0x0000_0066, 0x9000_0009, 0x0000_0000, 0x0000_0000, 0x0000_0000, 0x0000_000A);
      assert RotatedBitboards(Boards(0x0000_0066, 0x9000_0009, 0x0000_0000, 0x0000_0000, 0x0000_0000, 0x0000_000A), 15) == TargetAfterHalfL;
      TargetAfterHalfLNotTwoGen();
    }
  }

  /** The solved cube turned by L. */
  const SolvedAfterL: Boards := Boards(0x9CCC_CC99, 0x6AAA_AA66, 0x3333_3333, 0x5555_5555, 0x99AA_A999, 0xC666_66CC)

  /**
   * The solved cube turned by L: its two-gen mask is the target's L neighbour, the
   * shortcut as written rejects it, and the corrected shortcut accepts it (L' solves it).
   */
  lemma ShortcutOnSolvedAfterL()
    ensures Masked(TwoGenMask, RotatedBitboards(Solved, 3)) == RotatedBitboards(TwoGenTarget, 3)
    ensures !TwoGenShortcutAsWritten(Masked(TwoGenMask, RotatedBitboards(Solved, 3)), 3)
    ensures TwoGenShortcut(RotatedBitboards(Solved, 3), 3)
  {
    assert RotatedBitboards(Solved, 3) == SolvedAfterL;
    assert RotatedBitboards(TwoGenTarget, 3) == Boards(0x9000_0009, 0x0000_0066, 0x0000_0000, 0x0000_0000, 0x000A_0000, 0x0000_0000);
    TwoGenUpOfSolvedAfterL();
    TwoGenDownOfSolvedAfterL();
    TwoGenLeftOfSolvedAfterL();
    TwoGenRightOfSolvedAfterL();
    TwoGenBackOfSolvedAfterL();
    TwoGenFrontOfSolvedAfterL();
    AsWrittenShortcutNeverFires(3);
    MoveThenInverse(Solved, 3);
    TwoGenOfSolved();
  }

  lemma TwoGenUpOfSolvedAfterL()
    ensures FaceMask(TwoGenMask, SolvedAfterL, 0, 4) == 0x9000_0009
  {
    assert TwoGenEdgeBits(SolvedAfterL, 0, 0) == 0x0000_0009;
    assert TwoGenCornerBits(SolvedAfterL, 0, 4) == 0x0000_0000;
    assert FaceMask(TwoGenMask, SolvedAfterL, 0, 1) == 0x0000_0009;
    assert TwoGenEdgeBits(SolvedAfterL, 0, 8) == 0x0000_0000;
    assert TwoGenCornerBits(SolvedAfterL, 0, 12) == 0x0000_0000;
    assert FaceMask(TwoGenMask, SolvedAfterL, 0, 2) == 0x0000_0009;
    assert TwoGenEdgeBits(SolvedAfterL, 0, 16) == 0x0000_0000;
    assert TwoGenCornerBits(SolvedAfterL, 0, 20) == 0x0000_0000;
    assert FaceMask(TwoGenMask, SolvedAfterL, 0, 3) == 0x0000_0009;
    assert TwoGenEdgeBits(SolvedAfterL, 0, 24) == 0x0000_0000;
    assert TwoGenCornerBits(SolvedAfterL, 0, 28) == 0x9000_0000;
  }

  lemma TwoGenDownOfSolvedAfterL()
    ensures FaceMask(TwoGenMask, SolvedAfterL, 1, 4) == 0x0000_0066
  {
    assert TwoGenEdgeBits(SolvedAfterL, 1, 0) == 0x0000_0006;
    assert TwoGenCornerBits(SolvedAfterL, 1, 4) == 0x0000_0060;
    assert FaceMask(TwoGenMask, SolvedAfterL, 1, 1) == 0x0000_0066;
    assert TwoGenEdgeBits(SolvedAfterL, 1, 8) == 0x0000_0000;
    assert TwoGenCornerBits(SolvedAfterL, 1, 12) == 0x0000_0000;
    assert FaceMask(TwoGenMask, SolvedAfterL, 1, 2) == 0x0000_0066;
    assert TwoGenEdgeBits(SolvedAfterL, 1, 16) == 0x0000_0000;
    assert TwoGenCornerBits(SolvedAfterL, 1, 20) == 0x0000_0000;
    assert FaceMask(TwoGenMask, SolvedAfterL, 1, 3) == 0x0000_0066;
    assert TwoGenEdgeBits(SolvedAfterL, 1, 24) == 0x0000_0000;
    assert TwoGenCornerBits(SolvedAfterL, 1, 28) == 0x0000_0000;
  }

  lemma TwoGenLeftOfSolvedAfterL()
    ensures FaceMask(TwoGenMask, SolvedAfterL, 2, 4) == 0x0000_0000
  {
    assert TwoGenEdgeBits(SolvedAfterL, 2, 0) == 0x0000_0000;
    assert TwoGenCornerBits(SolvedAfterL, 2, 4) == 0x0000_0000;
    assert FaceMask(TwoGenMask, SolvedAfterL, 2, 1) == 0x0000_0000;
    assert TwoGenEdgeBits(SolvedAfterL, 2, 8) == 0x0000_0000;
    assert TwoGenCornerBits(SolvedAfterL, 2, 12) == 0x0000_0000;
    assert FaceMask(TwoGenMask, SolvedAfterL, 2, 2) == 0x0000_0000;
    assert TwoGenEdgeBits(SolvedAfterL, 2, 16) == 0x0000_0000;
    assert TwoGenCornerBits(SolvedAfterL, 2, 20) == 0x0000_0000;
    assert FaceMask(TwoGenMask, SolvedAfterL, 2, 3) == 0x0000_0000;
    assert TwoGenEdgeBits(SolvedAfterL, 2, 24) == 0x0000_0000;
    assert TwoGenCornerBits(SolvedAfterL, 2, 28) == 0x0000_0000;
  }

  lemma TwoGenRightOfSolvedAfterL()
    ensures FaceMask(TwoGenMask, SolvedAfterL, 3, 4) == 0x0000_0000
  {
    assert TwoGenEdgeBits(SolvedAfterL, 3, 0) == 0x0000_0000;
    assert TwoGenCornerBits(SolvedAfterL, 3, 4) == 0x0000_0000;
    assert FaceMask(TwoGenMask, SolvedAfterL, 3, 1) == 0x0000_0000;
    assert TwoGenEdgeBits(SolvedAfterL, 3, 8) == 0x0000_0000;
    assert TwoGenCornerBits(SolvedAfterL, 3, 12) == 0x0000_0000;
    assert FaceMask(TwoGenMask, SolvedAfterL, 3, 2) == 0x0000_0000;
    assert TwoGenEdgeBits(SolvedAfterL, 3, 16) == 0x0000_0000;
    assert TwoGenCornerBits(SolvedAfterL, 3, 20) == 0x0000_0000;
    assert FaceMask(TwoGenMask, SolvedAfterL, 3, 3) == 0x0000_0000;
    assert TwoGenEdgeBits(SolvedAfterL, 3, 24) == 0x0000_0000;
    assert TwoGenCornerBits(SolvedAfterL, 3, 28) == 0x0000_0000;
  }

  lemma TwoGenBackOfSolvedAfterL()
    ensures FaceMask(TwoGenMask, SolvedAfterL, 4, 4) == 0x000A_0000
  {
    assert TwoGenEdgeBits(SolvedAfterL, 4, 0) == 0x0000_0000;
    assert TwoGenCornerBits(SolvedAfterL, 4, 4) == 0x0000_0000;
    assert FaceMask(TwoGenMask, SolvedAfterL, 4, 1) == 0x0000_0000;
    assert TwoGenEdgeBits(SolvedAfterL, 4, 8) == 0x0000_0000;
    assert TwoGenCornerBits(SolvedAfterL, 4, 12) == 0x0000_0000;
    assert FaceMask(TwoGenMask, SolvedAfterL, 4, 2) == 0x0000_0000;
    assert TwoGenEdgeBits(SolvedAfterL, 4, 16) == 0x000A_0000;
    assert TwoGenCornerBits(SolvedAfterL, 4, 20) == 0x0000_0000;
    assert FaceMask(TwoGenMask, SolvedAfterL, 4, 3) == 0x000A_0000;
    assert TwoGenEdgeBits(SolvedAfterL, 4, 24) == 0x0000_0000;
    assert TwoGenCornerBits(SolvedAfterL, 4, 28) == 0x0000_0000;
  }

  lemma TwoGenFrontOfSolvedAfterL()
    ensures FaceMask(TwoGenMask, SolvedAfterL, 5, 4) == 0x0000_0000
  {
    assert TwoGenEdgeBits(SolvedAfterL, 5, 0) == 0x0000_0000;
    assert TwoGenCornerBits(SolvedAfterL, 5, 4) == 0x0000_0000;
    assert FaceMask(TwoGenMask, SolvedAfterL, 5, 1) == 0x0000_0000;
    assert TwoGenEdgeBits(SolvedAfterL, 5, 8) == 0x0000_0000;
    assert TwoGenCornerBits(SolvedAfterL, 5, 12) == 0x0000_0000;
    assert FaceMask(TwoGenMask, SolvedAfterL, 5, 2) == 0x0000_0000;
    assert TwoGenEdgeBits(SolvedAfterL, 5, 16) == 0x0000_0000;
    assert TwoGenCornerBits(SolvedAfterL, 5, 20) == 0x0000_0000;
    assert FaceMask(TwoGenMask, SolvedAfterL, 5, 3) == 0x0000_0000;
    assert TwoGenEdgeBits(SolvedAfterL, 5, 24) == 0x0000_0000;
    assert TwoGenCornerBits(SolvedAfterL, 5, 28) == 0x0000_0000;
  }
}
