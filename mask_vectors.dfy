/*
 * The stage masks of the solved cube, evaluated on the model one face word and one
 * loop round at a time: each is its stage's target.
 */
module MaskVectors {
  import opened CubeState
  import opened StageMasks

  /** The four-gen mask of the solved cube is the four-gen target. */
  lemma FourGenMaskOfSolved()
    ensures Masked(FourGenMask, Solved) == FourGenTarget
  {
    FourGenUpOfSolved();
    FourGenDownOfSolved();
    FourGenLeftOfSolved();
    FourGenRightOfSolved();
    FourGenBackOfSolved();
    FourGenFrontOfSolved();
  }

  lemma FourGenUpOfSolved()
    ensures FaceMask(FourGenMask, Solved, 0, 4) == 0x0F0F_0F0F
  {
    assert FourGenBits(Solved, 0, 0) == 0x0000_000F;
    assert FaceMask(FourGenMask, Solved, 0, 1) == 0x0000_000F;
    assert FourGenBits(Solved, 0, 8) == 0x0000_0F00;
    assert FaceMask(FourGenMask, Solved, 0, 2) == 0x0000_0F0F;
    assert FourGenBits(Solved, 0, 16) == 0x000F_0000;
    assert FaceMask(FourGenMask, Solved, 0, 3) == 0x000F_0F0F;
    assert FourGenBits(Solved, 0, 24) == 0x0F00_0000;
  }

  lemma FourGenDownOfSolved()
    ensures FaceMask(FourGenMask, Solved, 1, 4) == 0x0F0F_0F0F
  {
    assert FourGenBits(Solved, 1, 0) == 0x0000_000F;
    assert FaceMask(FourGenMask, Solved, 1, 1) == 0x0000_000F;
    assert FourGenBits(Solved, 1, 8) == 0x0000_0F00;
    assert FaceMask(FourGenMask, Solved, 1, 2) == 0x0000_0F0F;
    assert FourGenBits(Solved, 1, 16) == 0x000F_0000;
    assert FaceMask(FourGenMask, Solved, 1, 3) == 0x000F_0F0F;
    assert FourGenBits(Solved, 1, 24) == 0x0F00_0000;
  }

  lemma FourGenLeftOfSolved()
    ensures FaceMask(FourGenMask, Solved, 2, 4) == 0x0000_0000
  {
    assert FourGenBits(Solved, 2, 0) == 0x0000_0000;
    assert FaceMask(FourGenMask, Solved, 2, 1) == 0x0000_0000;
    assert FourGenBits(Solved, 2, 8) == 0x0000_0000;
    assert FaceMask(FourGenMask, Solved, 2, 2) == 0x0000_0000;
    assert FourGenBits(Solved, 2, 16) == 0x0000_0000;
    assert FaceMask(FourGenMask, Solved, 2, 3) == 0x0000_0000;
    assert FourGenBits(Solved, 2, 24) == 0x0000_0000;
  }

  lemma FourGenRightOfSolved()
    ensures FaceMask(FourGenMask, Solved, 3, 4) == 0x0000_0000
  {
    assert FourGenBits(Solved, 3, 0) == 0x0000_0000;
    assert FaceMask(FourGenMask, Solved, 3, 1) == 0x0000_0000;
    assert FourGenBits(Solved, 3, 8) == 0x0000_0000;
    assert FaceMask(FourGenMask, Solved, 3, 2) == 0x0000_0000;
    assert FourGenBits(Solved, 3, 16) == 0x0000_0000;
    assert FaceMask(FourGenMask, Solved, 3, 3) == 0x0000_0000;
    assert FourGenBits(Solved, 3, 24) == 0x0000_0000;
  }

  lemma FourGenBackOfSolved()
    ensures FaceMask(FourGenMask, Solved, 4, 4) == 0x000F_000F
  {
    assert FourGenBits(Solved, 4, 0) == 0x0000_000F;
    assert FaceMask(FourGenMask, Solved, 4, 1) == 0x0000_000F;
    assert FourGenBits(Solved, 4, 8) == 0x0000_0000;
    assert FaceMask(FourGenMask, Solved, 4, 2) == 0x0000_000F;
    assert FourGenBits(Solved, 4, 16) == 0x000F_0000;
    assert FaceMask(FourGenMask, Solved, 4, 3) == 0x000F_000F;
    assert FourGenBits(Solved, 4, 24) == 0x0000_0000;
  }

  lemma FourGenFrontOfSolved()
    ensures FaceMask(FourGenMask, Solved, 5, 4) == 0x000F_000F
  {
    assert FourGenBits(Solved, 5, 0) == 0x0000_000F;
    assert FaceMask(FourGenMask, Solved, 5, 1) == 0x0000_000F;
    assert FourGenBits(Solved, 5, 8) == 0x0000_0000;
    assert FaceMask(FourGenMask, Solved, 5, 2) == 0x0000_000F;
    assert FourGenBits(Solved, 5, 16) == 0x000F_0000;
    assert FaceMask(FourGenMask, Solved, 5, 3) == 0x000F_000F;
    assert FourGenBits(Solved, 5, 24) == 0x0000_0000;
  }

  /** The three-gen mask of the solved cube is the three-gen target. */
  lemma ThreeGenMaskOfSolved()
    ensures Masked(ThreeGenMask, Solved) == ThreeGenTarget
  {
    ThreeGenUpOfSolved();
    ThreeGenDownOfSolved();
    ThreeGenLeftOfSolved();
    ThreeGenRightOfSolved();
    ThreeGenBackOfSolved();
    ThreeGenFrontOfSolved();
  }

  lemma ThreeGenUpOfSolved()
    ensures FaceMask(ThreeGenMask, Solved, 0, 4) == 0x0000_0000
  {
    assert ThreeGenBits(Solved, 0, 0) == 0x0000_0000;
    assert FaceMask(ThreeGenMask, Solved, 0, 1) == 0x0000_0000;
    assert ThreeGenBits(Solved, 0, 8) == 0x0000_0000;
    assert FaceMask(ThreeGenMask, Solved, 0, 2) == 0x0000_0000;
    assert ThreeGenBits(Solved, 0, 16) == 0x0000_0000;
    assert FaceMask(ThreeGenMask, Solved, 0, 3) == 0x0000_0000;
    assert ThreeGenBits(Solved, 0, 24) == 0x0000_0000;
  }

  lemma ThreeGenDownOfSolved()
    ensures FaceMask(ThreeGenMask, Solved, 1, 4) == 0x0000_0000
  {
    assert ThreeGenBits(Solved, 1, 0) == 0x0000_0000;
    assert FaceMask(ThreeGenMask, Solved, 1, 1) == 0x0000_0000;
    assert ThreeGenBits(Solved, 1, 8) == 0x0000_0000;
    assert FaceMask(ThreeGenMask, Solved, 1, 2) == 0x0000_0000;
    assert ThreeGenBits(Solved, 1, 16) == 0x0000_0000;
    assert FaceMask(ThreeGenMask, Solved, 1, 3) == 0x0000_0000;
    assert ThreeGenBits(Solved, 1, 24) == 0x0000_0000;
  }

  lemma ThreeGenLeftOfSolved()
    ensures FaceMask(ThreeGenMask, Solved, 2, 4) == 0x0000_0000
  {
    assert ThreeGenBits(Solved, 2, 0) == 0x0000_0000;
    assert FaceMask(ThreeGenMask, Solved, 2, 1) == 0x0000_0000;
    assert ThreeGenBits(Solved, 2, 8) == 0x0000_0000;
    assert FaceMask(ThreeGenMask, Solved, 2, 2) == 0x0000_0000;
    assert ThreeGenBits(Solved, 2, 16) == 0x0000_0000;
    assert FaceMask(ThreeGenMask, Solved, 2, 3) == 0x0000_0000;
    assert ThreeGenBits(Solved, 2, 24) == 0x0000_0000;
  }

  lemma ThreeGenRightOfSolved()
    ensures FaceMask(ThreeGenMask, Solved, 3, 4) == 0x0000_0000
  {
    assert ThreeGenBits(Solved, 3, 0) == 0x0000_0000;
    assert FaceMask(ThreeGenMask, Solved, 3, 1) == 0x0000_0000;
    assert ThreeGenBits(Solved, 3, 8) == 0x0000_0000;
    assert FaceMask(ThreeGenMask, Solved, 3, 2) == 0x0000_0000;
    assert ThreeGenBits(Solved, 3, 16) == 0x0000_0000;
    assert FaceMask(ThreeGenMask, Solved, 3, 3) == 0x0000_0000;
    assert ThreeGenBits(Solved, 3, 24) == 0x0000_0000;
  }

  lemma ThreeGenBackOfSolved()
    ensures FaceMask(ThreeGenMask, Solved, 4, 4) == 0x0000_0900
  {
    assert ThreeGenBits(Solved, 4, 0) == 0x0000_0000;
    assert FaceMask(ThreeGenMask, Solved, 4, 1) == 0x0000_0000;
    assert ThreeGenBits(Solved, 4, 8) == 0x0000_0900;
    assert FaceMask(ThreeGenMask, Solved, 4, 2) == 0x0000_0900;
    assert ThreeGenBits(Solved, 4, 16) == 0x0000_0000;
    assert FaceMask(ThreeGenMask, Solved, 4, 3) == 0x0000_0900;
    assert ThreeGenBits(Solved, 4, 24) == 0x0000_0000;
  }

  lemma ThreeGenFrontOfSolved()
    ensures FaceMask(ThreeGenMask, Solved, 5, 4) == 0x0000_0600
  {
    assert ThreeGenBits(Solved, 5, 0) == 0x0000_0000;
    assert FaceMask(ThreeGenMask, Solved, 5, 1) == 0x0000_0000;
    assert ThreeGenBits(Solved, 5, 8) == 0x0000_0600;
    assert FaceMask(ThreeGenMask, Solved, 5, 2) == 0x0000_0600;
    assert ThreeGenBits(Solved, 5, 16) == 0x0000_0000;
    assert FaceMask(ThreeGenMask, Solved, 5, 3) == 0x0000_0600;
    assert ThreeGenBits(Solved, 5, 24) == 0x0000_0000;
  }

  /** The two-gen mask of the solved cube is the two-gen target. */
  lemma TwoGenMaskOfSolved()
    ensures Masked(TwoGenMask, Solved) == TwoGenTarget
  {
    TwoGenUpOfSolved();
    TwoGenDownOfSolved();
    TwoGenLeftOfSolved();
    TwoGenRightOfSolved();
    TwoGenBackOfSolved();
    TwoGenFrontOfSolved();
  }

  lemma TwoGenUpOfSolved()
    ensures FaceMask(TwoGenMask, Solved, 0, 4) == 0x0000_0000
  {
    assert TwoGenEdgeBits(Solved, 0, 0) == 0x0000_0000;
    assert TwoGenCornerBits(Solved, 0, 4) == 0x0000_0000;
    assert FaceMask(TwoGenMask, Solved, 0, 1) == 0x0000_0000;
    assert TwoGenEdgeBits(Solved, 0, 8) == 0x0000_0000;
    assert TwoGenCornerBits(Solved, 0, 12) == 0x0000_0000;
    assert FaceMask(TwoGenMask, Solved, 0, 2) == 0x0000_0000;
    assert TwoGenEdgeBits(Solved, 0, 16) == 0x0000_0000;
    assert TwoGenCornerBits(Solved, 0, 20) == 0x0000_0000;
    assert FaceMask(TwoGenMask, Solved, 0, 3) == 0x0000_0000;
    assert TwoGenEdgeBits(Solved, 0, 24) == 0x0000_0000;
    assert TwoGenCornerBits(Solved, 0, 28) == 0x0000_0000;
  }

  lemma TwoGenDownOfSolved()
    ensures FaceMask(TwoGenMask, Solved, 1, 4) == 0x0000_000A
  {
    assert TwoGenEdgeBits(Solved, 1, 0) == 0x0000_000A;
    assert TwoGenCornerBits(Solved, 1, 4) == 0x0000_0000;
    assert FaceMask(TwoGenMask, Solved, 1, 1) == 0x0000_000A;
    assert TwoGenEdgeBits(Solved, 1, 8) == 0x0000_0000;
    assert TwoGenCornerBits(Solved, 1, 12) == 0x0000_0000;
    assert FaceMask(TwoGenMask, Solved, 1, 2) == 0x0000_000A;
    assert TwoGenEdgeBits(Solved, 1, 16) == 0x0000_0000;
    assert TwoGenCornerBits(Solved, 1, 20) == 0x0000_0000;
    assert FaceMask(TwoGenMask, Solved, 1, 3) == 0x0000_000A;
    assert TwoGenEdgeBits(Solved, 1, 24) == 0x0000_0000;
    assert TwoGenCornerBits(Solved, 1, 28) == 0x0000_0000;
  }

  lemma TwoGenLeftOfSolved()
    ensures FaceMask(TwoGenMask, Solved, 2, 4) == 0x0000_0000
  {
    assert TwoGenEdgeBits(Solved, 2, 0) == 0x0000_0000;
    assert TwoGenCornerBits(Solved, 2, 4) == 0x0000_0000;
    assert FaceMask(TwoGenMask, Solved, 2, 1) == 0x0000_0000;
    assert TwoGenEdgeBits(Solved, 2, 8) == 0x0000_0000;
    assert TwoGenCornerBits(Solved, 2, 12) == 0x0000_0000;
    assert FaceMask(TwoGenMask, Solved, 2, 2) == 0x0000_0000;
    assert TwoGenEdgeBits(Solved, 2, 16) == 0x0000_0000;
    assert TwoGenCornerBits(Solved, 2, 20) == 0x0000_0000;
    assert FaceMask(TwoGenMask, Solved, 2, 3) == 0x0000_0000;
    assert TwoGenEdgeBits(Solved, 2, 24) == 0x0000_0000;
    assert TwoGenCornerBits(Solved, 2, 28) == 0x0000_0000;
  }

  lemma TwoGenRightOfSolved()
    ensures FaceMask(TwoGenMask, Solved, 3, 4) == 0x0000_0000
  {
    assert TwoGenEdgeBits(Solved, 3, 0) == 0x0000_0000;
    assert TwoGenCornerBits(Solved, 3, 4) == 0x0000_0000;
    assert FaceMask(TwoGenMask, Solved, 3, 1) == 0x0000_0000;
    assert TwoGenEdgeBits(Solved, 3, 8) == 0x0000_0000;
    assert TwoGenCornerBits(Solved, 3, 12) == 0x0000_0000;
    assert FaceMask(TwoGenMask, Solved, 3, 2) == 0x0000_0000;
    assert TwoGenEdgeBits(Solved, 3, 16) == 0x0000_0000;
    assert TwoGenCornerBits(Solved, 3, 20) == 0x0000_0000;
    assert FaceMask(TwoGenMask, Solved, 3, 3) == 0x0000_0000;
    assert TwoGenEdgeBits(Solved, 3, 24) == 0x0000_0000;
    assert TwoGenCornerBits(Solved, 3, 28) == 0x0000_0000;
  }

  lemma TwoGenBackOfSolved()
    ensures FaceMask(TwoGenMask, Solved, 4, 4) == 0x0009_9000
  {
    assert TwoGenEdgeBits(Solved, 4, 0) == 0x0000_0000;
    assert TwoGenCornerBits(Solved, 4, 4) == 0x0000_0000;
    assert FaceMask(TwoGenMask, Solved, 4, 1) == 0x0000_0000;
    assert TwoGenEdgeBits(Solved, 4, 8) == 0x0000_0000;
    assert TwoGenCornerBits(Solved, 4, 12) == 0x0000_9000;
    assert FaceMask(TwoGenMask, Solved, 4, 2) == 0x0000_9000;
    assert TwoGenEdgeBits(Solved, 4, 16) == 0x0009_0000;
    assert TwoGenCornerBits(Solved, 4, 20) == 0x0000_0000;
    assert FaceMask(TwoGenMask, Solved, 4, 3) == 0x0009_9000;
    assert TwoGenEdgeBits(Solved, 4, 24) == 0x0000_0000;
    assert TwoGenCornerBits(Solved, 4, 28) == 0x0000_0000;
  }

  lemma TwoGenFrontOfSolved()
    ensures FaceMask(TwoGenMask, Solved, 5, 4) == 0x0000_0066
  {
    assert TwoGenEdgeBits(Solved, 5, 0) == 0x0000_0006;
    assert TwoGenCornerBits(Solved, 5, 4) == 0x0000_0060;
    assert FaceMask(TwoGenMask, Solved, 5, 1) == 0x0000_0066;
    assert TwoGenEdgeBits(Solved, 5, 8) == 0x0000_0000;
    assert TwoGenCornerBits(Solved, 5, 12) == 0x0000_0000;
    assert FaceMask(TwoGenMask, Solved, 5, 2) == 0x0000_0066;
    assert TwoGenEdgeBits(Solved, 5, 16) == 0x0000_0000;
    assert TwoGenCornerBits(Solved, 5, 20) == 0x0000_0000;
    assert FaceMask(TwoGenMask, Solved, 5, 3) == 0x0000_0066;
    assert TwoGenEdgeBits(Solved, 5, 24) == 0x0000_0000;
    assert TwoGenCornerBits(Solved, 5, 28) == 0x0000_0000;
  }
}
