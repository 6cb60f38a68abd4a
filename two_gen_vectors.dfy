/*
 * The two-generator vectors of the cube tests, evaluated on the model: the solved cube
 * passes `IsTwoGenIfLeftBlock`, and the solved cube after R U' R' U R' U' L keeps its left
 * block but fails it. Each scan is stepped through face by face (one lemma per face),
 * and each face one corner at a time.
 */
module TwoGenVectors {
  import opened CubeState
  import opened CubePieces

  lemma FirstScanOfSolvedFace0()
    ensures FaceScan(Boards(0xCCCC_CCCC, 0xAAAA_AAAA, 0x3333_3333, 0x5555_5555, 0x9999_9999, 0x6666_6666), 6, 0, 4) == Boards(0xCCCC_CCCC, 0xAAAA_AAAA, 0x3333_3333, 0x5555_5555, 0x9999_9999, 0x6666_6666)
  {
    assert FaceScan(Boards(0xCCCC_CCCC, 0xAAAA_AAAA, 0x3333_3333, 0x5555_5555, 0x9999_9999, 0x6666_6666), 6, 0, 1) == Boards(0xCCCC_CCCC, 0xAAAA_AAAA, 0x3333_3333, 0x5555_5555, 0x9999_9999, 0x6666_6666);
    assert FaceScan(Boards(0xCCCC_CCCC, 0xAAAA_AAAA, 0x3333_3333, 0x5555_5555, 0x9999_9999, 0x6666_6666), 6, 0, 2) == Boards(0xCCCC_CCCC, 0xAAAA_AAAA, 0x3333_3333, 0x5555_5555, 0x9999_9999, 0x6666_6666);
    assert FaceScan(Boards(0xCCCC_CCCC, 0xAAAA_AAAA, 0x3333_3333, 0x5555_5555, 0x9999_9999, 0x6666_6666), 6, 0, 3) == Boards(0xCCCC_CCCC, 0xAAAA_AAAA, 0x3333_3333, 0x5555_5555, 0x9999_9999, 0x6666_6666);
  }

  lemma FirstScanOfSolvedFace1()
    ensures FaceScan(Boards(0xCCCC_CCCC, 0xAAAA_AAAA, 0x3333_3333, 0x5555_5555, 0x9999_9999, 0x6666_6666), 6, 1, 4) == Boards(0xCC99_9CCC, 0xAA66_6AAA, 0x3333_3333, 0x5555_5555, 0xA999_99AA, 0x66CC_C666)
  {
    assert FaceScan(Boards(0xCCCC_CCCC, 0xAAAA_AAAA, 0x3333_3333, 0x5555_5555, 0x9999_9999, 0x6666_6666), 6, 1, 1) == Boards(0xCCCC_CCCC, 0xAAAA_AAAA, 0x3333_3333, 0x5555_5555, 0x9999_9999, 0x6666_6666);
    assert FaceScan(Boards(0xCCCC_CCCC, 0xAAAA_AAAA, 0x3333_3333, 0x5555_5555, 0x9999_9999, 0x6666_6666), 6, 1, 2) == Boards(0xCCCC_CCCC, 0xAAAA_AAAA, 0x3333_3333, 0x5555_5555, 0x9999_9999, 0x6666_6666);
    assert FaceScan(Boards(0xCCCC_CCCC, 0xAAAA_AAAA, 0x3333_3333, 0x5555_5555, 0x9999_9999, 0x6666_6666), 6, 1, 3) == Boards(0xCC99_9CCC, 0xAA66_6AAA, 0x3333_3333, 0x5555_5555, 0xA999_99AA, 0x66CC_C666);
  }

  lemma FirstScanOfSolvedFace2()
    ensures FaceScan(Boards(0xCC99_9CCC, 0xAA66_6AAA, 0x3333_3333, 0x5555_5555, 0xA999_99AA, 0x66CC_C666), 6, 2, 4) == Boards(0xCC99_9CCC, 0xAA66_6AAA, 0x3333_3333, 0x5555_5555, 0xA999_99AA, 0x66CC_C666)
  {
    assert FaceScan(Boards(0xCC99_9CCC, 0xAA66_6AAA, 0x3333_3333, 0x5555_5555, 0xA999_99AA, 0x66CC_C666), 6, 2, 1) == Boards(0xCC99_9CCC, 0xAA66_6AAA, 0x3333_3333, 0x5555_5555, 0xA999_99AA, 0x66CC_C666);
    assert FaceScan(Boards(0xCC99_9CCC, 0xAA66_6AAA, 0x3333_3333, 0x5555_5555, 0xA999_99AA, 0x66CC_C666), 6, 2, 2) == Boards(0xCC99_9CCC, 0xAA66_6AAA, 0x3333_3333, 0x5555_5555, 0xA999_99AA, 0x66CC_C666);
    assert FaceScan(Boards(0xCC99_9CCC, 0xAA66_6AAA, 0x3333_3333, 0x5555_5555, 0xA999_99AA, 0x66CC_C666), 6, 2, 3) == Boards(0xCC99_9CCC, 0xAA66_6AAA, 0x3333_3333, 0x5555_5555, 0xA999_99AA, 0x66CC_C666);
  }

  lemma FirstScanOfSolvedFace3()
    ensures FaceScan(Boards(0xCC99_9CCC, 0xAA66_6AAA, 0x3333_3333, 0x5555_5555, 0xA999_99AA, 0x66CC_C666), 6, 3, 4) == Boards(0xCC99_9CCC, 0xAA66_6AAA, 0x3333_3333, 0x5555_5555, 0xA999_99AA, 0x66CC_C666)
  {
    assert FaceScan(Boards(0xCC99_9CCC, 0xAA66_6AAA, 0x3333_3333, 0x5555_5555, 0xA999_99AA, 0x66CC_C666), 6, 3, 1) == Boards(0xCC99_9CCC, 0xAA66_6AAA, 0x3333_3333, 0x5555_5555, 0xA999_99AA, 0x66CC_C666);
    assert FaceScan(Boards(0xCC99_9CCC, 0xAA66_6AAA, 0x3333_3333, 0x5555_5555, 0xA999_99AA, 0x66CC_C666), 6, 3, 2) == Boards(0xCC99_9CCC, 0xAA66_6AAA, 0x3333_3333, 0x5555_5555, 0xA999_99AA, 0x66CC_C666);
    assert FaceScan(Boards(0xCC99_9CCC, 0xAA66_6AAA, 0x3333_3333, 0x5555_5555, 0xA999_99AA, 0x66CC_C666), 6, 3, 3) == Boards(0xCC99_9CCC, 0xAA66_6AAA, 0x3333_3333, 0x5555_5555, 0xA999_99AA, 0x66CC_C666);
  }

  lemma FirstScanOfSolvedFace4()
    ensures FaceScan(Boards(0xCC99_9CCC, 0xAA66_6AAA, 0x3333_3333, 0x5555_5555, 0xA999_99AA, 0x66CC_C666), 6, 4, 4) == Boards(0xCC99_9CCC, 0xAA66_6AAA, 0x3333_3333, 0x5555_5555, 0xA999_99AA, 0x66CC_C666)
  {
    assert FaceScan(Boards(0xCC99_9CCC, 0xAA66_6AAA, 0x3333_3333, 0x5555_5555, 0xA999_99AA, 0x66CC_C666), 6, 4, 1) == Boards(0xCC99_9CCC, 0xAA66_6AAA, 0x3333_3333, 0x5555_5555, 0xA999_99AA, 0x66CC_C666);
    assert FaceScan(Boards(0xCC99_9CCC, 0xAA66_6AAA, 0x3333_3333, 0x5555_5555, 0xA999_99AA, 0x66CC_C666), 6, 4, 2) == Boards(0xCC99_9CCC, 0xAA66_6AAA, 0x3333_3333, 0x5555_5555, 0xA999_99AA, 0x66CC_C666);
    assert FaceScan(Boards(0xCC99_9CCC, 0xAA66_6AAA, 0x3333_3333, 0x5555_5555, 0xA999_99AA, 0x66CC_C666), 6, 4, 3) == Boards(0xCC99_9CCC, 0xAA66_6AAA, 0x3333_3333, 0x5555_5555, 0xA999_99AA, 0x66CC_C666);
  }

  lemma FirstScanOfSolvedFace5()
    ensures FaceScan(Boards(0xCC99_9CCC, 0xAA66_6AAA, 0x3333_3333, 0x5555_5555, 0xA999_99AA, 0x66CC_C666), 6, 5, 4) == Boards(0xCC99_9CCC, 0xAA66_6AAA, 0x3333_3333, 0x5555_5555, 0xA999_99AA, 0x66CC_C666)
  {
    assert FaceScan(Boards(0xCC99_9CCC, 0xAA66_6AAA, 0x3333_3333, 0x5555_5555, 0xA999_99AA, 0x66CC_C666), 6, 5, 1) == Boards(0xCC99_9CCC, 0xAA66_6AAA, 0x3333_3333, 0x5555_5555, 0xA999_99AA, 0x66CC_C666);
    assert FaceScan(Boards(0xCC99_9CCC, 0xAA66_6AAA, 0x3333_3333, 0x5555_5555, 0xA999_99AA, 0x66CC_C666), 6, 5, 2) == Boards(0xCC99_9CCC, 0xAA66_6AAA, 0x3333_3333, 0x5555_5555, 0xA999_99AA, 0x66CC_C666);
    assert FaceScan(Boards(0xCC99_9CCC, 0xAA66_6AAA, 0x3333_3333, 0x5555_5555, 0xA999_99AA, 0x66CC_C666), 6, 5, 3) == Boards(0xCC99_9CCC, 0xAA66_6AAA, 0x3333_3333, 0x5555_5555, 0xA999_99AA, 0x66CC_C666);
  }

  /** The first scan takes the solved cube through R' (DFR found at position 7). */
  lemma FirstScanOfSolved()
    ensures ScanUpTo(Solved, 6, 6) == Boards(0xCC99_9CCC, 0xAA66_6AAA, 0x3333_3333, 0x5555_5555, 0xA999_99AA, 0x66CC_C666)
  {
    FirstScanOfSolvedFace0();
    FirstScanOfSolvedFace1();
    FirstScanOfSolvedFace2();
    FirstScanOfSolvedFace3();
    FirstScanOfSolvedFace4();
    FirstScanOfSolvedFace5();
  }
  lemma SecondScanOfSolvedFace0()
    ensures FaceScan(Boards(0xCC99_9CCC, 0xAA66_6AAA, 0x3333_3333, 0x5555_5555, 0xA999_99AA, 0x66CC_C666), 5, 0, 4) == Boards(0xCC99_9CCC, 0xAA66_6AAA, 0x3333_3333, 0x5555_5555, 0xA999_99AA, 0x66CC_C666)
  {
    assert FaceScan(Boards(0xCC99_9CCC, 0xAA66_6AAA, 0x3333_3333, 0x5555_5555, 0xA999_99AA, 0x66CC_C666), 5, 0, 1) == Boards(0xCC99_9CCC, 0xAA66_6AAA, 0x3333_3333, 0x5555_5555, 0xA999_99AA, 0x66CC_C666);
    assert FaceScan(Boards(0xCC99_9CCC, 0xAA66_6AAA, 0x3333_3333, 0x5555_5555, 0xA999_99AA, 0x66CC_C666), 5, 0, 2) == Boards(0xCC99_9CCC, 0xAA66_6AAA, 0x3333_3333, 0x5555_5555, 0xA999_99AA, 0x66CC_C666);
    assert FaceScan(Boards(0xCC99_9CCC, 0xAA66_6AAA, 0x3333_3333, 0x5555_5555, 0xA999_99AA, 0x66CC_C666), 5, 0, 3) == Boards(0xCC99_9CCC, 0xAA66_6AAA, 0x3333_3333, 0x5555_5555, 0xA999_99AA, 0x66CC_C666);
  }

  lemma SecondScanOfSolvedFace1()
    ensures FaceScan(Boards(0xCC99_9CCC, 0xAA66_6AAA, 0x3333_3333, 0x5555_5555, 0xA999_99AA, 0x66CC_C666), 5, 1, 4) == Boards(0xCC99_9CCC, 0xAA66_6AAA, 0x3333_3333, 0x5555_5555, 0xA999_99AA, 0x66CC_C666)
  {
    assert FaceScan(Boards(0xCC99_9CCC, 0xAA66_6AAA, 0x3333_3333, 0x5555_5555, 0xA999_99AA, 0x66CC_C666), 5, 1, 1) == Boards(0xCC99_9CCC, 0xAA66_6AAA, 0x3333_3333, 0x5555_5555, 0xA999_99AA, 0x66CC_C666);
    assert FaceScan(Boards(0xCC99_9CCC, 0xAA66_6AAA, 0x3333_3333, 0x5555_5555, 0xA999_99AA, 0x66CC_C666), 5, 1, 2) == Boards(0xCC99_9CCC, 0xAA66_6AAA, 0x3333_3333, 0x5555_5555, 0xA999_99AA, 0x66CC_C666);
    assert FaceScan(Boards(0xCC99_9CCC, 0xAA66_6AAA, 0x3333_3333, 0x5555_5555, 0xA999_99AA, 0x66CC_C666), 5, 1, 3) == Boards(0xCC99_9CCC, 0xAA66_6AAA, 0x3333_3333, 0x5555_5555, 0xA999_99AA, 0x66CC_C666);
  }

  lemma SecondScanOfSolvedFace2()
    ensures FaceScan(Boards(0xCC99_9CCC, 0xAA66_6AAA, 0x3333_3333, 0x5555_5555, 0xA999_99AA, 0x66CC_C666), 5, 2, 4) == Boards(0xCC99_9CCC, 0xAA66_6AAA, 0x3333_3333, 0x5555_5555, 0xA999_99AA, 0x66CC_C666)
  {
    assert FaceScan(Boards(0xCC99_9CCC, 0xAA66_6AAA, 0x3333_3333, 0x5555_5555, 0xA999_99AA, 0x66CC_C666), 5, 2, 1) == Boards(0xCC99_9CCC, 0xAA66_6AAA, 0x3333_3333, 0x5555_5555, 0xA999_99AA, 0x66CC_C666);
    assert FaceScan(Boards(0xCC99_9CCC, 0xAA66_6AAA, 0x3333_3333, 0x5555_5555, 0xA999_99AA, 0x66CC_C666), 5, 2, 2) == Boards(0xCC99_9CCC, 0xAA66_6AAA, 0x3333_3333, 0x5555_5555, 0xA999_99AA, 0x66CC_C666);
    assert FaceScan(Boards(0xCC99_9CCC, 0xAA66_6AAA, 0x3333_3333, 0x5555_5555, 0xA999_99AA, 0x66CC_C666), 5, 2, 3) == Boards(0xCC99_9CCC, 0xAA66_6AAA, 0x3333_3333, 0x5555_5555, 0xA999_99AA, 0x66CC_C666);
  }

  lemma SecondScanOfSolvedFace3()
    ensures FaceScan(Boards(0xCC99_9CCC, 0xAA66_6AAA, 0x3333_3333, 0x5555_5555, 0xA999_99AA, 0x66CC_C666), 5, 3, 4) == Boards(0xCC99_9CCC, 0xAA66_6AAA, 0x3333_3333, 0x5555_5555, 0xA999_99AA, 0x66CC_C666)
  {
    assert FaceScan(Boards(0xCC99_9CCC, 0xAA66_6AAA, 0x3333_3333, 0x5555_5555, 0xA999_99AA, 0x66CC_C666), 5, 3, 1) == Boards(0xCC99_9CCC, 0xAA66_6AAA, 0x3333_3333, 0x5555_5555, 0xA999_99AA, 0x66CC_C666);
    assert FaceScan(Boards(0xCC99_9CCC, 0xAA66_6AAA, 0x3333_3333, 0x5555_5555, 0xA999_99AA, 0x66CC_C666), 5, 3, 2) == Boards(0xCC99_9CCC, 0xAA66_6AAA, 0x3333_3333, 0x5555_5555, 0xA999_99AA, 0x66CC_C666);
    assert FaceScan(Boards(0xCC99_9CCC, 0xAA66_6AAA, 0x3333_3333, 0x5555_5555, 0xA999_99AA, 0x66CC_C666), 5, 3, 3) == Boards(0xCC99_9CCC, 0xAA66_6AAA, 0x3333_3333, 0x5555_5555, 0xA999_99AA, 0x66CC_C666);
  }

  lemma SecondScanOfSolvedFace4()
    ensures FaceScan(Boards(0xCC99_9CCC, 0xAA66_6AAA, 0x3333_3333, 0x5555_5555, 0xA999_99AA, 0x66CC_C666), 5, 4, 4) == Boards(0xCCCC_CCCC, 0xAAAA_AAAA, 0x3333_3333, 0x5555_5555, 0x9999_9999, 0x6666_6666)
  {
    assert FaceScan(Boards(0xCC99_9CCC, 0xAA66_6AAA, 0x3333_3333, 0x5555_5555, 0xA999_99AA, 0x66CC_C666), 5, 4, 1) == Boards(0xCC99_9CCC, 0xAA66_6AAA, 0x3333_3333, 0x5555_5555, 0xA999_99AA, 0x66CC_C666);
    assert FaceScan(Boards(0xCC99_9CCC, 0xAA66_6AAA, 0x3333_3333, 0x5555_5555, 0xA999_99AA, 0x66CC_C666), 5, 4, 2) == Boards(0xCC99_9CCC, 0xAA66_6AAA, 0x3333_3333, 0x5555_5555, 0xA999_99AA, 0x66CC_C666);
    assert FaceScan(Boards(0xCC99_9CCC, 0xAA66_6AAA, 0x3333_3333, 0x5555_5555, 0xA999_99AA, 0x66CC_C666), 5, 4, 3) == Boards(0xCC99_9CCC, 0xAA66_6AAA, 0x3333_3333, 0x5555_5555, 0xA999_99AA, 0x66CC_C666);
  }

  lemma SecondScanOfSolvedFace5()
    ensures FaceScan(Boards(0xCCCC_CCCC, 0xAAAA_AAAA, 0x3333_3333, 0x5555_5555, 0x9999_9999, 0x6666_6666), 5, 5, 4) == Boards(0xCCCC_CCCC, 0xAAAA_AAAA, 0x3333_3333, 0x5555_5555, 0x9999_9999, 0x6666_6666)
  {
    assert FaceScan(Boards(0xCCCC_CCCC, 0xAAAA_AAAA, 0x3333_3333, 0x5555_5555, 0x9999_9999, 0x6666_6666), 5, 5, 1) == Boards(0xCCCC_CCCC, 0xAAAA_AAAA, 0x3333_3333, 0x5555_5555, 0x9999_9999, 0x6666_6666);
    assert FaceScan(Boards(0xCCCC_CCCC, 0xAAAA_AAAA, 0x3333_3333, 0x5555_5555, 0x9999_9999, 0x6666_6666), 5, 5, 2) == Boards(0xCCCC_CCCC, 0xAAAA_AAAA, 0x3333_3333, 0x5555_5555, 0x9999_9999, 0x6666_6666);
    assert FaceScan(Boards(0xCCCC_CCCC, 0xAAAA_AAAA, 0x3333_3333, 0x5555_5555, 0x9999_9999, 0x6666_6666), 5, 5, 3) == Boards(0xCCCC_CCCC, 0xAAAA_AAAA, 0x3333_3333, 0x5555_5555, 0x9999_9999, 0x6666_6666);
  }

  /** The second scan brings it back with R (DBR found at position 2). */
  lemma SecondScanOfSolved()
    ensures ScanUpTo(Boards(0xCC99_9CCC, 0xAA66_6AAA, 0x3333_3333, 0x5555_5555, 0xA999_99AA, 0x66CC_C666), 5, 6) == Solved
  {
    SecondScanOfSolvedFace0();
    SecondScanOfSolvedFace1();
    SecondScanOfSolvedFace2();
    SecondScanOfSolvedFace3();
    SecondScanOfSolvedFace4();
    SecondScanOfSolvedFace5();
  }
  /** The solved cube is two-generator: its U corners read R, G, O, B clockwise. */
  lemma TwoGenOfSolved()
    ensures TwoGen(Solved)
  {
    FirstScanOfSolved();
    SecondScanOfSolved();
    assert PermutedDCorners(Solved) == Solved;
    UCornerWordOfSolved();
  }
  lemma UCornerWordOfSolved()
    ensures UCornerWord(Solved, 4) == 0x3090_5060
  {
    assert UCornerWord(Solved, 1) == 0x0000_0060;
    assert UCornerWord(Solved, 2) == 0x0000_5060;
    assert UCornerWord(Solved, 3) == 0x0090_5060;
  }

  /** The words of the solved cube after R U' R' U R' U' L. */
  lemma ScrambledByTestSequence()
    ensures ApplySequence(Solved, [4, 13, 16, 1, 16, 13, 3]) == Boards(0x99CC_5C59, 0x3A5C_CA66, 0x33A9_9333, 0xA565_6695, 0x55AA_A93A, 0x9366_C6CC)
  {
    ScrambleMove1();
    ApplyLast(Solved, [], 4);
    assert [] + [4] == [4];
    ScrambleMove2();
    ApplyLast(Solved, [4], 13);
    assert [4] + [13] == [4, 13];
    ScrambleMove3();
    ApplyLast(Solved, [4, 13], 16);
    assert [4, 13] + [16] == [4, 13, 16];
    ScrambleMove4();
    ApplyLast(Solved, [4, 13, 16], 1);
    assert [4, 13, 16] + [1] == [4, 13, 16, 1];
    ScrambleMove5();
    ApplyLast(Solved, [4, 13, 16, 1], 16);
    assert [4, 13, 16, 1] + [16] == [4, 13, 16, 1, 16];
    ScrambleMove6();
    ApplyLast(Solved, [4, 13, 16, 1, 16], 13);
    assert [4, 13, 16, 1, 16] + [13] == [4, 13, 16, 1, 16, 13];
    ScrambleMove7();
    ApplyLast(Solved, [4, 13, 16, 1, 16, 13], 3);
    assert [4, 13, 16, 1, 16, 13] + [3] == [4, 13, 16, 1, 16, 13, 3];
  }

  lemma ScrambleMove1()
    ensures RotatedBitboards(Boards(0xCCCC_CCCC, 0xAAAA_AAAA, 0x3333_3333, 0x5555_5555, 0x9999_9999, 0x6666_6666), 4) == Boards(0xCC66_6CCC, 0xAA99_9AAA, 0x3333_3333, 0x5555_5555, 0xC999_99CC, 0x66AA_A666)
  {
  }

  lemma ScrambleMove2()
    ensures RotatedBitboards(Boards(0xCC66_6CCC, 0xAA99_9AAA, 0x3333_3333, 0x5555_5555, 0xC999_99CC, 0x66AA_A666), 13) == Boards(0x666C_CCCC, 0xAA99_9AAA, 0xC993_3333, 0x66A5_5555, 0x5559_99CC, 0x333A_A666)
  {
  }

  lemma ScrambleMove3()
    ensures RotatedBitboards(Boards(0x666C_CCCC, 0xAA99_9AAA, 0xC993_3333, 0x66A5_5555, 0x5559_99CC, 0x333A_A666), 16) == Boards(0x66CC_5CCC, 0xAA3A_AAAA, 0xC993_3333, 0xA555_5566, 0x9559_9999, 0x336C_C666)
  {
  }

  lemma ScrambleMove4()
    ensures RotatedBitboards(Boards(0x66CC_5CCC, 0xAA3A_AAAA, 0xC993_3333, 0xA555_5566, 0x9559_9999, 0x336C_C666), 1) == Boards(0xCC66_CC5C, 0xAA3A_AAAA, 0x3363_3333, 0x9555_5566, 0xC999_9999, 0xA55C_C666)
  {
  }

  lemma ScrambleMove5()
    ensures RotatedBitboards(Boards(0xCC66_CC5C, 0xAA3A_AAAA, 0x3363_3333, 0x9555_5566, 0xC999_9999, 0xA55C_C666), 16) == Boards(0xCC99_CC5C, 0xAA5C_CAAA, 0x3363_3333, 0x5555_6695, 0xA999_993A, 0xA566_C666)
  {
  }

  lemma ScrambleMove6()
    ensures RotatedBitboards(Boards(0xCC99_CC5C, 0xAA5C_CAAA, 0x3363_3333, 0x5555_6695, 0xA999_993A, 0xA566_C666), 13) == Boards(0x99CC_5CCC, 0xAA5C_CAAA, 0xA993_3333, 0xA565_6695, 0x5559_993A, 0x3366_C666)
  {
  }

  lemma ScrambleMove7()
    ensures RotatedBitboards(Boards(0x99CC_5CCC, 0xAA5C_CAAA, 0xA993_3333, 0xA565_6695, 0x5559_993A, 0x3366_C666), 3) == Boards(0x99CC_5C59, 0x3A5C_CA66, 0x33A9_9333, 0xA565_6695, 0x55AA_A93A, 0x9366_C6CC)
  {
  }

  lemma FirstScanOfScrambledFace0()
    ensures FaceScan(Boards(0x99CC_5C59, 0x3A5C_CA66, 0x33A9_9333, 0xA565_6695, 0x55AA_A93A, 0x9366_C6CC), 6, 0, 4) == Boards(0x99CC_5C59, 0x3A5C_CA66, 0x33A9_9333, 0xA565_6695, 0x55AA_A93A, 0x9366_C6CC)
  {
    assert FaceScan(Boards(0x99CC_5C59, 0x3A5C_CA66, 0x33A9_9333, 0xA565_6695, 0x55AA_A93A, 0x9366_C6CC), 6, 0, 1) == Boards(0x99CC_5C59, 0x3A5C_CA66, 0x33A9_9333, 0xA565_6695, 0x55AA_A93A, 0x9366_C6CC);
    assert FaceScan(Boards(0x99CC_5C59, 0x3A5C_CA66, 0x33A9_9333, 0xA565_6695, 0x55AA_A93A, 0x9366_C6CC), 6, 0, 2) == Boards(0x99CC_5C59, 0x3A5C_CA66, 0x33A9_9333, 0xA565_6695, 0x55AA_A93A, 0x9366_C6CC);
    assert FaceScan(Boards(0x99CC_5C59, 0x3A5C_CA66, 0x33A9_9333, 0xA565_6695, 0x55AA_A93A, 0x9366_C6CC), 6, 0, 3) == Boards(0x99CC_5C59, 0x3A5C_CA66, 0x33A9_9333, 0xA565_6695, 0x55AA_A93A, 0x9366_C6CC);
  }

  lemma FirstScanOfScrambledFace1()
    ensures FaceScan(Boards(0x99CC_5C59, 0x3A5C_CA66, 0x33A9_9333, 0xA565_6695, 0x55AA_A93A, 0x9366_C6CC), 6, 1, 4) == Boards(0x99CC_5C59, 0x3A5C_CA66, 0x33A9_9333, 0xA565_6695, 0x55AA_A93A, 0x9366_C6CC)
  {
    assert FaceScan(Boards(0x99CC_5C59, 0x3A5C_CA66, 0x33A9_9333, 0xA565_6695, 0x55AA_A93A, 0x9366_C6CC), 6, 1, 1) == Boards(0x99CC_5C59, 0x3A5C_CA66, 0x33A9_9333, 0xA565_6695, 0x55AA_A93A, 0x9366_C6CC);
    assert FaceScan(Boards(0x99CC_5C59, 0x3A5C_CA66, 0x33A9_9333, 0xA565_6695, 0x55AA_A93A, 0x9366_C6CC), 6, 1, 2) == Boards(0x99CC_5C59, 0x3A5C_CA66, 0x33A9_9333, 0xA565_6695, 0x55AA_A93A, 0x9366_C6CC);
    assert FaceScan(Boards(0x99CC_5C59, 0x3A5C_CA66, 0x33A9_9333, 0xA565_6695, 0x55AA_A93A, 0x9366_C6CC), 6, 1, 3) == Boards(0x99CC_5C59, 0x3A5C_CA66, 0x33A9_9333, 0xA565_6695, 0x55AA_A93A, 0x9366_C6CC);
  }

  lemma FirstScanOfScrambledFace2()
    ensures FaceScan(Boards(0x99CC_5C59, 0x3A5C_CA66, 0x33A9_9333, 0xA565_6695, 0x55AA_A93A, 0x9366_C6CC), 6, 2, 4) == Boards(0x99CC_5C59, 0x3A5C_CA66, 0x33A9_9333, 0xA565_6695, 0x55AA_A93A, 0x9366_C6CC)
  {
    assert FaceScan(Boards(0x99CC_5C59, 0x3A5C_CA66, 0x33A9_9333, 0xA565_6695, 0x55AA_A93A, 0x9366_C6CC), 6, 2, 1) == Boards(0x99CC_5C59, 0x3A5C_CA66, 0x33A9_9333, 0xA565_6695, 0x55AA_A93A, 0x9366_C6CC);
    assert FaceScan(Boards(0x99CC_5C59, 0x3A5C_CA66, 0x33A9_9333, 0xA565_6695, 0x55AA_A93A, 0x9366_C6CC), 6, 2, 2) == Boards(0x99CC_5C59, 0x3A5C_CA66, 0x33A9_9333, 0xA565_6695, 0x55AA_A93A, 0x9366_C6CC);
    assert FaceScan(Boards(0x99CC_5C59, 0x3A5C_CA66, 0x33A9_9333, 0xA565_6695, 0x55AA_A93A, 0x9366_C6CC), 6, 2, 3) == Boards(0x99CC_5C59, 0x3A5C_CA66, 0x33A9_9333, 0xA565_6695, 0x55AA_A93A, 0x9366_C6CC);
  }

  lemma FirstScanOfScrambledFace3()
    ensures FaceScan(Boards(0x99CC_5C59, 0x3A5C_CA66, 0x33A9_9333, 0xA565_6695, 0x55AA_A93A, 0x9366_C6CC), 6, 3, 4) == Boards(0x995C_CC59, 0x3ACC_5A66, 0x33A9_9333, 0x6695_A565, 0xC5AA_A966, 0x933A_56CC)
  {
    assert FaceScan(Boards(0x99CC_5C59, 0x3A5C_CA66, 0x33A9_9333, 0xA565_6695, 0x55AA_A93A, 0x9366_C6CC), 6, 3, 1) == Boards(0x99CC_5C59, 0x3A5C_CA66, 0x33A9_9333, 0xA565_6695, 0x55AA_A93A, 0x9366_C6CC);
    assert FaceScan(Boards(0x99CC_5C59, 0x3A5C_CA66, 0x33A9_9333, 0xA565_6695, 0x55AA_A93A, 0x9366_C6CC), 6, 3, 2) == Boards(0x99CC_5C59, 0x3A5C_CA66, 0x33A9_9333, 0xA565_6695, 0x55AA_A93A, 0x9366_C6CC);
    assert FaceScan(Boards(0x99CC_5C59, 0x3A5C_CA66, 0x33A9_9333, 0xA565_6695, 0x55AA_A93A, 0x9366_C6CC), 6, 3, 3) == Boards(0x99CC_5C59, 0x3A5C_CA66, 0x33A9_9333, 0xA565_6695, 0x55AA_A93A, 0x9366_C6CC);
    assert ApplySequence(Boards(0x99CC_5C59, 0x3A5C_CA66, 0x33A9_9333, 0xA565_6695, 0x55AA_A93A, 0x9366_C6CC), [10]) == Boards(0x995C_CC59, 0x3ACC_5A66, 0x33A9_9333, 0x6695_A565, 0xC5AA_A966, 0x933A_56CC);
  }

  lemma FirstScanOfScrambledFace4()
    ensures FaceScan(Boards(0x995C_CC59, 0x3ACC_5A66, 0x33A9_9333, 0x6695_A565, 0xC5AA_A966, 0x933A_56CC), 6, 4, 4) == Boards(0x995C_CC59, 0x3ACC_5A66, 0x33A9_9333, 0x6695_A565, 0xC5AA_A966, 0x933A_56CC)
  {
    assert FaceScan(Boards(0x995C_CC59, 0x3ACC_5A66, 0x33A9_9333, 0x6695_A565, 0xC5AA_A966, 0x933A_56CC), 6, 4, 1) == Boards(0x995C_CC59, 0x3ACC_5A66, 0x33A9_9333, 0x6695_A565, 0xC5AA_A966, 0x933A_56CC);
    assert FaceScan(Boards(0x995C_CC59, 0x3ACC_5A66, 0x33A9_9333, 0x6695_A565, 0xC5AA_A966, 0x933A_56CC), 6, 4, 2) == Boards(0x995C_CC59, 0x3ACC_5A66, 0x33A9_9333, 0x6695_A565, 0xC5AA_A966, 0x933A_56CC);
    assert FaceScan(Boards(0x995C_CC59, 0x3ACC_5A66, 0x33A9_9333, 0x6695_A565, 0xC5AA_A966, 0x933A_56CC), 6, 4, 3) == Boards(0x995C_CC59, 0x3ACC_5A66, 0x33A9_9333, 0x6695_A565, 0xC5AA_A966, 0x933A_56CC);
  }

  lemma FirstScanOfScrambledFace5()
    ensures FaceScan(Boards(0x995C_CC59, 0x3ACC_5A66, 0x33A9_9333, 0x6695_A565, 0xC5AA_A966, 0x933A_56CC), 6, 5, 4) == Boards(0x995C_CC59, 0x3ACC_5A66, 0x33A9_9333, 0x6695_A565, 0xC5AA_A966, 0x933A_56CC)
  {
    assert FaceScan(Boards(0x995C_CC59, 0x3ACC_5A66, 0x33A9_9333, 0x6695_A565, 0xC5AA_A966, 0x933A_56CC), 6, 5, 1) == Boards(0x995C_CC59, 0x3ACC_5A66, 0x33A9_9333, 0x6695_A565, 0xC5AA_A966, 0x933A_56CC);
    assert FaceScan(Boards(0x995C_CC59, 0x3ACC_5A66, 0x33A9_9333, 0x6695_A565, 0xC5AA_A966, 0x933A_56CC), 6, 5, 2) == Boards(0x995C_CC59, 0x3ACC_5A66, 0x33A9_9333, 0x6695_A565, 0xC5AA_A966, 0x933A_56CC);
    assert FaceScan(Boards(0x995C_CC59, 0x3ACC_5A66, 0x33A9_9333, 0x6695_A565, 0xC5AA_A966, 0x933A_56CC), 6, 5, 3) == Boards(0x995C_CC59, 0x3ACC_5A66, 0x33A9_9333, 0x6695_A565, 0xC5AA_A966, 0x933A_56CC);
  }

  lemma FirstScanOfScrambled()
    ensures ScanUpTo(Boards(0x99CC_5C59, 0x3A5C_CA66, 0x33A9_9333, 0xA565_6695, 0x55AA_A93A, 0x9366_C6CC), 6, 6) == Boards(0x995C_CC59, 0x3ACC_5A66, 0x33A9_9333, 0x6695_A565, 0xC5AA_A966, 0x933A_56CC)
  {
    FirstScanOfScrambledFace0();
    FirstScanOfScrambledFace1();
    FirstScanOfScrambledFace2();
    FirstScanOfScrambledFace3();
    FirstScanOfScrambledFace4();
    FirstScanOfScrambledFace5();
  }

  lemma SecondScanOfScrambledFace0()
    ensures FaceScan(Boards(0x995C_CC59, 0x3ACC_5A66, 0x33A9_9333, 0x6695_A565, 0xC5AA_A966, 0x933A_56CC), 5, 0, 4) == Boards(0x995C_CC59, 0x3ACC_5A66, 0x33A9_9333, 0x6695_A565, 0xC5AA_A966, 0x933A_56CC)
  {
    assert FaceScan(Boards(0x995C_CC59, 0x3ACC_5A66, 0x33A9_9333, 0x6695_A565, 0xC5AA_A966, 0x933A_56CC), 5, 0, 1) == Boards(0x995C_CC59, 0x3ACC_5A66, 0x33A9_9333, 0x6695_A565, 0xC5AA_A966, 0x933A_56CC);
    assert FaceScan(Boards(0x995C_CC59, 0x3ACC_5A66, 0x33A9_9333, 0x6695_A565, 0xC5AA_A966, 0x933A_56CC), 5, 0, 2) == Boards(0x995C_CC59, 0x3ACC_5A66, 0x33A9_9333, 0x6695_A565, 0xC5AA_A966, 0x933A_56CC);
    assert FaceScan(Boards(0x995C_CC59, 0x3ACC_5A66, 0x33A9_9333, 0x6695_A565, 0xC5AA_A966, 0x933A_56CC), 5, 0, 3) == Boards(0x995C_CC59, 0x3ACC_5A66, 0x33A9_9333, 0x6695_A565, 0xC5AA_A966, 0x933A_56CC);
  }

  lemma SecondScanOfScrambledFace1()
    ensures FaceScan(Boards(0x995C_CC59, 0x3ACC_5A66, 0x33A9_9333, 0x6695_A565, 0xC5AA_A966, 0x933A_56CC), 5, 1, 4) == Boards(0x995C_CC59, 0x3ACC_5A66, 0x33A9_9333, 0x6695_A565, 0xC5AA_A966, 0x933A_56CC)
  {
    assert FaceScan(Boards(0x995C_CC59, 0x3ACC_5A66, 0x33A9_9333, 0x6695_A565, 0xC5AA_A966, 0x933A_56CC), 5, 1, 1) == Boards(0x995C_CC59, 0x3ACC_5A66, 0x33A9_9333, 0x6695_A565, 0xC5AA_A966, 0x933A_56CC);
    assert FaceScan(Boards(0x995C_CC59, 0x3ACC_5A66, 0x33A9_9333, 0x6695_A565, 0xC5AA_A966, 0x933A_56CC), 5, 1, 2) == Boards(0x995C_CC59, 0x3ACC_5A66, 0x33A9_9333, 0x6695_A565, 0xC5AA_A966, 0x933A_56CC);
    assert FaceScan(Boards(0x995C_CC59, 0x3ACC_5A66, 0x33A9_9333, 0x6695_A565, 0xC5AA_A966, 0x933A_56CC), 5, 1, 3) == Boards(0x995C_CC59, 0x3ACC_5A66, 0x33A9_9333, 0x6695_A565, 0xC5AA_A966, 0x933A_56CC);
  }

  /** The insertion the second scan makes on the scrambled cube: U2, then R. */
  lemma InsertionOfScrambled()
    ensures ApplySequence(Boards(0x995C_CC59, 0x3ACC_5A66, 0x33A9_9333, 0x6695_A565, 0xC5AA_A966, 0x933A_56CC), [7, 4]) == Boards(0xCCAA_595C, 0x3A66_9A66, 0x6699_9333, 0x6533_A5A5, 0x933A_A959, 0xC5CC_56CC)
  {
    assert ApplySequence(Boards(0x995C_CC59, 0x3ACC_5A66, 0x33A9_9333, 0x6695_A565, 0xC5AA_A966, 0x933A_56CC), [7]) == Boards(0xCC59_995C, 0x3ACC_5A66, 0x6699_9333, 0x33A5_A565, 0x933A_A966, 0xC5AA_56CC);
    assert [7, 4][..1] == [7];
  }

  lemma SecondScanOfScrambledFace2()
    ensures FaceScan(Boards(0x995C_CC59, 0x3ACC_5A66, 0x33A9_9333, 0x6695_A565, 0xC5AA_A966, 0x933A_56CC), 5, 2, 4) == Boards(0xCCAA_595C, 0x3A66_9A66, 0x6699_9333, 0x6533_A5A5, 0x933A_A959, 0xC5CC_56CC)
  {
    assert FaceScan(Boards(0x995C_CC59, 0x3ACC_5A66, 0x33A9_9333, 0x6695_A565, 0xC5AA_A966, 0x933A_56CC), 5, 2, 1) == Boards(0x995C_CC59, 0x3ACC_5A66, 0x33A9_9333, 0x6695_A565, 0xC5AA_A966, 0x933A_56CC);
    assert FaceScan(Boards(0x995C_CC59, 0x3ACC_5A66, 0x33A9_9333, 0x6695_A565, 0xC5AA_A966, 0x933A_56CC), 5, 2, 2) == Boards(0x995C_CC59, 0x3ACC_5A66, 0x33A9_9333, 0x6695_A565, 0xC5AA_A966, 0x933A_56CC);
    InsertionOfScrambled();
    assert FaceScan(Boards(0x995C_CC59, 0x3ACC_5A66, 0x33A9_9333, 0x6695_A565, 0xC5AA_A966, 0x933A_56CC), 5, 2, 3) == Boards(0xCCAA_595C, 0x3A66_9A66, 0x6699_9333, 0x6533_A5A5, 0x933A_A959, 0xC5CC_56CC);
  }

  lemma SecondScanOfScrambledFace3()
    ensures FaceScan(Boards(0xCCAA_595C, 0x3A66_9A66, 0x6699_9333, 0x6533_A5A5, 0x933A_A959, 0xC5CC_56CC), 5, 3, 4) == Boards(0xCCAA_595C, 0x3A66_9A66, 0x6699_9333, 0x6533_A5A5, 0x933A_A959, 0xC5CC_56CC)
  {
    assert FaceScan(Boards(0xCCAA_595C, 0x3A66_9A66, 0x6699_9333, 0x6533_A5A5, 0x933A_A959, 0xC5CC_56CC), 5, 3, 1) == Boards(0xCCAA_595C, 0x3A66_9A66, 0x6699_9333, 0x6533_A5A5, 0x933A_A959, 0xC5CC_56CC);
    assert FaceScan(Boards(0xCCAA_595C, 0x3A66_9A66, 0x6699_9333, 0x6533_A5A5, 0x933A_A959, 0xC5CC_56CC), 5, 3, 2) == Boards(0xCCAA_595C, 0x3A66_9A66, 0x6699_9333, 0x6533_A5A5, 0x933A_A959, 0xC5CC_56CC);
    assert FaceScan(Boards(0xCCAA_595C, 0x3A66_9A66, 0x6699_9333, 0x6533_A5A5, 0x933A_A959, 0xC5CC_56CC), 5, 3, 3) == Boards(0xCCAA_595C, 0x3A66_9A66, 0x6699_9333, 0x6533_A5A5, 0x933A_A959, 0xC5CC_56CC);
  }

  lemma SecondScanOfScrambledFace4()
    ensures FaceScan(Boards(0xCCAA_595C, 0x3A66_9A66, 0x6699_9333, 0x6533_A5A5, 0x933A_A959, 0xC5CC_56CC), 5, 4, 4) == Boards(0xCCAA_595C, 0x3A66_9A66, 0x6699_9333, 0x6533_A5A5, 0x933A_A959, 0xC5CC_56CC)
  {
    assert FaceScan(Boards(0xCCAA_595C, 0x3A66_9A66, 0x6699_9333, 0x6533_A5A5, 0x933A_A959, 0xC5CC_56CC), 5, 4, 1) == Boards(0xCCAA_595C, 0x3A66_9A66, 0x6699_9333, 0x6533_A5A5, 0x933A_A959, 0xC5CC_56CC);
    assert FaceScan(Boards(0xCCAA_595C, 0x3A66_9A66, 0x6699_9333, 0x6533_A5A5, 0x933A_A959, 0xC5CC_56CC), 5, 4, 2) == Boards(0xCCAA_595C, 0x3A66_9A66, 0x6699_9333, 0x6533_A5A5, 0x933A_A959, 0xC5CC_56CC);
    assert FaceScan(Boards(0xCCAA_595C, 0x3A66_9A66, 0x6699_9333, 0x6533_A5A5, 0x933A_A959, 0xC5CC_56CC), 5, 4, 3) == Boards(0xCCAA_595C, 0x3A66_9A66, 0x6699_9333, 0x6533_A5A5, 0x933A_A959, 0xC5CC_56CC);
  }

  lemma SecondScanOfScrambledFace5()
    ensures FaceScan(Boards(0xCCAA_595C, 0x3A66_9A66, 0x6699_9333, 0x6533_A5A5, 0x933A_A959, 0xC5CC_56CC), 5, 5, 4) == Boards(0xCCAA_595C, 0x3A66_9A66, 0x6699_9333, 0x6533_A5A5, 0x933A_A959, 0xC5CC_56CC)
  {
    assert FaceScan(Boards(0xCCAA_595C, 0x3A66_9A66, 0x6699_9333, 0x6533_A5A5, 0x933A_A959, 0xC5CC_56CC), 5, 5, 1) == Boards(0xCCAA_595C, 0x3A66_9A66, 0x6699_9333, 0x6533_A5A5, 0x933A_A959, 0xC5CC_56CC);
    assert FaceScan(Boards(0xCCAA_595C, 0x3A66_9A66, 0x6699_9333, 0x6533_A5A5, 0x933A_A959, 0xC5CC_56CC), 5, 5, 2) == Boards(0xCCAA_595C, 0x3A66_9A66, 0x6699_9333, 0x6533_A5A5, 0x933A_A959, 0xC5CC_56CC);
    assert FaceScan(Boards(0xCCAA_595C, 0x3A66_9A66, 0x6699_9333, 0x6533_A5A5, 0x933A_A959, 0xC5CC_56CC), 5, 5, 3) == Boards(0xCCAA_595C, 0x3A66_9A66, 0x6699_9333, 0x6533_A5A5, 0x933A_A959, 0xC5CC_56CC);
  }

  lemma SecondScanOfScrambled()
    ensures ScanUpTo(Boards(0x995C_CC59, 0x3ACC_5A66, 0x33A9_9333, 0x6695_A565, 0xC5AA_A966, 0x933A_56CC), 5, 6) == Boards(0xCCAA_595C, 0x3A66_9A66, 0x6699_9333, 0x6533_A5A5, 0x933A_A959, 0xC5CC_56CC)
  {
    SecondScanOfScrambledFace0();
    SecondScanOfScrambledFace1();
    SecondScanOfScrambledFace2();
    SecondScanOfScrambledFace3();
    SecondScanOfScrambledFace4();
    SecondScanOfScrambledFace5();
  }

  lemma UCornerWordOfScrambled()
    ensures UCornerWord(Boards(0xCCAA_595C, 0x3A66_9A66, 0x6699_9333, 0x6533_A5A5, 0x933A_A959, 0xC5CC_56CC), 4) == 0x60A0_5090
  {
    var b := Boards(0xCCAA_595C, 0x3A66_9A66, 0x6699_9333, 0x6533_A5A5, 0x933A_A959, 0xC5CC_56CC);
    assert CornerContribution(b, 4) == 0x0000_0090;
    assert UCornerWord(b, 1) == 0x0000_0090;
    assert CornerContribution(b, 12) == 0x0000_5000;
    assert UCornerWord(b, 2) == 0x0000_5090;
    assert CornerContribution(b, 20) == 0x00A0_0000;
    assert UCornerWord(b, 3) == 0x00A0_5090;
    assert CornerContribution(b, 28) == 0x6000_0000;
    assert UCornerWord(b, 4) == 0x60A0_5090;
  }

  /** That cube is not two-generator: its U word 0x60A05090 is off the cycle. */
  lemma NotTwoGenAfterTestSequence()
    ensures !TwoGen(ApplySequence(Solved, [4, 13, 16, 1, 16, 13, 3]))
  {
    ScrambledByTestSequence();
    FirstScanOfScrambled();
    SecondScanOfScrambled();
    UCornerWordOfScrambled();
  }
}
