/*
 * Reading pieces off the face words: the other sticker of an edge, the next sticker of
 * a corner clockwise, a corner's position, and the two-generator test that the solver's
 * third stage uses (`PermutedDCornersOutcome`, `IsTwoGenIfLeftBlock`).
 *
 * A sticker is addressed by a face index and the bit offset of its nibble in that
 * face's word: edges sit at offsets 0, 8, 16, 24 and corners at 4, 12, 20, 28.
 */
module CubePieces {
  import opened Wrappers
  import opened CubeState

  /** A sticker address: a face index and the offset of its nibble. */
  datatype Slot = Slot(face: nat, shift: nat)

  predicate IsEdgeSlot(face: int, shift: int)
  {
    0 <= face < 6 && (shift == 0 || shift == 8 || shift == 16 || shift == 24)
  }

  predicate IsCornerSlot(face: int, shift: int)
  {
    0 <= face < 6 && (shift == 4 || shift == 12 || shift == 20 || shift == 28)
  }

  /** The colour nibble at offset `shift` of a word (the source's `word >> shift & 0xF`). */
  function Nibble(w: bv32, shift: bv5): (r: bv32)
    ensures r <= 0xF
  {
    (w >> shift) & 0xF
  }

  /** The nibble offsets the source uses: the multiples of 4 below 32. */
  predicate IsOffset(shift: int)
  {
    shift == 0 || shift == 4 || shift == 8 || shift == 12 || shift == 16 || shift == 20 || shift == 24 || shift == 28
  }

  /** A nibble offset as a 5-bit shift count. */
  function ShiftCount(shift: int): (r: bv5)
    requires IsOffset(shift)
  {
    match shift
    case 0 => 0
    case 4 => 4
    case 8 => 8
    case 12 => 12
    case 16 => 16
    case 20 => 20
    case 24 => 24
    case _ => 28
  }

  /** The colour of the sticker at a slot. */
  function Read(b: Boards, s: Slot): (r: bv32)
    requires s.face < 6 && IsOffset(s.shift)
    ensures r <= 0xF
  {
    Nibble(Word(b, s.face), ShiftCount(s.shift))
  }

  // ---------------------------------------------------------------------------------
  // Edges
  // ---------------------------------------------------------------------------------

  /** The other sticker of the edge piece at (face, shift), as `GetRelatedEdge`'s switch reads it. */
  function RelatedEdgeSlot(face: int, shift: int): (r: Option<Slot>)
    ensures r.Some? ==> r.value.face < 6 && IsOffset(r.value.shift)
  {
    match (face, shift)
    case (0, 0) => Some(Slot(2, 24))
    case (0, 8) => Some(Slot(5, 24))
    case (0, 16) => Some(Slot(3, 24))
    case (0, 24) => Some(Slot(4, 24))
    case (1, 0) => Some(Slot(2, 8))
    case (1, 8) => Some(Slot(4, 8))
    case (1, 16) => Some(Slot(3, 8))
    case (1, 24) => Some(Slot(5, 8))
    case (2, 0) => Some(Slot(4, 16))
    case (2, 8) => Some(Slot(1, 0))
    case (2, 16) => Some(Slot(5, 0))
    case (2, 24) => Some(Slot(0, 0))
    case (3, 0) => Some(Slot(5, 16))
    case (3, 8) => Some(Slot(1, 16))
    case (3, 16) => Some(Slot(4, 0))
    case (3, 24) => Some(Slot(0, 16))
    case (4, 0) => Some(Slot(3, 16))
    case (4, 8) => Some(Slot(1, 8))
    case (4, 16) => Some(Slot(2, 0))
    case (4, 24) => Some(Slot(0, 24))
    case (5, 0) => Some(Slot(2, 16))
    case (5, 8) => Some(Slot(1, 24))
    case (5, 16) => Some(Slot(3, 0))
    case (5, 24) => Some(Slot(0, 8))
    case _ => None
  }

  /** `GetRelatedEdge`: the colour of the other sticker of an edge; 0 for an address that is not an edge. */
  function GetRelatedEdge(b: Boards, face: UInt32, shift: int): (r: bv32)
    ensures r <= 0xF
    ensures !IsEdgeSlot(face, shift) ==> r == 0
  {
    match RelatedEdgeSlot(face, shift)
    case None => 0
    case Some(p) => Read(b, p)
  }

  /**
   * Every edge address, and only an edge address, has a partner; the partner is an
   * edge sticker on another face, and its partner is the sticker it came from.
   */
  lemma EdgeStickersPairUp(face: int, shift: int)
    ensures RelatedEdgeSlot(face, shift).Some? <==> IsEdgeSlot(face, shift)
    ensures RelatedEdgeSlot(face, shift).Some? ==>
      var p := RelatedEdgeSlot(face, shift).value;
      IsEdgeSlot(p.face, p.shift) && p.face != face && RelatedEdgeSlot(p.face, p.shift) == Some(Slot(face, shift))
  {
  }

  // ---------------------------------------------------------------------------------
  // Corners
  // ---------------------------------------------------------------------------------

  /** The next sticker clockwise of the corner piece at (face, shift), as `GetClockwiseRelatedCorner` reads it. */
  function ClockwiseSlot(face: int, shift: int): (r: Option<Slot>)
    ensures r.Some? ==> r.value.face < 6 && IsOffset(r.value.shift)
  {
    match (face, shift)
    case (0, 4) => Some(Slot(5, 28))
    case (0, 12) => Some(Slot(3, 28))
    case (0, 20) => Some(Slot(4, 28))
    case (0, 28) => Some(Slot(2, 28))
    case (1, 4) => Some(Slot(4, 12))
    case (1, 12) => Some(Slot(3, 12))
    case (1, 20) => Some(Slot(5, 12))
    case (1, 28) => Some(Slot(2, 12))
    case (2, 4) => Some(Slot(1, 4))
    case (2, 12) => Some(Slot(5, 4))
    case (2, 20) => Some(Slot(0, 4))
    case (2, 28) => Some(Slot(4, 20))
    case (3, 4) => Some(Slot(1, 20))
    case (3, 12) => Some(Slot(4, 4))
    case (3, 20) => Some(Slot(0, 20))
    case (3, 28) => Some(Slot(5, 20))
    case (4, 4) => Some(Slot(1, 12))
    case (4, 12) => Some(Slot(2, 4))
    case (4, 20) => Some(Slot(0, 28))
    case (4, 28) => Some(Slot(3, 20))
    case (5, 4) => Some(Slot(1, 28))
    case (5, 12) => Some(Slot(3, 4))
    case (5, 20) => Some(Slot(0, 12))
    case (5, 28) => Some(Slot(2, 20))
    case _ => None
  }

  /** `GetClockwiseRelatedCorner`: the colour of the next sticker clockwise of a corner; 0 off the corners. */
  function GetClockwiseRelatedCorner(b: Boards, face: UInt32, shift: int): (r: bv32)
    ensures r <= 0xF
    ensures !IsCornerSlot(face, shift) ==> r == 0
  {
    match ClockwiseSlot(face, shift)
    case None => 0
    case Some(p) => Read(b, p)
  }

  /**
   * Every corner address, and only a corner address, has a clockwise neighbour; going
   * clockwise three times comes back, through three different faces.
   */
  lemma CornerStickersCycle(face: int, shift: int)
    ensures ClockwiseSlot(face, shift).Some? <==> IsCornerSlot(face, shift)
    ensures ClockwiseSlot(face, shift).Some? ==>
      var p := ClockwiseSlot(face, shift).value;
      IsCornerSlot(p.face, p.shift) && ClockwiseSlot(p.face, p.shift).Some? &&
      var q := ClockwiseSlot(p.face, p.shift).value;
      q.face != face && q.face != p.face && p.face != face &&
      ClockwiseSlot(q.face, q.shift) == Some(Slot(face, shift))
  {
  }

  /**
   * `GetCornerPosition`: an id 1..8 of the corner position holding the sticker, from
   * `face + shift`, which separates the corner addresses because every face index is
   * below the gap of 8 between corner offsets; any other sum gives 0.
   */
  function GetCornerPosition(face: UInt32, shift: int): (r: UInt32)
    ensures r <= 8
  {
    match face + shift
    case 28 | 24 | 30 => 1
    case 20 | 32 | 23 => 2
    case 12 | 25 | 31 => 3
    case 4 | 33 | 22 => 4
    case 5 | 16 | 6 => 5
    case 13 | 8 | 15 => 6
    case 21 | 17 | 7 => 7
    case 29 | 9 | 14 => 8
    case _ => 0
  }

  /** The three stickers of one corner piece share a position id, and it is 1..8. */
  lemma CornerPositionOfPiece(face: UInt32, shift: int)
    requires IsCornerSlot(face, shift)
    ensures 1 <= GetCornerPosition(face, shift) <= 8
    ensures var p := ClockwiseSlot(face, shift).value;
      GetCornerPosition(p.face, p.shift) == GetCornerPosition(face, shift)
  {
  }

  /** Two corner stickers with the same position id belong to the same piece: there are exactly three per id. */
  lemma SamePositionSamePiece(face: UInt32, shift: int, face': UInt32, shift': int)
    requires IsCornerSlot(face, shift) && IsCornerSlot(face', shift')
    requires GetCornerPosition(face, shift) == GetCornerPosition(face', shift')
    ensures var p := ClockwiseSlot(face, shift).value;
      var q := ClockwiseSlot(p.face, p.shift).value;
      Slot(face', shift') == Slot(face, shift) || Slot(face', shift') == p || Slot(face', shift') == q
  {
  }

  /** Every id 1..8 is the position of some corner sticker, so, with the lemma above, of exactly one piece's three. */
  lemma EveryPositionHasACorner(id: UInt32)
    requires 1 <= id <= 8
    ensures exists face: UInt32, shift: int :: IsCornerSlot(face, shift) && GetCornerPosition(face, shift) == id
  {
    var face: UInt32 := if id <= 4 then 0 else 1;
    var shift := [28, 20, 12, 4, 4, 12, 20, 28][id - 1];
    assert IsCornerSlot(face, shift) && GetCornerPosition(face, shift) == id;
  }

  /**
   * The id depends only on `face + shift`, so some addresses that are not corners get
   * an id too: the B sticker at edge offset 0 shares the sum 4 with the U corner at 4.
   * The callers only pass corner addresses.
   */
  lemma NonCornerAddressWithId()
    ensures !IsCornerSlot(4, 0) && GetCornerPosition(4, 0) == GetCornerPosition(0, 4) == 4
  {
  }

  // ---------------------------------------------------------------------------------
  // The two-generator test
  // ---------------------------------------------------------------------------------

  /** The move codes that bring the D corner whose clockwise sticker is `clockwise` from `position` into place. */
  function InsertMoves(clockwise: bv32, position: UInt32): (r: seq<UInt32>)
    ensures forall i :: 0 <= i < |r| ==> r[i] in {1, 7, 13, 4, 10, 16}
  {
    if clockwise == 6 then
      match position
      case 1 => [1, 4]
      case 2 => [4]
      case 3 => [10]
      case 4 => [7, 4]
      case 7 => [16]
      case _ => []
    else
      match position
      case 1 => [1, 4]
      case 2 => [4]
      case 3 => [13, 4]
      case 4 => [7, 4]
      case 7 => [4, 1, 4, 13, 10]
      case _ => []
  }

  /**
   * One step of a scan: if the corner sticker at (face, shift) is a D sticker
   * (colour 10) whose clockwise neighbour has colour `clockwise`, insert that corner.
   */
  function CornerStep(b: Boards, clockwise: bv32, face: nat, shift: nat): Boards
    requires face < 6 && IsOffset(shift)
  {
    if Read(b, Slot(face, shift)) == 10 && GetClockwiseRelatedCorner(b, face, shift) == clockwise then
      Insert(b, clockwise, GetCornerPosition(face, shift))
    else b
  }

  /** The words after the insertion moves for a corner at `position`. */
  function Insert(b: Boards, clockwise: bv32, position: UInt32): Boards
  {
    ApplySequence(b, InsertMoves(clockwise, position))
  }

  /** The words after the steps at the first `j` corner offsets (4, 12, ...) of one face. */
  function FaceScan(b: Boards, clockwise: bv32, face: nat, j: nat): Boards
    requires face < 6 && j <= 4
  {
    if j == 0 then b else CornerStep(FaceScan(b, clockwise, face, j - 1), clockwise, face, 4 + 8 * (j - 1))
  }

  /** The words after scanning the first `n` faces, each step acting on the words left by the one before. */
  function ScanUpTo(b: Boards, clockwise: bv32, n: nat): Boards
    requires n <= 6
  {
    if n == 0 then b else FaceScan(ScanUpTo(b, clockwise, n - 1), clockwise, n - 1, 4)
  }

  /** The words `PermutedDCornersOutcome` leaves: the DFR scan, then the DBR scan. */
  function PermutedDCorners(b: Boards): Boards
  {
    ScanUpTo(ScanUpTo(b, 6, 6), 5, 6)
  }

  predicate TwoGenMoves(s: seq<UInt32>)
  {
    forall i :: 0 <= i < |s| ==> s[i] in {1, 7, 13, 4, 10, 16}
  }

  /** `b` turns into `c` by U and R moves alone. */
  ghost predicate ReachableByUAndR(b: Boards, c: Boards)
  {
    exists s :: TwoGenMoves(s) && c == ApplySequence(b, s)
  }

  /** U and R moves followed by U and R moves are U and R moves. */
  lemma ReachableByUAndRTransitive(a: Boards, b: Boards, c: Boards)
    requires ReachableByUAndR(a, b) && ReachableByUAndR(b, c)
    ensures ReachableByUAndR(a, c)
  {
    var s :| TwoGenMoves(s) && b == ApplySequence(a, s);
    var t :| TwoGenMoves(t) && c == ApplySequence(b, t);
    ApplyAppend(a, s, t);
    assert TwoGenMoves(s + t);
  }

  /** One step of a scan turns U and R only, if anything. */
  lemma CornerStepTurnsOnlyUAndR(b: Boards, clockwise: bv32, face: nat, shift: nat)
    requires face < 6 && IsOffset(shift)
    ensures ReachableByUAndR(b, CornerStep(b, clockwise, face, shift))
  {
    if Read(b, Slot(face, shift)) == 10 && GetClockwiseRelatedCorner(b, face, shift) == clockwise {
      var t := InsertMoves(clockwise, GetCornerPosition(face, shift));
      assert TwoGenMoves(t) && CornerStep(b, clockwise, face, shift) == ApplySequence(b, t);
    } else {
      assert TwoGenMoves([]) && CornerStep(b, clockwise, face, shift) == ApplySequence(b, []);
    }
  }

  /** The steps on one face only turn U and R. */
  lemma {:induction false} FaceScanTurnsOnlyUAndR(b: Boards, clockwise: bv32, face: nat, j: nat)
    requires face < 6 && j <= 4
    ensures ReachableByUAndR(b, FaceScan(b, clockwise, face, j))
  {
    if j == 0 {
      assert TwoGenMoves([]) && FaceScan(b, clockwise, face, 0) == ApplySequence(b, []);
    } else {
      FaceScanTurnsOnlyUAndR(b, clockwise, face, j - 1);
      var before := FaceScan(b, clockwise, face, j - 1);
      FaceScanStep(b, clockwise, face, j - 1, 4 + 8 * (j - 1));
      CornerStepTurnsOnlyUAndR(before, clockwise, face, 4 + 8 * (j - 1));
      ReachableByUAndRTransitive(b, before, FaceScan(b, clockwise, face, j));
    }
  }

  /** A scan only turns U and R: its outcome is the start after some sequence of U and R moves. */
  lemma {:induction false} ScanTurnsOnlyUAndR(b: Boards, clockwise: bv32, n: nat)
    requires n <= 6
    ensures ReachableByUAndR(b, ScanUpTo(b, clockwise, n))
  {
    if n == 0 {
      assert TwoGenMoves([]) && ScanUpTo(b, clockwise, 0) == ApplySequence(b, []);
    } else {
      ScanTurnsOnlyUAndR(b, clockwise, n - 1);
      var before := ScanUpTo(b, clockwise, n - 1);
      FaceScanTurnsOnlyUAndR(before, clockwise, n - 1, 4);
      ReachableByUAndRTransitive(b, before, ScanUpTo(b, clockwise, n));
    }
  }

  /** `PermutedDCornersOutcome` reaches its words from the start by U and R moves alone. */
  lemma PermutedDCornersTurnsOnlyUAndR(b: Boards)
    ensures ReachableByUAndR(b, PermutedDCorners(b))
  {
    ScanTurnsOnlyUAndR(b, 6, 6);
    ScanTurnsOnlyUAndR(ScanUpTo(b, 6, 6), 5, 6);
    ReachableByUAndRTransitive(b, ScanUpTo(b, 6, 6), PermutedDCorners(b));
  }

  /** No corner sticker is a D sticker (colour 10), so no scan step has anything to insert. */
  ghost predicate HasNoDCorner(b: Boards)
  {
    forall face: nat, shift: int :: IsCornerSlot(face, shift) ==> Read(b, Slot(face, shift)) != 10
  }

  /** The steps on one face leave words without a D corner sticker as they are. */
  lemma {:induction false} FaceScanLeavesAlone(b: Boards, clockwise: bv32, face: nat, j: nat)
    requires face < 6 && j <= 4 && HasNoDCorner(b)
    ensures FaceScan(b, clockwise, face, j) == b
  {
    if j > 0 {
      FaceScanLeavesAlone(b, clockwise, face, j - 1);
      assert IsCornerSlot(face, 4 + 8 * (j - 1));
    }
  }

  /** A scan leaves words without a D corner sticker as they are. */
  lemma {:induction false} ScanLeavesAlone(b: Boards, clockwise: bv32, n: nat)
    requires n <= 6 && HasNoDCorner(b)
    ensures ScanUpTo(b, clockwise, n) == b
  {
    if n > 0 {
      ScanLeavesAlone(b, clockwise, n - 1);
      FaceScanLeavesAlone(b, clockwise, n - 1, 4);
    }
  }

  /** One scan of the source's nested loops over faces and corner offsets. */
  method ScanDCorners(b: Boards, clockwise: bv32) returns (r: Boards)
    ensures r == ScanUpTo(b, clockwise, 6)
  {
    r := b;
    for face: UInt32 := 0 to 6
      invariant r == ScanUpTo(b, clockwise, face)
    {
      r := ScanFaceCorners(r, clockwise, face);
    }
  }

  /** The inner loop of a scan: the four corner offsets of one face, in order. */
  method ScanFaceCorners(b: Boards, clockwise: bv32, face: UInt32) returns (r: Boards)
    requires face < 6
    ensures r == FaceScan(b, clockwise, face, 4)
  {
    r := b;
    var shift := 4;
    ghost var j := 0;
    while shift <= 28
      invariant 0 <= j <= 4 && shift == 4 + 8 * j
      invariant r == FaceScan(b, clockwise, face, j)
    {
      FaceScanStep(b, clockwise, face, j, shift);
      r := VisitCorner(r, clockwise, face, shift);
      shift := shift + 8;
      j := j + 1;
    }
  }

  /** The body of the inner loop: insert the corner at (face, shift) if it is the one sought. */
  method VisitCorner(b: Boards, clockwise: bv32, face: UInt32, shift: int) returns (r: Boards)
    requires face < 6 && IsOffset(shift)
    ensures r == CornerStep(b, clockwise, face, shift)
  {
    r := b;
    var corner := Read(r, Slot(face, shift));
    if corner == 10 && GetClockwiseRelatedCorner(r, face, shift) == clockwise {
      var position := GetCornerPosition(face, shift);
      r := Insert(r, clockwise, position);
    }
  }

  /** The step at offset `4 + 8j` extends the scan of a face by one corner. */
  lemma FaceScanStep(b: Boards, clockwise: bv32, face: nat, j: nat, shift: int)
    requires face < 6 && j < 4 && shift == 4 + 8 * j
    ensures FaceScan(b, clockwise, face, j + 1) == CornerStep(FaceScan(b, clockwise, face, j), clockwise, face, shift)
  {
  }

  /**
   * `PermutedDCornersOutcome`: a clean copy whose words have the DFR corner moved to
   * DBR by the first scan and the DBR corner moved in by the second.
   */
  method PermutedDCornersOutcome(c: Cube) returns (r: Cube)
    ensures r == FromBoards(PermutedDCorners(c.boards))
  {
    var boards := ScanDCorners(c.boards, 6);
    boards := ScanDCorners(boards, 5);
    r := FromBoards(boards);
  }

  /**
   * What one U corner adds to the U word: its own clockwise colour when it shows U
   * (12), its own colour when it is the R sticker of its piece, and for the third
   * sticker the colour that follows it clockwise round the U layer.
   */
  function CornerContribution(b: Boards, shift: nat): bv32
    requires IsOffset(shift)
  {
    var cornerMask: bv32 := 0xF << ShiftCount(shift);
    var corner := Read(b, Slot(0, shift));
    var related := GetClockwiseRelatedCorner(b, 0, shift);
    if corner == 12 then related << ShiftCount(shift)
    else if related != 12 then corner << ShiftCount(shift)
    else if corner == 9 then 0x3333_3333 & cornerMask
    else if corner == 5 then 0x9999_9999 & cornerMask
    else if corner == 6 then 0x5555_5555 & cornerMask
    else if corner == 3 then 0x6666_6666 & cornerMask
    else 0
  }

  /** The U word after the first `n` corners (offsets 4, 12, ...). */
  function UCornerWord(b: Boards, n: nat): bv32
    requires n <= 4
  {
    if n == 0 then 0 else UCornerWord(b, n - 1) | CornerContribution(b, 4 + 8 * (n - 1))
  }

  /** The clockwise colour cycle R, G, O, B of the U corners and its three rotations. */
  predicate IsTwoGenCycle(u: bv32)
  {
    u == 0x3090_5060 || u == 0x6030_9050 || u == 0x5060_3090 || u == 0x9050_6030
  }

  /** The source's four checks, `RotateBitboard(u, 8i) == 0x30905060`, hold for some i exactly when `u` is on the cycle. */
  lemma RotationsOfDesired(u: bv32)
    ensures (RotateBitboard(u, 0) == 0x3090_5060 || RotateBitboard(u, 8) == 0x3090_5060
      || RotateBitboard(u, 16) == 0x3090_5060 || RotateBitboard(u, 24) == 0x3090_5060) <==> IsTwoGenCycle(u)
  {
    RotateBitboardIsRotateRight(u);
  }

  /** The two-generator verdict on a cube's words. */
  predicate TwoGen(b: Boards)
  {
    IsTwoGenCycle(UCornerWord(PermutedDCorners(b), 4))
  }

  /**
   * `IsTwoGenIfLeftBlock`: true exactly when, after the D corners are put in place,
   * the U corners read clockwise form the cycle R, G, O, B in some rotation.
   */
  method IsTwoGenIfLeftBlock(c: Cube) returns (r: bool)
    ensures r <==> TwoGen(c.boards)
  {
    var twoGenCube := PermutedDCornersOutcome(c);
    var uBitboard := UCornerWordOf(twoGenCube.boards);
    RotationsOfDesired(uBitboard);
    var desired: bv32 := 0x3090_5060;
    r := false;
    var i: bv5 := 0;
    while i < 4
      invariant i <= 4
      invariant r <==> ((0 < i && RotateBitboard(uBitboard, 0) == desired) || (1 < i && RotateBitboard(uBitboard, 8) == desired)
        || (2 < i && RotateBitboard(uBitboard, 16) == desired) || (3 < i && RotateBitboard(uBitboard, 24) == desired))
    {
      if RotateBitboard(uBitboard, i * 8) == desired {
        r := true;
      }
      i := i + 1;
    }
  }

  /** The first loop of `IsTwoGenIfLeftBlock`: the U word built from the four U corners. */
  method UCornerWordOf(b: Boards) returns (uBitboard: bv32)
    ensures uBitboard == UCornerWord(b, 4)
  {
    uBitboard := 0;
    for n := 0 to 4
      invariant uBitboard == UCornerWord(b, n)
    {
      var shift := 4 + 8 * n;
      UCornerWordStep(b, n, shift);
      uBitboard := AddCorner(b, uBitboard, shift);
    }
  }

  /** Adding the corner at offset `4 + 8n` extends the U word by one corner. */
  lemma UCornerWordStep(b: Boards, n: nat, shift: int)
    requires n < 4 && shift == 4 + 8 * n
    ensures UCornerWord(b, n + 1) == UCornerWord(b, n) | CornerContribution(b, shift)
  {
  }

  /** The body of that loop: the U word with the corner at `shift` added. */
  method AddCorner(b: Boards, u: bv32, shift: int) returns (uBitboard: bv32)
    requires IsOffset(shift)
    ensures uBitboard == u | CornerContribution(b, shift)
  {
    var cornerMask: bv32 := 0xF << ShiftCount(shift);
    var corner := Read(b, Slot(0, shift));
    var relatedCorner := GetClockwiseRelatedCorner(b, 0, shift);
    var added: bv32 := 0;
    if corner == 12 {
      added := relatedCorner << ShiftCount(shift);
    } else if relatedCorner != 12 {
      added := corner << ShiftCount(shift);
    } else if corner == 9 {
      added := 0x3333_3333 & cornerMask;
    } else if corner == 5 {
      added := 0x9999_9999 & cornerMask;
    } else if corner == 6 {
      added := 0x5555_5555 & cornerMask;
    } else if corner == 3 {
      added := 0x6666_6666 & cornerMask;
    }
    uBitboard := u | added;
  }
}
