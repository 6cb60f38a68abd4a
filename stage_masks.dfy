/*
 * The stage masks of the solver. Each stage keeps only the stickers that decide
 * whether a cube already lies in the stage's target group and blanks the rest; the
 * masks are built as the source builds them, one face word at a time by OR-ing in
 * one piece at a time, and are then described sticker by sticker.
 */
module StageMasks {
  import opened CubeState
  import opened CubePieces

  predicate IsEdgeOffset(shift: int)
  {
    shift == 0 || shift == 8 || shift == 16 || shift == 24
  }

  // ---------------------------------------------------------------------------------
  // Which stickers each stage keeps
  // ---------------------------------------------------------------------------------

  /** Four-gen: a U or D sticker (colour 10 or more), or an F or B sticker whose partner is not U or D. */
  predicate FourGenKeeps(b: Boards, face: nat, shift: int)
    requires face < 6 && IsOffset(shift)
  {
    var edge := Read(b, Slot(face, shift));
    edge >= 10 || (edge >= 6 && GetRelatedEdge(b, face, shift) < 9)
  }

  /** Three-gen: an F or B sticker (colour 6 or 9) whose partner is D (colour 10). */
  predicate ThreeGenKeeps(b: Boards, face: nat, shift: int)
    requires face < 6 && IsOffset(shift)
  {
    var edge := Read(b, Slot(face, shift));
    (edge == 6 || edge == 9) && GetRelatedEdge(b, face, shift) == 10
  }

  /** Two-gen, edges: a sticker that is not U whose partner is L (colour 3). */
  predicate TwoGenKeepsEdge(b: Boards, face: nat, shift: int)
    requires face < 6 && IsOffset(shift)
  {
    Read(b, Slot(face, shift)) != 12 && GetRelatedEdge(b, face, shift) == 3
  }

  /** Two-gen, corners: the DBL corner seen as B then L, or the DFL corner seen as F then D. */
  predicate TwoGenKeepsCorner(b: Boards, face: nat, shift: int)
    requires face < 6 && IsOffset(shift)
  {
    var corner := Read(b, Slot(face, shift));
    (corner == 9 && GetClockwiseRelatedCorner(b, face, shift) == 3)
      || (corner == 6 && GetClockwiseRelatedCorner(b, face, shift) == 10)
  }

  // ---------------------------------------------------------------------------------
  // The masks, one face word at a time
  // ---------------------------------------------------------------------------------

  /** The three masks; each is built by the same loops over faces and edge offsets. */
  datatype Mask = FourGenMask | ThreeGenMask | TwoGenMask

  /** A nibble placed at offset `shift`. */
  function Place(x: bv32, shift: int): bv32
    requires IsOffset(shift)
  {
    x << ShiftCount(shift)
  }

  function FourGenBits(b: Boards, face: nat, shift: int): bv32
    requires face < 6 && IsOffset(shift)
  {
    if FourGenKeeps(b, face, shift) then Place(0xF, shift) else 0
  }

  function ThreeGenBits(b: Boards, face: nat, shift: int): bv32
    requires face < 6 && IsOffset(shift)
  {
    if ThreeGenKeeps(b, face, shift) then Place(Read(b, Slot(face, shift)), shift) else 0
  }

  function TwoGenEdgeBits(b: Boards, face: nat, shift: int): bv32
    requires face < 6 && IsOffset(shift)
  {
    if TwoGenKeepsEdge(b, face, shift) then Place(Read(b, Slot(face, shift)), shift) else 0
  }

  function TwoGenCornerBits(b: Boards, face: nat, shift: int): bv32
    requires face < 6 && IsOffset(shift)
  {
    if TwoGenKeepsCorner(b, face, shift) then Place(Read(b, Slot(face, shift)), shift) else 0
  }

  /**
   * What one loop round at edge offset `shift` adds to a face word: the edge there,
   * and for the two-gen mask also the corner at `shift + 4`.
   */
  function Bits(mask: Mask, b: Boards, face: nat, shift: int): bv32
    requires face < 6 && IsEdgeOffset(shift)
  {
    match mask
    case FourGenMask => FourGenBits(b, face, shift)
    case ThreeGenMask => ThreeGenBits(b, face, shift)
    case TwoGenMask => TwoGenEdgeBits(b, face, shift) | TwoGenCornerBits(b, face, shift + 4)
  }

  /** The first `j` rounds (edge offsets 0, 8, ...) of one face's word. */
  function FaceMask(mask: Mask, b: Boards, face: nat, j: nat): bv32
    requires face < 6 && j <= 4
  {
    if j == 0 then 0 else FaceMask(mask, b, face, j - 1) | Bits(mask, b, face, 8 * (j - 1))
  }

  function Masked(mask: Mask, b: Boards): Boards
  {
    Boards(FaceMask(mask, b, 0, 4), FaceMask(mask, b, 1, 4), FaceMask(mask, b, 2, 4),
      FaceMask(mask, b, 3, 4), FaceMask(mask, b, 4, 4), FaceMask(mask, b, 5, 4))
  }

  /** The sticker a mask leaves at a slot: a marker, the sticker itself, or blank (0). */
  function Kept(mask: Mask, b: Boards, face: nat, shift: int): bv32
    requires face < 6 && IsOffset(shift)
  {
    match mask
    case FourGenMask =>
      if IsEdgeOffset(shift) && FourGenKeeps(b, face, shift) then 0xF else 0
    case ThreeGenMask =>
      if IsEdgeOffset(shift) && ThreeGenKeeps(b, face, shift) then Read(b, Slot(face, shift)) else 0
    case TwoGenMask =>
      if IsEdgeOffset(shift) && TwoGenKeepsEdge(b, face, shift) then Read(b, Slot(face, shift))
      else if !IsEdgeOffset(shift) && TwoGenKeepsCorner(b, face, shift) then Read(b, Slot(face, shift))
      else 0
  }

  // ---------------------------------------------------------------------------------
  // The source's loops
  // ---------------------------------------------------------------------------------

  method GetFourGenMaskedCube(c: Cube) returns (r: Cube)
    ensures r == FromBoards(Masked(FourGenMask, c.boards))
  {
    r := MaskedCube(FourGenMask, c);
  }

  method GetThreeGenMaskedCube(c: Cube) returns (r: Cube)
    ensures r == FromBoards(Masked(ThreeGenMask, c.boards))
  {
    r := MaskedCube(ThreeGenMask, c);
  }

  method GetTwoGenMaskedCube(c: Cube) returns (r: Cube)
    ensures r == FromBoards(Masked(TwoGenMask, c.boards))
  {
    r := MaskedCube(TwoGenMask, c);
  }

  /** The loops the three masking methods share: every face, every edge offset. */
  method MaskedCube(mask: Mask, c: Cube) returns (r: Cube)
    ensures r == FromBoards(Masked(mask, c.boards))
  {
    var start := new bv32[6](_ => 0);
    for face := 0 to 6
      invariant forall f :: 0 <= f < face ==> start[f] == FaceMask(mask, c.boards, f, 4)
      invariant forall f :: face <= f < 6 ==> start[f] == 0
    {
      MaskFace(mask, c.boards, start, face);
    }
    r := FromBoards(Boards(start[0], start[1], start[2], start[3], start[4], start[5]));
  }

  /** The inner loop: the edges (and for two-gen the corners) of one face. */
  method MaskFace(mask: Mask, b: Boards, start: array<bv32>, face: nat)
    requires start.Length == 6 && face < 6 && start[face] == 0
    modifies start
    ensures start[face] == FaceMask(mask, b, face, 4)
    ensures forall f :: 0 <= f < 6 && f != face ==> start[f] == old(start[f])
  {
    for n := 0 to 4
      invariant start[face] == FaceMask(mask, b, face, n)
      invariant forall f :: 0 <= f < 6 && f != face ==> start[f] == old(start[f])
    {
      var w := AddPieces(mask, b, start[face], face, 8 * n);
      FaceMaskStep(mask, b, face, n);
      start[face] := w;
    }
  }

  /** One more round ORs one more edge offset's pieces into the face word. */
  lemma FaceMaskStep(mask: Mask, b: Boards, face: nat, n: nat)
    requires face < 6 && n < 4
    ensures FaceMask(mask, b, face, n + 1) == FaceMask(mask, b, face, n) | Bits(mask, b, face, 8 * n)
  {
  }

  /** One round of the inner loop, with the source's tests. */
  method AddPieces(mask: Mask, b: Boards, w: bv32, face: nat, shift: int) returns (r: bv32)
    requires face < 6 && IsEdgeOffset(shift)
    ensures r == w | Bits(mask, b, face, shift)
  {
    match mask
    case FourGenMask =>
      r := AddFourGenEdge(b, w, face, shift);
    case ThreeGenMask =>
      r := AddThreeGenEdge(b, w, face, shift);
    case TwoGenMask =>
      var withEdge := AddTwoGenEdge(b, w, face, shift);
      r := AddTwoGenCorner(b, withEdge, face, shift + 4);
  }

  method AddFourGenEdge(b: Boards, w: bv32, face: nat, shift: int) returns (r: bv32)
    requires face < 6 && IsOffset(shift)
    ensures r == w | FourGenBits(b, face, shift)
  {
    r := w;
    var edge := Read(b, Slot(face, shift));
    if edge >= 10 || (edge >= 6 && GetRelatedEdge(b, face, shift) < 9) {
      r := r | (0xF << ShiftCount(shift));
    }
  }

  method AddThreeGenEdge(b: Boards, w: bv32, face: nat, shift: int) returns (r: bv32)
    requires face < 6 && IsOffset(shift)
    ensures r == w | ThreeGenBits(b, face, shift)
  {
    r := w;
    var edge := Read(b, Slot(face, shift));
    if (edge == 6 || edge == 9) && GetRelatedEdge(b, face, shift) == 10 {
      r := r | (edge << ShiftCount(shift));
    }
  }

  method AddTwoGenEdge(b: Boards, w: bv32, face: nat, shift: int) returns (r: bv32)
    requires face < 6 && IsOffset(shift)
    ensures r == w | TwoGenEdgeBits(b, face, shift)
  {
    r := w;
    var edge := Read(b, Slot(face, shift));
    var relatedEdge := GetRelatedEdge(b, face, shift);
    if edge != 12 && relatedEdge == 3 {
      r := r | (edge << ShiftCount(shift));
    }
  }

  method AddTwoGenCorner(b: Boards, w: bv32, face: nat, shift: int) returns (r: bv32)
    requires face < 6 && IsOffset(shift)
    ensures r == w | TwoGenCornerBits(b, face, shift)
  {
    r := w;
    var corner := Read(b, Slot(face, shift));
    if (corner == 9 && GetClockwiseRelatedCorner(b, face, shift) == 3)
      || (corner == 6 && GetClockwiseRelatedCorner(b, face, shift) == 10)
    {
      r := r | (corner << ShiftCount(shift));
    }
  }

  // ---------------------------------------------------------------------------------
  // The masks sticker by sticker
  // ---------------------------------------------------------------------------------

  lemma NibbleOfOr(x: bv32, y: bv32, t: int)
    requires IsOffset(t)
    ensures Nibble(x | y, ShiftCount(t)) == Nibble(x, ShiftCount(t)) | Nibble(y, ShiftCount(t))
  {
  }

  lemma NibbleOfPlace(x: bv32, s: int, t: int)
    requires x <= 0xF && IsOffset(s) && IsOffset(t)
    ensures Nibble(Place(x, s), ShiftCount(t)) == if s == t then x else 0
  {
  }

  /** A nibble placed at `s` or left out reads back at `t` only when `s == t`. */
  lemma NibbleOfPlaceIf(keep: bool, x: bv32, s: int, t: int)
    requires x <= 0xF && IsOffset(s) && IsOffset(t)
    ensures Nibble(if keep then Place(x, s) else 0, ShiftCount(t)) == if keep && s == t then x else 0
  {
    if keep {
      NibbleOfPlace(x, s, t);
    }
  }

  /** One round writes the nibbles at its edge offset `e` and at `e + 4`, and those only. */
  lemma NibbleOfBits(mask: Mask, b: Boards, face: nat, e: int, t: int)
    requires face < 6 && IsEdgeOffset(e) && IsOffset(t)
    ensures Nibble(Bits(mask, b, face, e), ShiftCount(t)) == if t == e || t == e + 4 then Kept(mask, b, face, t) else 0
  {
    match mask
    case FourGenMask => NibbleOfFourGenBits(b, face, e, t);
    case ThreeGenMask => NibbleOfThreeGenBits(b, face, e, t);
    case TwoGenMask => NibbleOfTwoGenBits(b, face, e, t);
  }

  lemma NibbleOfFourGenBits(b: Boards, face: nat, e: int, t: int)
    requires face < 6 && IsEdgeOffset(e) && IsOffset(t)
    ensures Nibble(FourGenBits(b, face, e), ShiftCount(t)) == if t == e then Kept(FourGenMask, b, face, t) else 0
  {
    NibbleOfPlaceIf(FourGenKeeps(b, face, e), 0xF, e, t);
  }

  lemma NibbleOfThreeGenBits(b: Boards, face: nat, e: int, t: int)
    requires face < 6 && IsEdgeOffset(e) && IsOffset(t)
    ensures Nibble(ThreeGenBits(b, face, e), ShiftCount(t)) == if t == e then Kept(ThreeGenMask, b, face, t) else 0
  {
    NibbleOfPlaceIf(ThreeGenKeeps(b, face, e), Read(b, Slot(face, e)), e, t);
  }

  lemma NibbleOfTwoGenBits(b: Boards, face: nat, e: int, t: int)
    requires face < 6 && IsEdgeOffset(e) && IsOffset(t)
    ensures Nibble(TwoGenEdgeBits(b, face, e) | TwoGenCornerBits(b, face, e + 4), ShiftCount(t))
      == if t == e || t == e + 4 then Kept(TwoGenMask, b, face, t) else 0
  {
    NibbleOfOr(TwoGenEdgeBits(b, face, e), TwoGenCornerBits(b, face, e + 4), t);
    NibbleOfPlaceIf(TwoGenKeepsEdge(b, face, e), Read(b, Slot(face, e)), e, t);
    NibbleOfPlaceIf(TwoGenKeepsCorner(b, face, e + 4), Read(b, Slot(face, e + 4)), e + 4, t);
  }

  /** After `j` rounds a face word holds the kept stickers of the first `j` edge offsets (and their corners). */
  lemma {:induction false} NibbleOfFaceMask(mask: Mask, b: Boards, face: nat, j: nat, t: int)
    requires face < 6 && j <= 4 && IsOffset(t)
    ensures Nibble(FaceMask(mask, b, face, j), ShiftCount(t)) == if t < 8 * j then Kept(mask, b, face, t) else 0
  {
    if j == 0 {
      NibbleOfZero(ShiftCount(t));
    } else {
      NibbleOfFaceMask(mask, b, face, j - 1, t);
      NibbleOfNextRound(mask, b, face, j, t);
    }
  }

  /** The induction step of `NibbleOfFaceMask`: from `j - 1` rounds to `j`. */
  lemma NibbleOfNextRound(mask: Mask, b: Boards, face: nat, j: nat, t: int)
    requires face < 6 && 0 < j <= 4 && IsOffset(t)
    requires Nibble(FaceMask(mask, b, face, j - 1), ShiftCount(t)) == if t < 8 * (j - 1) then Kept(mask, b, face, t) else 0
    ensures Nibble(FaceMask(mask, b, face, j), ShiftCount(t)) == if t < 8 * j then Kept(mask, b, face, t) else 0
  {
    var e := 8 * (j - 1);
    NibbleOfBits(mask, b, face, e, t);
    NibbleOfRound(FaceMask(mask, b, face, j - 1), Bits(mask, b, face, e), Kept(mask, b, face, t), e, t);
  }

  lemma NibbleOfZero(s: bv5)
    ensures Nibble(0, s) == 0
  {
  }

  /** One round OR-ed onto the earlier ones, read at `t`. */
  lemma NibbleOfRound(before: bv32, added: bv32, k: bv32, e: int, t: int)
    requires IsEdgeOffset(e) && IsOffset(t)
    requires Nibble(before, ShiftCount(t)) == if t < e then k else 0
    requires Nibble(added, ShiftCount(t)) == if t == e || t == e + 4 then k else 0
    ensures Nibble(before | added, ShiftCount(t)) == if t < e + 8 then k else 0
  {
    NibbleOfOr(before, added, t);
    RoundsCombine(Nibble(before, ShiftCount(t)), Nibble(added, ShiftCount(t)), k, e, t);
  }

  /** The nibble at `t` after one more round: from the earlier rounds, or from this one, or blank. */
  lemma RoundsCombine(earlier: bv32, now: bv32, k: bv32, e: int, t: int)
    requires IsEdgeOffset(e) && IsOffset(t)
    requires earlier == if t < e then k else 0
    requires now == if t == e || t == e + 4 then k else 0
    ensures earlier | now == if t < e + 8 then k else 0
  {
    assert k | 0 == k && 0 | k == k && 0 | 0 == 0 as bv32;
  }

  /**
   * Sticker by sticker: the four-gen mask marks each kept edge sticker with 0xF, the
   * three-gen mask copies each kept edge sticker, the two-gen mask copies each kept
   * edge and corner sticker, and every other sticker is blank.
   */
  lemma MaskedSticker(mask: Mask, b: Boards, face: nat, shift: int)
    requires face < 6 && IsOffset(shift)
    ensures Read(Masked(mask, b), Slot(face, shift)) == Kept(mask, b, face, shift)
  {
    NibbleOfFaceMask(mask, b, face, 4, shift);
  }

  /** The four-gen and three-gen masks blank every corner sticker: only edge nibbles can be set. */
  lemma EdgeOnlyMasks(mask: Mask, b: Boards, face: nat, shift: int)
    requires mask != TwoGenMask && face < 6 && IsOffset(shift) && !IsEdgeOffset(shift)
    ensures Read(Masked(mask, b), Slot(face, shift)) == 0
  {
    MaskedSticker(mask, b, face, shift);
  }

  // ---------------------------------------------------------------------------------
  // The stage targets
  // ---------------------------------------------------------------------------------

  /** The four-gen target: every U and D sticker, and the F and B stickers of the E-slice edges. */
  const FourGenTarget: Boards := Boards(0x0F0F_0F0F, 0x0F0F_0F0F, 0, 0, 0x000F_000F, 0x000F_000F)

  /** The three-gen target: the B and F stickers of the DB and DF edges. */
  const ThreeGenTarget: Boards := Boards(0, 0, 0, 0, 0x0000_0900, 0x0000_0600)

  /** The two-gen target: the 1x2x3 block on the left of D, as its D, B and F stickers show it. */
  const TwoGenTarget: Boards := Boards(0, 0x0000_000A, 0, 0, 0x0009_9000, 0x0000_0066)
}
