/*
 * The cube state of the solver: six 32-bit face words in the order U, D, L, R, B, F,
 * each holding eight 4-bit colour nibbles, and the 18 face turns over those words.
 * A cube also carries the move history that produced it (`sequence`, `lastMove`),
 * which never takes part in equality.
 */
module CubeState {

  /** A C# `uint`: move codes, counts and indexes. */
  type UInt32 = x: int | 0 <= x < 0x1_0000_0000

  /** The six face words, in the source's array order U, D, L, R, B, F (indexes 0..5). */
  datatype Boards = Boards(up: bv32, down: bv32, left: bv32, right: bv32, back: bv32, front: bv32)

  /** The word of face `f`, as the source's `bitboards[f]`. */
  function Word(b: Boards, f: nat): bv32
    requires f < 6
  {
    match f
    case 0 => b.up
    case 1 => b.down
    case 2 => b.left
    case 3 => b.right
    case 4 => b.back
    case 5 => b.front
  }

  /** A cube: its face words, the moves applied to reach it, and the last of them (0 if none). */
  datatype Cube = Cube(boards: Boards, sequence: seq<UInt32>, lastMove: UInt32)

  /** The face words of the solved cube; each face is one colour nibble repeated. */
  const Solved: Boards := Boards(0xCCCC_CCCC, 0xAAAA_AAAA, 0x3333_3333, 0x5555_5555, 0x9999_9999, 0x6666_6666)

  /**
   * Cyclic right rotation of a word. C# masks a 32-bit shift count to its low five
   * bits, so the count is a `bv5` and the left shift by `32 - shift` is a shift by
   * `0 - shift` in five bits; a count of 0 leaves the word unchanged.
   */
  function RotateBitboard(b: bv32, shift: bv5): bv32
  {
    (b >> shift) | (b << (0 - shift))
  }

  /** The bits of `own` selected by `mask`, the rest taken from `other`. */
  function Ring(mask: bv32, own: bv32, other: bv32): bv32
  {
    (mask & own) | (!mask & other)
  }

  // ---------------------------------------------------------------------------------
  // The 18 face turns. Each recipe gives the six new words in the order U, D, L, R, B, F.
  // ---------------------------------------------------------------------------------

  function RotateU1(b: Boards): Boards
  {
    var mask: bv32 := 0xFFFFF;
    Boards(RotateBitboard(b.up, 8), b.down, Ring(mask, b.left, b.front), Ring(mask, b.right, b.back),
      Ring(mask, b.back, b.left), Ring(mask, b.front, b.right))
  }

  function RotateU2(b: Boards): Boards
  {
    var mask: bv32 := 0xFFFFF;
    Boards(RotateBitboard(b.up, 16), b.down, Ring(mask, b.left, b.right), Ring(mask, b.right, b.left),
      Ring(mask, b.back, b.front), Ring(mask, b.front, b.back))
  }

  function RotateU3(b: Boards): Boards
  {
    var mask: bv32 := 0xFFFFF;
    Boards(RotateBitboard(b.up, 24), b.down, Ring(mask, b.left, b.back), Ring(mask, b.right, b.front),
      Ring(mask, b.back, b.right), Ring(mask, b.front, b.left))
  }

  function RotateD1(b: Boards): Boards
  {
    var mask: bv32 := 0xFFFF_000F;
    Boards(b.up, RotateBitboard(b.down, 8), Ring(mask, b.left, b.back), Ring(mask, b.right, b.front),
      Ring(mask, b.back, b.right), Ring(mask, b.front, b.left))
  }

  function RotateD2(b: Boards): Boards
  {
    var mask: bv32 := 0xFFFF_000F;
    Boards(b.up, RotateBitboard(b.down, 16), Ring(mask, b.left, b.right), Ring(mask, b.right, b.left),
      Ring(mask, b.back, b.front), Ring(mask, b.front, b.back))
  }

  function RotateD3(b: Boards): Boards
  {
    var mask: bv32 := 0xFFFF_000F;
    Boards(b.up, RotateBitboard(b.down, 24), Ring(mask, b.left, b.front), Ring(mask, b.right, b.back),
      Ring(mask, b.back, b.left), Ring(mask, b.front, b.right))
  }

  function RotateL1(b: Boards): Boards
  {
    var mask: bv32 := 0xFFF_FF00;
    var back := RotateBitboard(b.back, 16);
    Boards(Ring(mask, b.up, back), Ring(mask, b.down, b.front), RotateBitboard(b.left, 8), b.right,
      RotateBitboard(Ring(mask, back, b.down), 16), Ring(mask, b.front, b.up))
  }

  function RotateL2(b: Boards): Boards
  {
    var mask: bv32 := 0xFFF_FF00;
    var back := RotateBitboard(b.back, 16);
    Boards(Ring(mask, b.up, b.down), Ring(mask, b.down, b.up), RotateBitboard(b.left, 16), b.right,
      RotateBitboard(Ring(mask, back, b.front), 16), Ring(mask, b.front, back))
  }

  function RotateL3(b: Boards): Boards
  {
    var mask: bv32 := 0xFFF_FF00;
    var back := RotateBitboard(b.back, 16);
    Boards(Ring(mask, b.up, b.front), Ring(mask, b.down, back), RotateBitboard(b.left, 24), b.right,
      RotateBitboard(Ring(mask, back, b.up), 16), Ring(mask, b.front, b.down))
  }

  function RotateR1(b: Boards): Boards
  {
    var mask: bv32 := 0xFF00_0FFF;
    var back := RotateBitboard(b.back, 16);
    Boards(Ring(mask, b.up, b.front), Ring(mask, b.down, back), b.left, RotateBitboard(b.right, 8),
      RotateBitboard(Ring(mask, back, b.up), 16), Ring(mask, b.front, b.down))
  }

  function RotateR2(b: Boards): Boards
  {
    var mask: bv32 := 0xFF00_0FFF;
    var back := RotateBitboard(b.back, 16);
    Boards(Ring(mask, b.up, b.down), Ring(mask, b.down, b.up), b.left, RotateBitboard(b.right, 16),
      RotateBitboard(Ring(mask, back, b.front), 16), Ring(mask, b.front, back))
  }

  function RotateR3(b: Boards): Boards
  {
    var mask: bv32 := 0xFF00_0FFF;
    var back := RotateBitboard(b.back, 16);
    Boards(Ring(mask, b.up, back), Ring(mask, b.down, b.front), b.left, RotateBitboard(b.right, 24),
      RotateBitboard(Ring(mask, back, b.down), 16), Ring(mask, b.front, b.up))
  }

  function RotateB1(b: Boards): Boards
  {
    var mask: bv32 := 0xFFFFF;
    var right := RotateBitboard(b.right, 24);
    var left := RotateBitboard(b.left, 8);
    var down := RotateBitboard(b.down, 16);
    Boards(Ring(mask, b.up, right), RotateBitboard(Ring(mask, down, left), 16),
      RotateBitboard(Ring(mask, left, b.up), 24), RotateBitboard(Ring(mask, right, down), 8),
      RotateBitboard(b.back, 8), b.front)
  }

  function RotateB2(b: Boards): Boards
  {
    var mask: bv32 := 0xFFFFF;
    var right := RotateBitboard(b.right, 24);
    var left := RotateBitboard(b.left, 8);
    var down := RotateBitboard(b.down, 16);
    Boards(Ring(mask, b.up, down), RotateBitboard(Ring(mask, down, b.up), 16),
      RotateBitboard(Ring(mask, left, right), 24), RotateBitboard(Ring(mask, right, left), 8),
      RotateBitboard(b.back, 16), b.front)
  }

  function RotateB3(b: Boards): Boards
  {
    var mask: bv32 := 0xFFFFF;
    var right := RotateBitboard(b.right, 24);
    var left := RotateBitboard(b.left, 8);
    var down := RotateBitboard(b.down, 16);
    Boards(Ring(mask, b.up, left), RotateBitboard(Ring(mask, down, right), 16),
      RotateBitboard(Ring(mask, left, down), 24), RotateBitboard(Ring(mask, right, b.up), 8),
      RotateBitboard(b.back, 24), b.front)
  }

  function RotateF1(b: Boards): Boards
  {
    var mask: bv32 := 0xFFFFF;
    var up := RotateBitboard(b.up, 16);
    var right := RotateBitboard(b.right, 8);
    var left := RotateBitboard(b.left, 24);
    Boards(RotateBitboard(Ring(mask, up, left), 16), Ring(mask, b.down, right),
      RotateBitboard(Ring(mask, left, b.down), 8), RotateBitboard(Ring(mask, right, up), 24),
      b.back, RotateBitboard(b.front, 8))
  }

  function RotateF2(b: Boards): Boards
  {
    var mask: bv32 := 0xFFFFF;
    var up := RotateBitboard(b.up, 16);
    var right := RotateBitboard(b.right, 8);
    var left := RotateBitboard(b.left, 24);
    Boards(RotateBitboard(Ring(mask, up, b.down), 16), Ring(mask, b.down, up),
      RotateBitboard(Ring(mask, left, right), 8), RotateBitboard(Ring(mask, right, left), 24),
      b.back, RotateBitboard(b.front, 16))
  }

  function RotateF3(b: Boards): Boards
  {
    var mask: bv32 := 0xFFFFF;
    var up := RotateBitboard(b.up, 16);
    var right := RotateBitboard(b.right, 8);
    var left := RotateBitboard(b.left, 24);
    Boards(RotateBitboard(Ring(mask, up, right), 16), Ring(mask, b.down, left),
      RotateBitboard(Ring(mask, left, up), 8), RotateBitboard(Ring(mask, right, b.down), 24),
      b.back, RotateBitboard(b.front, 24))
  }

  // ---------------------------------------------------------------------------------
  // Move codes: 1..6 turn U, D, L, R, B, F clockwise, 7..12 turn them twice and
  // 13..18 turn them anticlockwise; 0 stands for "no move".
  // ---------------------------------------------------------------------------------

  predicate IsMove(m: int)
  {
    1 <= m <= 18
  }

  /** The face a move code turns. */
  function TurnedFace(m: int): nat
    requires IsMove(m)
  {
    (m - 1) % 6
  }

  /** The face opposite a face. */
  function Opposite(f: nat): nat
    requires f < 6
  {
    if f % 2 == 0 then f + 1 else f - 1
  }

  /** The rotation, in bits, that a move code applies to its own face's word. */
  function TurnBits(m: int): bv5
    requires IsMove(m)
  {
    if m <= 6 then 8 else if m <= 12 then 16 else 24
  }

  /**
   * The face words after a move. A code outside 1..18 gives an unchanged copy. The
   * turned face's word is rotated right by 8, 16 or 24 bits and the opposite face's
   * word is untouched.
   */
  function RotatedBitboards(b: Boards, m: UInt32): (r: Boards)
    ensures !IsMove(m) ==> r == b
    ensures IsMove(m) ==> Word(r, TurnedFace(m)) == RotateBitboard(Word(b, TurnedFace(m)), TurnBits(m))
    ensures IsMove(m) ==> Word(r, Opposite(TurnedFace(m))) == Word(b, Opposite(TurnedFace(m)))
  {
    match m
    case 1 => RotateU1(b)
    case 7 => RotateU2(b)
    case 13 => RotateU3(b)
    case 2 => RotateD1(b)
    case 8 => RotateD2(b)
    case 14 => RotateD3(b)
    case 3 => RotateL1(b)
    case 9 => RotateL2(b)
    case 15 => RotateL3(b)
    case 4 => RotateR1(b)
    case 10 => RotateR2(b)
    case 16 => RotateR3(b)
    case 5 => RotateB1(b)
    case 11 => RotateB2(b)
    case 17 => RotateB3(b)
    case 6 => RotateF1(b)
    case 12 => RotateF2(b)
    case 18 => RotateF3(b)
    case _ => b
  }

  /** The face words after applying the moves of `s` in order. */
  function ApplySequence(b: Boards, s: seq<UInt32>): Boards
    decreases |s|
  {
    if s == [] then b else RotatedBitboards(ApplySequence(b, s[..|s| - 1]), s[|s| - 1])
  }

  // ---------------------------------------------------------------------------------
  // Cubes and their history
  // ---------------------------------------------------------------------------------

  /** `new Cube()`: the solved cube with no history. */
  function NewCube(): (c: Cube)
    ensures c.boards == Solved && c.sequence == [] && c.lastMove == 0
  {
    Cube(Solved, [], 0)
  }

  /** `new Cube(bitboards)`: a cube with the given words and no history. */
  function FromBoards(b: Boards): (c: Cube)
    ensures c.boards == b && c.sequence == [] && c.lastMove == 0
  {
    Cube(b, [], 0)
  }

  /** A copy of the words without the history. */
  function CleanCopy(c: Cube): (r: Cube)
    ensures r.boards == c.boards && r.sequence == [] && r.lastMove == 0
  {
    FromBoards(c.boards)
  }

  /** The cube after one move, with the move appended to the history. */
  function RotatedByMove(c: Cube, m: UInt32): (r: Cube)
    ensures r.boards == ApplySequence(c.boards, [m])
    ensures r.sequence == c.sequence + [m] && r.lastMove == m
  {
    Cube(RotatedBitboards(c.boards, m), c.sequence + [m], m)
  }

  /** The cube after one move, with no history but with `lastMove` set. */
  function RotatedWithLastMove(c: Cube, m: UInt32): (r: Cube)
    ensures r.boards == ApplySequence(c.boards, [m])
    ensures r.sequence == [] && r.lastMove == m
  {
    Cube(RotatedBitboards(c.boards, m), [], m)
  }

  /**
   * `Cube.Equals`: the six words compared one by one, as `SequenceEqual` does; two
   * cubes are equal exactly when their words are, whatever their histories.
   */
  function Equals(c: Cube, o: Cube): (r: bool)
    ensures r <==> c.boards == o.boards
  {
    var r := forall f :: 0 <= f < 6 ==> Word(c.boards, f) == Word(o.boards, f);
    assert r ==> (Word(c.boards, 0) == Word(o.boards, 0) && Word(c.boards, 1) == Word(o.boards, 1)
      && Word(c.boards, 2) == Word(o.boards, 2) && Word(c.boards, 3) == Word(o.boards, 3)
      && Word(c.boards, 4) == Word(o.boards, 4) && Word(c.boards, 5) == Word(o.boards, 5));
    r
  }

  /** A cube with the words after `s` and no history. */
  method CleanRotatedBySequence(c: Cube, s: seq<UInt32>) returns (r: Cube)
    ensures r == FromBoards(ApplySequence(c.boards, s))
  {
    r := FromBoards(c.boards);
    for i := 0 to |s|
      invariant r == FromBoards(ApplySequence(c.boards, s[..i]))
    {
      assert s[..i + 1][..i] == s[..i];
      r := r.(boards := RotatedBitboards(r.boards, s[i]));
    }
    assert s[..|s|] == s;
  }

  /**
   * The outcome of `Cube.RotatedBySequence` as the source computes it: the words after
   * `s`; the history extended by `s` and `lastMove` its last move, but only when `s` is
   * non-empty: an empty `s` leaves the clean cube, without the history of `c`.
   */
  function RotatedBySequenceAsWritten(c: Cube, s: seq<UInt32>): Cube
  {
    if s == [] then FromBoards(ApplySequence(c.boards, s))
    else Cube(ApplySequence(c.boards, s), c.sequence + s, s[|s| - 1])
  }

  /** `Cube.RotatedBySequence`, with the history copied into a fresh array. */
  method RotatedBySequence(c: Cube, s: seq<UInt32>) returns (r: Cube)
    ensures r == RotatedBySequenceAsWritten(c, s)
  {
    r := CleanRotatedBySequence(c, s);
    if |s| > 0 {
      var n := |c.sequence|;
      var history := new UInt32[n + |s|];
      forall k | 0 <= k < n {
        history[k] := c.sequence[k];
      }
      for i := 0 to |s|
        invariant forall k :: 0 <= k < n ==> history[k] == c.sequence[k]
        invariant forall k :: 0 <= k < i ==> history[n + k] == s[k]
      {
        history[n + i] := s[i];
      }
      assert history[..] == c.sequence + s;
      r := r.(sequence := history[..], lastMove := s[|s| - 1]);
    }
  }

  /** Applying the moves one at a time with `RotatedByMove`, which is what a history records. */
  function RotatedByMoves(c: Cube, s: seq<UInt32>): Cube
    decreases |s|
  {
    if s == [] then c else RotatedByMove(RotatedByMoves(c, s[..|s| - 1]), s[|s| - 1])
  }

  /** `RotatedBySequence` with the history kept also for an empty sequence. */
  function RotatedBySequenceKeepingHistory(c: Cube, s: seq<UInt32>): Cube
  {
    if s == [] then c else Cube(ApplySequence(c.boards, s), c.sequence + s, s[|s| - 1])
  }

  // ---------------------------------------------------------------------------------
  // Lemmas
  // ---------------------------------------------------------------------------------

  /** A one-move sequence is that move. */
  lemma ApplySingle(b: Boards, m: UInt32)
    ensures ApplySequence(b, [m]) == RotatedBitboards(b, m)
  {
    assert [m][..0] == [];
  }

  /** Running the moves of `s + t` is running `s`, then `t`. */
  lemma {:induction false} ApplyAppend(b: Boards, s: seq<UInt32>, t: seq<UInt32>)
    ensures ApplySequence(b, s + t) == ApplySequence(ApplySequence(b, s), t)
    decreases |t|
  {
    if t == [] {
      assert s + t == s;
    } else {
      var t' := t[..|t| - 1];
      assert (s + t)[..|s + t| - 1] == s + t';
      ApplyAppend(b, s, t');
    }
  }

  /** Running `s` and then one more move. */
  lemma ApplyLast(b: Boards, s: seq<UInt32>, m: UInt32)
    ensures ApplySequence(b, s + [m]) == RotatedBitboards(ApplySequence(b, s), m)
  {
    assert (s + [m])[..|s|] == s;
  }

  /**
   * For the counts the recipes use, `RotateBitboard` is a right rotation; a count of 0
   * leaves the word unchanged, as C#'s masking of `b << 32` to `b << 0` does.
   */
  lemma RotateBitboardIsRotateRight(b: bv32)
    ensures RotateBitboard(b, 0) == b
    ensures RotateBitboard(b, 8) == b.RotateRight(8)
    ensures RotateBitboard(b, 16) == b.RotateRight(16)
    ensures RotateBitboard(b, 24) == b.RotateRight(24)
  {
  }

  /** The corrected `RotatedBySequence` agrees with moving one move at a time. */
  lemma {:induction false} KeepingHistoryIsMoveByMove(c: Cube, s: seq<UInt32>)
    ensures RotatedBySequenceKeepingHistory(c, s) == RotatedByMoves(c, s)
    decreases |s|
  {
    if s != [] {
      var s' := s[..|s| - 1];
      KeepingHistoryIsMoveByMove(c, s');
      assert s' + [s[|s| - 1]] == s;
      if s' == [] {
        assert s == [s[0]];
      }
    }
  }

  /** As written, an empty sequence drops the history: after U, rotating by [] forgets the U. */
  lemma RotatedBySequenceDropsHistory()
    ensures RotatedBySequenceAsWritten(RotatedByMove(NewCube(), 1), []).sequence == []
    ensures RotatedBySequenceKeepingHistory(RotatedByMove(NewCube(), 1), []).sequence == [1]
  {
  }

  /** On a non-empty sequence the source's `RotatedBySequence` is the corrected one. */
  lemma RotatedBySequenceAgreesWhenNonEmpty(c: Cube, s: seq<UInt32>)
    requires s != []
    ensures RotatedBySequenceAsWritten(c, s) == RotatedBySequenceKeepingHistory(c, s)
  {
  }

  // ---------------------------------------------------------------------------------
  // The move vectors of the source's tests: each move applied to the solved cube
  // ---------------------------------------------------------------------------------

  lemma UpTurnsOfSolved()
    ensures RotatedBitboards(Solved, 1) == Boards(0xCCCC_CCCC, 0xAAAA_AAAA, 0x6663_3333, 0x9995_5555, 0x3339_9999, 0x5556_6666)
    ensures RotatedBitboards(Solved, 7) == Boards(0xCCCC_CCCC, 0xAAAA_AAAA, 0x5553_3333, 0x3335_5555, 0x6669_9999, 0x9996_6666)
    ensures RotatedBitboards(Solved, 13) == Boards(0xCCCC_CCCC, 0xAAAA_AAAA, 0x9993_3333, 0x6665_5555, 0x5559_9999, 0x3336_6666)
  {
  }

  lemma DownTurnsOfSolved()
    ensures RotatedBitboards(Solved, 2) == Boards(0xCCCC_CCCC, 0xAAAA_AAAA, 0x3333_9993, 0x5555_6665, 0x9999_5559, 0x6666_3336)
    ensures RotatedBitboards(Solved, 8) == Boards(0xCCCC_CCCC, 0xAAAA_AAAA, 0x3333_5553, 0x5555_3335, 0x9999_6669, 0x6666_9996)
    ensures RotatedBitboards(Solved, 14) == Boards(0xCCCC_CCCC, 0xAAAA_AAAA, 0x3333_6663, 0x5555_9995, 0x9999_3339, 0x6666_5556)
  {
  }

  lemma LeftTurnsOfSolved()
    ensures RotatedBitboards(Solved, 3) == Boards(0x9CCC_CC99, 0x6AAA_AA66, 0x3333_3333, 0x5555_5555, 0x99AA_A999, 0xC666_66CC)
    ensures RotatedBitboards(Solved, 9) == Boards(0xACCC_CCAA, 0xCAAA_AACC, 0x3333_3333, 0x5555_5555, 0x9966_6999, 0x9666_6699)
    ensures RotatedBitboards(Solved, 15) == Boards(0x6CCC_CC66, 0x9AAA_AA99, 0x3333_3333, 0x5555_5555, 0x99CC_C999, 0xA666_66AA)
  {
  }

  lemma RightTurnsOfSolved()
    ensures RotatedBitboards(Solved, 4) == Boards(0xCC66_6CCC, 0xAA99_9AAA, 0x3333_3333, 0x5555_5555, 0xC999_99CC, 0x66AA_A666)
    ensures RotatedBitboards(Solved, 10) == Boards(0xCCAA_ACCC, 0xAACC_CAAA, 0x3333_3333, 0x5555_5555, 0x6999_9966, 0x6699_9666)
    ensures RotatedBitboards(Solved, 16) == Boards(0xCC99_9CCC, 0xAA66_6AAA, 0x3333_3333, 0x5555_5555, 0xA999_99AA, 0x66CC_C666)
  {
  }

  lemma BackTurnsOfSolved()
    ensures RotatedBitboards(Solved, 5) == Boards(0x555C_CCCC, 0xAAAA_333A, 0xC333_33CC, 0x55AA_A555, 0x9999_9999, 0x6666_6666)
    ensures RotatedBitboards(Solved, 11) == Boards(0xAAAC_CCCC, 0xAAAA_CCCA, 0x5333_3355, 0x5533_3555, 0x9999_9999, 0x6666_6666)
    ensures RotatedBitboards(Solved, 17) == Boards(0x333C_CCCC, 0xAAAA_555A, 0xA333_33AA, 0x55CC_C555, 0x9999_9999, 0x6666_6666)
  {
  }

  lemma FrontTurnsOfSolved()
    ensures RotatedBitboards(Solved, 6) == Boards(0xCCCC_333C, 0x555A_AAAA, 0x33AA_A333, 0xC555_55CC, 0x9999_9999, 0x6666_6666)
    ensures RotatedBitboards(Solved, 12) == Boards(0xCCCC_AAAC, 0xCCCA_AAAA, 0x3355_5333, 0x3555_5533, 0x9999_9999, 0x6666_6666)
    ensures RotatedBitboards(Solved, 18) == Boards(0xCCCC_555C, 0x333A_AAAA, 0x33CC_C333, 0xA555_55AA, 0x9999_9999, 0x6666_6666)
  {
  }

  /** Three anticlockwise turns of U are one clockwise turn, from any state. */
  lemma UpAntiThriceIsQuarter(b: Boards)
    ensures ApplySequence(b, [13, 13, 13]) == ApplySequence(b, [1])
  {
    calc {
      ApplySequence(b, [13, 13, 13]);
      { ApplyAppend(b, [13], [13, 13]); ApplyAppend(ApplySequence(b, [13]), [13], [13]); }
      ApplySequence(ApplySequence(ApplySequence(b, [13]), [13]), [13]);
      { ApplySingle(b, 13); ApplySingle(RotateU3(b), 13); ApplySingle(RotateU3(RotateU3(b)), 13); }
      RotateU3(RotateU3(RotateU3(b)));
      { UpAntiTwiceWords(b); }
      RotateU3(RotateU2(b));
      { UpHalfThenAntiWords(b); }
      RotateU1(b);
      { ApplySingle(b, 1); }
      ApplySequence(b, [1]);
    }
  }

  lemma UpAntiTwiceWords(b: Boards)
    ensures RotateU3(RotateU3(b)) == RotateU2(b)
  {
  }

  lemma UpHalfThenAntiWords(b: Boards)
    ensures RotateU3(RotateU2(b)) == RotateU1(b)
  {
  }

  /**
   * Equality ignores history: U and U'U'U' give equal cubes although their
   * histories differ.
   */
  lemma EqualsIgnoresHistory()
    ensures Equals(RotatedByMove(NewCube(), 1), RotatedBySequenceAsWritten(NewCube(), [13, 13, 13]))
    ensures RotatedByMove(NewCube(), 1).sequence != RotatedBySequenceAsWritten(NewCube(), [13, 13, 13]).sequence
  {
    UpAntiThriceIsQuarter(Solved);
  }
}
