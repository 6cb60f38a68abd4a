/*
 * The cube store of the breadth-first searches: a FIFO queue of cubes still to be
 * expanded, and a tree that remembers every cube ever added together with the move
 * sequence it was added with. The tree is a trie over the six face words: a map from
 * the U word to a node, whose children are keyed by the R, F, B and L words in turn,
 * and whose fifth tier maps the D word to the stored sequence.
 */
module Store {
  import opened Wrappers
  import opened CubeState

  /** A face word used as a dictionary key. */
  datatype FaceKey = FaceKey(word: bv32)

  /** A tree node: branches below tiers 1 to 4, sequences at tier 5. */
  datatype CubeNode = Branch(children: map<FaceKey, CubeNode>) | Leaf(sequences: map<FaceKey, seq<UInt32>>)

  // ---------------------------------------------------------------------------------
  // Tiers
  // ---------------------------------------------------------------------------------

  /** The face whose word keys tier `tier`: U, R, F, B, L, D; any other tier is an error. */
  function RelevantIndex(tier: int): (r: Option<nat>)
    ensures r.Some? <==> 0 <= tier <= 5
    ensures r.Some? ==> r.value < 6
  {
    match tier
    case 0 => Some(0)
    case 1 => Some(3)
    case 2 => Some(5)
    case 3 => Some(4)
    case 4 => Some(2)
    case 5 => Some(1)
    case _ => None
  }

  /** The six tiers key six different faces, so every face keys exactly one tier. */
  lemma RelevantIndexIsPermutation()
    ensures forall t, u :: 0 <= t < u <= 5 ==> RelevantIndex(t).value != RelevantIndex(u).value
    ensures forall f :: 0 <= f < 6 ==> exists t :: 0 <= t <= 5 && RelevantIndex(t) == Some(f)
  {
    assert RelevantIndex(0) == Some(0) && RelevantIndex(5) == Some(1) && RelevantIndex(4) == Some(2);
    assert RelevantIndex(1) == Some(3) && RelevantIndex(3) == Some(4) && RelevantIndex(2) == Some(5);
  }

  function KeyAt(b: Boards, tier: nat): FaceKey
    requires tier <= 5
  {
    FaceKey(Word(b, RelevantIndex(tier).value))
  }

  /** `a` and `b` have the same words at tiers `tier` to 5. */
  predicate AgreeFrom(a: Boards, b: Boards, tier: nat)
    requires tier <= 6
    decreases 6 - tier
  {
    tier == 6 || (KeyAt(a, tier) == KeyAt(b, tier) && AgreeFrom(a, b, tier + 1))
  }

  /** Agreeing at every tier is being the same cube. */
  lemma AgreeEverywhereIsEquality(a: Boards, b: Boards)
    ensures AgreeFrom(a, b, 0) <==> a == b
  {
    if AgreeFrom(a, b, 0) {
      assert KeyAt(a, 0) == KeyAt(b, 0) && AgreeFrom(a, b, 1);
      assert KeyAt(a, 1) == KeyAt(b, 1) && AgreeFrom(a, b, 2);
      assert KeyAt(a, 2) == KeyAt(b, 2) && AgreeFrom(a, b, 3);
      assert KeyAt(a, 3) == KeyAt(b, 3) && AgreeFrom(a, b, 4);
      assert KeyAt(a, 4) == KeyAt(b, 4) && AgreeFrom(a, b, 5);
      assert KeyAt(a, 5) == KeyAt(b, 5);
    }
  }

  // ---------------------------------------------------------------------------------
  // Nodes
  // ---------------------------------------------------------------------------------

  /** A node of tier `tier` has branches down to a leaf at tier 5. */
  ghost predicate WellFormed(n: CubeNode, tier: nat)
    requires 1 <= tier <= 5
    decreases 5 - tier
  {
    if tier == 5 then n.Leaf?
    else n.Branch? && forall k :: k in n.children ==> WellFormed(n.children[k], tier + 1)
  }

  /** `CubeNode.Contains`: the words of tiers `tier` to 5 lead to a stored sequence. */
  function NodeContains(n: CubeNode, b: Boards, tier: nat): bool
    requires 1 <= tier <= 5 && WellFormed(n, tier)
    decreases 5 - tier
  {
    if tier == 5 then KeyAt(b, tier) in n.sequences
    else KeyAt(b, tier) in n.children && NodeContains(n.children[KeyAt(b, tier)], b, tier + 1)
  }

  /** `CubeNode.GetSequence` on a path the node contains. */
  function NodeGet(n: CubeNode, b: Boards, tier: nat): seq<UInt32>
    requires 1 <= tier <= 5 && WellFormed(n, tier) && NodeContains(n, b, tier)
    decreases 5 - tier
  {
    if tier == 5 then n.sequences[KeyAt(b, tier)]
    else NodeGet(n.children[KeyAt(b, tier)], b, tier + 1)
  }

  /** The `CubeNode` constructor: a single path holding `b`'s words from `tier` on, and `s` at its end. */
  function NodeNew(b: Boards, s: seq<UInt32>, tier: nat): (r: CubeNode)
    requires 1 <= tier <= 5
    decreases 5 - tier
    ensures WellFormed(r, tier)
    ensures forall b' :: NodeContains(r, b', tier) <==> AgreeFrom(b', b, tier)
    ensures forall b' :: NodeContains(r, b', tier) ==> NodeGet(r, b', tier) == s
  {
    if tier == 5 then Leaf(map[KeyAt(b, tier) := s])
    else Branch(map[KeyAt(b, tier) := NodeNew(b, s, tier + 1)])
  }

  /**
   * `CubeNode.Add`: false and no change when the path is already there; otherwise
   * true, and the path is added with `s` at its end while every other path keeps
   * its sequence.
   */
  function NodeAdd(n: CubeNode, b: Boards, s: seq<UInt32>, tier: nat): (r: (bool, CubeNode))
    requires 1 <= tier <= 5 && WellFormed(n, tier)
    decreases 5 - tier
    ensures WellFormed(r.1, tier)
    ensures r.0 == !NodeContains(n, b, tier)
    ensures !r.0 ==> r.1 == n
    ensures forall b' :: NodeContains(r.1, b', tier) <==> NodeContains(n, b', tier) || AgreeFrom(b', b, tier)
    ensures forall b' :: NodeContains(n, b', tier) ==> NodeGet(r.1, b', tier) == NodeGet(n, b', tier)
    ensures forall b' :: !NodeContains(n, b', tier) && AgreeFrom(b', b, tier) ==> NodeGet(r.1, b', tier) == s
  {
    var key := KeyAt(b, tier);
    if tier == 5 then
      if key in n.sequences then (false, n)
      else (true, Leaf(n.sequences[key := s]))
    else if key in n.children then
      var (added, child) := NodeAdd(n.children[key], b, s, tier + 1);
      (added, if added then Branch(n.children[key := child]) else n)
    else
      (true, Branch(n.children[key := NodeNew(b, s, tier + 1)]))
  }

  // ---------------------------------------------------------------------------------
  // The tree
  // ---------------------------------------------------------------------------------

  ghost predicate TreeWellFormed(tree: map<FaceKey, CubeNode>)
  {
    forall k :: k in tree ==> WellFormed(tree[k], 1)
  }

  /** `CubeTree.Contains`. */
  function TreeContains(tree: map<FaceKey, CubeNode>, b: Boards): bool
    requires TreeWellFormed(tree)
  {
    KeyAt(b, 0) in tree && NodeContains(tree[KeyAt(b, 0)], b, 1)
  }

  /** `CubeTree.GetSequenceFromBitboards` on a cube the tree contains. */
  function TreeGet(tree: map<FaceKey, CubeNode>, b: Boards): seq<UInt32>
    requires TreeWellFormed(tree) && TreeContains(tree, b)
  {
    NodeGet(tree[KeyAt(b, 0)], b, 1)
  }

  /** `CubeTree.Add`: as `NodeAdd`, one tier up; the tree then holds exactly the cubes it held and `b`. */
  function TreeAdd(tree: map<FaceKey, CubeNode>, b: Boards, s: seq<UInt32>): (r: (bool, map<FaceKey, CubeNode>))
    requires TreeWellFormed(tree)
    ensures TreeWellFormed(r.1)
    ensures r.0 == !TreeContains(tree, b)
    ensures forall b' :: TreeContains(r.1, b') <==> TreeContains(tree, b') || b' == b
    ensures forall b' :: TreeContains(tree, b') ==> TreeGet(r.1, b') == TreeGet(tree, b')
    ensures r.0 ==> TreeGet(r.1, b) == s
  {
    var key := KeyAt(b, 0);
    if key in tree then
      var (added, node) := NodeAdd(tree[key], b, s, 1);
      EqualityIsAgreement(b);
      (added, tree[key := node])
    else
      EqualityIsAgreement(b);
      (true, tree[key := NodeNew(b, s, 1)])
  }

  /** Agreeing with `b` at tiers 1 to 5 and on the U word is being `b`. */
  lemma EqualityIsAgreement(b: Boards)
    ensures forall b' :: (KeyAt(b', 0) == KeyAt(b, 0) && AgreeFrom(b', b, 1)) <==> b' == b
  {
    forall b' | true
      ensures (KeyAt(b', 0) == KeyAt(b, 0) && AgreeFrom(b', b, 1)) <==> b' == b
    {
      AgreeEverywhereIsEquality(b', b);
    }
  }

  // ---------------------------------------------------------------------------------
  // The store
  // ---------------------------------------------------------------------------------

  class CubeStore {
    /** Cubes waiting to be expanded, front first. */
    var queue: seq<Cube>
    /** The tree of every cube added so far. */
    var tree: map<FaceKey, CubeNode>
    /** The words of every cube added so far, with the sequence it was first added with. */
    ghost var contents: map<Boards, seq<UInt32>>

    ghost predicate Valid()
      reads this
    {
      TreeWellFormed(tree)
      && (forall b {:trigger TreeContains(tree, b)} :: TreeContains(tree, b) <==> b in contents)
      && (forall b {:trigger TreeContains(tree, b)} :: TreeContains(tree, b) ==> TreeGet(tree, b) == contents[b])
      && (forall i :: 0 <= i < |queue| ==> queue[i].boards in contents)
    }

    constructor()
      ensures Valid()
      ensures queue == [] && contents == map[]
    {
      queue := [];
      tree := map[];
      contents := map[];
    }

    /**
     * Adds a cube unless one with the same words was added before (whether or not
     * it is still queued). Returns whether it was added; an added cube goes to the
     * back of the queue and its sequence is remembered.
     */
    method Add(c: Cube) returns (added: bool)
      requires Valid()
      modifies this
      ensures Valid()
      ensures added <==> c.boards !in old(contents)
      ensures contents == if added then old(contents)[c.boards := c.sequence] else old(contents)
      ensures queue == if added then old(queue) + [c] else old(queue)
    {
      var (wasAdded, newTree) := TreeAdd(tree, c.boards, c.sequence);
      tree := newTree;
      if wasAdded {
        contents := contents[c.boards := c.sequence];
        queue := queue + [c];
      }
      added := wasAdded;
    }

    /** Takes the front cube off the queue; `None` where `Queue.Dequeue` throws on an empty queue. */
    method Dequeue() returns (r: Option<Cube>)
      requires Valid()
      modifies this
      ensures Valid()
      ensures contents == old(contents)
      ensures old(queue) == [] ==> r == None && queue == []
      ensures old(queue) != [] ==> r == Some(old(queue)[0]) && queue == old(queue)[1..]
    {
      if queue == [] {
        r := None;
      } else {
        r := Some(queue[0]);
        queue := queue[1..];
      }
    }

    /** Whether a cube with the same words has ever been added. */
    method Contains(c: Cube) returns (r: bool)
      requires Valid()
      ensures r <==> c.boards in contents
    {
      r := TreeContains(tree, c.boards);
    }

    /** The sequence stored with the cube's words; `None` where the source's dictionary lookup throws. */
    method GetSequenceOfEqualCube(c: Cube) returns (r: Option<seq<UInt32>>)
      requires Valid()
      ensures c.boards in contents ==> r == Some(contents[c.boards])
      ensures c.boards !in contents ==> r == None
    {
      if TreeContains(tree, c.boards) {
        r := Some(TreeGet(tree, c.boards));
      } else {
        r := None;
      }
    }
  }
}
