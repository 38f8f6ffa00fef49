/** The checkpoint Merkle root: how it is computed, and what it binds. */
module Merkle {
  import opened Basics
  import opened Canonical

  function LeafHash(s: Suite, l: Leaf): Digest {
    s.sha(CanonicalLeaf(s, l))
  }

  function NodeHash(s: Suite, left: Digest, right: Digest): Digest {
    s.sha(CanonicalNode(left, right))
  }

  // ---------------------------------------------------------------- leaves in ticket order

  predicate Sorted(leaves: seq<Leaf>) {
    forall i, j | 0 <= i < j < |leaves| :: leaves[i].ticket <= leaves[j].ticket
  }

  predicate DistinctTickets(leaves: seq<Leaf>) {
    forall i, j | 0 <= i < j < |leaves| :: leaves[i].ticket != leaves[j].ticket
  }

  /** The lists a checkpoint may be taken over. */
  predicate Accepted(leaves: seq<Leaf>) {
    |leaves| > 0 && DistinctTickets(leaves)
  }

  ghost predicate SameLeaves(a: seq<Leaf>, b: seq<Leaf>) {
    |a| == |b| && forall l :: l in a <==> l in b
  }

  function Insert(l: Leaf, sorted: seq<Leaf>): (r: seq<Leaf>)
    ensures |r| == |sorted| + 1
    ensures forall x :: x in r <==> x == l || x in sorted
  {
    if sorted == [] || l.ticket < sorted[0].ticket then [l] + sorted
    else
      assert sorted == [sorted[0]] + sorted[1..];
      [sorted[0]] + Insert(l, sorted[1..])
  }

  lemma {:induction false} InsertKeepsOrder(l: Leaf, sorted: seq<Leaf>)
    requires Sorted(sorted)
    ensures Sorted(Insert(l, sorted))
  {
    if sorted != [] && sorted[0].ticket <= l.ticket {
      var rest := Insert(l, sorted[1..]);
      InsertKeepsOrder(l, sorted[1..]);
      forall k | 0 <= k < |rest|
        ensures sorted[0].ticket <= rest[k].ticket
      {
        assert rest[k] in rest;
        assert rest[k] in sorted[1..] || rest[k] == l;
      }
    }
  }

  lemma DistinctCons(head: Leaf, tail: seq<Leaf>)
    ensures DistinctTickets([head] + tail) <==>
            DistinctTickets(tail) && forall x | x in tail :: x.ticket != head.ticket
  {
    var all := [head] + tail;
    if DistinctTickets(all) {
      forall i, j | 0 <= i < j < |tail|
        ensures tail[i].ticket != tail[j].ticket
      {
        assert all[i + 1].ticket != all[j + 1].ticket;
      }
      forall x | x in tail
        ensures x.ticket != head.ticket
      {
        var i :| 0 <= i < |tail| && tail[i] == x;
        assert all[0].ticket != all[i + 1].ticket;
      }
    }
  }

  /** Insertion keeps tickets distinct exactly when the new ticket is new. */
  lemma {:induction false} InsertDistinct(l: Leaf, sorted: seq<Leaf>)
    ensures DistinctTickets(Insert(l, sorted)) <==> DistinctTickets([l] + sorted)
  {
    if sorted != [] && sorted[0].ticket <= l.ticket {
      var rest := Insert(l, sorted[1..]);
      assert sorted == [sorted[0]] + sorted[1..];
      InsertDistinct(l, sorted[1..]);
      DistinctCons(sorted[0], rest);
      DistinctCons(sorted[0], sorted[1..]);
      DistinctCons(l, sorted);
      DistinctCons(l, sorted[1..]);
    }
  }

  /** The sorted copy. */
  function SortLeaves(leaves: seq<Leaf>): (r: seq<Leaf>)
    ensures |r| == |leaves|
    ensures forall x :: x in r <==> x in leaves
    ensures Sorted(r)
  {
    if leaves == [] then []
    else
      assert leaves == [leaves[0]] + leaves[1..];
      InsertKeepsOrder(leaves[0], SortLeaves(leaves[1..]));
      Insert(leaves[0], SortLeaves(leaves[1..]))
  }

  lemma {:induction false} SortDistinct(leaves: seq<Leaf>)
    ensures DistinctTickets(SortLeaves(leaves)) <==> DistinctTickets(leaves)
  {
    if leaves != [] {
      var rest := SortLeaves(leaves[1..]);
      SortDistinct(leaves[1..]);
      InsertDistinct(leaves[0], rest);
      DistinctCons(leaves[0], rest);
      DistinctCons(leaves[0], leaves[1..]);
      assert leaves == [leaves[0]] + leaves[1..];
    }
  }

  /** A set of leaves with distinct tickets has one sorted listing. */
  lemma {:induction false} SortIsUnique(a: seq<Leaf>, b: seq<Leaf>)
    requires Sorted(a) && Sorted(b) && SameLeaves(a, b)
    requires DistinctTickets(a) && DistinctTickets(b)
    ensures a == b
  {
    if a != [] {
      assert a[0] in b && b[0] in a;
      assert a[0].ticket == b[0].ticket;
      assert a[0] == b[0];
      var x, y := a[1..], b[1..];
      assert a == [a[0]] + x && b == [b[0]] + y;
      DistinctCons(a[0], x);
      DistinctCons(b[0], y);
      forall l
        ensures l in x <==> l in y
      {
        assert l in x ==> l in b && l != a[0];
        assert l in y ==> l in a && l != b[0];
      }
      SortIsUnique(x, y);
    }
  }

  // ---------------------------------------------------------------- what is computed

  /** The next level: neighbours are paired, and an odd last node is paired with itself. */
  function Pair(s: Suite, level: seq<Digest>): (next: seq<Digest>)
    ensures |next| == (|level| + 1) / 2
  {
    if |level| == 0 then []
    else if |level| == 1 then [NodeHash(s, level[0], level[0])]
    else [NodeHash(s, level[0], level[1])] + Pair(s, level[2..])
  }

  function Collapse(s: Suite, level: seq<Digest>): Digest
    requires |level| > 0
    decreases |level|
  {
    if |level| == 1 then level[0] else Collapse(s, Pair(s, level))
  }

  function LeafHashes(s: Suite, leaves: seq<Leaf>): (level: seq<Digest>)
    ensures |level| == |leaves|
  {
    seq(|leaves|, i requires 0 <= i < |leaves| => LeafHash(s, leaves[i]))
  }

  function Root(s: Suite, leaves: seq<Leaf>): Digest
    requires |leaves| > 0
  {
    Collapse(s, LeafHashes(s, SortLeaves(leaves)))
  }

  /** The source's computation.  A hash of the wrong size is an error there; here the type
      of a digest excludes it. */
  method MerkleRoot(s: Suite, leaves: seq<Leaf>) returns (root: Option<Digest>)
    ensures root.Some? <==> Accepted(leaves)
    ensures root.Some? ==> root.value == Root(s, leaves)
  {
    hide LeafHashes;
    if |leaves| == 0 {
      return None;
    }
    var sorted := SortLeaves(leaves);
    SortDistinct(leaves);
    var distinct, level := FirstLevel(s, sorted);
    if !distinct {
      return None;
    }
    while |level| > 1
      invariant |level| > 0 && Collapse(s, level) == Root(s, leaves)
      decreases |level|
    {
      level := NextLevel(s, level);
    }
    root := Some(level[0]);
  }

  method FirstLevel(s: Suite, sorted: seq<Leaf>) returns (distinct: bool, level: seq<Digest>)
    requires Sorted(sorted)
    ensures distinct <==> DistinctTickets(sorted)
    ensures distinct ==> level == LeafHashes(s, sorted)
  {
    hide LeafHash;
    level := [];
    for i := 0 to |sorted|
      invariant level == LeafHashes(s, sorted[..i])
      invariant forall k | 1 <= k < i :: sorted[k - 1].ticket < sorted[k].ticket
    {
      if i > 0 && sorted[i - 1].ticket == sorted[i].ticket {
        return false, level;
      }
      level := level + [LeafHash(s, sorted[i])];
    }
    assert sorted[..|sorted|] == sorted;
    StrictlySortedIsDistinct(sorted);
    distinct := true;
  }

  lemma StrictlySortedIsDistinct(sorted: seq<Leaf>)
    requires Sorted(sorted)
    requires forall k | 1 <= k < |sorted| :: sorted[k - 1].ticket < sorted[k].ticket
    ensures DistinctTickets(sorted)
  {
    forall i, j | 0 <= i < j < |sorted|
      ensures sorted[i].ticket != sorted[j].ticket
    {
      assert sorted[i].ticket <= sorted[j - 1].ticket < sorted[j].ticket;
    }
  }

  method NextLevel(s: Suite, level: seq<Digest>) returns (next: seq<Digest>)
    ensures next == Pair(s, level)
  {
    hide NodeHash;
    next := [];
    var i := 0;
    while i < |level|
      invariant i % 2 == 0 && 0 <= i
      invariant next + Pair(s, if i <= |level| then level[i..] else []) == Pair(s, level)
    {
      var right := level[i];
      if i + 1 < |level| {
        right := level[i + 1];
        assert level[i..][2..] == level[i + 2..];
      }
      next := next + [NodeHash(s, level[i], right)];
      i := i + 2;
    }
  }

  /** The root does not depend on the order the leaves were read in. */
  lemma RootIgnoresOrder(s: Suite, a: seq<Leaf>, b: seq<Leaf>)
    requires Accepted(a) && Accepted(b) && SameLeaves(a, b)
    ensures Root(s, a) == Root(s, b)
  {
    SortDistinct(a);
    SortDistinct(b);
    SortIsUnique(SortLeaves(a), SortLeaves(b));
  }

  // ---------------------------------------------------------------- what it binds

  /** The tree the level loop walks, with its padding. */
  datatype Tree = Tip(leaf: Leaf) | Fork(left: Tree, right: Tree)

  function HashTree(s: Suite, t: Tree): Digest {
    match t
    case Tip(l) => LeafHash(s, l)
    case Fork(l, r) => NodeHash(s, HashTree(s, l), HashTree(s, r))
  }

  function LeavesOf(t: Tree): set<Leaf> {
    match t
    case Tip(l) => {l}
    case Fork(l, r) => LeavesOf(l) + LeavesOf(r)
  }

  /** Every message hashed on the way to the root of this tree. */
  function Messages(s: Suite, t: Tree): set<string> {
    match t
    case Tip(l) => {CanonicalLeaf(s, l)}
    case Fork(l, r) => Messages(s, l) + Messages(s, r) + {CanonicalNode(HashTree(s, l), HashTree(s, r))}
  }

  function PairTrees(level: seq<Tree>): (next: seq<Tree>)
    ensures |next| == (|level| + 1) / 2
  {
    if |level| == 0 then []
    else if |level| == 1 then [Fork(level[0], level[0])]
    else [Fork(level[0], level[1])] + PairTrees(level[2..])
  }

  function CollapseTrees(level: seq<Tree>): Tree
    requires |level| > 0
    decreases |level|
  {
    if |level| == 1 then level[0] else CollapseTrees(PairTrees(level))
  }

  function Tips(leaves: seq<Leaf>): (level: seq<Tree>)
    ensures |level| == |leaves|
  {
    seq(|leaves|, i requires 0 <= i < |leaves| => Tip(leaves[i]))
  }

  function TreeOf(leaves: seq<Leaf>): Tree
    requires |leaves| > 0
  {
    CollapseTrees(Tips(SortLeaves(leaves)))
  }

  function HashTrees(s: Suite, level: seq<Tree>): (hashes: seq<Digest>)
    ensures |hashes| == |level|
  {
    if level == [] then [] else [HashTree(s, level[0])] + HashTrees(s, level[1..])
  }

  lemma {:induction false} HashTreesOfTips(s: Suite, leaves: seq<Leaf>)
    ensures HashTrees(s, Tips(leaves)) == LeafHashes(s, leaves)
  {
    if leaves != [] {
      HashTreesOfTips(s, leaves[1..]);
      assert Tips(leaves)[1..] == Tips(leaves[1..]);
      assert LeafHashes(s, leaves) == [LeafHash(s, leaves[0])] + LeafHashes(s, leaves[1..]);
    }
  }

  lemma {:induction false} PairCommutes(s: Suite, level: seq<Tree>)
    ensures Pair(s, HashTrees(s, level)) == HashTrees(s, PairTrees(level))
  {
    var hashes := HashTrees(s, level);
    if |level| == 1 {
      assert PairTrees(level)[1..] == [];
      assert level[1..] == [] && HashTrees(s, []) == [];
      assert hashes == [HashTree(s, level[0])];
    } else if |level| > 1 {
      PairCommutes(s, level[2..]);
      assert level[1..][1..] == level[2..] && level[1..][0] == level[1];
      assert hashes[1..] == HashTrees(s, level[1..]);
      assert hashes[2..] == HashTrees(s, level[2..]);
      assert PairTrees(level)[1..] == PairTrees(level[2..]);
    }
  }

  lemma {:induction false} CollapseCommutes(s: Suite, level: seq<Tree>)
    requires |level| > 0
    ensures Collapse(s, HashTrees(s, level)) == HashTree(s, CollapseTrees(level))
    decreases |level|
  {
    if |level| > 1 {
      PairCommutes(s, level);
      CollapseCommutes(s, PairTrees(level));
    }
  }

  function Union(level: seq<Tree>): set<Leaf> {
    if level == [] then {} else LeavesOf(level[0]) + Union(level[1..])
  }

  lemma {:induction false} PairKeepsLeaves(level: seq<Tree>)
    ensures Union(PairTrees(level)) == Union(level)
  {
    if |level| > 1 {
      PairKeepsLeaves(level[2..]);
      assert level[1..][1..] == level[2..];
    }
  }

  lemma {:induction false} CollapseKeepsLeaves(level: seq<Tree>)
    requires |level| > 0
    ensures LeavesOf(CollapseTrees(level)) == Union(level)
    decreases |level|
  {
    if |level| > 1 {
      PairKeepsLeaves(level);
      CollapseKeepsLeaves(PairTrees(level));
    }
  }

  lemma {:induction false} UnionOfTips(leaves: seq<Leaf>)
    ensures forall l :: l in Union(Tips(leaves)) <==> l in leaves
  {
    if leaves != [] {
      UnionOfTips(leaves[1..]);
      assert Tips(leaves)[1..] == Tips(leaves[1..]);
      assert leaves == [leaves[0]] + leaves[1..];
    }
  }

  lemma RootIsTreeHash(s: Suite, leaves: seq<Leaf>)
    requires |leaves| > 0
    ensures Root(s, leaves) == HashTree(s, TreeOf(leaves))
    ensures forall l :: l in LeavesOf(TreeOf(leaves)) <==> l in leaves
  {
    var sorted := SortLeaves(leaves);
    HashTreesOfTips(s, sorted);
    CollapseCommutes(s, Tips(sorted));
    CollapseKeepsLeaves(Tips(sorted));
    UnionOfTips(sorted);
  }

  /** The leaf and node domains make the hash of a tree determine the tree. */
  lemma {:induction false} HashTreeInjective(s: Suite, t: Tree, u: Tree)
    requires s.WellFormed() && s.CollisionFree(Messages(s, t) + Messages(s, u))
    requires HashTree(s, t) == HashTree(s, u)
    ensures t == u
  {
    match (t, u) {
      case (Tip(a), Tip(b)) =>
        CanonicalLeafInjective(s, a, b);
      case (Fork(a, b), Fork(c, d)) =>
        CanonicalNodeInjective(HashTree(s, a), HashTree(s, b), HashTree(s, c), HashTree(s, d));
        HashTreeInjective(s, a, c);
        HashTreeInjective(s, b, d);
      case (Tip(a), Fork(c, d)) =>
        LeafIsNotNode(s, a, HashTree(s, c), HashTree(s, d));
      case (Fork(a, b), Tip(c)) =>
        LeafIsNotNode(s, c, HashTree(s, a), HashTree(s, b));
    }
  }

  lemma LeafIsNotNode(s: Suite, l: Leaf, left: Digest, right: Digest)
    ensures CanonicalLeaf(s, l) != CanonicalNode(left, right)
  {
    FormsAreDisjoint(s, 0, 0, "", GENESIS, l, left, right,
                     Checkpoint(0, 0, GENESIS, GENESIS, 0, "", 0), Event(0, Identity(0, 0, 0), 0, Nil, Issued, 0));
  }

  lemma {:induction false} DistinctLengths(a: seq<Leaf>, b: seq<Leaf>)
    requires DistinctTickets(a) && DistinctTickets(b) && forall l :: l in a <==> l in b
    ensures |a| == |b|
  {
    assert |set l | l in a| == |a| by { DistinctCardinality(a); }
    assert |set l | l in b| == |b| by { DistinctCardinality(b); }
    assert (set l | l in a) == (set l | l in b);
  }

  lemma {:induction false} DistinctCardinality(a: seq<Leaf>)
    requires DistinctTickets(a)
    ensures |set l | l in a| == |a|
  {
    if a != [] {
      var rest := a[1..];
      assert a == [a[0]] + rest;
      DistinctCons(a[0], rest);
      DistinctCardinality(rest);
      assert (set l | l in a) == {a[0]} + (set l | l in rest);
    }
  }

  /** Merkle binding: two accepted leaf lists with one root hold the same leaves, whatever
      their lengths and orders, unless two of the messages hashed for them collide. */
  lemma RootBinds(s: Suite, a: seq<Leaf>, b: seq<Leaf>)
    requires s.WellFormed() && Accepted(a) && Accepted(b)
    requires s.CollisionFree(Messages(s, TreeOf(a)) + Messages(s, TreeOf(b)))
    ensures Root(s, a) == Root(s, b) <==> SameLeaves(a, b)
  {
    if Root(s, a) == Root(s, b) {
      RootIsTreeHash(s, a);
      RootIsTreeHash(s, b);
      HashTreeInjective(s, TreeOf(a), TreeOf(b));
      DistinctLengths(a, b);
    }
    if SameLeaves(a, b) {
      RootIgnoresOrder(s, a, b);
    }
  }

  /** Why a ticket may appear only once: padding makes a repeated last leaf invisible, so
      a list the source refuses shares its root with one it accepts. */
  lemma PaddingIsAmbiguous(s: Suite, a: Leaf, b: Leaf, c: Leaf)
    requires a.ticket < b.ticket < c.ticket
    ensures Accepted([a, b, c]) && !Accepted([a, b, c, c])
    ensures Root(s, [a, b, c]) == Root(s, [a, b, c, c])
  {
    hide LeafHash, NodeHash, SortLeaves, Pair;
    var three, four := [a, b, c], [a, b, c, c];
    SortedIsFixed(three);
    SortedIsFixed(four);
    assert four[2].ticket == four[3].ticket;
    var h := LeafHashes(s, three);
    assert LeafHashes(s, four) == [h[0], h[1], h[2], h[2]] && h == [h[0], h[1], h[2]];
    PairPads(s, h[0], h[1], h[2]);
  }

  /** An odd level is paired as if its last hash were there twice. */
  lemma PairPads(s: Suite, x: Digest, y: Digest, z: Digest)
    ensures Pair(s, [x, y, z]) == Pair(s, [x, y, z, z])
  {
    hide NodeHash;
    assert [x, y, z][2..] == [z] && [x, y, z, z][2..] == [z, z];
  }

  /** A listing that is already in order, with repeats only of whole leaves, is kept. */
  lemma {:induction false} SortedIsFixed(leaves: seq<Leaf>)
    requires forall i, j | 0 <= i < j < |leaves| :: leaves[i].ticket < leaves[j].ticket || leaves[i] == leaves[j]
    ensures SortLeaves(leaves) == leaves
  {
    if leaves != [] {
      SortedIsFixed(leaves[1..]);
      forall x | x in leaves[1..]
        ensures leaves[0].ticket < x.ticket || leaves[0] == x
      {
        var k :| 0 <= k < |leaves[1..]| && leaves[1..][k] == x;
        assert leaves[k + 1] == x;
      }
      InsertFirst(leaves[0], leaves[1..]);
      assert leaves == [leaves[0]] + leaves[1..];
    }
  }

  lemma {:induction false} InsertFirst(l: Leaf, rest: seq<Leaf>)
    requires forall x | x in rest :: l.ticket < x.ticket || l == x
    ensures Insert(l, rest) == [l] + rest
  {
    if rest != [] && rest[0] == l {
      InsertFirst(l, rest[1..]);
      assert rest == [l] + rest[1..];
    }
  }
}
