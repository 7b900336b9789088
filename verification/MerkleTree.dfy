/**
 merkle.ts: building the tree, reading inclusion proofs off it, and verifying them.
 */
module MerkleTree {
  import opened ByteStrings
  import opened Hashing
  import opened MerkleLevels
  import opened Rfc6962
  import opened Wrappers

  datatype Tree = Tree(size: nat, levelHashes: seq<seq<Bytes>>)

  // ----- building

  function Levels(sha: Hash, hs: seq<Bytes>): (levels: seq<seq<Bytes>>)
    requires |hs| > 0
    ensures |levels| > 0 && levels[0] == hs
    decreases |hs|, 1
  {
    [hs] + LevelsAbove(sha, hs)
  }

  function LevelsAbove(sha: Hash, hs: seq<Bytes>): (levels: seq<seq<Bytes>>)
    requires |hs| > 0
    decreases |hs|, 0
  {
    if |hs| == 1 then [] else Levels(sha, NextLevel(sha, hs))
  }

  function LeafHashes(sha: Hash, leaves: seq<LeafInput>): (r: Result<seq<Bytes>, HashError>)
    ensures r.Ok? <==> forall i :: 0 <= i < |leaves| ==> LeafHash(sha, leaves[i]).Ok?
    ensures r.Ok? ==> |r.value| == |leaves| && forall i :: 0 <= i < |leaves| ==>
            LeafHash(sha, leaves[i]) == Ok(r.value[i])
  {
    if leaves == [] then Ok([])
    else
      match LeafHashes(sha, leaves[..|leaves| - 1])
      case Err(e) => Err(e)
      case Ok(hs) =>
        match LeafHash(sha, leaves[|leaves| - 1])
        case Err(e) => Err(e)
        case Ok(h) => Ok(hs + [h])
  }

  /** A tree can be built: every leaf can be hashed, and in a tree of several every given hash is a digest. */
  ghost predicate Buildable(sha: Hash, leaves: seq<LeafInput>) {
    && LeafHashes(sha, leaves).Ok?
    && (|leaves| > 1 ==> AllDigests(LeafHashes(sha, leaves).value))
  }

  ghost function TreeOf(sha: Hash, hs: seq<Bytes>): Tree {
    Tree(|hs|, if hs == [] then [] else Levels(sha, hs))
  }

  method HashLeaves(sha: Hash, leaves: seq<LeafInput>) returns (r: Result<seq<Bytes>, HashError>)
    ensures r == LeafHashes(sha, leaves)
  {
    var hs := [];
    for i := 0 to |leaves|
      invariant LeafHashes(sha, leaves[..i]) == Ok(hs)
    {
      var h := LeafHash(sha, leaves[i]);
      assert leaves[..i + 1][..i] == leaves[..i] && leaves[..i + 1][i] == leaves[i];
      if h.Err? {
        LeafHashesPrefix(sha, leaves, i + 1);
        return Err(h.error);
      }
      hs := hs + [h.value];
    }
    assert leaves[..|leaves|] == leaves;
    return Ok(hs);
  }

  /** The first leaf that cannot be hashed decides the error. */
  lemma {:induction false} LeafHashesPrefix(sha: Hash, leaves: seq<LeafInput>, i: nat)
    requires i <= |leaves| && LeafHashes(sha, leaves[..i]).Err?
    ensures LeafHashes(sha, leaves) == LeafHashes(sha, leaves[..i])
  {
    if i == |leaves| {
      assert leaves[..i] == leaves;
    } else {
      var init := leaves[..|leaves| - 1];
      assert init[..i] == leaves[..i];
      LeafHashesPrefix(sha, init, i);
    }
  }

  /** Every member of a pair is a digest; the promoted odd node may be anything. */
  ghost predicate PairsAreDigests(s: seq<Bytes>) {
    |s| <= 1 || (|s[0]| == |s[1]| == DIGEST_BYTES && PairsAreDigests(s[2..]))
  }

  lemma AllDigestsConcat(a: seq<Bytes>, b: seq<Bytes>)
    ensures AllDigests(a + b) <==> AllDigests(a) && AllDigests(b)
  {
    if AllDigests(a + b) {
      forall j | 0 <= j < |a|
        ensures |a[j]| == DIGEST_BYTES
      {
        assert a[j] == (a + b)[j];
      }
      forall j | 0 <= j < |b|
        ensures |b[j]| == DIGEST_BYTES
      {
        assert b[j] == (a + b)[|a| + j];
      }
    }
  }

  /** A level of digests is paired without failure into a level of digests, and only such a level is. */
  lemma {:induction false} NextLevelKeepsDigests(sha: Hash, s: seq<Bytes>)
    ensures AllDigests(s) <==> PairsAreDigests(s) && AllDigests(NextLevel(sha, s))
  {
    if |s| > 1 {
      NextLevelKeepsDigests(sha, s[2..]);
      AllDigestsConcat([Node(sha, s[0], s[1])], NextLevel(sha, s[2..]));
      AllDigestsConcat(s[..2], s[2..]);
      assert s == s[..2] + s[2..];
    }
  }

  /** One pass of the pairing loop; fails on the first pair with a member that is not a digest. */
  method PairAndPromote(sha: Hash, current: seq<Bytes>) returns (r: Result<seq<Bytes>, HashError>)
    ensures r.Ok? ==> r.value == NextLevel(sha, current)
    ensures r.Ok? <==> PairsAreDigests(current)
    ensures r.Err? ==> r.error.NodeInputLength?
  {
    var next := [];
    var i := 0;
    while i < |current|
      invariant 0 <= i <= |current|
      invariant next + NextLevel(sha, current[i..]) == NextLevel(sha, current)
      invariant PairsAreDigests(current) <==> PairsAreDigests(current[i..])
    {
      ghost var rest := current[i..];
      if i + 1 < |current| {
        var node := NodeHash(sha, current[i], current[i + 1]);
        if node.Err? {
          return Err(node.error);
        }
        PairStep(sha, rest, next);
        assert rest[2..] == current[i + 2..];
        next := next + [node.value];
        i := i + 2;
      } else {
        assert rest == [current[i]];
        next := next + [current[i]];
        i := i + 1;
      }
    }
    return Ok(next);
  }

  lemma PairStep(sha: Hash, s: seq<Bytes>, next: seq<Bytes>)
    requires |s| > 1
    ensures next + NextLevel(sha, s) == (next + [Node(sha, s[0], s[1])]) + NextLevel(sha, s[2..])
  {
    AppendAssociative(next, [Node(sha, s[0], s[1])], NextLevel(sha, s[2..]));
  }

  method BuildMerkleTree(sha: Hash, leaves: seq<LeafInput>) returns (r: Result<Tree, HashError>)
    ensures r.Ok? <==> Buildable(sha, leaves)
    ensures r.Ok? ==> r.value == TreeOf(sha, LeafHashes(sha, leaves).value)
    ensures LeafHashes(sha, leaves).Err? ==> r == Err(LeafHashes(sha, leaves).error)
    ensures r.Err? && LeafHashes(sha, leaves).Ok? ==> r.error.NodeInputLength?
  {
    if |leaves| == 0 {
      return Ok(Tree(0, []));
    }
    var hashed := HashLeaves(sha, leaves);
    if hashed.Err? {
      return Err(hashed.error);
    }
    var current := hashed.value;
    var levels := [current];
    while |current| > 1
      invariant |current| > 0
      invariant levels + LevelsAbove(sha, current) == Levels(sha, hashed.value)
      invariant AllDigests(hashed.value) <==> AllDigests(current)
      invariant |leaves| > 1 && |current| == 1 ==> AllDigests(current)
      decreases |current|
    {
      var next := PairAndPromote(sha, current);
      NextLevelKeepsDigests(sha, current);
      if next.Err? {
        return Err(next.error);
      }
      AppendAssociative(levels, [next.value], LevelsAbove(sha, next.value));
      levels := levels + [next.value];
      current := next.value;
    }
    return Ok(Tree(|leaves|, levels));
  }

  // ----- the root

  method MerkleRoot(sha: Hash, tree: Tree) returns (root: Bytes)
    requires tree.size > 0 ==> tree.levelHashes != [] && tree.levelHashes[|tree.levelHashes| - 1] != []
    ensures tree.size == 0 ==> root == sha([])
    ensures forall hs :: tree == TreeOf(sha, hs) && hs != [] ==> root == Mth(sha, hs)
  {
    if tree.size == 0 {
      return sha([]);
    }
    var top := tree.levelHashes[|tree.levelHashes| - 1];
    forall hs | tree == TreeOf(sha, hs) && hs != []
      ensures top[0] == Mth(sha, hs)
    {
      TopLevelIsMth(sha, hs);
    }
    return top[0];
  }

  /** The refinement: the last level that pairing and promoting reaches holds the standard's tree hash. */
  lemma {:induction false} TopLevelIsMth(sha: Hash, hs: seq<Bytes>)
    requires |hs| > 0
    ensures var levels := Levels(sha, hs); levels[|levels| - 1] == [Mth(sha, hs)]
    decreases |hs|
  {
    if |hs| > 1 {
      NextLevelKeepsMth(sha, hs);
      TopLevelIsMth(sha, NextLevel(sha, hs));
    }
  }

  // ----- inclusion proofs

  /** 32-bit operations of JavaScript on integers. */
  function ToInt32(x: int): (r: int) {
    var m := x % U32_SIZE;
    if m < U32_SIZE / 2 then m else m - U32_SIZE
  }

  function ShiftRight1(x: int): int {
    ToInt32(x) / 2
  }

  function Xor1(x: int): int {
    var y := ToInt32(x);
    if y % 2 == 0 then y + 1 else y - 1
  }

  /** JavaScript's `x % 2`, which takes the sign of `x`. */
  function Remainder2(x: int): int {
    if x >= 0 then x % 2 else -((-x) % 2)
  }

  /** Indices that the 32-bit shift halves exactly. */
  predicate ShiftSafe(i: nat) {
    i < U32_SIZE / 2
  }

  /** What the bit operations of one level compute on a safe index. */
  lemma BitOperations(i: nat, n: nat)
    requires i < n && ShiftSafe(i)
    ensures Xor1(i) == Sibling(i) && (Sibling(i) < n <==> !Promoted(i, n))
    ensures ShiftRight1(i) == i / 2 && ShiftSafe(i / 2) && i / 2 < (n + 1) / 2
    ensures Remainder2(i) == i % 2
  {
  }

  /** What the loop reads at an integer index: a sibling before the row's start is `undefined`, none. */
  function Reading(sha: Hash, row: seq<Bytes>, idx: int): seq<Option<Bytes>>
    decreases |row|
  {
    if |row| <= 1 then [] else ReadAt(row, Xor1(idx)) + Reading(sha, NextLevel(sha, row), ShiftRight1(idx))
  }

  function ReadAt(row: seq<Bytes>, at: int): seq<Option<Bytes>> {
    if at >= |row| then [] else if at >= 0 then [Some(row[at])] else [None]
  }

  function Known(p: seq<Bytes>): seq<Option<Bytes>> {
    seq(|p|, i requires 0 <= i < |p| => Some(p[i]))
  }

  datatype RangeError = RangeError(index: int, size: nat)

  method InclusionProof(sha: Hash, tree: Tree, index: int, ghost hs: seq<Bytes>)
    returns (r: Result<seq<Option<Bytes>>, RangeError>)
    requires tree == TreeOf(sha, hs)
    ensures r.Ok? <==> index < |hs| && hs != []
    ensures r.Ok? ==> r.value == Reading(sha, hs, index)
    ensures r.Err? ==> r.error == RangeError(index, |hs|)
  {
    if tree.size == 0 || index >= tree.size {
      return Err(RangeError(index, tree.size));
    }
    var proof: seq<Option<Bytes>> := [];
    var idx := index;
    var levels := tree.levelHashes;
    var level := 0;
    assert levels[1..] == LevelsAbove(sha, levels[0]);
    hide Reading, Xor1, ShiftRight1, NextLevel, LevelsAbove, Levels;
    while level < |levels| - 1
      invariant 0 <= level < |levels| && 0 < |levels[level]|
      invariant levels[level + 1..] == LevelsAbove(sha, levels[level])
      invariant proof + Reading(sha, levels[level], idx) == Reading(sha, hs, index)
    {
      var row := levels[level];
      LevelUp(sha, levels, level);
      var sibling := Xor1(idx);
      ReadStep(sha, row, idx, proof);
      assert ReadAt(row, sibling) == [] ==> proof + ReadAt(row, sibling) == proof;
      if sibling < |row| {
        var read := if sibling >= 0 then Some(row[sibling]) else None;
        assert ReadAt(row, sibling) == [read];
        proof := proof + [read];
      }
      idx := ShiftRight1(idx);
      level := level + 1;
    }
    ReadNothing(sha, levels[level], idx);
    return Ok(proof);
  }

  lemma LevelUp(sha: Hash, levels: seq<seq<Bytes>>, level: nat)
    requires level + 1 < |levels| && |levels[level]| > 0 && levels[level + 1..] == LevelsAbove(sha, levels[level])
    ensures |levels[level]| > 1 && |levels[level + 1]| > 0 && levels[level + 1] == NextLevel(sha, levels[level])
    ensures levels[level + 2..] == LevelsAbove(sha, levels[level + 1])
  {
    var next := NextLevel(sha, levels[level]);
    assert levels[level + 1..] == [next] + LevelsAbove(sha, next);
    assert levels[level + 1..][1..] == levels[level + 2..];
  }

  /** The last level is a single node. */
  lemma ReadNothing(sha: Hash, row: seq<Bytes>, idx: int)
    requires |row| > 0 && LevelsAbove(sha, row) == []
    ensures Reading(sha, row, idx) == []
  {
  }

  lemma ReadStep(sha: Hash, row: seq<Bytes>, idx: int, proof: seq<Option<Bytes>>)
    requires |row| > 1
    ensures proof + Reading(sha, row, idx) ==
            (proof + ReadAt(row, Xor1(idx))) + Reading(sha, NextLevel(sha, row), ShiftRight1(idx))
  {
    AppendAssociative(proof, ReadAt(row, Xor1(idx)), Reading(sha, NextLevel(sha, row), ShiftRight1(idx)));
  }

  /** Below 2^31 the audit path of section 2.1.1 is read. */
  lemma {:induction false} ReadingIsPath(sha: Hash, row: seq<Bytes>, i: nat)
    requires i < |row| && ShiftSafe(i)
    ensures Reading(sha, row, i) == Known(Path(sha, row, i))
    decreases |row|
  {
    if |row| > 1 {
      BitOperations(i, |row|);
      PathFromBelow(sha, row, i);
      ReadingIsPath(sha, NextLevel(sha, row), i / 2);
      KnownConcat(FirstSibling(row, i), Path(sha, NextLevel(sha, row), i / 2));
    }
  }

  lemma KnownConcat(p: seq<Bytes>, q: seq<Bytes>)
    ensures Known(p + q) == Known(p) + Known(q)
  {
  }

  /** The first operation on the index already reduces it to 32 bits. */
  lemma ReadingWraps(sha: Hash, row: seq<Bytes>, idx: int)
    ensures Reading(sha, row, idx) == Reading(sha, row, ToInt32(idx))
  {
    assert ToInt32(ToInt32(idx)) == ToInt32(idx);
  }

  lemma {:induction false} NegativeReading(sha: Hash, row: seq<Bytes>, idx: int)
    requires -U32_SIZE / 2 <= idx < 0
    ensures forall j :: 0 <= j < |Reading(sha, row, idx)| ==> Reading(sha, row, idx)[j].None?
    ensures |row| > 1 ==> Reading(sha, row, idx) != []
    decreases |row|
  {
    if |row| > 1 {
      assert Xor1(idx) < 0 && -U32_SIZE / 2 <= ShiftRight1(idx) < 0;
      NegativeReading(sha, NextLevel(sha, row), ShiftRight1(idx));
    }
  }

  lemma Int32Of(x: nat)
    ensures -U32_SIZE / 2 <= ToInt32(x) <= x && ToInt32(x) < U32_SIZE / 2
    ensures ToInt32(x) == x <==> ShiftSafe(x)
  {
  }

  /**
   The proof read for any index of a tree is that of the leaf the index is in 32 bits, or consists of nothing but
   `undefined`: from 2^31 on it is never read at the index itself.
   */
  lemma ReadingExactly(sha: Hash, hs: seq<Bytes>, index: nat)
    requires index < |hs|
    ensures ToInt32(index) <= index && (ToInt32(index) == index <==> ShiftSafe(index))
    ensures ToInt32(index) >= 0 ==> Reading(sha, hs, index) == Known(Path(sha, hs, ToInt32(index)))
    ensures ToInt32(index) < 0 ==>
              Reading(sha, hs, index) != [] && forall j :: 0 <= j < |Reading(sha, hs, index)| ==>
                  Reading(sha, hs, index)[j].None?
  {
    ReadingWraps(sha, hs, index);
    Int32Of(index);
    hide Reading, ToInt32, Path;
    if ToInt32(index) >= 0 {
      ReadingIsPath(sha, hs, ToInt32(index));
    } else {
      NegativeReading(sha, hs, ToInt32(index));
    }
  }

  // ----- verifying

  /** The verifier's walk on any integer index, with the sizes of the levels alongside. */
  function Walk(sha: Hash, cur: Bytes, idx: int, size: nat, p: seq<Bytes>): Option<Bytes>
    decreases size
  {
    if size <= 1 then if p == [] then Some(cur) else None
    else if idx == size - 1 && Remainder2(idx) == 0 then Walk(sha, cur, ShiftRight1(idx), (size + 1) / 2, p)
    else if p == [] then None
    else
      var up := if Remainder2(idx) == 1 then Node(sha, p[0], cur) else Node(sha, cur, p[0]);
      Walk(sha, up, ShiftRight1(idx), (size + 1) / 2, p[1..])
  }

  ghost predicate Accepted(sha: Hash, h: Bytes, index: int, size: nat, p: seq<Bytes>, root: Bytes) {
    && |h| == DIGEST_BYTES && 0 < size && index < size
    && AllDigests(p)
    && Walk(sha, h, index, size, p) == Some(root)
  }

  /** On the indices of a tree the walk leads where the audit path of section 2.1.1 leads. */
  lemma {:induction false} WalkIsRootFrom(sha: Hash, h: Bytes, i: nat, n: nat, p: seq<Bytes>)
    requires i < n && ShiftSafe(i)
    ensures Walk(sha, h, i, n, p) == RootFrom(sha, h, i, n, p)
    decreases n
  {
    if n > 1 {
      BitOperations(i, n);
      RootFromBelow(sha, h, i, n, p);
      if p != [] || Promoted(i, n) {
        var (up, rest) := StepUp(sha, h, i, n, p);
        WalkIsRootFrom(sha, up, i / 2, (n + 1) / 2, rest);
      }
    }
  }

  method VerifyInclusion(sha: Hash, leafHash: Bytes, index: int, treeSize: nat, proof: seq<Bytes>, expectedRoot: Bytes)
    returns (accepted: bool)
    ensures accepted <==> Accepted(sha, leafHash, index, treeSize, proof, expectedRoot)
  {
    if |leafHash| != DIGEST_BYTES {
      return false;
    }
    if treeSize == 0 || index >= treeSize {
      return false;
    }
    if treeSize == 1 {
      if |proof| != 0 {
        return false;
      }
      accepted := ConstantTimeEqual(leafHash, expectedRoot);
      return;
    }
    for i := 0 to |proof|
      invariant forall j :: 0 <= j < i ==> |proof[j]| == DIGEST_BYTES
    {
      if |proof[i]| != DIGEST_BYTES {
        return false;
      }
    }
    var cur, idx, size, used := leafHash, index, treeSize, 0;
    while size > 1
      invariant size > 0 && |cur| == DIGEST_BYTES && 0 <= used <= |proof|
      invariant Walk(sha, cur, idx, size, proof[used..]) == Walk(sha, leafHash, index, treeSize, proof)
      decreases size
    {
      if idx == size - 1 && Remainder2(idx) == 0 {
        // promoted: no sibling at this level
      } else {
        if used >= |proof| {
          return false;
        }
        var sibling := proof[used];
        assert proof[used..][0] == sibling && proof[used..][1..] == proof[used + 1..];
        used := used + 1;
        if Remainder2(idx) == 1 {
          var node := NodeHash(sha, sibling, cur);
          cur := node.value;
        } else {
          var node := NodeHash(sha, cur, sibling);
          cur := node.value;
        }
      }
      idx, size := ShiftRight1(idx), (size + 1) / 2;
    }
    if used != |proof| {
      return false;
    }
    accepted := ConstantTimeEqual(cur, expectedRoot);
  }

  // ----- what acceptance means

  lemma {:induction false} PathIsDigests(sha: Hash, hs: seq<Bytes>, i: nat)
    requires i < |hs| && AllDigests(hs)
    ensures AllDigests(Path(sha, hs, i))
    decreases |hs|
  {
    if |hs| > 1 {
      var k := Split(|hs|);
      MthIsDigest(sha, hs[..k]);
      MthIsDigest(sha, hs[k..]);
      if i < k {
        PathIsDigests(sha, hs[..k], i);
      } else {
        PathIsDigests(sha, hs[k..], i - k);
      }
    }
  }

  // ----- where the index checks end

  /** A proof of zero digests that the walk consumes exactly, for any integer index. */
  function Filler(idx: int, size: nat): (p: seq<Bytes>)
    ensures forall j :: 0 <= j < |p| ==> |p[j]| == DIGEST_BYTES
    decreases size
  {
    if size <= 1 then []
    else (if idx == size - 1 && Remainder2(idx) == 0 then [] else [seq(DIGEST_BYTES, _ => 0 as Byte)])
         + Filler(ShiftRight1(idx), (size + 1) / 2)
  }

  lemma {:induction false} FillerConsumed(sha: Hash, cur: Bytes, idx: int, size: nat)
    ensures Walk(sha, cur, idx, size, Filler(idx, size)).Some?
    decreases size
  {
    if size > 1 {
      var rest := Filler(ShiftRight1(idx), (size + 1) / 2);
      if idx == size - 1 && Remainder2(idx) == 0 {
        assert Filler(idx, size) == rest;
        FillerConsumed(sha, cur, ShiftRight1(idx), (size + 1) / 2);
      } else {
        var p := Filler(idx, size);
        assert p[1..] == rest;
        var up := if Remainder2(idx) == 1 then Node(sha, p[0], cur) else Node(sha, cur, p[0]);
        FillerConsumed(sha, up, ShiftRight1(idx), (size + 1) / 2);
      }
    }
  }

  /**
   The documentation promises that an index outside the tree is refused. The code refuses one for every leaf,
   proof and root exactly when the tree is empty or the index is at or past its end: a negative index is
   never refused for being out of range.
   */
  lemma OutOfRangeRefusedUnlessNegative(sha: Hash, index: int, n: nat)
    requires !(0 <= index < n)
    ensures (forall h, p, root :: !Accepted(sha, h, index, n, p, root)) <==> n == 0 || index >= n
  {
    if 0 < n && index < n {
      var h := seq(DIGEST_BYTES, _ => 0 as Byte);
      FillerConsumed(sha, h, index, n);
      assert Accepted(sha, h, index, n, Filler(index, n), Walk(sha, h, index, n, Filler(index, n)).value);
    }
  }

  /** In a tree of two, index -1 with the right leaf as sibling passes for the left leaf. */
  lemma NegativeIndexAccepted(sha: Hash, left: Digest, right: Digest)
    ensures Accepted(sha, left, -1, 2, [right], Mth(sha, [left, right]))
  {
    var hs: seq<Bytes> := [left, right];
    assert Mth(sha, hs) == Node(sha, left, right);
    assert [right][1..] == [];
    assert Walk(sha, left, -1, 2, [right]) == Walk(sha, Node(sha, left, right), -1, 1, []);
  }

  /**
   Past the 31-bit indices the shift turns negative: in a tree of 2^31 + 1 leaves the last leaf's path has one
   sibling, and every one-sibling proof for it is refused.
   */
  lemma LargeIndexRefused(sha: Hash, h: Bytes, sibling: Bytes, root: Bytes)
    ensures PathLength(0x8000_0000, 0x8000_0001) == 1
    ensures !Accepted(sha, h, 0x8000_0000, 0x8000_0001, [sibling], root)
  {
    assert PowerOfTwo(0x8000_0000) by {
      Pow2IsPowerOfTwo(31);
      Pow2Of31();
    }
    SplitIsLargestPowerBelow(0x8000_0001, 0x8000_0000);
    assert [sibling][1..] == [];
    var cur := Node(sha, h, sibling);
    assert ShiftRight1(0x8000_0000) == -0x4000_0000;
    assert ShiftRight1(-0x4000_0000) == -0x2000_0000;
    assert Walk(sha, h, 0x8000_0000, 0x8000_0001, [sibling]) == Walk(sha, h, -0x4000_0000, 0x4000_0001, [sibling]);
    assert Walk(sha, h, -0x4000_0000, 0x4000_0001, [sibling]) == Walk(sha, cur, -0x2000_0000, 0x2000_0001, []);
  }

  lemma {:induction false} Pow2IsPowerOfTwo(e: nat)
    ensures PowerOfTwo(Pow2(e))
  {
    if e > 0 {
      Pow2IsPowerOfTwo(e - 1);
      assert Pow2(e) / 2 == Pow2(e - 1);
    }
  }

  lemma Pow2Of31()
    ensures Pow2(31) == 0x8000_0000
  {
    assert Pow2(1) == 2;
    Pow2Plus10(1);
    Pow2Plus10(11);
    Pow2Plus10(21);
  }

  lemma Pow2Plus10(e: nat)
    ensures Pow2(e + 10) == 0x400 * Pow2(e)
  {
    assert Pow2(e + 2) == 4 * Pow2(e);
    assert Pow2(e + 4) == 4 * Pow2(e + 2);
    assert Pow2(e + 6) == 4 * Pow2(e + 4);
    assert Pow2(e + 8) == 4 * Pow2(e + 6);
  }
}
