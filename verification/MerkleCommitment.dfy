/**
 What a root commits to: equal roots fix the number of leaves and every leaf's prefix byte and data, across
 different tree sizes, unless SHA-256 inputs that collide can be read off the two lists.
 */
module MerkleCommitment {
  import opened ByteStrings
  import opened Hashing
  import opened MerkleTree
  import opened Rfc6962
  import opened Wrappers

  /** The byte string hashed for a leaf; empty when no hash is computed for it. */
  function LeafBytes(leaf: LeafInput): Bytes {
    match leaf
    case Msg(data) => Prefixed(MSG_LEAF, data)
    case Ctrl(data) => Prefixed(CTRL_LEAF, data)
    case Doc(data) => Prefixed(DOC_LEAF, data)
    case Reject(data) => Prefixed(REJECT_LEAF, data)
    case Opaque(prefix, data) => if 0 <= prefix < 256 then Prefixed(prefix as Byte, data) else []
    case _ => []
  }

  function AllLeafBytes(leaves: seq<LeafInput>): (bs: seq<Bytes>) {
    seq(|leaves|, i requires 0 <= i < |leaves| => LeafBytes(leaves[i]))
  }

  /** Lists whose leaves are all hashed here, under some leaf prefix. */
  ghost predicate HashedHere(sha: Hash, leaves: seq<LeafInput>) {
    LeafHashes(sha, leaves).Ok? && forall i :: 0 <= i < |leaves| ==> !leaves[i].PreHashed?
  }

  lemma LeafHashedUnderItsPrefix(sha: Hash, leaf: LeafInput)
    requires !leaf.PreHashed? && LeafHash(sha, leaf).Ok?
    ensures LeafShaped(LeafBytes(leaf)) && LeafHash(sha, leaf) == Ok(sha(LeafBytes(leaf)))
  {
  }

  lemma LeavesHashedUnderTheirPrefixes(sha: Hash, leaves: seq<LeafInput>)
    requires HashedHere(sha, leaves)
    ensures AllLeafShaped(AllLeafBytes(leaves))
    ensures LeafHashes(sha, leaves) == Ok(HashAll(sha, AllLeafBytes(leaves)))
  {
    forall i | 0 <= i < |leaves|
      ensures LeafShaped(AllLeafBytes(leaves)[i]) && LeafHashes(sha, leaves).value[i] == sha(AllLeafBytes(leaves)[i])
    {
      assert LeafHash(sha, leaves[i]) == Ok(LeafHashes(sha, leaves).value[i]);
      LeafHashedUnderItsPrefix(sha, leaves[i]);
    }
    assert LeafHashes(sha, leaves).value == HashAll(sha, AllLeafBytes(leaves));
  }

  predicate LeafShaped(b: Bytes) {
    b != [] && b[0] != INTERNAL_NODE
  }

  function HashAll(sha: Hash, bs: seq<Bytes>): (hs: seq<Bytes>)
    ensures |hs| == |bs|
    ensures forall i :: 0 <= i < |bs| ==> hs[i] == sha(bs[i])
  {
    seq(|bs|, i requires 0 <= i < |bs| => sha(bs[i]))
  }

  /** The byte string whose digest is the root. */
  function RootInput(sha: Hash, bs: seq<Bytes>): Bytes {
    if bs == [] then []
    else if |bs| == 1 then bs[0]
    else
      var k := Split(|bs|);
      NodeInput(Mth(sha, HashAll(sha, bs[..k])), Mth(sha, HashAll(sha, bs[k..])))
  }

  lemma RootIsDigestOfInput(sha: Hash, bs: seq<Bytes>)
    requires bs != []
    ensures Mth(sha, HashAll(sha, bs)) == sha(RootInput(sha, bs))
  {
    if |bs| > 1 {
      var k, hs := Split(|bs|), HashAll(sha, bs);
      assert hs[..k] == HashAll(sha, bs[..k]);
      assert hs[k..] == HashAll(sha, bs[k..]);
    }
  }

  /** The topmost pair of differing inputs on the way down both trees. */
  function Difference(sha: Hash, a: seq<Bytes>, b: seq<Bytes>): (Bytes, Bytes)
    decreases |a|
  {
    if RootInput(sha, a) != RootInput(sha, b) then (RootInput(sha, a), RootInput(sha, b))
    else if |a| <= 1 || |b| <= 1 then ([], [])
    else
      var (j, k) := (Split(|a|), Split(|b|));
      if a[..j] != b[..k] then Difference(sha, a[..j], b[..k]) else Difference(sha, a[j..], b[k..])
  }

  ghost predicate AllLeafShaped(bs: seq<Bytes>) {
    forall i :: 0 <= i < |bs| ==> LeafShaped(bs[i])
  }

  ghost predicate SameOrCollision(sha: Hash, a: seq<Bytes>, b: seq<Bytes>) {
    a == b || Collides(sha, Difference(sha, a, b))
  }

  lemma {:induction false} EqualRootsFixBytes(sha: Hash, a: seq<Bytes>, b: seq<Bytes>)
    requires AllLeafShaped(a) && AllLeafShaped(b)
    requires sha(RootInput(sha, a)) == sha(RootInput(sha, b))
    ensures SameOrCollision(sha, a, b)
    decreases |a|
  {
    if RootInput(sha, a) == RootInput(sha, b) {
      EqualInputsFixArity(sha, a, b);
      if |a| > 1 {
        HalvesAgree(sha, a, b);
        EqualRootsFixBytes(sha, a[..Split(|a|)], b[..Split(|b|)]);
        EqualRootsFixBytes(sha, a[Split(|a|)..], b[Split(|b|)..]);
        SameHalves(sha, a, b, Split(|a|), Split(|b|));
      }
    }
  }

  lemma SameHalves(sha: Hash, a: seq<Bytes>, b: seq<Bytes>, j: nat, k: nat)
    requires |a| > 1 && |b| > 1 && j == Split(|a|) && k == Split(|b|)
    requires RootInput(sha, a) == RootInput(sha, b)
    requires SameOrCollision(sha, a[..j], b[..k]) && SameOrCollision(sha, a[j..], b[k..])
    ensures SameOrCollision(sha, a, b)
  {
    if a[..j] == b[..k] && a[j..] == b[k..] {
      assert a == a[..j] + a[j..] && b == b[..k] + b[k..];
    }
  }

  /** An empty list, a single leaf and a node are never hashed from the same bytes. */
  lemma EqualInputsFixArity(sha: Hash, a: seq<Bytes>, b: seq<Bytes>)
    requires AllLeafShaped(a) && AllLeafShaped(b)
    requires RootInput(sha, a) == RootInput(sha, b)
    ensures |a| > 1 <==> |b| > 1
    ensures |a| <= 1 ==> a == b
  {
    InputShape(sha, a);
    InputShape(sha, b);
  }

  lemma InputShape(sha: Hash, bs: seq<Bytes>)
    requires AllLeafShaped(bs)
    ensures bs == [] <==> RootInput(sha, bs) == []
    ensures |bs| > 1 <==> RootInput(sha, bs) != [] && RootInput(sha, bs)[0] == INTERNAL_NODE
    ensures |bs| == 1 ==> bs == [RootInput(sha, bs)]
  {
  }

  lemma HalvesAgree(sha: Hash, a: seq<Bytes>, b: seq<Bytes>)
    requires |a| > 1 && |b| > 1 && RootInput(sha, a) == RootInput(sha, b)
    ensures sha(RootInput(sha, a[..Split(|a|)])) == sha(RootInput(sha, b[..Split(|b|)]))
    ensures sha(RootInput(sha, a[Split(|a|)..])) == sha(RootInput(sha, b[Split(|b|)..]))
  {
    var j, k := Split(|a|), Split(|b|);
    RootIsDigestOfInput(sha, a[..j]);
    RootIsDigestOfInput(sha, b[..k]);
    RootIsDigestOfInput(sha, a[j..]);
    RootIsDigestOfInput(sha, b[k..]);
    NodeInputInjective(Mth(sha, HashAll(sha, a[..j])), Mth(sha, HashAll(sha, a[j..])),
                       Mth(sha, HashAll(sha, b[..k])), Mth(sha, HashAll(sha, b[k..])));
  }

  /** The root of a list of leaves, as `MerkleRoot` returns it for the built tree. */
  ghost function RootOf(sha: Hash, leaves: seq<LeafInput>): Bytes
    requires LeafHashes(sha, leaves).Ok?
  {
    if leaves == [] then sha([]) else Mth(sha, LeafHashes(sha, leaves).value)
  }

  /**
   Equal roots of two lists without given hashes: the lists have the same length and the same prefix byte and
   data at every position, or `Difference` names two inputs with one digest. Leaf and node inputs never meet
   because the node prefix is refused as a leaf prefix.
   */
  lemma EqualRootsFixLeaves(sha: Hash, a: seq<LeafInput>, b: seq<LeafInput>)
    requires HashedHere(sha, a) && HashedHere(sha, b)
    requires RootOf(sha, a) == RootOf(sha, b)
    ensures AllLeafBytes(a) == AllLeafBytes(b) ||
            Collides(sha, Difference(sha, AllLeafBytes(a), AllLeafBytes(b)))
  {
    RootOfBytes(sha, a);
    RootOfBytes(sha, b);
    EqualRootsFixBytes(sha, AllLeafBytes(a), AllLeafBytes(b));
    assert SameOrCollision(sha, AllLeafBytes(a), AllLeafBytes(b));
  }

  lemma RootOfBytes(sha: Hash, leaves: seq<LeafInput>)
    requires HashedHere(sha, leaves)
    ensures AllLeafShaped(AllLeafBytes(leaves))
    ensures RootOf(sha, leaves) == sha(RootInput(sha, AllLeafBytes(leaves)))
  {
    LeavesHashedUnderTheirPrefixes(sha, leaves);
    if leaves != [] {
      RootIsDigestOfInput(sha, AllLeafBytes(leaves));
    }
  }

  /** With a given hash among the leaves the size is not fixed: one leaf can stand for a node over two. */
  lemma GivenHashHidesSize(sha: Hash, x: Digest, y: Digest)
    ensures var two, one := [PreHashed(x), PreHashed(y)], [PreHashed(Node(sha, x, y))];
            Buildable(sha, two) && Buildable(sha, one) && RootOf(sha, two) == RootOf(sha, one)
  {
    var two, one := [PreHashed(x), PreHashed(y)], [PreHashed(Node(sha, x, y))];
    GivenHashes(sha, two, [x, y]);
    GivenHashes(sha, one, [Node(sha, x, y)]);
    var hs: seq<Bytes> := [x, y];
    assert hs[..1] == [x] && hs[1..] == [y];
    assert Mth(sha, hs) == Node(sha, x, y);
  }

  lemma GivenHashes(sha: Hash, leaves: seq<LeafInput>, hs: seq<Bytes>)
    requires |leaves| == |hs| && AllDigests(hs)
    requires forall i :: 0 <= i < |hs| ==> leaves[i] == PreHashed(hs[i])
    ensures Buildable(sha, leaves) && LeafHashes(sha, leaves) == Ok(hs)
  {
    forall i | 0 <= i < |hs|
      ensures LeafHash(sha, leaves[i]) == Ok(hs[i])
    {
    }
    assert LeafHashes(sha, leaves).value == hs;
  }
}
