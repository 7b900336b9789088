/**
 The Merkle tree of RFC 6962, section 2.1, and the audit path of section 2.1.1, in the standard's own
 form: recursion on the largest power of two below the number of leaves. This is the reference that the
 loops of merkle.ts are measured against.
 */
module Rfc6962 {
  import opened ByteStrings
  import opened Hashing
  import opened Wrappers

  ghost predicate PowerOfTwo(k: nat) {
    k == 1 || (k % 2 == 0 && k > 0 && PowerOfTwo(k / 2))
  }

  /** The largest power of two below `n`. */
  function Split(n: nat): (k: nat)
    requires n > 1
    ensures 0 < k < n <= 2 * k
  {
    Doubled(1, n)
  }

  function Doubled(k: nat, n: nat): (r: nat)
    requires 0 < k < n
    ensures k <= r < n <= 2 * r
    decreases n - k
  {
    if n <= 2 * k then k else Doubled(2 * k, n)
  }

  /** `Split` is the standard's k: the power of two with k < n <= 2k, and there is no other. */
  lemma {:induction false} SplitIsLargestPowerBelow(n: nat, k: nat)
    requires n > 1
    ensures k == Split(n) <==> PowerOfTwo(k) && k < n <= 2 * k
  {
    if n > 2 {
      SplitOfNextLevel(n);
      SplitIsLargestPowerBelow((n + 1) / 2, k / 2);
      if k == Split(n) {
        assert k / 2 == Split((n + 1) / 2);
      }
    }
  }

  lemma {:induction false} DoubledHalves(k: nat, n: nat)
    requires 0 < k && 2 * k < n
    ensures Doubled(2 * k, n) == 2 * Doubled(k, (n + 1) / 2)
    decreases n - k
  {
    if 4 * k < n {
      DoubledHalves(2 * k, n);
    }
  }

  /** From three leaves on the split is even, and halving the leaves halves it. */
  lemma SplitOfNextLevel(n: nat)
    requires n > 2
    ensures Split(n) == 2 * Split((n + 1) / 2)
  {
    DoubledHalves(1, n);
  }

  /** `l` and `r` are the two halves of `hs` in the standard's split. */
  ghost predicate Halves<T(!new)>(hs: seq<T>, l: seq<T>, r: seq<T>) {
    |hs| > 1 && l == hs[..Split(|hs|)] && r == hs[Split(|hs|)..]
  }

  /** MTH of section 2.1 over the leaf hashes. */
  function Mth(sha: Hash, hs: seq<Bytes>): (root: Bytes)
    requires |hs| > 0
    ensures |hs| > 1 ==> |root| == DIGEST_BYTES
    decreases |hs|
  {
    if |hs| == 1 then hs[0]
    else
      var k := Split(|hs|);
      Node(sha, Mth(sha, hs[..k]), Mth(sha, hs[k..]))
  }

  /** PATH(m, D[n]) of section 2.1.1. */
  function Path(sha: Hash, hs: seq<Bytes>, i: nat): (p: seq<Bytes>)
    requires i < |hs|
    decreases |hs|
  {
    if |hs| == 1 then []
    else
      var k := Split(|hs|);
      if i < k then Path(sha, hs[..k], i) + [Mth(sha, hs[k..])]
      else Path(sha, hs[k..], i - k) + [Mth(sha, hs[..k])]
  }

  /** The number of siblings on the path of leaf `i` of `n`: no hash enters it. */
  function PathLength(i: nat, n: nat): nat
    requires i < n
    decreases n
  {
    if n == 1 then 0
    else
      var k := Split(n);
      1 + if i < k then PathLength(i, k) else PathLength(i - k, n - k)
  }

  function WithRight(sha: Hash, sub: Option<Bytes>, right: Bytes): Option<Bytes> {
    if sub.None? then None else Some(Node(sha, sub.value, right))
  }

  function WithLeft(sha: Hash, left: Bytes, sub: Option<Bytes>): Option<Bytes> {
    if sub.None? then None else Some(Node(sha, left, sub.value))
  }

  /** The root that a leaf hash and a path lead to; none when the path has the wrong length. */
  function RootFrom(sha: Hash, h: Bytes, i: nat, n: nat, p: seq<Bytes>): (root: Option<Bytes>)
    requires i < n
    decreases n
  {
    if n == 1 then if p == [] then Some(h) else None
    else if p == [] then None
    else
      var k := Split(n);
      var (low, last) := (p[..|p| - 1], p[|p| - 1]);
      if i < k then WithRight(sha, RootFrom(sha, h, i, k, low), last)
      else WithLeft(sha, last, RootFrom(sha, h, i - k, n - k, low))
  }

  /** A path leads to some root exactly when it has the length fixed by (i, n) alone. */
  lemma {:induction false} RootFromFixesLength(sha: Hash, h: Bytes, i: nat, n: nat, p: seq<Bytes>)
    requires i < n
    ensures RootFrom(sha, h, i, n, p).Some? <==> |p| == PathLength(i, n)
    decreases n
  {
    if n > 1 && p != [] {
      var k := Split(n);
      if i < k {
        RootFromFixesLength(sha, h, i, k, p[..|p| - 1]);
      } else {
        RootFromFixesLength(sha, h, i - k, n - k, p[..|p| - 1]);
      }
    }
  }

  ghost predicate AllDigests(hs: seq<Bytes>) {
    forall j :: 0 <= j < |hs| ==> |hs[j]| == DIGEST_BYTES
  }

  lemma MthIsDigest(sha: Hash, hs: seq<Bytes>)
    requires |hs| > 0 && AllDigests(hs)
    ensures |Mth(sha, hs)| == DIGEST_BYTES
  {
  }

  lemma RootFromIsDigest(sha: Hash, h: Bytes, i: nat, n: nat, p: seq<Bytes>)
    requires i < n && |h| == DIGEST_BYTES && RootFrom(sha, h, i, n, p).Some?
    ensures |RootFrom(sha, h, i, n, p).value| == DIGEST_BYTES
  {
  }

  /** Equal nodes over digests: equal children, or two inputs that collide. */
  lemma NodeFixesChildren(sha: Hash, a: Bytes, b: Bytes, c: Bytes, d: Bytes)
    requires Node(sha, a, b) == Node(sha, c, d) && |a| == |c|
    ensures (a == c && b == d) || Collides(sha, (NodeInput(a, b), NodeInput(c, d)))
  {
    if NodeInput(a, b) == NodeInput(c, d) {
      NodeInputInjective(a, b, c, d);
    }
  }

  /** The node inputs at the topmost level where two paths that meet at the root differ. */
  function Parting(sha: Hash, h: Bytes, p: seq<Bytes>, g: Bytes, q: seq<Bytes>, i: nat, n: nat): (Bytes, Bytes)
    requires i < n
    decreases n
  {
    if n == 1 || p == [] || q == [] then ([], [])
    else
      var k := Split(n);
      var (low, last, down, end) := (p[..|p| - 1], p[|p| - 1], q[..|q| - 1], q[|q| - 1]);
      if i < k then
        var (a, b) := (RootFrom(sha, h, i, k, low), RootFrom(sha, g, i, k, down));
        if a.None? || b.None? then ([], [])
        else if NodeInput(a.value, last) != NodeInput(b.value, end) then
          (NodeInput(a.value, last), NodeInput(b.value, end))
        else Parting(sha, h, low, g, down, i, k)
      else
        var (a, b) := (RootFrom(sha, h, i - k, n - k, low), RootFrom(sha, g, i - k, n - k, down));
        if a.None? || b.None? then ([], [])
        else if NodeInput(last, a.value) != NodeInput(end, b.value) then
          (NodeInput(last, a.value), NodeInput(end, b.value))
        else Parting(sha, h, low, g, down, i - k, n - k)
  }

  /**
   Soundness: two paths of digests that lead two digests to one root from one place are the same path from the same
   digest, or `Parting` names two distinct inputs that SHA-256 maps to one digest.
   */
  lemma {:induction false} RootFixesLeafAndPath(sha: Hash, h: Bytes, p: seq<Bytes>, g: Bytes, q: seq<Bytes>, i: nat,
      n: nat)
    requires i < n && |h| == |g| == DIGEST_BYTES && AllDigests(p) && AllDigests(q)
    requires RootFrom(sha, h, i, n, p).Some? && RootFrom(sha, h, i, n, p) == RootFrom(sha, g, i, n, q)
    ensures (h == g && p == q) || Collides(sha, Parting(sha, h, p, g, q, i, n))
    decreases n
  {
    if n > 1 {
      var k := Split(n);
      var low, last, down, end := p[..|p| - 1], p[|p| - 1], q[..|q| - 1], q[|q| - 1];
      assert p == low + [last] && q == down + [end];
      if i < k {
        var a, b := RootFrom(sha, h, i, k, low).value, RootFrom(sha, g, i, k, down).value;
        RootFromIsDigest(sha, h, i, k, low);
        RootFromIsDigest(sha, g, i, k, down);
        NodeFixesChildren(sha, a, last, b, end);
        if a == b && last == end {
          RootFixesLeafAndPath(sha, h, low, g, down, i, k);
        }
      } else {
        var a, b := RootFrom(sha, h, i - k, n - k, low).value, RootFrom(sha, g, i - k, n - k, down).value;
        NodeFixesChildren(sha, last, a, end, b);
        if a == b && last == end {
          RootFixesLeafAndPath(sha, h, low, g, down, i - k, n - k);
        }
      }
    }
  }

  function Pow2(e: nat): nat {
    if e == 0 then 1 else 2 * Pow2(e - 1)
  }

  /** The least e with n <= 2^e. */
  function CeilLog2(n: nat): (e: nat)
    requires n > 0
    ensures n <= Pow2(e) && (e > 0 ==> Pow2(e - 1) < n)
  {
    if n == 1 then 0 else 1 + CeilLog2((n + 1) / 2)
  }

  lemma {:induction false} Pow2Monotone(d: nat, e: nat)
    requires d <= e
    ensures Pow2(d) <= Pow2(e)
  {
    if d < e {
      Pow2Monotone(d, e - 1);
    }
  }
}
