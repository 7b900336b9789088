/**
 One level of the bottom-up tree of merkle.ts, and why climbing by levels computes what RFC 6962 defines by
 recursion from the top: roots, paths, and the roots that paths lead to.
 */
module MerkleLevels {
  import opened ByteStrings
  import opened Hashing
  import opened Rfc6962
  import opened Wrappers

  // ----- one level: pair neighbours, promote the odd node

  function NextLevel(sha: Hash, s: seq<Bytes>): (t: seq<Bytes>)
    ensures |t| == (|s| + 1) / 2
  {
    if |s| <= 1 then s else [Node(sha, s[0], s[1])] + NextLevel(sha, s[2..])
  }

  lemma {:induction false} NextLevelConcat(sha: Hash, a: seq<Bytes>, b: seq<Bytes>)
    requires |a| % 2 == 0
    ensures NextLevel(sha, a + b) == NextLevel(sha, a) + NextLevel(sha, b)
  {
    if a == [] {
      assert a + b == b;
    } else {
      NextLevelConcat(sha, a[2..], b);
      assert (a + b)[2..] == a[2..] + b;
      AppendAssociative([Node(sha, a[0], a[1])], NextLevel(sha, a[2..]), NextLevel(sha, b));
    }
  }

  /** A list cut at an even place is levelled in two parts. */
  lemma NextLevelInParts(sha: Hash, hs: seq<Bytes>, k: nat)
    requires k <= |hs| && k % 2 == 0
    ensures NextLevel(sha, hs)[..k / 2] == NextLevel(sha, hs[..k])
    ensures NextLevel(sha, hs)[k / 2..] == NextLevel(sha, hs[k..])
  {
    NextLevelConcat(sha, hs[..k], hs[k..]);
    assert hs == hs[..k] + hs[k..];
    CutAt(NextLevel(sha, hs[..k]), NextLevel(sha, hs[k..]));
    assert |NextLevel(sha, hs[..k])| == k / 2;
  }

  /** A list cut where the standard cuts it: both halves are levelled separately, and so is the cut. */
  lemma NextLevelOfHalves(sha: Hash, hs: seq<Bytes>, l: seq<Bytes>, r: seq<Bytes>)
    requires |hs| > 2 && Halves(hs, l, r)
    ensures |l| % 2 == 0 && |NextLevel(sha, l)| == |l| / 2
    ensures Halves(NextLevel(sha, hs), NextLevel(sha, l), NextLevel(sha, r))
  {
    var next := NextLevel(sha, hs);
    assert |l| == 2 * Split(|next|) by {
      SplitOfNextLevel(|hs|);
    }
    NextLevelInParts(sha, hs, |l|);
  }

  /** Pairing and promoting keeps the tree hash of section 2.1. */
  lemma {:induction false} NextLevelKeepsMth(sha: Hash, hs: seq<Bytes>)
    requires |hs| > 0
    ensures Mth(sha, NextLevel(sha, hs)) == Mth(sha, hs)
    decreases |hs|
  {
    if |hs| == 2 {
      assert NextLevel(sha, hs) == [Node(sha, hs[0], hs[1])];
      assert hs[..1] == [hs[0]] && hs[1..] == [hs[1]];
    } else if |hs| > 2 {
      var l, r := hs[..Split(|hs|)], hs[Split(|hs|)..];
      NextLevelOfHalves(sha, hs, l, r);
      NextLevelKeepsMth(sha, l);
      NextLevelKeepsMth(sha, r);
    }
  }

  predicate Promoted(i: nat, n: nat) {
    i == n - 1 && i % 2 == 0
  }

  function Sibling(i: nat): nat {
    if i % 2 == 0 then i + 1 else i - 1
  }

  /** The sibling a leaf-level step adds to the path. */
  function FirstSibling(hs: seq<Bytes>, i: nat): seq<Bytes>
    requires i < |hs|
  {
    if Promoted(i, |hs|) then [] else [hs[Sibling(i)]]
  }

  /** The path of section 2.1.1, read from the leaf level upwards. */
  lemma {:induction false} PathFromBelow(sha: Hash, hs: seq<Bytes>, i: nat)
    requires i < |hs|
    ensures Path(sha, hs, i) == FirstSibling(hs, i) + Path(sha, NextLevel(sha, hs), i / 2)
    decreases |hs|
  {
    if |hs| == 2 {
      assert Path(sha, hs[..1], 0) == [] && Path(sha, hs[1..], 0) == [];
    } else if |hs| > 2 {
      var l, r := hs[..Split(|hs|)], hs[Split(|hs|)..];
      NextLevelOfHalves(sha, hs, l, r);
      NextLevelKeepsMth(sha, l);
      NextLevelKeepsMth(sha, r);
      if i < |l| {
        PathFromBelow(sha, l, i);
        FirstSiblingOnLeft(hs, l, i);
        PathsGrowOnLeft(sha, hs, l, r, NextLevel(sha, hs), NextLevel(sha, l), NextLevel(sha, r), i, i / 2);
      } else {
        PathFromBelow(sha, r, i - |l|);
        HalfOnRight(|l|, i);
        assert |NextLevel(sha, l)| <= i / 2 && i / 2 - |NextLevel(sha, l)| == (i - |l|) / 2;
        FirstSiblingOnRight(hs, r, |l|, i);
        PathsGrowOnRight(sha, hs, l, r, NextLevel(sha, hs), NextLevel(sha, l), NextLevel(sha, r), i, i / 2);
      }
    }
  }

  lemma PathsGrowOnLeft(sha: Hash, hs: seq<Bytes>, l: seq<Bytes>, r: seq<Bytes>,
                        next: seq<Bytes>, nl: seq<Bytes>, nr: seq<Bytes>, i: nat, up: nat)
    requires Halves(hs, l, r) && Halves(next, nl, nr) && i < |l| && up < |nl|
    requires Mth(sha, nr) == Mth(sha, r) && FirstSibling(hs, i) == FirstSibling(l, i)
    requires Path(sha, l, i) == FirstSibling(l, i) + Path(sha, nl, up)
    ensures Path(sha, hs, i) == FirstSibling(hs, i) + Path(sha, next, up)
  {
    assert Path(sha, hs, i) == Path(sha, l, i) + [Mth(sha, r)];
    assert Path(sha, next, up) == Path(sha, nl, up) + [Mth(sha, nr)];
    AppendAssociative(FirstSibling(l, i), Path(sha, nl, up), [Mth(sha, r)]);
  }

  lemma PathsGrowOnRight(sha: Hash, hs: seq<Bytes>, l: seq<Bytes>, r: seq<Bytes>,
                         next: seq<Bytes>, nl: seq<Bytes>, nr: seq<Bytes>, i: nat, up: nat)
    requires Halves(hs, l, r) && Halves(next, nl, nr) && |l| <= i < |hs| && |nl| <= up < |next|
    requires Mth(sha, nl) == Mth(sha, l) && FirstSibling(hs, i) == FirstSibling(r, i - |l|)
    requires Path(sha, r, i - |l|) == FirstSibling(r, i - |l|) + Path(sha, nr, up - |nl|)
    ensures Path(sha, hs, i) == FirstSibling(hs, i) + Path(sha, next, up)
  {
    PathOnRight(sha, hs, l, r, i);
    PathOnRight(sha, next, nl, nr, up);
    AppendAssociative(FirstSibling(r, i - |l|), Path(sha, nr, up - |nl|), [Mth(sha, l)]);
  }

  lemma PathOnRight(sha: Hash, hs: seq<Bytes>, l: seq<Bytes>, r: seq<Bytes>, i: nat)
    requires Halves(hs, l, r) && |l| <= i < |hs|
    ensures Path(sha, hs, i) == Path(sha, r, i - |l|) + [Mth(sha, l)]
  {
  }

  lemma HalfOnRight(k: nat, i: nat)
    requires k % 2 == 0 && k <= i
    ensures (i - k) / 2 == i / 2 - k / 2
  {
  }

  lemma FirstSiblingOnLeft(hs: seq<Bytes>, l: seq<Bytes>, i: nat)
    requires |l| % 2 == 0 && i < |l| < |hs| && l == hs[..|l|]
    ensures FirstSibling(hs, i) == FirstSibling(l, i)
  {
  }

  lemma FirstSiblingOnRight(hs: seq<Bytes>, r: seq<Bytes>, k: nat, i: nat)
    requires k % 2 == 0 && k <= i < |hs| && r == hs[k..]
    ensures FirstSibling(hs, i) == FirstSibling(r, i - k)
  {
    assert (i - k) % 2 == i % 2;
  }

  /** One step of the walk to the root: the hash reached and what is left of the path. */
  function StepUp(sha: Hash, h: Bytes, i: nat, n: nat, p: seq<Bytes>): (Bytes, seq<Bytes>)
    requires p != [] || Promoted(i, n)
  {
    if Promoted(i, n) then (h, p)
    else if i % 2 == 1 then (Node(sha, p[0], h), p[1..])
    else (Node(sha, h, p[0]), p[1..])
  }

  /** The root a path leads to, read from the leaf level upwards. */
  ghost function FromBelow(sha: Hash, h: Bytes, i: nat, n: nat, p: seq<Bytes>): Option<Bytes>
    requires i < n && n > 1
  {
    if p == [] && !Promoted(i, n) then None
    else
      var (up, rest) := StepUp(sha, h, i, n, p);
      RootFrom(sha, up, i / 2, (n + 1) / 2, rest)
  }

  lemma {:induction false} RootFromBelow(sha: Hash, h: Bytes, i: nat, n: nat, p: seq<Bytes>)
    requires i < n && n > 1
    ensures RootFrom(sha, h, i, n, p) == FromBelow(sha, h, i, n, p)
    decreases n
  {
    if p == [] {
      EmptyPathFromBelow(sha, h, i, n);
    } else if n == 2 {
      PairFromBelow(sha, h, i, p);
    } else {
      var k, low, last := Split(n), p[..|p| - 1], p[|p| - 1];
      SplitOfNextLevel(n);
      if i < k {
        RootFromBelow(sha, h, i, k, low);
        BelowOnLeft(sha, h, i, n, k, p);
        assert RootFrom(sha, h, i, n, p) == WithRight(sha, RootFrom(sha, h, i, k, low), last);
      } else {
        HalfOnRight(k, i);
        HalfOnRight(k, n + 1);
        if n - k > 1 {
          RootFromBelow(sha, h, i - k, n - k, low);
        }
        BelowOnRight(sha, h, i, n, k, p);
        assert RootFrom(sha, h, i, n, p) == WithLeft(sha, last, RootFrom(sha, h, i - k, n - k, low));
      }
    }
  }

  lemma EmptyPathFromBelow(sha: Hash, h: Bytes, i: nat, n: nat)
    requires i < n && n > 1
    ensures FromBelow(sha, h, i, n, []).None?
  {
  }

  lemma PairFromBelow(sha: Hash, h: Bytes, i: nat, p: seq<Bytes>)
    requires i < 2 && p != []
    ensures RootFrom(sha, h, i, 2, p) == FromBelow(sha, h, i, 2, p)
  {
    assert p[..|p| - 1] == [] <==> p[1..] == [];
  }

  lemma BelowOnLeft(sha: Hash, h: Bytes, i: nat, n: nat, k: nat, p: seq<Bytes>)
    requires n > 2 && i < k < n && k % 2 == 0 && p != [] && k / 2 == Split((n + 1) / 2)
    ensures FromBelow(sha, h, i, n, p) == WithRight(sha, FromBelow(sha, h, i, k, p[..|p| - 1]), p[|p| - 1])
  {
    if |p| > 1 {
      assert p[1..][..|p| - 2] == p[..|p| - 1][1..];
    }
  }

  lemma BelowOnRight(sha: Hash, h: Bytes, i: nat, n: nat, k: nat, p: seq<Bytes>)
    requires n > 2 && k <= i < n && k > 0 && k % 2 == 0 && p != [] && k / 2 == Split((n + 1) / 2)
    requires (i - k) / 2 == i / 2 - k / 2 && (n - k + 1) / 2 == (n + 1) / 2 - k / 2
    ensures FromBelow(sha, h, i, n, p) ==
            WithLeft(sha, p[|p| - 1], if n - k == 1 then RootFrom(sha, h, i - k, n - k, p[..|p| - 1])
                else FromBelow(sha, h, i - k, n - k, p[..|p| - 1]))
  {
    assert (i - k) % 2 == i % 2;
    if |p| > 1 {
      assert p[1..][..|p| - 2] == p[..|p| - 1][1..];
    }
  }
}
