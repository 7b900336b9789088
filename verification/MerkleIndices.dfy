/**
 Verifying inclusion at any index: what an accepted proof determines, and when a leaf's own proof is accepted. The
 verifier halves its index with a 32-bit shift, so from 2^31 on it may read a node's side wrongly, or overlook that a
 node was promoted.
 */
module MerkleIndices {
  import opened ByteStrings
  import opened Hashing
  import opened MerkleLevels
  import opened MerkleTree
  import opened Rfc6962
  import opened Wrappers

  // ----- one leaf hash and one proof for each index, size and root

  predicate Skips(idx: int, size: nat) {
    idx == size - 1 && Remainder2(idx) == 0
  }

  /** The siblings the walk uses: no hash enters it. */
  function WalkLength(idx: int, size: nat): nat
    decreases size
  {
    if size <= 1 then 0 else (if Skips(idx, size) then 0 else 1) + WalkLength(ShiftRight1(idx), (size + 1) / 2)
  }

  lemma {:induction false} WalkFixesLength(sha: Hash, cur: Bytes, idx: int, size: nat, p: seq<Bytes>)
    ensures Walk(sha, cur, idx, size, p).Some? <==> |p| == WalkLength(idx, size)
    decreases size
  {
    if size > 1 {
      if Skips(idx, size) {
        WalkFixesLength(sha, cur, ShiftRight1(idx), (size + 1) / 2, p);
      } else if p != [] {
        WalkFixesLength(sha, Up(sha, cur, idx, p[0]), ShiftRight1(idx), (size + 1) / 2, p[1..]);
      }
    }
  }

  lemma {:induction false} WalkLengthLogarithmic(idx: int, size: nat)
    requires size > 0
    ensures WalkLength(idx, size) <= CeilLog2(size)
    decreases size
  {
    if size > 1 {
      WalkLengthLogarithmic(ShiftRight1(idx), (size + 1) / 2);
    }
  }

  lemma {:induction false} WalkLengthIsPathLength(sha: Hash, i: nat, n: nat)
    requires i < n && ShiftSafe(i)
    ensures WalkLength(i, n) == PathLength(i, n)
  {
    var p := seq(PathLength(i, n), _ => []);
    RootFromFixesLength(sha, [], i, n, p);
    WalkIsRootFrom(sha, [], i, n, p);
    WalkFixesLength(sha, [], i, n, p);
  }

  /**
   For any integer index and any root, an accepted proof has the length fixed by index and size alone, at most
   ceil(log2 size); below 2^31 it is the length of the audit path.
   */
  lemma AcceptedLength(sha: Hash, h: Bytes, index: int, n: nat, p: seq<Bytes>, root: Bytes)
    requires Accepted(sha, h, index, n, p, root)
    ensures |p| == WalkLength(index, n) <= CeilLog2(n)
    ensures 0 <= index && ShiftSafe(index) ==> |p| == PathLength(index, n)
  {
    WalkFixesLength(sha, h, index, n, p);
    WalkLengthLogarithmic(index, n);
    if 0 <= index && ShiftSafe(index) {
      WalkLengthIsPathLength(sha, index, n);
    }
  }

  function UpInput(cur: Bytes, idx: int, sibling: Bytes): Bytes {
    if Remainder2(idx) == 1 then NodeInput(sibling, cur) else NodeInput(cur, sibling)
  }

  function Up(sha: Hash, cur: Bytes, idx: int, sibling: Bytes): Bytes {
    if Remainder2(idx) == 1 then Node(sha, sibling, cur) else Node(sha, cur, sibling)
  }

  /** The inputs at the highest level where two walks that meet still differ. */
  function Meeting(sha: Hash, h: Bytes, p: seq<Bytes>, g: Bytes, q: seq<Bytes>, idx: int, size: nat): (Bytes, Bytes)
    decreases size
  {
    if size <= 1 then ([], [])
    else if Skips(idx, size) then Meeting(sha, h, p, g, q, ShiftRight1(idx), (size + 1) / 2)
    else if p == [] || q == [] then ([], [])
    else
      var (a, b) := (Up(sha, h, idx, p[0]), Up(sha, g, idx, q[0]));
      if a == b && p[1..] == q[1..] then (UpInput(h, idx, p[0]), UpInput(g, idx, q[0]))
      else Meeting(sha, a, p[1..], b, q[1..], ShiftRight1(idx), (size + 1) / 2)
  }

  lemma UpFixesBoth(sha: Hash, h: Bytes, s: Bytes, g: Bytes, t: Bytes, idx: int)
    requires |h| == |g| == |s| == |t| == DIGEST_BYTES && Up(sha, h, idx, s) == Up(sha, g, idx, t)
    ensures (h == g && s == t) || Collides(sha, (UpInput(h, idx, s), UpInput(g, idx, t)))
  {
    if Remainder2(idx) == 1 {
      NodeFixesChildren(sha, s, h, t, g);
    } else {
      NodeFixesChildren(sha, h, s, g, t);
    }
  }

  /** Two walks at one place that lead to one root start from one leaf hash with one proof, or `Meeting` collides. */
  lemma {:induction false} WalkFixesLeafAndProof(sha: Hash, h: Bytes, p: seq<Bytes>, g: Bytes, q: seq<Bytes>, idx: int,
      size: nat)
    requires |h| == |g| == DIGEST_BYTES && AllDigests(p) && AllDigests(q)
    requires Walk(sha, h, idx, size, p).Some? && Walk(sha, h, idx, size, p) == Walk(sha, g, idx, size, q)
    ensures (h == g && p == q) || Collides(sha, Meeting(sha, h, p, g, q, idx, size))
    decreases size
  {
    if size > 1 {
      if Skips(idx, size) {
        WalkFixesLeafAndProof(sha, h, p, g, q, ShiftRight1(idx), (size + 1) / 2);
      } else {
        var a, b := Up(sha, h, idx, p[0]), Up(sha, g, idx, q[0]);
        WalkFixesLeafAndProof(sha, a, p[1..], b, q[1..], ShiftRight1(idx), (size + 1) / 2);
        if a == b && p[1..] == q[1..] {
          UpFixesBoth(sha, h, p[0], g, q[0], idx);
          assert p == [p[0]] + p[1..] && q == [q[0]] + q[1..];
        }
      }
    }
  }

  /**
   For any integer index, size and root at most one leaf hash and one proof are accepted, unless two inputs collide.
   */
  lemma AtMostOneAccepted(sha: Hash, h: Bytes, p: seq<Bytes>, g: Bytes, q: seq<Bytes>, index: int, n: nat, root: Bytes)
    requires Accepted(sha, h, index, n, p, root) && Accepted(sha, g, index, n, q, root)
    ensures (h == g && p == q) || Collides(sha, Meeting(sha, h, p, g, q, index, n))
  {
    WalkFixesLeafAndProof(sha, h, p, g, q, index, n);
  }

  // ----- a leaf's own proof

  /**
   The condition: at every level, with the true index `i` and the verifier's `idx`, a promoted node is known as such,
   and a node whose side is read wrongly equals its sibling.
   */
  ghost predicate Survives(sha: Hash, row: seq<Bytes>, i: nat, idx: int)
    requires i < |row|
    decreases |row|
  {
    |row| > 1 ==>
      && (if Promoted(i, |row|) then idx == i
          else (Remainder2(idx) == 1 <==> i % 2 == 1) || row[i] == row[Sibling(i)])
      && Survives(sha, NextLevel(sha, row), i / 2, ShiftRight1(idx))
  }

  /** The inputs of the highest node that the verifier reaches from others than its children. */
  function Misreading(sha: Hash, c: Bytes, row: seq<Bytes>, i: nat, idx: int): (Bytes, Bytes)
    requires i < |row|
    decreases |row|
  {
    if |row| <= 1 then ([], [])
    else if Promoted(i, |row|) then Misreading(sha, c, NextLevel(sha, row), i / 2, ShiftRight1(idx))
    else
      var s := row[Sibling(i)];
      if Up(sha, c, idx, s) == Up(sha, row[i], i, s) && UpInput(c, idx, s) != UpInput(row[i], i, s) then
        (UpInput(c, idx, s), UpInput(row[i], i, s))
      else Misreading(sha, Up(sha, c, idx, s), NextLevel(sha, row), i / 2, ShiftRight1(idx))
  }

  lemma {:induction false} NextLevelAt(sha: Hash, s: seq<Bytes>, i: nat)
    requires i < |s| && |s| > 1
    ensures NextLevel(sha, s)[i / 2] == if Promoted(i, |s|) then s[i] else Up(sha, s[i], i, s[Sibling(i)])
  {
    if i >= 2 {
      if |s| > 3 {
        NextLevelAt(sha, s[2..], i - 2);
      }
      assert i / 2 == (i - 2) / 2 + 1 && (i - 2) % 2 == i % 2;
    }
  }

  /**
   The verifier's index never exceeds the true one, from the second level on because the shift gives a 31-bit number.
   */
  lemma ShiftBounds(i: nat, idx: int)
    requires -U32_SIZE / 2 <= idx <= i
    ensures -U32_SIZE / 2 <= ShiftRight1(idx) <= i / 2
  {
  }

  lemma PathStep(sha: Hash, row: seq<Bytes>, i: nat)
    requires i < |row| && |row| > 1
    ensures i / 2 < |NextLevel(sha, row)|
    ensures var p, above := Path(sha, row, i), Path(sha, NextLevel(sha, row), i / 2);
            if Promoted(i, |row|) then p == above else p != [] && p[0] == row[Sibling(i)] && p[1..] == above
  {
    PathFromBelow(sha, row, i);
  }

  /** Not promoted, and no greater than the true index: not skipped. */
  lemma NotSkipped(row: seq<Bytes>, i: nat, idx: int)
    requires i < |row| && idx <= i && !Promoted(i, |row|)
    ensures !Skips(idx, |row|)
  {
  }

  lemma {:induction false} PathLengthFromBelow(sha: Hash, row: seq<Bytes>, i: nat, idx: int)
    requires i < |row| && -U32_SIZE / 2 <= idx <= i
    ensures |Path(sha, row, i)| <= WalkLength(idx, |row|)
    decreases |row|
  {
    if |row| > 1 {
      PathStep(sha, row, i);
      ShiftBounds(i, idx);
      PathLengthFromBelow(sha, NextLevel(sha, row), i / 2, ShiftRight1(idx));
      if !Promoted(i, |row|) {
        NotSkipped(row, i, idx);
      }
      hide Path, NextLevel, ShiftRight1, Remainder2;
    }
  }

  /** Where the condition holds, the walk reaches the root. */
  lemma {:induction false} SurvivingWalk(sha: Hash, row: seq<Bytes>, i: nat, idx: int)
    requires i < |row| && -U32_SIZE / 2 <= idx <= i && Survives(sha, row, i, idx)
    ensures Walk(sha, row[i], idx, |row|, Path(sha, row, i)) == Some(Mth(sha, row))
    decreases |row|
  {
    if |row| > 1 {
      PathStep(sha, row, i);
      ShiftBounds(i, idx);
      NextLevelAt(sha, row, i);
      NextLevelKeepsMth(sha, row);
      SurvivingWalk(sha, NextLevel(sha, row), i / 2, ShiftRight1(idx));
      if !Promoted(i, |row|) {
        NotSkipped(row, i, idx);
      }
      hide Path, Mth, NextLevel, ShiftRight1, Remainder2, Node;
    }
  }

  /**
   Equal nodes over one sibling, on the true side and on the side read: equal children, and equal siblings if misread.
   */
  lemma SideFixesNode(sha: Hash, c: Bytes, idx: int, h: Bytes, i: nat, s: Bytes)
    requires |c| == |h| == |s| == DIGEST_BYTES && Up(sha, c, idx, s) == Up(sha, h, i, s)
    ensures (c == h && ((Remainder2(idx) == 1 <==> i % 2 == 1) || h == s)) ||
            Collides(sha, (UpInput(c, idx, s), UpInput(h, i, s)))
  {
    if Remainder2(idx) == 1 {
      if i % 2 == 1 {
        NodeFixesChildren(sha, s, c, s, h);
      } else {
        NodeFixesChildren(sha, s, c, h, s);
      }
    } else if i % 2 == 1 {
      NodeFixesChildren(sha, c, s, s, h);
    } else {
      NodeFixesChildren(sha, c, s, h, s);
    }
  }

  lemma NextLevelDigests(sha: Hash, row: seq<Bytes>)
    requires AllDigests(row)
    ensures AllDigests(NextLevel(sha, row))
  {
    NextLevelKeepsDigests(sha, row);
  }

  /**
   Whatever the own proof leads to the root from is the leaf's hash, and then the condition holds; or two inputs
   collide.
   */
  lemma {:induction false} WalkSurvives(sha: Hash, c: Bytes, row: seq<Bytes>, i: nat, idx: int)
    requires i < |row| && AllDigests(row) && |c| == DIGEST_BYTES && -U32_SIZE / 2 <= idx <= i
    requires Walk(sha, c, idx, |row|, Path(sha, row, i)) == Some(Mth(sha, row))
    ensures (c == row[i] && Survives(sha, row, i, idx)) || Collides(sha, Misreading(sha, c, row, i, idx))
    decreases |row|
  {
    if |row| > 1 {
      PathStep(sha, row, i);
      ShiftBounds(i, idx);
      NextLevelAt(sha, row, i);
      NextLevelKeepsMth(sha, row);
      NextLevelDigests(sha, row);
      hide Path, Mth, NextLevel, ShiftRight1, Remainder2, Node;
      if Promoted(i, |row|) {
        if !Skips(idx, |row|) {
          OneTooMany(sha, c, row, i, idx);
        }
        WalkSurvives(sha, c, NextLevel(sha, row), i / 2, ShiftRight1(idx));
      } else {
        NotSkipped(row, i, idx);
        var s := row[Sibling(i)];
        WalkSurvives(sha, Up(sha, c, idx, s), NextLevel(sha, row), i / 2, ShiftRight1(idx));
        if Up(sha, c, idx, s) == Up(sha, row[i], i, s) {
          SideFixesNode(sha, c, idx, row[i], i, s);
        }
      }
    }
  }

  /** A promoted node that is not known as such makes the walk want one sibling more than there is. */
  lemma OneTooMany(sha: Hash, c: Bytes, row: seq<Bytes>, i: nat, idx: int)
    requires i < |row| && |row| > 1 && -U32_SIZE / 2 <= idx <= i && Promoted(i, |row|) && !Skips(idx, |row|)
    ensures Walk(sha, c, idx, |row|, Path(sha, row, i)).None?
  {
    var next := NextLevel(sha, row);
    PathFromBelow(sha, row, i);
    assert Path(sha, row, i) == Path(sha, next, i / 2);
    PathLengthFromBelow(sha, next, i / 2, ShiftRight1(idx));
    WalkFixesLength(sha, c, idx, |row|, Path(sha, row, i));
  }

  /**
   For every index of a tree of digests: a digest with the proof of leaf `i` is accepted against the root if and only
   if it is that leaf's hash and the condition holds, or `Misreading` names two inputs with one digest.
   */
  lemma OwnProofExactly(sha: Hash, hs: seq<Bytes>, h: Bytes, i: nat)
    requires i < |hs| && AllDigests(hs) && |h| == DIGEST_BYTES
    ensures h == hs[i] && Survives(sha, hs, i, i) ==> Accepted(sha, h, i, |hs|, Path(sha, hs, i), Mth(sha, hs))
    ensures Accepted(sha, h, i, |hs|, Path(sha, hs, i), Mth(sha, hs)) ==>
              (h == hs[i] && Survives(sha, hs, i, i)) || Collides(sha, Misreading(sha, h, hs, i, i))
  {
    PathIsDigests(sha, hs, i);
    if h == hs[i] && Survives(sha, hs, i, i) {
      SurvivingWalk(sha, hs, i, i);
    }
    if Accepted(sha, h, i, |hs|, Path(sha, hs, i), Mth(sha, hs)) {
      WalkSurvives(sha, h, hs, i, i);
    }
  }

  // ----- the condition, by index

  /** Below 2^31 it always holds. */
  lemma {:induction false} SafeSurvives(sha: Hash, row: seq<Bytes>, i: nat)
    requires i < |row| && ShiftSafe(i)
    ensures Survives(sha, row, i, i)
    decreases |row|
  {
    if |row| > 1 {
      BitOperations(i, |row|);
      SafeSurvives(sha, NextLevel(sha, row), i / 2);
    }
  }

  /** On the way up from node `i` no node is promoted, and every right child equals its left sibling. */
  ghost predicate Twinned(sha: Hash, row: seq<Bytes>, i: nat)
    requires i < |row|
    decreases |row|
  {
    |row| > 1 ==>
      && !Promoted(i, |row|) && (i % 2 == 1 ==> row[i] == row[i - 1])
      && Twinned(sha, NextLevel(sha, row), i / 2)
  }

  /** Some right child on the way up does equal its left sibling. */
  ghost predicate HasTwin(sha: Hash, row: seq<Bytes>, i: nat)
    requires i < |row|
    decreases |row|
  {
    |row| > 1 && ((i % 2 == 1 && row[i] == row[i - 1]) || HasTwin(sha, NextLevel(sha, row), i / 2))
  }

  lemma NegativeShift(i: nat, e: nat)
    requires 0 < e <= 31 && i < Pow2(e)
    ensures i / 2 < Pow2(e - 1)
    ensures ShiftRight1(i - Pow2(e)) == i / 2 - Pow2(e - 1)
    ensures Remainder2(i - Pow2(e)) == -(i % 2)
  {
    Pow2Monotone(e, 31);
    Pow2Of31();
  }

  /** With the index negative, every promoted node is overlooked, and every right child taken for a left one. */
  lemma {:induction false} NegativeSurvives(sha: Hash, row: seq<Bytes>, i: nat, e: nat)
    requires i < |row| && e <= 31 && i < Pow2(e)
    ensures Survives(sha, row, i, i - Pow2(e)) <==> Twinned(sha, row, i)
    decreases |row|
  {
    if |row| > 1 {
      if e > 0 {
        NegativeShift(i, e);
        NegativeSurvives(sha, NextLevel(sha, row), i / 2, e - 1);
      } else {
        assert ShiftRight1(-1) == -1 && Remainder2(-1) == -1;
        NegativeSurvives(sha, NextLevel(sha, row), 0, 0);
      }
    }
  }

  /** The way up from a node with the highest bit set passes a right child. */
  lemma {:induction false} TwinFound(sha: Hash, row: seq<Bytes>, i: nat, e: nat)
    requires e > 0 && Pow2(e - 1) <= i < Pow2(e) && i < |row| && Twinned(sha, row, i)
    ensures HasTwin(sha, row, i)
    decreases |row|
  {
    if e > 1 {
      assert Pow2(e - 1) == 2 * Pow2(e - 2);
      TwinFound(sha, NextLevel(sha, row), i / 2, e - 1);
    } else {
      assert Pow2(0) == 1 && Pow2(1) == 2;
    }
  }

  /**
   From 2^31 to 2^32 a leaf's own proof is accepted if and only if, from the second level up, no node above the leaf is
   promoted and every right child among them equals its left sibling, of which there is one; or two inputs collide.
   */
  lemma LargeIndexExactly(sha: Hash, hs: seq<Bytes>, i: nat)
    requires i < |hs| && AllDigests(hs) && U32_SIZE / 2 <= i < U32_SIZE
    ensures Twinned(sha, NextLevel(sha, hs), i / 2) ==>
              HasTwin(sha, NextLevel(sha, hs), i / 2) && Accepted(sha, hs[i], i, |hs|, Path(sha, hs, i), Mth(sha, hs))
    ensures Accepted(sha, hs[i], i, |hs|, Path(sha, hs, i), Mth(sha, hs)) ==>
              Twinned(sha, NextLevel(sha, hs), i / 2) || Collides(sha, Misreading(sha, hs[i], hs, i, i))
  {
    var next := NextLevel(sha, hs);
    Pow2Of31();
    assert Pow2(31) == 2 * Pow2(30);
    assert ShiftRight1(i) == i / 2 - Pow2(31);
    assert Survives(sha, hs, i, i) <==> Survives(sha, next, i / 2, ShiftRight1(i));
    NegativeSurvives(sha, next, i / 2, 31);
    if Twinned(sha, next, i / 2) {
      TwinFound(sha, next, i / 2, 31);
    }
    OwnProofExactly(sha, hs, hs[i], i);
  }

  /**
   At every index whose condition holds, and so at every one below 2^31, what is accepted against the root is the leaf's
   own hash with its own proof and nothing else, unless two inputs collide.
   */
  lemma AcceptedIsOwnProofOrCollision(sha: Hash, hs: seq<Bytes>, h: Bytes, i: nat, p: seq<Bytes>)
    requires i < |hs| && AllDigests(hs)
    ensures ShiftSafe(i) ==> Survives(sha, hs, i, i)
    ensures Survives(sha, hs, i, i) && h == hs[i] && p == Path(sha, hs, i) ==>
            Accepted(sha, h, i, |hs|, p, Mth(sha, hs))
    ensures Survives(sha, hs, i, i) && Accepted(sha, h, i, |hs|, p, Mth(sha, hs)) ==>
              (h == hs[i] && p == Path(sha, hs, i)) ||
              Collides(sha, Meeting(sha, h, p, hs[i], Path(sha, hs, i), i, |hs|))
  {
    if ShiftSafe(i) {
      SafeSurvives(sha, hs, i);
    }
    OwnProofExactly(sha, hs, hs[i], i);
    if Survives(sha, hs, i, i) && Accepted(sha, h, i, |hs|, p, Mth(sha, hs)) {
      AtMostOneAccepted(sha, h, p, hs[i], Path(sha, hs, i), i, |hs|, Mth(sha, hs));
    }
  }
}
