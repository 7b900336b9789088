/** Bytes, fixed-width big-endian integers, and facts about splitting concatenations. */
module ByteStrings {
  newtype Byte = x: int | 0 <= x < 256
  type Bytes = seq<Byte>

  const U32_SIZE := 0x1_0000_0000
  const U64_SIZE := 0x1_0000_0000_0000_0000

  /** Four bytes, most significant first; the value is reduced modulo 2^32 as `& 0xff` on shifts does. */
  function U32(n: nat): (b: Bytes)
    ensures |b| == 4
  {
    var (n1, n2, n3) := (n / 256, n / 256 / 256, n / 256 / 256 / 256);
    [(n3 % 256) as Byte, (n2 % 256) as Byte, (n1 % 256) as Byte, (n % 256) as Byte]
  }

  function FromU32(b: Bytes): (n: nat)
    requires |b| == 4
    ensures n < U32_SIZE
  {
    ((b[0] as int * 256 + b[1] as int) * 256 + b[2] as int) * 256 + b[3] as int
  }

  lemma U32RoundTrip(n: nat)
    ensures FromU32(U32(n)) == n % U32_SIZE
  {
    var n1, n2, n3, q := n / 256, n / 256 / 256, n / 256 / 256 / 256, n / 256 / 256 / 256 / 256;
    var v := ((n3 % 256 * 256 + n2 % 256) * 256 + n1 % 256) * 256 + n % 256;
    assert n == q * U32_SIZE + v;
    Remainder32(q, v);
  }

  lemma Remainder32(q: nat, v: nat)
    requires v < U32_SIZE
    ensures (q * U32_SIZE + v) % U32_SIZE == v
  {
  }

  lemma FromU32RoundTrip(b: Bytes)
    requires |b| == 4
    ensures U32(FromU32(b)) == b
  {
    var w, x, y, z := b[0] as int, b[1] as int, b[2] as int, b[3] as int;
    LastByte((w * 256 + x) * 256 + y, z);
    LastByte(w * 256 + x, y);
    LastByte(w, x);
  }

  lemma LastByte(m: nat, d: nat)
    requires d < 256
    ensures (m * 256 + d) / 256 == m && (m * 256 + d) % 256 == d
  {
  }

  /** Eight bytes, most significant first. */
  function U64(n: nat): (b: Bytes)
    requires n < U64_SIZE
    ensures |b| == 8
  {
    U32(n / U32_SIZE) + U32(n % U32_SIZE)
  }

  lemma {:induction false} U64Injective(m: nat, n: nat)
    requires m < U64_SIZE && n < U64_SIZE
    requires U64(m) == U64(n)
    ensures m == n
  {
    HalvesRoundTrip(m);
    HalvesRoundTrip(n);
    SplitEqual(U32(m / U32_SIZE), U32(m % U32_SIZE), U32(n / U32_SIZE), U32(n % U32_SIZE));
  }

  lemma HalvesRoundTrip(n: nat)
    requires n < U64_SIZE
    ensures n == FromU32(U32(n / U32_SIZE)) * U32_SIZE + FromU32(U32(n % U32_SIZE))
  {
    var high, low := n / U32_SIZE, n % U32_SIZE;
    assert high < U32_SIZE;
    RoundTripBelow(high);
    RoundTripBelow(low);
  }

  lemma RoundTripBelow(n: nat)
    requires n < U32_SIZE
    ensures FromU32(U32(n)) == n
  {
    U32RoundTrip(n);
  }

  /** Equal concatenations whose heads have equal lengths agree piece by piece. */
  lemma SplitEqual<T>(a: seq<T>, x: seq<T>, b: seq<T>, y: seq<T>)
    requires a + x == b + y && |a| == |b|
    ensures a == b && x == y
  {
    assert a == (a + x)[..|a|] == (b + y)[..|b|] == b;
    assert x == (a + x)[|a|..] == (b + y)[|b|..] == y;
  }

  lemma CutAt<T>(a: seq<T>, b: seq<T>)
    ensures (a + b)[..|a|] == a && (a + b)[|a|..] == b
  {
  }

  lemma AppendAssociative<T>(a: seq<T>, b: seq<T>, c: seq<T>)
    ensures (a + b) + c == a + (b + c)
  {
  }

  /** Bit-wise exclusive or and or, of naturals. */
  function BitXor(x: nat, y: nat): (r: nat)
    ensures r == 0 <==> x == y
    decreases x + y
  {
    if x == 0 && y == 0 then 0 else 2 * BitXor(x / 2, y / 2) + if x % 2 == y % 2 then 0 else 1
  }

  function BitOr(x: nat, y: nat): (r: nat)
    ensures r == 0 <==> x == 0 && y == 0
    decreases x + y
  {
    if x == 0 && y == 0 then 0 else 2 * BitOr(x / 2, y / 2) + if x % 2 == 0 && y % 2 == 0 then 0 else 1
  }

  /** Copies bytes into a buffer; what lies before them stays. */
  method SetBytes(out: array<Byte>, bytes: Bytes, at: nat)
    requires at + |bytes| <= out.Length
    modifies out
    ensures out[..at + |bytes|] == old(out[..at]) + bytes
  {
    for i := 0 to |bytes|
      invariant out[..at + i] == old(out[..at]) + bytes[..i]
    {
      out[at + i] := bytes[i];
    }
  }

  /** Equality of two byte strings without an early exit on the first difference. */
  method ConstantTimeEqual(a: Bytes, b: Bytes) returns (equal: bool)
    ensures equal <==> a == b
  {
    if |a| != |b| {
      return false;
    }
    var diff := 0;
    for i := 0 to |a|
      invariant diff == 0 <==> a[..i] == b[..i]
    {
      diff := BitOr(diff, BitXor(a[i] as int, b[i] as int));
      assert a[..i + 1] == a[..i] + [a[i]] && b[..i + 1] == b[..i] + [b[i]];
    }
    assert a[..|a|] == a && b[..|b|] == b;
    return diff == 0;
  }

  method IsAllZero(b: Bytes) returns (zero: bool)
    ensures zero <==> forall i :: 0 <= i < |b| ==> b[i] == 0
  {
    var acc := 0;
    for i := 0 to |b|
      invariant acc == 0 <==> forall j :: 0 <= j < i ==> b[j] == 0
    {
      acc := BitOr(acc, b[i] as int);
    }
    return acc == 0;
  }
}
