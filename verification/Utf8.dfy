/**
 UTF-8 as `TextEncoder` does it on UTF-16 text: a surrogate without its partner becomes U+FFFD. On text without
 such surrogates the encoding is injective, and JSON text is never with them.
 */
module Utf8 {
  import opened ByteStrings
  import opened JsonText

  /** One scalar value in one to four bytes. */
  function OfScalar(c: nat): (b: Bytes)
    requires c < 0x11_0000
    ensures 1 <= |b| <= 4
  {
    if c < 0x80 then [c as Byte]
    else if c < 0x800 then [(0xC0 + c / 64) as Byte, (0x80 + c % 64) as Byte]
    else if c < 0x1_0000 then [(0xE0 + c / 4096) as Byte, (0x80 + c / 64 % 64) as Byte, (0x80 + c % 64) as Byte]
    else [(0xF0 + c / 262144) as Byte, (0x80 + c / 4096 % 64) as Byte, (0x80 + c / 64 % 64) as Byte,
        (0x80 + c % 64) as Byte]
  }

  function PairScalar(high: Unit, low: Unit): (c: nat)
    requires IsHigh(high) && IsLow(low)
    ensures 0x1_0000 <= c < 0x11_0000
  {
    0x1_0000 + (high as int - 0xD800) * 0x400 + (low as int - 0xDC00)
  }

  function FirstScalar(t: Text): (c: nat)
    requires t != []
    ensures c < 0x11_0000
  {
    if Paired(t) then PairScalar(t[0], t[1])
    else if IsHigh(t[0]) || IsLow(t[0]) then 0xFFFD
    else t[0] as int
  }

  function Encode(t: Text): Bytes {
    if t == [] then [] else OfScalar(FirstScalar(t)) + Encode(t[if Paired(t) then 2 else 1..])
  }

  /** Every surrogate has its partner. */
  predicate WellFormed(t: Text) {
    t == [] || (if Paired(t) then WellFormed(t[2..]) else !IsHigh(t[0]) && !IsLow(t[0]) && WellFormed(t[1..]))
  }

  lemma Base64Digits(c: nat)
    ensures c == c / 64 * 64 + c % 64
    ensures c / 64 == c / 4096 * 64 + c / 64 % 64
    ensures c / 4096 == c / 262144 * 64 + c / 4096 % 64
  {
    assert c / 4096 == c / 64 / 64 && c / 262144 == c / 4096 / 64;
  }

  lemma ScalarLength(c: nat)
    requires c < 0x11_0000
    ensures var b := OfScalar(c)[0];
            |OfScalar(c)| == if b < 0x80 then 1 else if b < 0xE0 then 2 else if b < 0xF0 then 3 else 4
  {
  }

  lemma ScalarInjective(c: nat, k: Bytes, d: nat, l: Bytes)
    requires c < 0x11_0000 && d < 0x11_0000 && OfScalar(c) + k == OfScalar(d) + l
    ensures c == d && k == l
  {
    var b, e := OfScalar(c), OfScalar(d);
    assert b[0] == (b + k)[0] == (e + l)[0] == e[0];
    ScalarLength(c);
    ScalarLength(d);
    SplitEqual(b, k, e, l);
    SameBytes(c, d);
  }

  lemma SameBytes(c: nat, d: nat)
    requires c < 0x11_0000 && d < 0x11_0000 && OfScalar(c) == OfScalar(d)
    ensures c == d
  {
    var b, e := OfScalar(c), OfScalar(d);
    assert b[0] == e[0];
    Base64Digits(c);
    Base64Digits(d);
    if |b| > 1 {
      assert b[1] == e[1];
    }
    if |b| > 2 {
      assert b[2] == e[2];
    }
    if |b| > 3 {
      assert b[3] == e[3];
    }
  }

  lemma PairInjective(h: Unit, l: Unit, i: Unit, m: Unit)
    requires IsHigh(h) && IsLow(l) && IsHigh(i) && IsLow(m) && PairScalar(h, l) == PairScalar(i, m)
    ensures h == i && l == m
  {
  }

  lemma FirstUnits(s: Text, t: Text)
    requires s != [] && t != [] && WellFormed(s) && WellFormed(t) && FirstScalar(s) == FirstScalar(t)
    ensures Paired(s) == Paired(t) && s[0] == t[0] && (Paired(s) ==> s[1] == t[1])
  {
    if Paired(s) && Paired(t) {
      PairInjective(s[0], s[1], t[0], t[1]);
    }
  }

  /** On well-formed text, equal bytes mean equal text. */
  lemma {:induction false} EncodeInjective(s: Text, t: Text)
    requires WellFormed(s) && WellFormed(t) && Encode(s) == Encode(t)
    ensures s == t
    decreases |s|
  {
    if s != [] && t != [] {
      var i, j := if Paired(s) then 2 else 1, if Paired(t) then 2 else 1;
      ScalarInjective(FirstScalar(s), Encode(s[i..]), FirstScalar(t), Encode(t[j..]));
      FirstUnits(s, t);
      EncodeInjective(s[i..], t[j..]);
      assert s == s[..i] + s[i..] && t == t[..j] + t[j..];
    }
  }

  /** Each surrogate without its partner replaced by U+FFFD. */
  function Repair(t: Text): Text {
    if t == [] then [] else RepairFront(t) + Repair(t[if Paired(t) then 2 else 1..])
  }

  function RepairFront(t: Text): Text
    requires t != []
  {
    if Paired(t) then t[..2] else [if IsHigh(t[0]) || IsLow(t[0]) then 0xFFFD else t[0]]
  }

  lemma {:induction false} Repaired(t: Text)
    ensures WellFormed(Repair(t)) && Encode(Repair(t)) == Encode(t)
  {
    if t != [] {
      var i := if Paired(t) then 2 else 1;
      Repaired(t[i..]);
      RepairedFront(t, Repair(t[i..]));
    }
  }

  lemma RepairedFront(t: Text, rest: Text)
    requires t != [] && WellFormed(rest)
    ensures WellFormed(RepairFront(t) + rest) &&
            Encode(RepairFront(t) + rest) == OfScalar(FirstScalar(t)) + Encode(rest)
  {
    if Paired(t) {
      assert (t[..2] + rest)[2..] == rest;
    } else {
      var c := if IsHigh(t[0]) || IsLow(t[0]) then 0xFFFD else t[0];
      assert ([c] + rest)[1..] == rest && !Paired([c] + rest);
    }
  }

  /** Two texts encode alike if and only if they are equal once their stray surrogates are replaced. */
  lemma EncodeExactly(s: Text, t: Text)
    ensures Encode(s) == Encode(t) <==> Repair(s) == Repair(t)
  {
    Repaired(s);
    Repaired(t);
    if Encode(s) == Encode(t) {
      EncodeInjective(Repair(s), Repair(t));
    }
  }

  lemma {:induction false} RepairWellFormed(t: Text)
    requires WellFormed(t)
    ensures Repair(t) == t
  {
    if t != [] {
      RepairWellFormed(t[if Paired(t) then 2 else 1..]);
    }
  }

  /** Text is repaired piece by piece where no pair is cut. */
  lemma {:induction false} RepairConcat(s: Text, t: Text)
    requires t != [] ==> !IsLow(t[0])
    ensures Repair(s + t) == Repair(s) + Repair(t)
  {
    if s == [] {
      assert s + t == t;
    } else {
      var i := if Paired(s) then 2 else 1;
      RepairConcat(s[i..], t);
      FrontConcat(s, t);
      AppendAssociative(RepairFront(s), Repair(s[i..]), Repair(t));
      hide RepairFront;
      assert Repair(s + t) == RepairFront(s) + Repair(s[i..] + t);
    }
  }

  lemma FrontConcat(s: Text, t: Text)
    requires s != [] && (t != [] ==> !IsLow(t[0]))
    ensures Paired(s + t) == Paired(s) && RepairFront(s + t) == RepairFront(s)
    ensures (s + t)[if Paired(s) then 2 else 1..] == s[if Paired(s) then 2 else 1..] + t
  {
    if Paired(s) {
      assert (s + t)[..2] == s[..2];
    }
  }

  /** A unit that is no surrogate is left where it is. */
  lemma {:induction false} RepairKeeps(t: Text, c: Unit)
    requires !IsHigh(c) && !IsLow(c) && c != 0xFFFD
    ensures c in Repair(t) <==> c in t
  {
    if t != [] {
      var i := if Paired(t) then 2 else 1;
      RepairKeeps(t[i..], c);
      assert t == t[..i] + t[i..];
    }
  }

  lemma {:induction false} WellFormedConcat(s: Text, t: Text)
    requires WellFormed(s) && WellFormed(t)
    ensures WellFormed(s + t)
    decreases |s|
  {
    if s == [] {
      assert s + t == t;
    } else {
      var i := if Paired(s) then 2 else 1;
      WellFormedConcat(s[i..], t);
      assert (s + t)[i..] == s[i..] + t;
      if !Paired(s) {
        assert !Paired(s + t);
      }
    }
  }

  predicate IsAscii(t: Text) {
    forall i :: 0 <= i < |t| ==> t[i] < 0x80
  }

  function AsciiBytes(t: Text): Bytes
    requires IsAscii(t)
  {
    seq(|t|, i requires 0 <= i < |t| => t[i] as Byte)
  }

  lemma {:induction false} AsciiWellFormed(t: Text)
    requires IsAscii(t)
    ensures WellFormed(t)
  {
    if t != [] {
      AsciiWellFormed(t[1..]);
    }
  }

  /** ASCII text encodes as itself, in front of whatever follows. */
  lemma {:induction false} AsciiFront(a: Text, t: Text)
    requires IsAscii(a)
    ensures Encode(a + t) == AsciiBytes(a) + Encode(t)
  {
    if a == [] {
      assert a + t == t;
    } else {
      AsciiFront(a[1..], t);
      assert (a + t)[1..] == a[1..] + t;
      assert AsciiBytes(a) == [a[0] as Byte] + AsciiBytes(a[1..]);
    }
  }

  // ----- JSON text is well formed

  lemma UnitWellFormed(c: Unit, rest: Text)
    requires WellFormed(rest)
    ensures WellFormed(WriteUnit(c, rest))
  {
    if Short(c) != 0 {
      var front: Text := [BACKSLASH, Short(c)];
      AsciiWellFormed(front);
      WellFormedConcat(front, rest);
    } else if NeedsHex(c) {
      var front := [BACKSLASH, SMALL_U, HexDigit(c / 0x1000), HexDigit(c / 0x100 % 16), HexDigit(c / 16 % 16),
          HexDigit(c % 16)];
      AsciiWellFormed(front);
      WellFormedConcat(front, rest);
    } else {
      assert [c][1..] == [];
      WellFormedConcat([c], rest);
    }
  }

  lemma {:induction false} BodyWellFormed(s: Text, rest: Text)
    requires WellFormed(rest)
    ensures WellFormed(WriteBody(s, rest))
    decreases |s|
  {
    if s != [] {
      if Paired(s) {
        BodyWellFormed(s[2..], rest);
        assert [s[0], s[1]][2..] == [];
        WellFormedConcat([s[0], s[1]], WriteBody(s[2..], rest));
      } else {
        BodyWellFormed(s[1..], rest);
        UnitWellFormed(s[0], WriteBody(s[1..], rest));
      }
    }
  }

  lemma AsciiThen(a: Text, rest: Text)
    requires IsAscii(a) && WellFormed(rest)
    ensures WellFormed(a + rest)
  {
    AsciiWellFormed(a);
    WellFormedConcat(a, rest);
  }

  lemma StringWellFormed(s: Text, rest: Text)
    requires WellFormed(rest)
    ensures WellFormed(WriteString(s, rest))
  {
    AsciiThen([QUOTE], rest);
    BodyWellFormed(s, [QUOTE] + rest);
    AsciiThen([QUOTE], WriteBody(s, [QUOTE] + rest));
  }

  /** What is written of a value is well formed, whatever its strings hold. */
  lemma {:induction false} WriteWellFormed(j: Json, rest: Text)
    requires Valid(j) && WellFormed(rest)
    ensures WellFormed(Write(j, rest))
  {
    match j
    case Null => AsciiThen([110, 117, 108, 108], rest);
    case Bool(true) => AsciiThen([116, 114, 117, 101], rest);
    case Bool(false) => AsciiThen([102, 97, 108, 115, 101], rest);
    case Num(literal) => AsciiThen(literal, rest);
    case Str(text) => StringWellFormed(text, rest);
    case Arr(NoItems) => AsciiThen([OPEN_LIST, CLOSE_LIST], rest);
    case Arr(Item(first, others)) =>
      ItemsWellFormed(others, rest);
      WriteWellFormed(first, WriteItems(others, rest));
      AsciiThen([OPEN_LIST], Write(first, WriteItems(others, rest)));
    case Obj(NoMembers) => AsciiThen([OPEN_OBJECT, CLOSE_OBJECT], rest);
    case Obj(Member(key, value, others)) =>
      MembersWellFormed(others, rest);
      WriteWellFormed(value, WriteMembers(others, rest));
      AsciiThen([COLON], Write(value, WriteMembers(others, rest)));
      StringWellFormed(key, [COLON] + Write(value, WriteMembers(others, rest)));
      AsciiThen([OPEN_OBJECT], WriteString(key, [COLON] + Write(value, WriteMembers(others, rest))));
  }

  lemma {:induction false} ItemsWellFormed(items: Items, rest: Text)
    requires ValidItems(items) && WellFormed(rest)
    ensures WellFormed(WriteItems(items, rest))
  {
    match items
    case NoItems => AsciiThen([CLOSE_LIST], rest);
    case Item(first, others) =>
      ItemsWellFormed(others, rest);
      WriteWellFormed(first, WriteItems(others, rest));
      AsciiThen([COMMA], Write(first, WriteItems(others, rest)));
  }

  lemma {:induction false} MembersWellFormed(members: Members, rest: Text)
    requires ValidMembers(members) && WellFormed(rest)
    ensures WellFormed(WriteMembers(members, rest))
  {
    match members
    case NoMembers => AsciiThen([CLOSE_OBJECT], rest);
    case Member(key, value, others) =>
      MembersWellFormed(others, rest);
      WriteWellFormed(value, WriteMembers(others, rest));
      AsciiThen([COLON], Write(value, WriteMembers(others, rest)));
      StringWellFormed(key, [COLON] + Write(value, WriteMembers(others, rest)));
      AsciiThen([COMMA], WriteString(key, [COLON] + Write(value, WriteMembers(others, rest))));
  }

  /** Equal bytes, equal values. */
  lemma EncodedJsonInjective(a: Json, b: Json)
    requires Valid(a) && Valid(b) && Encode(Write(a, [])) == Encode(Write(b, []))
    ensures a == b
  {
    WriteWellFormed(a, []);
    WriteWellFormed(b, []);
    EncodeInjective(Write(a, []), Write(b, []));
    WriteInjective(a, [], b, []);
  }
}
