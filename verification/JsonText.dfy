/**
 JSON values and their text, as `JSON.stringify` writes it (RFC 8259, without whitespace): the text determines the
 value. Text is a sequence of UTF-16 code units; a number is known by the text it is printed as.
 */
module JsonText {
  import opened ByteStrings

  newtype Unit = x: int | 0 <= x < 0x1_0000
  type Text = seq<Unit>

  datatype Json =
    | Null
    | Bool(value: bool)
    | Num(literal: Text)
    | Str(text: Text)
    | Arr(items: Items)
    | Obj(members: Members)

  datatype Items = NoItems | Item(first: Json, others: Items)

  /** The members of an object, in the order it has them. */
  datatype Members = NoMembers | Member(key: Text, value: Json, others: Members)

  const QUOTE: Unit := 34
  const COMMA: Unit := 44
  const COLON: Unit := 58
  const OPEN_LIST: Unit := 91
  const BACKSLASH: Unit := 92
  const CLOSE_LIST: Unit := 93
  const OPEN_OBJECT: Unit := 123
  const CLOSE_OBJECT: Unit := 125
  const SMALL_U: Unit := 117

  // ----- writing, in front of what follows

  function HexDigit(d: Unit): Unit
    requires d < 16
  {
    if d < 10 then 48 + d else 87 + d
  }

  /** The letter of a two-character escape, or 0. */
  function Short(c: Unit): Unit {
    if c == QUOTE then QUOTE else if c == BACKSLASH then BACKSLASH
    else if c == 8 then 98
    else if c == 9 then 116 else if c == 10 then 110 else if c == 12 then 102 else if c == 13 then 114
    else 0
  }

  predicate IsHigh(c: Unit) { 0xD800 <= c < 0xDC00 }
  predicate IsLow(c: Unit) { 0xDC00 <= c < 0xE000 }

  /** Control characters and surrogates without a partner are written in hexadecimal. */
  predicate NeedsHex(c: Unit) {
    Short(c) == 0 && (c < 32 || IsHigh(c) || IsLow(c))
  }

  function WriteUnit(c: Unit, rest: Text): Text {
    if Short(c) != 0 then [BACKSLASH, Short(c)] + rest
    else if NeedsHex(c) then
      [BACKSLASH, SMALL_U, HexDigit(c / 0x1000), HexDigit(c / 0x100 % 16), HexDigit(c / 16 % 16), HexDigit(c % 16)] +
          rest
    else [c] + rest
  }

  predicate Paired(s: Text) {
    |s| > 1 && IsHigh(s[0]) && IsLow(s[1])
  }

  function WriteBody(s: Text, rest: Text): Text {
    if s == [] then rest
    else if Paired(s) then [s[0], s[1]] + WriteBody(s[2..], rest)
    else WriteUnit(s[0], WriteBody(s[1..], rest))
  }

  function WriteString(s: Text, rest: Text): Text {
    [QUOTE] + WriteBody(s, [QUOTE] + rest)
  }

  function Write(j: Json, rest: Text): Text {
    match j
    case Null => [110, 117, 108, 108] + rest
    case Bool(true) => [116, 114, 117, 101] + rest
    case Bool(false) => [102, 97, 108, 115, 101] + rest
    case Num(literal) => literal + rest
    case Str(text) => WriteString(text, rest)
    case Arr(NoItems) => [OPEN_LIST, CLOSE_LIST] + rest
    case Arr(Item(first, others)) => [OPEN_LIST] + Write(first, WriteItems(others, rest))
    case Obj(NoMembers) => [OPEN_OBJECT, CLOSE_OBJECT] + rest
    case Obj(Member(key, value, others)) =>
      [OPEN_OBJECT] + WriteString(key, [COLON] + Write(value, WriteMembers(others, rest)))
  }

  function WriteItems(items: Items, rest: Text): Text {
    match items
    case NoItems => [CLOSE_LIST] + rest
    case Item(first, others) => [COMMA] + Write(first, WriteItems(others, rest))
  }

  function WriteMembers(members: Members, rest: Text): Text {
    match members
    case NoMembers => [CLOSE_OBJECT] + rest
    case Member(key, value, others) => [COMMA] + WriteString(key, [COLON] + Write(value, WriteMembers(others, rest)))
  }

  // ----- what is a JSON value

  /** Characters a number is printed with. */
  predicate NumberUnit(c: Unit) {
    48 <= c <= 57 || c == 43 || c == 45 || c == 46 || c == 101
  }

  predicate IsLiteral(literal: Text) {
    literal != [] && forall i :: 0 <= i < |literal| ==> NumberUnit(literal[i])
  }

  ghost predicate HasKey(members: Members, key: Text) {
    members.Member? && (members.key == key || HasKey(members.others, key))
  }

  ghost predicate Valid(j: Json) {
    match j
    case Num(literal) => IsLiteral(literal)
    case Arr(items) => ValidItems(items)
    case Obj(members) => ValidMembers(members)
    case _ => true
  }

  ghost predicate ValidItems(items: Items) {
    items.Item? ==> Valid(items.first) && ValidItems(items.others)
  }

  /** Keys are distinct. */
  ghost predicate ValidMembers(members: Members) {
    members.Member? ==> Valid(members.value) && !HasKey(members.others, members.key) && ValidMembers(members.others)
  }

  // ----- reading back: equal text, equal value

  lemma Front(c: Unit, k: Text, d: Unit, l: Text)
    requires [c] + k == [d] + l
    ensures c == d && k == l
  {
    SplitEqual([c], k, [d], l);
  }

  lemma Front2(a: Text, k: Text, b: Text, l: Text)
    requires |a| == |b| && a + k == b + l
    ensures a == b && k == l
  {
    SplitEqual(a, k, b, l);
  }

  lemma HexDigits(c: Unit, d: Unit)
    requires HexDigit(c / 0x1000) == HexDigit(d / 0x1000) && HexDigit(c / 0x100 % 16) == HexDigit(d / 0x100 % 16)
    requires HexDigit(c / 16 % 16) == HexDigit(d / 16 % 16) && HexDigit(c % 16) == HexDigit(d % 16)
    ensures c == d
  {
    DigitInjective(c / 0x1000, d / 0x1000);
    DigitInjective(c / 0x100 % 16, d / 0x100 % 16);
    DigitInjective(c / 16 % 16, d / 16 % 16);
    DigitInjective(c % 16, d % 16);
    Digits(c);
    Digits(d);
  }

  lemma DigitInjective(a: Unit, b: Unit)
    requires a < 16 && b < 16 && HexDigit(a) == HexDigit(b)
    ensures a == b
  {
  }

  lemma Digits(c: Unit)
    ensures c == c / 0x1000 * 0x1000 + c / 0x100 % 16 * 0x100 + c / 16 % 16 * 16 + c % 16
  {
    var n := c as int;
    assert n / 0x100 == n / 16 / 16 && n / 0x1000 == n / 16 / 16 / 16;
  }

  lemma UnitInjective(c: Unit, k: Text, d: Unit, l: Text)
    requires WriteUnit(c, k) == WriteUnit(d, l)
    ensures c == d && k == l
  {
    var t, u := WriteUnit(c, k), WriteUnit(d, l);
    assert t[0] == u[0];
    if Short(c) != 0 {
      assert t[1] == Short(c) && u[1] == Short(c);
      assert Short(d) == Short(c);
      Front2([BACKSLASH, Short(c)], k, [BACKSLASH, Short(d)], l);
    } else if NeedsHex(c) {
      assert t[1] == SMALL_U && u[1] == SMALL_U;
      assert NeedsHex(d);
      Front2(t[..6], k, u[..6], l);
      assert t[2] == u[2] && t[3] == u[3] && t[4] == u[4] && t[5] == u[5];
      HexDigits(c, d);
    } else {
      Front(c, k, d, l);
    }
  }

  /** The first unit written tells an end, an escape, a pair and a plain character apart. */
  lemma BodyFront(s: Text, rest: Text)
    requires s != []
    ensures var t := WriteBody(s, rest);
            t != [] && t[0] != QUOTE &&
            (if Paired(s) then t[0] == s[0]
                else if Short(s[0]) != 0 || NeedsHex(s[0]) then t[0] == BACKSLASH else t[0] == s[0])
  {
  }

  lemma {:induction false} BodyInjective(s: Text, x: Text, t: Text, y: Text)
    requires WriteBody(s, [QUOTE] + x) == WriteBody(t, [QUOTE] + y)
    ensures s == t && x == y
    decreases |s|
  {
    if s == [] || t == [] {
      if s != [] {
        BodyFront(s, [QUOTE] + x);
      }
      if t != [] {
        BodyFront(t, [QUOTE] + y);
      }
      Front(QUOTE, x, QUOTE, y);
    } else {
      BodyFront(s, [QUOTE] + x);
      BodyFront(t, [QUOTE] + y);
      BodyStep(s, x, t, y);
      if Paired(s) {
        BodyInjective(s[2..], x, t[2..], y);
      } else {
        BodyInjective(s[1..], x, t[1..], y);
      }
    }
  }

  lemma BodyStep(s: Text, x: Text, t: Text, y: Text)
    requires s != [] && t != [] && WriteBody(s, [QUOTE] + x) == WriteBody(t, [QUOTE] + y)
    ensures Paired(s) == Paired(t) && s[0] == t[0]
    ensures if Paired(s) then s[1] == t[1] && WriteBody(s[2..], [QUOTE] + x) == WriteBody(t[2..], [QUOTE] + y)
            else WriteBody(s[1..], [QUOTE] + x) == WriteBody(t[1..], [QUOTE] + y)
  {
    BodyFront(s, [QUOTE] + x);
    BodyFront(t, [QUOTE] + y);
    if Paired(s) {
      assert Paired(t);
      Front2([s[0], s[1]], WriteBody(s[2..], [QUOTE] + x), [t[0], t[1]], WriteBody(t[2..], [QUOTE] + y));
      assert [s[0], s[1]][1] == [t[0], t[1]][1];
    } else {
      assert !Paired(t);
      UnitInjective(s[0], WriteBody(s[1..], [QUOTE] + x), t[0], WriteBody(t[1..], [QUOTE] + y));
    }
  }

  lemma StringInjective(s: Text, x: Text, t: Text, y: Text)
    requires WriteString(s, x) == WriteString(t, y)
    ensures s == t && x == y
  {
    Front(QUOTE, WriteBody(s, [QUOTE] + x), QUOTE, WriteBody(t, [QUOTE] + y));
    BodyInjective(s, x, t, y);
  }

  /** What may follow a value: nothing, or a separator. */
  ghost predicate Stops(rest: Text) {
    rest == [] || rest[0] == COMMA || rest[0] == CLOSE_LIST || rest[0] == CLOSE_OBJECT
  }

  lemma LiteralNoShorter(a: Text, x: Text, b: Text, y: Text)
    requires a + x == b + y && Stops(x)
    requires forall i :: 0 <= i < |b| ==> NumberUnit(b[i])
    ensures |a| >= |b|
  {
    assert forall i :: 0 <= i < |b| ==> (a + x)[i] == b[i];
    assert x != [] ==> (a + x)[|a|] == x[0];
  }

  lemma LiteralInjective(a: Text, x: Text, b: Text, y: Text)
    requires a + x == b + y && Stops(x) && Stops(y)
    requires forall i :: 0 <= i < |a| ==> NumberUnit(a[i])
    requires forall i :: 0 <= i < |b| ==> NumberUnit(b[i])
    ensures a == b && x == y
  {
    LiteralNoShorter(a, x, b, y);
    LiteralNoShorter(b, y, a, x);
    SplitEqual(a, x, b, y);
  }

  lemma ItemsStop(items: Items, members: Members, rest: Text)
    ensures Stops(WriteItems(items, rest)) && WriteItems(items, rest) != []
    ensures Stops(WriteMembers(members, rest)) && WriteMembers(members, rest) != []
  {
  }

  /** A code for the kind of value that starts with a given unit. */
  ghost function Kind(c: Unit): nat {
    if c == 110 then 0 else if c == 116 then 1 else if c == 102 then 2 else if NumberUnit(c) then 3
    else if c == QUOTE then 4 else if c == OPEN_LIST then 5 else if c == OPEN_OBJECT then 6 else 7
  }

  ghost function KindOf(j: Json): nat {
    match j
    case Null => 0
    case Bool(true) => 1
    case Bool(false) => 2
    case Num(_) => 3
    case Str(_) => 4
    case Arr(_) => 5
    case Obj(_) => 6
  }

  lemma FirstTells(j: Json, rest: Text)
    requires Valid(j)
    ensures Write(j, rest) != [] && Kind(Write(j, rest)[0]) == KindOf(j)
  {
  }

  /** Two values written in front of what may follow a value: equal text, equal values. */
  lemma {:induction false} WriteInjective(a: Json, x: Text, b: Json, y: Text)
    requires Valid(a) && Valid(b) && Stops(x) && Stops(y) && Write(a, x) == Write(b, y)
    ensures a == b && x == y
  {
    FirstTells(a, x);
    FirstTells(b, y);
    match a
    case Null => Front2([110, 117, 108, 108], x, [110, 117, 108, 108], y);
    case Bool(true) => Front2([116, 114, 117, 101], x, [116, 114, 117, 101], y);
    case Bool(false) => Front2([102, 97, 108, 115, 101], x, [102, 97, 108, 115, 101], y);
    case Num(literal) => LiteralInjective(literal, x, b.literal, y);
    case Str(text) => StringInjective(text, x, b.text, y);
    case Arr(items) => ListInjective(items, x, b.items, y);
    case Obj(members) => ObjectInjective(members, x, b.members, y);
  }

  lemma {:induction false} ListInjective(a: Items, x: Text, b: Items, y: Text)
    requires ValidItems(a) && ValidItems(b) && Stops(x) && Stops(y) && Write(Arr(a), x) == Write(Arr(b), y)
    ensures a == b && x == y
  {
    if a.Item? {
      FirstTells(a.first, WriteItems(a.others, x));
    }
    if b.Item? {
      FirstTells(b.first, WriteItems(b.others, y));
    }
    assert Write(Arr(a), x)[1] == Write(Arr(b), y)[1];
    if a.Item? && b.Item? {
      ItemsStop(a.others, NoMembers, x);
      ItemsStop(b.others, NoMembers, y);
      Front(OPEN_LIST, Write(a.first, WriteItems(a.others, x)), OPEN_LIST, Write(b.first, WriteItems(b.others, y)));
      WriteInjective(a.first, WriteItems(a.others, x), b.first, WriteItems(b.others, y));
      ItemsInjective(a.others, x, b.others, y);
    } else if a.NoItems? && b.NoItems? {
      Front2([OPEN_LIST, CLOSE_LIST], x, [OPEN_LIST, CLOSE_LIST], y);
    }
  }

  lemma {:induction false} ItemsInjective(a: Items, x: Text, b: Items, y: Text)
    requires ValidItems(a) && ValidItems(b) && Stops(x) && Stops(y) && WriteItems(a, x) == WriteItems(b, y)
    ensures a == b && x == y
  {
    assert WriteItems(a, x)[0] == WriteItems(b, y)[0];
    if a.Item? {
      ItemsStop(a.others, NoMembers, x);
      ItemsStop(b.others, NoMembers, y);
      Front(COMMA, Write(a.first, WriteItems(a.others, x)), COMMA, Write(b.first, WriteItems(b.others, y)));
      WriteInjective(a.first, WriteItems(a.others, x), b.first, WriteItems(b.others, y));
      ItemsInjective(a.others, x, b.others, y);
    } else {
      Front(CLOSE_LIST, x, CLOSE_LIST, y);
    }
  }

  lemma {:induction false} MemberInjective(a: Members, x: Text, b: Members, y: Text)
    requires a.Member? && b.Member? && ValidMembers(a) && ValidMembers(b) && Stops(x) && Stops(y)
    requires WriteString(a.key, [COLON] + Write(a.value, WriteMembers(a.others, x))) ==
             WriteString(b.key, [COLON] + Write(b.value, WriteMembers(b.others, y)))
    ensures a == b && x == y
    decreases a, 0
  {
    var v, w := Write(a.value, WriteMembers(a.others, x)), Write(b.value, WriteMembers(b.others, y));
    StringInjective(a.key, [COLON] + v, b.key, [COLON] + w);
    Front(COLON, v, COLON, w);
    ItemsStop(NoItems, a.others, x);
    ItemsStop(NoItems, b.others, y);
    WriteInjective(a.value, WriteMembers(a.others, x), b.value, WriteMembers(b.others, y));
    MembersInjective(a.others, x, b.others, y);
  }

  lemma {:induction false} ObjectInjective(a: Members, x: Text, b: Members, y: Text)
    requires ValidMembers(a) && ValidMembers(b) && Stops(x) && Stops(y) && Write(Obj(a), x) == Write(Obj(b), y)
    ensures a == b && x == y
    decreases a, 1
  {
    assert Write(Obj(a), x)[1] == Write(Obj(b), y)[1];
    if a.Member? {
      Front(OPEN_OBJECT, WriteString(a.key, [COLON] + Write(a.value, WriteMembers(a.others, x))),
            OPEN_OBJECT, WriteString(b.key, [COLON] + Write(b.value, WriteMembers(b.others, y))));
      MemberInjective(a, x, b, y);
    } else {
      Front2([OPEN_OBJECT, CLOSE_OBJECT], x, [OPEN_OBJECT, CLOSE_OBJECT], y);
    }
  }

  lemma {:induction false} MembersInjective(a: Members, x: Text, b: Members, y: Text)
    requires ValidMembers(a) && ValidMembers(b) && Stops(x) && Stops(y) && WriteMembers(a, x) == WriteMembers(b, y)
    ensures a == b && x == y
    decreases a, 1
  {
    assert WriteMembers(a, x)[0] == WriteMembers(b, y)[0];
    if a.Member? {
      Front(COMMA, WriteString(a.key, [COLON] + Write(a.value, WriteMembers(a.others, x))),
            COMMA, WriteString(b.key, [COLON] + Write(b.value, WriteMembers(b.others, y))));
      MemberInjective(a, x, b, y);
    } else {
      Front(CLOSE_OBJECT, x, CLOSE_OBJECT, y);
    }
  }
}
