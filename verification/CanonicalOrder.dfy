/**
 The order of keys in canonical text. It is documented as lexicographic; it is exactly when no object has an array index
 among its keys together with a key that is lexicographically smaller and no index, or an index of greater value.
 */
module CanonicalOrder {
  import opened JsonCanonical
  import opened JsonText

  // ----- indices by value

  ghost function TenTo(n: nat): nat {
    if n == 0 then 1 else 10 * TenTo(n - 1)
  }

  ghost predicate Digits(key: Text) {
    forall i :: 0 <= i < |key| ==> 48 <= key[i] <= 57
  }

  /** The number a string of digits is in decimal. */
  ghost function Value(key: Text): int {
    if key == [] then 0 else (key[0] as int - 48) * TenTo(|key| - 1) + Value(key[1..])
  }

  lemma {:induction false} TenToGrows(m: nat, n: nat)
    requires m <= n
    ensures 1 <= TenTo(m) <= TenTo(n)
    decreases n
  {
    if m < n {
      TenToGrows(m, n - 1);
    } else if n > 0 {
      TenToGrows(n - 1, n - 1);
    }
  }

  lemma Scale(a: int, b: int, p: int)
    requires a <= b && 0 <= p
    ensures a * p <= b * p
  {
  }

  lemma {:induction false} ValueInBounds(key: Text)
    requires Digits(key)
    ensures 0 <= Value(key) < TenTo(|key|)
  {
    if key != [] {
      var p := TenTo(|key| - 1);
      TenToGrows(0, |key| - 1);
      ValueInBounds(key[1..]);
      Scale(0, key[0] as int - 48, p);
      Scale(key[0] as int - 48, 9, p);
    }
  }

  lemma LeadingDecides(x: int, y: int, p: int, v: int, w: int)
    requires 0 <= v < p && 0 <= w < p
    ensures x * p + v < y * p + w <==> x < y || (x == y && v < w)
  {
    if x < y {
      Scale(x + 1, y, p);
    } else if y < x {
      Scale(y + 1, x, p);
    }
  }

  /** Of two strings of digits of one length, the lexicographically smaller is the smaller number. */
  lemma {:induction false} LexIsByValue(a: Text, b: Text)
    requires Digits(a) && Digits(b) && |a| == |b|
    ensures LexLess(a, b) <==> Value(a) < Value(b)
  {
    if a != [] {
      LexIsByValue(a[1..], b[1..]);
      ValueInBounds(a[1..]);
      ValueInBounds(b[1..]);
      var x, y := a[0] as int - 48, b[0] as int - 48;
      LeadingDecides(x, y, TenTo(|a| - 1), Value(a[1..]), Value(b[1..]));
      assert x < y <==> a[0] < b[0];
      assert x == y <==> a[0] == b[0];
    }
  }

  lemma LongerIsGreater(a: Text, b: Text)
    requires Digits(a) && Digits(b) && |a| < |b| && b[0] != 48
    ensures Value(a) < Value(b)
  {
    var p := TenTo(|b| - 1);
    ValueInBounds(a);
    ValueInBounds(b[1..]);
    TenToGrows(|a|, |b| - 1);
    Scale(1, b[0] as int - 48, p);
  }

  /** Array indices come in the order of their values. */
  lemma IndicesByValue(a: Text, b: Text)
    requires IsIndex(a) && IsIndex(b)
    ensures Before(a, b) <==> Value(a) < Value(b)
  {
    if |a| < |b| {
      LongerIsGreater(a, b);
    } else if |b| < |a| {
      LongerIsGreater(b, a);
    } else {
      LexIsByValue(a, b);
    }
  }

  // ----- where the two orders differ

  /** An array index, and a lexicographically smaller key that is none or has the greater value. */
  ghost predicate Clash(a: Text, b: Text) {
    IsIndex(a) && LexLess(b, a) && (!IsIndex(b) || Value(a) < Value(b))
  }

  /** Two keys are listed against their lexicographic order if and only if they clash. */
  lemma OrdersDifferExactly(a: Text, b: Text)
    requires a != b
    ensures Before(a, b) != LexLess(a, b) <==> Clash(a, b) || Clash(b, a)
    ensures Before(a, b) && LexLess(b, a) <==> Clash(a, b)
  {
    LexTotal(a, b);
    if IsIndex(a) && IsIndex(b) {
      IndicesByValue(a, b);
      IndicesByValue(b, a);
    }
    hide LexLess, IsIndex, Value;
    OrderTotal(Properties, a, b);
  }

  /** "9" is listed before "10", which is lexicographically smaller. */
  lemma NumbersAreNotLexical()
    ensures Clash([57], [49, 48])
  {
    assert Value([57]) == 9;
    assert [49, 48][1..] == [48];
    assert Value([48]) == 0 && Value([49, 48]) == 10;
  }

  ghost predicate NoClash(members: Members) {
    forall k, l :: HasKey(members, k) && HasKey(members, l) ==> !Clash(k, l)
  }

  lemma {:induction false} NoClashTail(members: Members)
    requires members.Member? && NoClash(members)
    ensures NoClash(members.others)
  {
    forall k, l | HasKey(members.others, k) && HasKey(members.others, l)
      ensures !Clash(k, l)
    {
      assert HasKey(members, k) && HasKey(members, l);
    }
  }

  /** Keys of a sorted list stand in its order. */
  lemma {:induction false} StandInOrder(members: Members, k: Text, l: Text)
    requires Sorted(Properties, members) && Sorted(Lexical, members) && HasKey(members, k) && HasKey(members, l) &&
             k != l
    ensures Before(k, l) <==> LexLess(k, l)
  {
    if k == members.key {
      HeadPrecedes(Properties, members, l);
      HeadPrecedes(Lexical, members, l);
    } else if l == members.key {
      HeadPrecedes(Properties, members, k);
      HeadPrecedes(Lexical, members, k);
      OrderTotal(Properties, k, l);
      OrderTotal(Lexical, k, l);
    } else {
      StandInOrder(members.others, k, l);
    }
  }

  lemma {:induction false} NoClashSorted(members: Members)
    requires Sorted(Properties, members) && NoClash(members)
    ensures Sorted(Lexical, members)
  {
    if members.Member? && members.others.Member? {
      NoClashTail(members);
      NoClashSorted(members.others);
      var k, l := members.key, members.others.key;
      assert HasKey(members, k) && HasKey(members, l);
      OrderTotal(Properties, k, l);
      OrdersDifferExactly(k, l);
    }
  }

  /** A list in property order is in lexicographic order as well if and only if no two of its keys clash. */
  lemma SortedExactly(members: Members)
    requires Sorted(Properties, members)
    ensures Sorted(Lexical, members) <==> NoClash(members)
  {
    if Sorted(Lexical, members) {
      forall k, l | HasKey(members, k) && HasKey(members, l)
        ensures !Clash(k, l)
      {
        if k != l {
          StandInOrder(members, k, l);
          OrdersDifferExactly(k, l);
        } else {
          LexIrreflexive(k);
        }
      }
    } else if NoClash(members) {
      NoClashSorted(members);
    }
  }

  /** The list an object is given is the lexicographically sorted one if and only if no two of its keys clash. */
  lemma SortsAgreeExactly(members: Members)
    requires ValidMembers(members)
    ensures Sort(Properties, members) == Sort(Lexical, members) <==> NoClash(members)
  {
    var p, l := Sort(Properties, members), Sort(Lexical, members);
    SortSorted(Properties, members);
    SortSorted(Lexical, members);
    forall k
      ensures HasKey(p, k) <==> HasKey(members, k)
      ensures HasKey(l, k) <==> HasKey(members, k)
      ensures HasKey(members, k) ==> Find(p, k) == Find(members, k) && Find(l, k) == Find(members, k)
    {
      SortKeys(Properties, members, k);
      SortKeys(Lexical, members, k);
    }
    SortedExactly(p);
    if Sorted(Lexical, p) {
      SortedUnique(Lexical, p, l);
    }
  }

  // ----- at every level

  /** Every object of the value lists its keys in lexicographic order. */
  ghost predicate LexSorted(j: Json) {
    match j
    case Arr(items) => LexItems(items)
    case Obj(members) => Sorted(Lexical, members) && LexValues(members)
    case _ => true
  }

  ghost predicate LexItems(items: Items) {
    items.Item? ==> LexSorted(items.first) && LexItems(items.others)
  }

  ghost predicate LexValues(members: Members) {
    members.Member? ==> LexSorted(members.value) && LexValues(members.others)
  }

  /** No object of the value has two keys that clash; members named `__proto__` do not count. */
  ghost predicate ClashFree(j: Json) {
    match j
    case Arr(items) => ClashFreeItems(items)
    case Obj(members) => NoClash(Without(members, PROTO)) && ClashFreeValues(members)
    case _ => true
  }

  ghost predicate ClashFreeItems(items: Items) {
    items.Item? ==> ClashFree(items.first) && ClashFreeItems(items.others)
  }

  ghost predicate ClashFreeValues(members: Members) {
    members.Member? ==> (members.key == PROTO || ClashFree(members.value)) && ClashFreeValues(members.others)
  }

  lemma {:induction false} InsertLexValues(key: Text, value: Json, members: Members)
    ensures LexValues(Insert(Properties, key, value, members)) <==> LexSorted(value) && LexValues(members)
  {
    if members.Member? {
      InsertLexValues(key, value, members.others);
      hide Precedes, LexSorted;
    }
  }

  lemma KeysSorted(members: Members)
    requires ValidMembers(members)
    ensures Sorted(Lexical, CanonicalMembers(members)) <==> NoClash(Without(members, PROTO))
  {
    CanonicalSorted(members);
    SortedExactly(CanonicalMembers(members));
    forall k
      ensures HasKey(CanonicalMembers(members), k) <==> HasKey(Without(members, PROTO), k)
    {
      CanonicalKeys(members, k);
      WithoutKeys(members, PROTO, k);
    }
    hide Clash, CanonicalMembers;
  }

  /** Canonical text has its keys in lexicographic order at every level if and only if no object has keys that clash. */
  lemma {:induction false} LexicalExactly(j: Json)
    requires Valid(j)
    ensures LexSorted(Canonical(j)) <==> ClashFree(j)
  {
    match j
    case Arr(items) => LexicalItems(items);
    case Obj(members) =>
      KeysSorted(members);
      LexicalValues(members);
    case _ =>
  }

  lemma {:induction false} LexicalItems(items: Items)
    requires ValidItems(items)
    ensures LexItems(CanonicalItems(items)) <==> ClashFreeItems(items)
  {
    if items.Item? {
      LexicalExactly(items.first);
      LexicalItems(items.others);
    }
  }

  lemma {:induction false} LexicalValues(members: Members)
    requires ValidMembers(members)
    ensures LexValues(CanonicalMembers(members)) <==> ClashFreeValues(members)
  {
    if members.Member? {
      LexicalExactly(members.value);
      LexicalValues(members.others);
      if members.key != PROTO {
        InsertLexValues(members.key, Canonical(members.value), CanonicalMembers(members.others));
      }
    }
  }
}
