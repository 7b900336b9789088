/**
 Canonical JSON: objects rewritten with their keys in order at every level, as a replacer that fills a fresh object
 does it. Equal canonical text means equal values up to the order of keys, the key `__proto__` aside.
 */
module JsonCanonical {
  import opened JsonText

  // ----- orders on keys

  /** The order of `sort()`: by code units. */
  predicate LexLess(a: Text, b: Text) {
    b != [] && (a == [] || a[0] < b[0] || (a[0] == b[0] && LexLess(a[1..], b[1..])))
  }

  const LAST_INDEX: Text := [52, 50, 57, 52, 57, 54, 55, 50, 57, 52]

  /** Keys an object keeps apart: numbers below 2^32 - 1 in plain decimal. */
  predicate IsIndex(key: Text) {
    && key != [] && (forall i :: 0 <= i < |key| ==> 48 <= key[i] <= 57) && (key[0] != 48 || |key| == 1)
    && (|key| < |LAST_INDEX| || (|key| == |LAST_INDEX| && !LexLess(LAST_INDEX, key)))
  }

  /** The order in which an object filled in `sort()` order lists its keys: numbers first, by value. */
  predicate Before(a: Text, b: Text) {
    if IsIndex(a) && IsIndex(b) then |a| < |b| || (|a| == |b| && LexLess(a, b))
    else if IsIndex(a) || IsIndex(b) then IsIndex(a)
    else LexLess(a, b)
  }

  datatype Order = Lexical | Properties

  predicate Precedes(order: Order, a: Text, b: Text) {
    match order
    case Lexical => LexLess(a, b)
    case Properties => Before(a, b)
  }

  lemma {:induction false} LexIrreflexive(a: Text)
    ensures !LexLess(a, a)
  {
    if a != [] {
      LexIrreflexive(a[1..]);
    }
  }

  lemma {:induction false} LexTotal(a: Text, b: Text)
    ensures LexLess(a, b) || a == b || LexLess(b, a)
    ensures !(LexLess(a, b) && LexLess(b, a))
  {
    if a != [] && b != [] {
      LexTotal(a[1..], b[1..]);
      assert a == [a[0]] + a[1..] && b == [b[0]] + b[1..];
    }
  }

  lemma {:induction false} LexTransitive(a: Text, b: Text, c: Text)
    requires LexLess(a, b) && LexLess(b, c)
    ensures LexLess(a, c)
    decreases |a|
  {
    if a != [] && a[0] == b[0] && b[0] == c[0] {
      LexTransitive(a[1..], b[1..], c[1..]);
    }
  }

  lemma OrderTotal(order: Order, a: Text, b: Text)
    ensures Precedes(order, a, b) || a == b || Precedes(order, b, a)
    ensures !(Precedes(order, a, b) && Precedes(order, b, a)) && !Precedes(order, a, a)
  {
    LexTotal(a, b);
    LexIrreflexive(a);
    hide LexLess, IsIndex;
  }

  lemma OrderTransitive(order: Order, a: Text, b: Text, c: Text)
    requires Precedes(order, a, b) && Precedes(order, b, c)
    ensures Precedes(order, a, c)
  {
    if LexLess(a, b) && LexLess(b, c) {
      LexTransitive(a, b, c);
    }
    hide LexLess, IsIndex;
  }

  // ----- objects

  function Insert(order: Order, key: Text, value: Json, members: Members): Members {
    match members
    case NoMembers => Member(key, value, NoMembers)
    case Member(k, v, others) =>
      if Precedes(order, key, k) then Member(key, value, members) else Member(k, v, Insert(order, key, value, others))
  }

  function Sort(order: Order, members: Members): Members {
    match members
    case NoMembers => NoMembers
    case Member(key, value, others) => Insert(order, key, value, Sort(order, others))
  }

  function Without(members: Members, key: Text): Members {
    match members
    case NoMembers => NoMembers
    case Member(k, v, others) => if k == key then Without(others, key) else Member(k, v, Without(others, key))
  }

  function Concat(a: Members, b: Members): Members {
    match a
    case NoMembers => b
    case Member(k, v, others) => Member(k, v, Concat(others, b))
  }

  ghost function Find(members: Members, key: Text): Json
    requires HasKey(members, key)
  {
    if members.key == key then members.value else Find(members.others, key)
  }

  ghost predicate Sorted(order: Order, members: Members) {
    members.Member? && members.others.Member? ==>
        Precedes(order, members.key, members.others.key) && Sorted(order, members.others)
  }

  const PROTO: Text := [95, 95, 112, 114, 111, 116, 111, 95, 95]

  /** What the replacer makes of an object: a fresh one, which an assignment to `__proto__` gives no property. */
  function Replaced(members: Members): Members {
    Sort(Properties, Without(members, PROTO))
  }

  lemma {:induction false} HeadPrecedes(order: Order, members: Members, key: Text)
    requires members.Member? && Sorted(order, members) && HasKey(members.others, key)
    ensures Precedes(order, members.key, key)
  {
    if members.others.key != key {
      HeadPrecedes(order, members.others, key);
      OrderTransitive(order, members.key, members.others.key, key);
    }
  }

  lemma {:induction false} InsertKeys(order: Order, key: Text, value: Json, members: Members, k: Text)
    requires !HasKey(members, key)
    ensures HasKey(Insert(order, key, value, members), k) <==> k == key || HasKey(members, k)
    ensures k == key ==> Find(Insert(order, key, value, members), k) == value
    ensures HasKey(members, k) ==> Find(Insert(order, key, value, members), k) == Find(members, k)
  {
    if members.Member? {
      InsertKeys(order, key, value, members.others, k);
      hide Precedes;
    }
  }

  lemma {:induction false} InsertSorted(order: Order, key: Text, value: Json, members: Members)
    requires Sorted(order, members) && !HasKey(members, key)
    ensures Sorted(order, Insert(order, key, value, members))
  {
    if members.Member? {
      InsertSorted(order, key, value, members.others);
      OrderTotal(order, key, members.key);
      hide Precedes;
    }
  }

  lemma {:induction false} SortKeys(order: Order, members: Members, k: Text)
    requires ValidMembers(members)
    ensures HasKey(Sort(order, members), k) <==> HasKey(members, k)
    ensures HasKey(members, k) ==> Find(Sort(order, members), k) == Find(members, k)
  {
    if members.Member? {
      SortKeys(order, members.others, k);
      SortKeys(order, members.others, members.key);
      InsertKeys(order, members.key, members.value, Sort(order, members.others), k);
    }
  }

  lemma {:induction false} SortSorted(order: Order, members: Members)
    requires ValidMembers(members)
    ensures Sorted(order, Sort(order, members))
  {
    if members.Member? {
      SortSorted(order, members.others);
      SortKeys(order, members.others, members.key);
      InsertSorted(order, members.key, members.value, Sort(order, members.others));
    }
  }

  /** The same keys with the same values. */
  ghost predicate SameMembers(a: Members, b: Members) {
    forall k :: (HasKey(a, k) <==> HasKey(b, k)) && (HasKey(a, k) ==> Find(a, k) == Find(b, k))
  }

  /** One order, the same members: one list. */
  lemma {:induction false} SortedUnique(order: Order, a: Members, b: Members)
    requires Sorted(order, a) && Sorted(order, b) && SameMembers(a, b)
    ensures a == b
  {
    if a.NoMembers? {
      assert b.Member? ==> HasKey(b, b.key);
    } else {
      assert HasKey(a, a.key);
      assert HasKey(b, b.key);
      if a.key != b.key {
        HeadPrecedes(order, b, a.key);
        HeadPrecedes(order, a, b.key);
        OrderTotal(order, a.key, b.key);
      } else {
        SameTails(order, a, b);
        SortedUnique(order, a.others, b.others);
      }
    }
  }

  lemma SameTails(order: Order, a: Members, b: Members)
    requires a.Member? && b.Member? && a.key == b.key && Sorted(order, a) && Sorted(order, b) && SameMembers(a, b)
    ensures SameMembers(a.others, b.others) && a.value == b.value
  {
    assert HasKey(a, a.key) && Find(a, a.key) == Find(b, a.key);
    OrderTotal(order, a.key, a.key);
    if HasKey(a.others, a.key) {
      HeadPrecedes(order, a, a.key);
    }
    if HasKey(b.others, a.key) {
      HeadPrecedes(order, b, a.key);
    }
    hide Precedes;
    forall k
      ensures (HasKey(a.others, k) <==> HasKey(b.others, k)) &&
              (HasKey(a.others, k) ==> Find(a.others, k) == Find(b.others, k))
    {
      assert HasKey(a, k) <==> HasKey(b, k);
    }
  }

  lemma {:induction false} WithoutKeys(members: Members, key: Text, k: Text)
    ensures HasKey(Without(members, key), k) <==> k != key && HasKey(members, k)
    ensures k != key && HasKey(members, k) ==> Find(Without(members, key), k) == Find(members, k)
  {
    if members.Member? {
      WithoutKeys(members.others, key, k);
    }
  }

  lemma {:induction false} WithoutValid(members: Members, key: Text)
    requires ValidMembers(members)
    ensures ValidMembers(Without(members, key))
  {
    if members.Member? {
      WithoutValid(members.others, key);
      WithoutKeys(members.others, key, members.key);
    }
  }

  // ----- the replacer's loop, on an object as the language keeps it

  /** An object's own properties: number keys by value, other keys by the time they came. */
  datatype Object = Object(indices: Members, names: Members)

  function OwnProperties(o: Object): Members {
    Concat(o.indices, o.names)
  }

  /** Assignment of a key the object does not have; `__proto__` sets the prototype instead. */
  function Assign(o: Object, key: Text, value: Json): Object {
    if key == PROTO then o
    else if IsIndex(key) then o.(indices := Insert(Properties, key, value, o.indices))
    else o.(names := Concat(o.names, Member(key, value, NoMembers)))
  }

  lemma {:induction false} ConcatKeys(a: Members, b: Members, k: Text)
    ensures HasKey(Concat(a, b), k) <==> HasKey(a, k) || HasKey(b, k)
    ensures HasKey(a, k) ==> Find(Concat(a, b), k) == Find(a, k)
    ensures !HasKey(a, k) && HasKey(b, k) ==> Find(Concat(a, b), k) == Find(b, k)
  {
    if a.Member? {
      ConcatKeys(a.others, b, k);
    }
  }

  lemma {:induction false} ConcatSorted(order: Order, a: Members, b: Members)
    requires Sorted(order, a) && Sorted(order, b)
    requires b.Member? ==> forall k :: HasKey(a, k) ==> Precedes(order, k, b.key)
    ensures Sorted(order, Concat(a, b))
  {
    if a.Member? {
      assert HasKey(a, a.key);
      assert forall k :: HasKey(a.others, k) ==> HasKey(a, k);
      ConcatSorted(order, a.others, b);
      hide Precedes;
    }
  }

  /** Where the loop is: what was assigned comes from `done`, in property order, and before all that is left. */
  ghost predicate Filling(o: Object, all: Members, left: Members) {
    && Sorted(Properties, o.indices) && Sorted(Properties, o.names) && Sorted(Lexical, left)
    && (forall k :: HasKey(o.indices, k) ==> IsIndex(k) && k != PROTO)
    && (forall k :: HasKey(o.names, k) ==> !IsIndex(k) && k != PROTO)
    && (forall k, l :: HasKey(o.names, k) && HasKey(left, l) ==> LexLess(k, l))
    && (forall k :: HasKey(o.indices, k) || HasKey(o.names, k) ==> !HasKey(left, k))
    && (forall k :: HasKey(all, k) && k != PROTO <==>
        HasKey(o.indices, k) || HasKey(o.names, k) || (HasKey(left, k) && k != PROTO))
    && (forall k :: HasKey(o.indices, k) ==> HasKey(all, k) && Find(o.indices, k) == Find(all, k))
    && (forall k :: HasKey(o.names, k) ==> HasKey(all, k) && Find(o.names, k) == Find(all, k))
    && (forall k :: HasKey(left, k) ==> HasKey(all, k) && Find(left, k) == Find(all, k))
  }

  lemma LeftKeys(left: Members, k: Text)
    requires left.Member? && Sorted(Lexical, left)
    ensures HasKey(left, k) <==> k == left.key || HasKey(left.others, k)
    ensures HasKey(left.others, k) ==> LexLess(left.key, k) && k != left.key && Find(left, k) == Find(left.others, k)
  {
    if HasKey(left.others, k) {
      HeadPrecedes(Lexical, left, k);
      LexIrreflexive(k);
    }
  }

  lemma FillIndex(o: Object, all: Members, left: Members)
    requires left.Member? && Filling(o, all, left) && IsIndex(left.key) && left.key != PROTO
    ensures Filling(Assign(o, left.key, left.value), all, left.others)
  {
    assert HasKey(left, left.key) && Find(left, left.key) == left.value;
    forall k
      ensures HasKey(Insert(Properties, left.key, left.value, o.indices), k) <==> k == left.key || HasKey(o.indices, k)
      ensures HasKey(o.indices, k) ==>
              Find(Insert(Properties, left.key, left.value, o.indices), k) == Find(o.indices, k)
      ensures k == left.key ==> Find(Insert(Properties, left.key, left.value, o.indices), k) == left.value
    {
      InsertKeys(Properties, left.key, left.value, o.indices, k);
    }
    forall k
      ensures HasKey(left, k) <==> k == left.key || HasKey(left.others, k)
      ensures HasKey(left.others, k) ==> LexLess(left.key, k) && k != left.key && Find(left, k) == Find(left.others, k)
    {
      LeftKeys(left, k);
    }
    InsertSorted(Properties, left.key, left.value, o.indices);
    hide LexLess, IsIndex, HasKey, Find, Insert, Before;
  }

  lemma AppendSorted(o: Object, left: Members)
    requires left.Member? && Sorted(Properties, o.names) && !IsIndex(left.key)
    requires forall k :: HasKey(o.names, k) ==> !IsIndex(k) && LexLess(k, left.key)
    ensures Sorted(Properties, Concat(o.names, Member(left.key, left.value, NoMembers)))
  {
    ConcatSorted(Properties, o.names, Member(left.key, left.value, NoMembers));
  }

  lemma FillName(o: Object, all: Members, left: Members)
    requires left.Member? && Filling(o, all, left) && !IsIndex(left.key) && left.key != PROTO
    ensures Filling(Assign(o, left.key, left.value), all, left.others)
  {
    assert HasKey(left, left.key) && Find(left, left.key) == left.value;
    var last := Member(left.key, left.value, NoMembers);
    forall k
      ensures HasKey(Concat(o.names, last), k) <==> k == left.key || HasKey(o.names, k)
      ensures HasKey(o.names, k) ==> Find(Concat(o.names, last), k) == Find(o.names, k)
      ensures k == left.key ==> Find(Concat(o.names, last), k) == left.value
    {
      ConcatKeys(o.names, last, k);
    }
    forall k
      ensures HasKey(left, k) <==> k == left.key || HasKey(left.others, k)
      ensures HasKey(left.others, k) ==> LexLess(left.key, k) && k != left.key && Find(left, k) == Find(left.others, k)
    {
      LeftKeys(left, k);
    }
    AppendSorted(o, left);
    hide LexLess, IsIndex, HasKey, Find, Concat, Before;
  }

  lemma FillProto(o: Object, all: Members, left: Members)
    requires left.Member? && Filling(o, all, left) && left.key == PROTO
    ensures Filling(o, all, left.others)
  {
    forall k
      ensures HasKey(left, k) <==> k == left.key || HasKey(left.others, k)
      ensures HasKey(left.others, k) ==> LexLess(left.key, k) && k != left.key && Find(left, k) == Find(left.others, k)
    {
      LeftKeys(left, k);
    }
    hide LexLess, IsIndex, HasKey, Find, Before;
  }

  lemma Filled(o: Object, all: Members)
    requires Filling(o, all, NoMembers) && ValidMembers(all)
    ensures OwnProperties(o) == Replaced(all)
  {
    WithoutValid(all, PROTO);
    SortSorted(Properties, Without(all, PROTO));
    if o.names.Member? {
      assert HasKey(o.names, o.names.key);
    }
    ConcatSorted(Properties, o.indices, o.names);
    forall k
      ensures HasKey(OwnProperties(o), k) <==> HasKey(Replaced(all), k)
      ensures HasKey(OwnProperties(o), k) ==> Find(OwnProperties(o), k) == Find(Replaced(all), k)
    {
      ConcatKeys(o.indices, o.names, k);
      WithoutKeys(all, PROTO, k);
      SortKeys(Properties, Without(all, PROTO), k);
    }
    SortedUnique(Properties, OwnProperties(o), Replaced(all));
  }

  /** The loop over sorted keys: a fresh object lists its keys in property order, whatever order it was filled in. */
  method SortedReplacer(members: Members) returns (sorted: Members)
    requires ValidMembers(members)
    ensures sorted == Replaced(members)
  {
    var left := Sort(Lexical, members);
    var o := Object(NoMembers, NoMembers);
    forall k
      ensures HasKey(left, k) <==> HasKey(members, k)
      ensures HasKey(members, k) ==> Find(left, k) == Find(members, k)
    {
      SortKeys(Lexical, members, k);
    }
    SortSorted(Lexical, members);
    while left.Member?
      invariant Filling(o, members, left)
      decreases left
    {
      hide Filling;
      if left.key == PROTO {
        FillProto(o, members, left);
      } else if IsIndex(left.key) {
        FillIndex(o, members, left);
      } else {
        FillName(o, members, left);
      }
      o := Assign(o, left.key, left.value);
      left := left.others;
    }
    Filled(o, members);
    sorted := OwnProperties(o);
  }

  // ----- the canonical value and its meaning

  /** Every object of the value replaced, from the inside out. */
  function Canonical(j: Json): Json {
    match j
    case Arr(items) => Arr(CanonicalItems(items))
    case Obj(members) => Obj(CanonicalMembers(members))
    case _ => j
  }

  function CanonicalItems(items: Items): Items {
    match items
    case NoItems => NoItems
    case Item(first, others) => Item(Canonical(first), CanonicalItems(others))
  }

  function CanonicalMembers(members: Members): Members {
    match members
    case NoMembers => NoMembers
    case Member(key, value, others) =>
      if key == PROTO then CanonicalMembers(others)
      else Insert(Properties, key, Canonical(value), CanonicalMembers(others))
  }

  function EachCanonical(members: Members): Members {
    match members
    case NoMembers => NoMembers
    case Member(key, value, others) => Member(key, Canonical(value), EachCanonical(others))
  }

  lemma {:induction false} EachInsert(key: Text, value: Json, members: Members)
    ensures EachCanonical(Insert(Properties, key, value, members)) ==
            Insert(Properties, key, Canonical(value), EachCanonical(members))
  {
    if members.Member? {
      EachInsert(key, value, members.others);
      hide Precedes, Canonical;
    }
  }

  /** `stringify` calls the replacer on an object before it descends into the members: the same thing. */
  lemma {:induction false} ReplacedThenDescended(members: Members)
    ensures CanonicalMembers(members) == EachCanonical(Replaced(members))
  {
    if members.Member? {
      ReplacedThenDescended(members.others);
      if members.key != PROTO {
        EachInsert(members.key, members.value, Replaced(members.others));
      }
    }
  }

  /** A value up to the order of keys; the member `__proto__` does not count. */
  datatype Meaning =
    | MNull
    | MBool(value: bool)
    | MNum(literal: Text)
    | MStr(text: Text)
    | MArr(items: seq<Meaning>)
    | MObj(members: map<Text, Meaning>)

  ghost function Mean(j: Json): Meaning {
    match j
    case Null => MNull
    case Bool(value) => MBool(value)
    case Num(literal) => MNum(literal)
    case Str(text) => MStr(text)
    case Arr(items) => MArr(MeanItems(items))
    case Obj(members) => MObj(MeanMembers(members))
  }

  ghost function MeanItems(items: Items): seq<Meaning> {
    match items
    case NoItems => []
    case Item(first, others) => [Mean(first)] + MeanItems(others)
  }

  ghost function MeanMembers(members: Members): map<Text, Meaning> {
    match members
    case NoMembers => map[]
    case Member(key, value, others) =>
      if key == PROTO then MeanMembers(others) else MeanMembers(others)[key := Mean(value)]
  }

  lemma {:induction false} MeanKeys(members: Members, k: Text)
    requires ValidMembers(members)
    ensures k in MeanMembers(members) <==> k != PROTO && HasKey(members, k)
    ensures k != PROTO && HasKey(members, k) ==> MeanMembers(members)[k] == Mean(Find(members, k))
  {
    if members.Member? {
      MeanKeys(members.others, k);
    }
  }

  lemma {:induction false} CanonicalKeys(members: Members, k: Text)
    requires ValidMembers(members)
    ensures HasKey(CanonicalMembers(members), k) <==> k != PROTO && HasKey(members, k)
    ensures k != PROTO && HasKey(members, k) ==> Find(CanonicalMembers(members), k) == Canonical(Find(members, k))
  {
    if members.Member? {
      CanonicalKeys(members.others, k);
      CanonicalKeys(members.others, members.key);
      if members.key != PROTO {
        InsertKeys(Properties, members.key, Canonical(members.value), CanonicalMembers(members.others), k);
      }
      hide Canonical, Insert;
    }
  }

  lemma {:induction false} CanonicalSorted(members: Members)
    requires ValidMembers(members)
    ensures Sorted(Properties, CanonicalMembers(members))
  {
    if members.Member? {
      CanonicalSorted(members.others);
      CanonicalKeys(members.others, members.key);
      if members.key != PROTO {
        InsertSorted(Properties, members.key, Canonical(members.value), CanonicalMembers(members.others));
      }
      hide Canonical, Insert;
    }
  }

  lemma {:induction false} InsertValid(key: Text, value: Json, members: Members)
    requires Valid(value) && ValidMembers(members) && !HasKey(members, key)
    ensures ValidMembers(Insert(Properties, key, value, members))
  {
    if members.Member? {
      InsertValid(key, value, members.others);
      InsertKeys(Properties, key, value, members.others, members.key);
      hide Precedes;
    }
  }

  lemma {:induction false} CanonicalValid(j: Json)
    requires Valid(j)
    ensures Valid(Canonical(j))
  {
    match j
    case Arr(items) => CanonicalItemsValid(items);
    case Obj(members) => CanonicalMembersValid(members);
    case _ =>
  }

  lemma {:induction false} CanonicalItemsValid(items: Items)
    requires ValidItems(items)
    ensures ValidItems(CanonicalItems(items))
  {
    if items.Item? {
      CanonicalValid(items.first);
      CanonicalItemsValid(items.others);
    }
  }

  lemma {:induction false} CanonicalMembersValid(members: Members)
    requires ValidMembers(members)
    ensures ValidMembers(CanonicalMembers(members))
  {
    if members.Member? {
      CanonicalValid(members.value);
      CanonicalMembersValid(members.others);
      CanonicalKeys(members.others, members.key);
      if members.key != PROTO {
        InsertValid(members.key, Canonical(members.value), CanonicalMembers(members.others));
      }
    }
  }

  lemma {:induction false} InsertMeans(key: Text, value: Json, members: Members)
    requires !HasKey(members, key) && key != PROTO
    ensures MeanMembers(Insert(Properties, key, value, members)) == MeanMembers(members)[key := Mean(value)]
  {
    if members.Member? {
      InsertMeans(key, value, members.others);
      hide Precedes, Mean;
    }
  }

  /** Canonicalizing keeps the meaning. */
  lemma {:induction false} CanonicalMeans(j: Json)
    requires Valid(j)
    ensures Mean(Canonical(j)) == Mean(j)
  {
    match j
    case Arr(items) => CanonicalItemsMean(items);
    case Obj(members) => CanonicalMembersMean(members);
    case _ =>
  }

  lemma {:induction false} CanonicalItemsMean(items: Items)
    requires ValidItems(items)
    ensures MeanItems(CanonicalItems(items)) == MeanItems(items)
  {
    if items.Item? {
      CanonicalMeans(items.first);
      CanonicalItemsMean(items.others);
    }
  }

  lemma {:induction false} CanonicalMembersMean(members: Members)
    requires ValidMembers(members)
    ensures MeanMembers(CanonicalMembers(members)) == MeanMembers(members)
  {
    if members.Member? {
      CanonicalMeans(members.value);
      CanonicalMembersMean(members.others);
      CanonicalKeys(members.others, members.key);
      if members.key != PROTO {
        InsertMeans(members.key, Canonical(members.value), CanonicalMembers(members.others));
      }
    }
  }

  /** The meaning fixes the canonical value. */
  lemma {:induction false} MeaningFixesCanonical(a: Json, b: Json)
    requires Valid(a) && Valid(b) && Mean(a) == Mean(b)
    ensures Canonical(a) == Canonical(b)
  {
    match a
    case Arr(items) => MeaningFixesItems(items, b.items);
    case Obj(members) => MeaningFixesObject(members, b.members);
    case _ =>
  }

  lemma {:induction false} MeaningFixesItems(a: Items, b: Items)
    requires ValidItems(a) && ValidItems(b) && MeanItems(a) == MeanItems(b)
    ensures CanonicalItems(a) == CanonicalItems(b)
  {
    if a.Item? {
      assert MeanItems(a)[0] == MeanItems(b)[0] && MeanItems(a)[1..] == MeanItems(b)[1..];
      MeaningFixesCanonical(a.first, b.first);
      MeaningFixesItems(a.others, b.others);
    }
  }

  lemma {:induction false} MeaningFixesValues(a: Members, b: Members, k: Text)
    requires ValidMembers(a) && ValidMembers(b) && k != PROTO && HasKey(a, k) && HasKey(b, k) &&
             Mean(Find(a, k)) == Mean(Find(b, k))
    ensures Canonical(Find(a, k)) == Canonical(Find(b, k))
    decreases a, 0
  {
    if a.key == k {
      FoundIsValid(b, k);
      MeaningFixesCanonical(a.value, Find(b, k));
    } else {
      MeaningFixesValues(a.others, b, k);
    }
  }

  lemma {:induction false} FoundIsValid(members: Members, k: Text)
    requires ValidMembers(members) && HasKey(members, k)
    ensures Valid(Find(members, k))
  {
    if members.key != k {
      FoundIsValid(members.others, k);
    }
  }

  lemma {:induction false} MeaningFixesObject(a: Members, b: Members)
    requires ValidMembers(a) && ValidMembers(b) && MeanMembers(a) == MeanMembers(b)
    ensures CanonicalMembers(a) == CanonicalMembers(b)
    decreases a, 1
  {
    forall k
      ensures HasKey(CanonicalMembers(a), k) <==> HasKey(CanonicalMembers(b), k)
      ensures HasKey(CanonicalMembers(a), k) ==> Find(CanonicalMembers(a), k) == Find(CanonicalMembers(b), k)
    {
      MeanKeys(a, k);
      MeanKeys(b, k);
      CanonicalKeys(a, k);
      CanonicalKeys(b, k);
      if k != PROTO && HasKey(a, k) {
        MeaningFixesValues(a, b, k);
      }
    }
    CanonicalSorted(a);
    CanonicalSorted(b);
    SortedUnique(Properties, CanonicalMembers(a), CanonicalMembers(b));
  }

  /** The text signed for a value. */
  function CanonicalText(j: Json): Text {
    Write(Canonical(j), [])
  }

  /**
   Two values have the same canonical text exactly when they are the same up to the order of keys at every level,
   the order of arrays kept and members named `__proto__` ignored.
   */
  lemma CanonicalTextDecidesMeaning(a: Json, b: Json)
    requires Valid(a) && Valid(b)
    ensures CanonicalText(a) == CanonicalText(b) <==> Mean(a) == Mean(b)
  {
    if Mean(a) == Mean(b) {
      MeaningFixesCanonical(a, b);
    }
    if CanonicalText(a) == CanonicalText(b) {
      CanonicalValid(a);
      CanonicalValid(b);
      WriteInjective(Canonical(a), [], Canonical(b), []);
      CanonicalMeans(a);
      CanonicalMeans(b);
    }
  }

  /** A member named `__proto__` is not covered by the text: it can be anything, or absent. */
  lemma ProtoIsNotSigned(value: Json, others: Members)
    ensures CanonicalText(Obj(Member(PROTO, value, others))) == CanonicalText(Obj(others))
  {
    assert CanonicalMembers(Member(PROTO, value, others)) == CanonicalMembers(others);
    hide PROTO, Write, CanonicalMembers;
  }
}
