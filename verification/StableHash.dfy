/**
 stableStringify: JSON with the keys of every object in order.

 A finite number is modelled by the text that Number::toString gives it, which is its own for
 every number but -0, whose text is that of 0 (ECMA-262 section 6.1.6.1.20).  An object is the list
 of its members in the order of its properties.
 */
module StableHash {
  import opened JsonText

  datatype Json =
    | Null
    | Bool(value: bool)
    | Number(text: Text)
    | NotFinite
    | Str(s: Text)
    | Arr(items: seq<Json>)
    | Obj(members: seq<Member>)

  datatype Member = Member(key: Text, value: Json)

  const NULL: Text := [0x6E, 0x75, 0x6C, 0x6C]
  const TRUE: Text := [0x74, 0x72, 0x75, 0x65]
  const FALSE: Text := [0x66, 0x61, 0x6C, 0x73, 0x65]
  const COMMA: CodeUnit := 0x2C
  const COLON: CodeUnit := 0x3A
  const OPEN_BRACKET: CodeUnit := 0x5B
  const CLOSE_BRACKET: CodeUnit := 0x5D
  const OPEN_BRACE: CodeUnit := 0x7B
  const CLOSE_BRACE: CodeUnit := 0x7D

  // --- Keys in order ---------------------------------------------------------------------

  /** The default order of Array.prototype.sort on strings: by UTF-16 code units. */
  predicate Less(a: Text, b: Text) {
    b != [] && (a == [] || a[0] < b[0] || (a[0] == b[0] && Less(a[1..], b[1..])))
  }

  lemma {:induction false} LessIsTotal(a: Text, b: Text)
    ensures a == b || Less(a, b) || Less(b, a)
    ensures !(Less(a, b) && Less(b, a)) && !Less(a, a)
  {
    if a != [] {
      LessIsTotal(a[1..], a[1..]);
    }
    if a != [] && b != [] {
      LessIsTotal(a[1..], b[1..]);
      if a[0] == b[0] && a[1..] == b[1..] {
        assert a == [a[0]] + a[1..] && b == [b[0]] + b[1..];
      }
    }
  }

  lemma {:induction false} LessIsTransitive(a: Text, b: Text, c: Text)
    requires Less(a, b) && Less(b, c)
    ensures Less(a, c)
  {
    if a != [] && b != [] && a[0] == b[0] && b[0] == c[0] {
      LessIsTransitive(a[1..], b[1..], c[1..]);
    }
  }

  ghost predicate Ascending(keys: seq<Text>) {
    forall i, j :: 0 <= i < j < |keys| ==> Less(keys[i], keys[j])
  }

  predicate Distinct(keys: seq<Text>) {
    forall i, j :: 0 <= i < j < |keys| ==> keys[i] != keys[j]
  }

  function InsertKey(key: Text, sorted: seq<Text>): (r: seq<Text>)
    ensures |r| == |sorted| + 1
    ensures forall k :: k in r <==> k == key || k in sorted
  {
    if sorted == [] || Less(key, sorted[0]) then [key] + sorted else [sorted[0]] + InsertKey(key, sorted[1..])
  }

  /** Object.keys(value).sort() */
  function SortKeys(keys: seq<Text>): (r: seq<Text>)
    ensures |r| == |keys|
    ensures forall k :: k in r <==> k in keys
  {
    if keys == [] then [] else InsertKey(keys[0], SortKeys(keys[1..]))
  }

  lemma {:induction false} InsertingKeepsOrder(key: Text, sorted: seq<Text>)
    requires Ascending(sorted) && key !in sorted
    ensures Ascending(InsertKey(key, sorted))
  {
    if sorted == [] {
    } else if Less(key, sorted[0]) {
      forall j | 0 <= j < |sorted|
        ensures Less(key, sorted[j])
      {
        if j > 0 {
          LessIsTransitive(key, sorted[0], sorted[j]);
        }
      }
    } else {
      LessIsTotal(key, sorted[0]);
      InsertingKeepsOrder(key, sorted[1..]);
      var r := InsertKey(key, sorted[1..]);
      forall j | 0 <= j < |r|
        ensures Less(sorted[0], r[j])
      {
        assert r[j] in r;
      }
    }
  }

  lemma {:induction false} SortedKeysAscend(keys: seq<Text>)
    requires Distinct(keys)
    ensures Ascending(SortKeys(keys))
  {
    if keys != [] {
      SortedKeysAscend(keys[1..]);
      InsertingKeepsOrder(keys[0], SortKeys(keys[1..]));
    }
  }

  lemma NeitherIsEmpty(a: seq<Text>, b: seq<Text>)
    requires (forall k :: k in a <==> k in b) && (a != [] || b != [])
    ensures a != [] && b != []
  {
    if a != [] {
      assert a[0] in a;
    }
    if b != [] {
      assert b[0] in b;
    }
  }

  /** There is one way to put keys in order. */
  lemma {:induction false} AscendingIsUnique(a: seq<Text>, b: seq<Text>)
    requires Ascending(a) && Ascending(b) && forall k :: k in a <==> k in b
    ensures a == b
  {
    if a != [] || b != [] {
      NeitherIsEmpty(a, b);
      assert a[0] in b && b[0] in a;
      FirstIsLeast(a, b[0]);
      FirstIsLeast(b, a[0]);
      LessIsTotal(a[0], b[0]);
      assert a == [a[0]] + a[1..] && b == [b[0]] + b[1..];
      forall k
        ensures k in a[1..] <==> k in b[1..]
      {
        LessIsTotal(a[0], a[0]);
        assert k in a[1..] ==> k in a && k != a[0];
        assert k in b[1..] ==> k in b && k != b[0];
      }
      AscendingIsUnique(a[1..], b[1..]);
    }
  }

  lemma FirstIsLeast(a: seq<Text>, k: Text)
    requires Ascending(a) && k in a
    ensures k == a[0] || Less(a[0], k)
  {
  }

  // --- Objects ---------------------------------------------------------------------------

  function Keys(members: seq<Member>): (keys: seq<Text>)
    ensures |keys| == |members|
    ensures forall i :: 0 <= i < |members| ==> keys[i] == members[i].key
  {
    seq(|members|, i requires 0 <= i < |members| => members[i].key)
  }

  /** The value of a key of the object. */
  function Lookup(members: seq<Member>, key: Text): (value: Json)
    requires key in Keys(members)
    ensures Member(key, value) in members
  {
    if members[0].key == key then members[0].value
    else
      assert members == [members[0]] + members[1..];
      Lookup(members[1..], key)
  }

  // --- stableStringify -------------------------------------------------------------------

  function Stringify(v: Json): Text
    decreases v, 1, 0
  {
    match v
    case Null => NULL
    case Bool(b) => if b then TRUE else FALSE
    case Number(text) => text
    case NotFinite => NULL
    case Str(s) => PrintString(s)
    case Arr(items) => [OPEN_BRACKET] + StringifyItems(v, 0) + [CLOSE_BRACKET]
    case Obj(members) => [OPEN_BRACE] + StringifyMembers(v, SortKeys(Keys(members))) + [CLOSE_BRACE]
  }

  /** The items from an index on, joined with commas. */
  function StringifyItems(v: Json, from: nat): Text
    requires v.Arr? && from <= |v.items|
    decreases v, 0, |v.items| - from
  {
    if from == |v.items| then []
    else if from == |v.items| - 1 then Stringify(v.items[from])
    else Stringify(v.items[from]) + [COMMA] + StringifyItems(v, from + 1)
  }

  /** The members of the keys in turn, joined with commas. */
  function StringifyMembers(v: Json, keys: seq<Text>): Text
    requires v.Obj? && forall k :: k in keys ==> k in Keys(v.members)
    decreases v, 0, |keys|
  {
    if keys == [] then []
    else
      var member := PrintString(keys[0]) + [COLON] + Stringify(Lookup(v.members, keys[0]));
      if |keys| == 1 then member else member + [COMMA] + StringifyMembers(v, keys[1..])
  }

  // --- Values that count as the same -----------------------------------------------------

  predicate IsNumberUnit(c: CodeUnit) {
    0x30 <= c < 0x3A || c == 0x2B || c == 0x2D || c == 0x2E || c == 0x65
  }

  /** What Number::toString gives of a finite number: digits, signs, a point and an exponent. */
  predicate IsNumberText(t: Text) {
    t != [] && (t[0] == 0x2D || 0x30 <= t[0] < 0x3A) && forall i :: 0 <= i < |t| ==> IsNumberUnit(t[i])
  }

  /** Values as they occur: the keys of an object are distinct. */
  ghost predicate IsValue(v: Json) {
    match v
    case Number(text) => IsNumberText(text)
    case Arr(items) => forall i :: 0 <= i < |items| ==> IsValue(items[i])
    case Obj(members) =>
      Distinct(Keys(members)) && forall i :: 0 <= i < |members| ==> IsValue(members[i].value)
    case _ => true
  }

  /** Equal up to the order of keys, where NaN and the infinities count as null, which they are printed as. */
  ghost predicate Same(a: Json, b: Json)
    decreases a
  {
    match a
    case Null => b.Null? || b.NotFinite?
    case NotFinite => b.Null? || b.NotFinite?
    case Bool(x) => b == a
    case Number(t) => b == a
    case Str(s) => b == a
    case Arr(items) =>
      b.Arr? && |b.items| == |items| && forall i :: 0 <= i < |items| ==> Same(items[i], b.items[i])
    case Obj(members) =>
      && b.Obj?
      && (forall key :: key in Keys(members) <==> key in Keys(b.members))
      && forall i :: 0 <= i < |members| ==>
           members[i].key in Keys(b.members) && Same(members[i].value, Lookup(b.members, members[i].key))
  }
}
