/**
 stableStringify is canonical and injective: equal texts are the texts of values that are equal up
 to the order of keys.
 */
module CanonicalJson {
  import opened JsonText
  import opened StableHash
  import opened JsonParser

  lemma SortedKeysAreCanonical(a: seq<Text>, b: seq<Text>)
    requires Distinct(a) && Distinct(b)
    ensures SortKeys(a) == SortKeys(b) <==> forall k :: k in a <==> k in b
  {
    SortedKeysAscend(a);
    SortedKeysAscend(b);
    if forall k :: k in a <==> k in b {
      AscendingIsUnique(SortKeys(a), SortKeys(b));
    } else {
      var k :| k in a <==> k !in b;
      assert k in SortKeys(a) <==> k !in SortKeys(b);
    }
  }

  lemma LookupAt(members: seq<Member>, i: nat)
    requires i < |members| && Distinct(Keys(members))
    ensures members[i].key in Keys(members) && Lookup(members, members[i].key) == members[i].value
  {
  }

  lemma ItemsCanon(a: Json, b: Json)
    requires a.Arr? && b.Arr?
    ensures Canon(a) == Canon(b) <==>
              |a.items| == |b.items| && forall i :: 0 <= i < |a.items| ==> Canon(a.items[i]) == Canon(b.items[i])
  {
    var one, two := CanonItems(a, 0), CanonItems(b, 0);
    if one == two {
      forall i | 0 <= i < |a.items|
        ensures Canon(a.items[i]) == Canon(b.items[i])
      {
        assert one[i] == two[i];
      }
    }
  }

  /** The key has one canonical value in both objects. */
  ghost predicate SameCanonAt(a: Json, b: Json, key: Text)
    requires a.Obj? && b.Obj? && key in Keys(a.members)
  {
    key in Keys(b.members) && Canon(Lookup(a.members, key)) == Canon(Lookup(b.members, key))
  }

  ghost predicate SameKeys(a: Json, b: Json)
    requires a.Obj? && b.Obj?
  {
    forall key :: key in Keys(a.members) <==> key in Keys(b.members)
  }

  lemma {:induction false} MembersCanonByKey(a: Json, b: Json)
    requires a.Obj? && b.Obj? && IsValue(a) && IsValue(b) && SameKeys(a, b)
    ensures Canon(a) == Canon(b) <==> forall key :: key in Keys(a.members) ==> SameCanonAt(a, b, key)
  {
    SortedKeysAreCanonical(Keys(a.members), Keys(b.members));
    var keys := SortKeys(Keys(a.members));
    var one, two := CanonMembers(a, keys), CanonMembers(b, keys);
    if one == two {
      forall key | key in Keys(a.members)
        ensures SameCanonAt(a, b, key)
      {
        var i :| 0 <= i < |keys| && keys[i] == key;
        assert one[i] == two[i];
      }
    }
    if forall key :: key in Keys(a.members) ==> SameCanonAt(a, b, key) {
      forall i | 0 <= i < |keys|
        ensures one[i] == two[i]
      {
        assert keys[i] in keys && SameCanonAt(a, b, keys[i]);
      }
    }
  }

  lemma CanonKeys(a: Json, b: Json)
    requires a.Obj? && b.Obj? && IsValue(a) && IsValue(b) && Canon(a) == Canon(b)
    ensures SameKeys(a, b)
  {
  }

  /** Member by member, in the order of the first object's properties. */
  ghost predicate SameCanonByIndex(a: Json, b: Json)
    requires a.Obj? && b.Obj?
  {
    forall i :: 0 <= i < |a.members| ==>
      && a.members[i].key in Keys(b.members)
      && Canon(a.members[i].value) == Canon(Lookup(b.members, a.members[i].key))
  }

  lemma ByKeyIsByIndex(a: Json, b: Json)
    requires a.Obj? && b.Obj? && IsValue(a)
    ensures (forall key :: key in Keys(a.members) ==> SameCanonAt(a, b, key)) <==> SameCanonByIndex(a, b)
  {
    forall i | 0 <= i < |a.members|
      ensures a.members[i].key in Keys(a.members)
      ensures Lookup(a.members, a.members[i].key) == a.members[i].value
    {
      LookupAt(a.members, i);
    }
    if SameCanonByIndex(a, b) {
      forall key | key in Keys(a.members)
        ensures SameCanonAt(a, b, key)
      {
        var i :| 0 <= i < |Keys(a.members)| && Keys(a.members)[i] == key;
        assert a.members[i].key == key;
      }
    }
    if forall key :: key in Keys(a.members) ==> SameCanonAt(a, b, key) {
      forall i | 0 <= i < |a.members|
        ensures a.members[i].key in Keys(b.members)
        ensures Canon(a.members[i].value) == Canon(Lookup(b.members, a.members[i].key))
      {
        assert SameCanonAt(a, b, a.members[i].key);
      }
    }
  }

  lemma MembersCanon(a: Json, b: Json)
    requires a.Obj? && b.Obj? && IsValue(a) && IsValue(b)
    ensures Canon(a) == Canon(b) <==> SameKeys(a, b) && SameCanonByIndex(a, b)
  {
    ByKeyIsByIndex(a, b);
    if Canon(a) == Canon(b) {
      CanonKeys(a, b);
    }
    if SameKeys(a, b) {
      MembersCanonByKey(a, b);
    }
  }

  /** Canonical forms are those of the values that count as the same. */
  lemma {:induction false} SameHaveOneCanon(a: Json, b: Json)
    requires IsValue(a) && IsValue(b)
    ensures Same(a, b) <==> Canon(a) == Canon(b)
    decreases a
  {
    if a.Arr? && b.Arr? {
      forall i | 0 <= i < |a.items| && i < |b.items|
        ensures Same(a.items[i], b.items[i]) <==> Canon(a.items[i]) == Canon(b.items[i])
      {
        SameHaveOneCanon(a.items[i], b.items[i]);
      }
      ItemsCanon(a, b);
    } else if a.Obj? && b.Obj? {
      forall i | 0 <= i < |a.members| && a.members[i].key in Keys(b.members)
        ensures Same(a.members[i].value, Lookup(b.members, a.members[i].key))
                <==> Canon(a.members[i].value) == Canon(Lookup(b.members, a.members[i].key))
      {
        SameHaveOneCanon(a.members[i].value, Lookup(b.members, a.members[i].key));
      }
      MembersCanon(a, b);
    }
  }

  // --- One text for one canonical form ---------------------------------------------------

  lemma {:induction false} TextOfCanon(a: Json, b: Json)
    requires IsValue(a) && IsValue(b) && Canon(a) == Canon(b)
    ensures Stringify(a) == Stringify(b)
    decreases a, 1, 0
  {
    if a.Arr? {
      TextOfItems(a, b, 0);
    } else if a.Obj? {
      CanonKeys(a, b);
      SortedKeysAreCanonical(Keys(a.members), Keys(b.members));
      MembersCanonByKey(a, b);
      TextOfMembers(a, b, SortKeys(Keys(a.members)));
    }
  }

  lemma {:induction false} TextOfItems(a: Json, b: Json, from: nat)
    requires a.Arr? && b.Arr? && IsValue(a) && IsValue(b) && Canon(a) == Canon(b) && from <= |a.items|
    ensures |a.items| == |b.items| && StringifyItems(a, from) == StringifyItems(b, from)
    decreases a, 0, |a.items| - from
  {
    ItemsCanon(a, b);
    if from < |a.items| {
      TextOfCanon(a.items[from], b.items[from]);
      TextOfItems(a, b, from + 1);
    }
  }

  lemma {:induction false} TextOfMembers(a: Json, b: Json, keys: seq<Text>)
    requires a.Obj? && b.Obj? && IsValue(a) && IsValue(b) && SameKeys(a, b)
    requires forall key :: key in Keys(a.members) ==> SameCanonAt(a, b, key)
    requires forall key :: key in keys ==> key in Keys(a.members)
    ensures StringifyMembers(a, keys) == StringifyMembers(b, keys)
    decreases a, 0, |keys|
  {
    if keys != [] {
      assert keys[0] in keys && SameCanonAt(a, b, keys[0]);
      TextOfCanon(Lookup(a.members, keys[0]), Lookup(b.members, keys[0]));
      TextOfMembers(a, b, keys[1..]);
    }
  }

  /**
   Two values are printed alike exactly when they are equal up to the order of keys, with NaN and
   the infinities taken for null.
   */
  lemma StringifyIsCanonicalAndInjective(a: Json, b: Json)
    requires IsValue(a) && IsValue(b)
    ensures Stringify(a) == Stringify(b) <==> Same(a, b)
  {
    SameHaveOneCanon(a, b);
    ParserUndoesStringify(a);
    ParserUndoesStringify(b);
    if Canon(a) == Canon(b) {
      TextOfCanon(a, b);
    }
  }

  /** The keys of an object are printed in ascending order of their code units, each once. */
  lemma KeysArePrintedInOrder(v: Json)
    requires v.Obj? && IsValue(v)
    ensures Ascending(SortKeys(Keys(v.members)))
    ensures Canon(v).Obj? && Ascending(Keys(Canon(v).members))
  {
    SortedKeysAscend(Keys(v.members));
    var keys := SortKeys(Keys(v.members));
    assert Keys(Canon(v).members) == keys;
  }
}
