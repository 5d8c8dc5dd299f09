/** ORDER BY … LIMIT: the first rows of a table by some key. */
module Selection {
  import opened Wrappers

  lemma OldestExists(ages: map<string, int>, keys: set<string>)
    requires keys != {} && keys <= ages.Keys
    ensures exists key :: key in keys && forall other :: other in keys ==> ages[key] <= ages[other]
  {
    var any :| any in keys;
    var rest := keys - {any};
    if rest == {} {
      assert keys == {any};
      assert any in keys && forall other :: other in keys ==> ages[any] <= ages[other];
    } else {
      OldestExists(ages, rest);
      var key :| key in rest && forall other :: other in rest ==> ages[key] <= ages[other];
      var best := if ages[any] < ages[key] then any else key;
      assert best in keys && forall other :: other in keys ==> ages[best] <= ages[other];
    }
  }

  /** Different candidates, the oldest first, and no younger one before an older. */
  ghost predicate Selected(ages: map<string, int>, candidates: set<string>, keys: seq<string>)
    requires candidates <= ages.Keys
  {
    && (forall i :: 0 <= i < |keys| ==> keys[i] in candidates)
    && (forall i, j :: 0 <= i < j < |keys| ==> keys[i] != keys[j] && ages[keys[i]] <= ages[keys[j]])
    && (forall i, key :: 0 <= i < |keys| && key in candidates && key !in keys ==> ages[keys[i]] <= ages[key])
  }

  /** As many candidates as the limit allows, the oldest first. */
  method SelectOldest(ages: map<string, int>, candidates: set<string>, limit: nat) returns (keys: seq<string>)
    requires candidates <= ages.Keys
    ensures |keys| == Min(limit, |candidates|)
    ensures Selected(ages, candidates, keys)
  {
    keys := [];
    var waiting := candidates;
    while waiting != {} && |keys| < limit
      invariant |keys| <= limit && waiting <= candidates && |keys| + |waiting| == |candidates|
      invariant forall key :: key in candidates <==> key in waiting || key in keys
      invariant forall key :: key in keys ==> key !in waiting
      invariant Selected(ages, candidates, keys)
      decreases |waiting|
    {
      OldestExists(ages, waiting);
      var key :| key in waiting && forall other :: other in waiting ==> ages[key] <= ages[other];
      keys := keys + [key];
      waiting := waiting - {key};
    }
  }
}
