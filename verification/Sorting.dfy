/** Sets of strings put in byte order. */
module Sorting {
  import opened Text

  ghost predicate Ascending(keys: seq<string>) {
    forall i, j :: 0 <= i < j < |keys| ==> Less(keys[i], keys[j])
  }

  /** The one sequence that lists a set in byte order. */
  ghost predicate IsSorted(sorted: seq<string>, keys: set<string>) {
    Ascending(sorted) && forall key :: key in sorted <==> key in keys
  }

  function Insert(sorted: seq<string>, key: string): seq<string> {
    if sorted == [] || Less(key, sorted[0]) then [key] + sorted
    else [sorted[0]] + Insert(sorted[1..], key)
  }

  lemma {:induction false} InsertKeepsOrder(sorted: seq<string>, key: string)
    requires Ascending(sorted) && key !in sorted
    ensures Ascending(Insert(sorted, key)) && |Insert(sorted, key)| == |sorted| + 1
    ensures forall k :: k in Insert(sorted, key) <==> k in sorted || k == key
  {
    var r := Insert(sorted, key);
    if sorted == [] {
    } else if Less(key, sorted[0]) {
      forall i, j | 0 <= i < j < |r|
        ensures Less(r[i], r[j])
      {
        if i == 0 && j > 1 { LessTrans(key, sorted[0], sorted[j - 1]); }
      }
    } else {
      InsertKeepsOrder(sorted[1..], key);
      LessTotal(sorted[0], key);
      var rest := Insert(sorted[1..], key);
      assert forall k :: k in sorted <==> k == sorted[0] || k in sorted[1..];
      forall j | 0 <= j < |rest|
        ensures Less(sorted[0], rest[j])
      {
        assert rest[j] in rest;
      }
    }
  }

  lemma HasMember(keys: seq<string>)
    ensures keys != [] ==> exists key :: key in keys
  {
    if keys != [] {
      assert keys[0] in keys;
    }
  }

  /** Whatever the order in which keys are collected, sorting gives the same sequence. */
  lemma {:induction false} SortedUnique(a: seq<string>, b: seq<string>, keys: set<string>)
    requires IsSorted(a, keys) && IsSorted(b, keys)
    ensures a == b
    decreases |a|
  {
    if a == [] {
      HasMember(b);
    } else {
      assert a[0] in b && b[0] in a;
      var i :| 0 <= i < |b| && b[i] == a[0];
      var j :| 0 <= j < |a| && a[j] == b[0];
      if i > 0 && j > 0 {
        LessTrans(b[0], a[0], b[0]);
        LessIrreflexive(b[0]);
      }
      assert a[0] == b[0];
      TailSorted(a, keys);
      TailSorted(b, keys);
      SortedUnique(a[1..], b[1..], keys - {a[0]});
    }
  }

  lemma TailSorted(a: seq<string>, keys: set<string>)
    requires IsSorted(a, keys) && a != []
    ensures IsSorted(a[1..], keys - {a[0]})
  {
    LessIrreflexive(a[0]);
    assert forall k :: k in a <==> k == a[0] || k in a[1..];
    forall i | 0 <= i < |a[1..]|
      ensures a[1..][i] != a[0]
    {
      assert Less(a[0], a[i + 1]);
    }
  }

  /** Collect the keys in whatever order they come, and sort them. */
  method SortKeys(keys: set<string>) returns (sorted: seq<string>)
    ensures IsSorted(sorted, keys) && |sorted| == |keys|
  {
    sorted := [];
    var left := keys;
    while left != {}
      invariant left <= keys && IsSorted(sorted, keys - left) && |sorted| + |left| == |keys|
      decreases |left|
    {
      var key :| key in left;
      InsertKeepsOrder(sorted, key);
      sorted := Insert(sorted, key);
      left := left - {key};
    }
  }

  /** Records put in the order of their keys. */
  method SortByKey<R>(byKey: map<string, R>) returns (records: seq<R>, ghost keys: seq<string>)
    ensures IsSorted(keys, byKey.Keys) && |records| == |keys|
    ensures forall i :: 0 <= i < |keys| ==> keys[i] in byKey && records[i] == byKey[keys[i]]
  {
    var sorted := SortKeys(byKey.Keys);
    keys := sorted;
    assert forall i :: 0 <= i < |sorted| ==> sorted[i] in byKey.Keys;
    records := seq(|sorted|, i requires 0 <= i < |sorted| => byKey[sorted[i]]);
  }

  lemma {:induction false} CanBeSorted(keys: set<string>)
    ensures exists sorted :: IsSorted(sorted, keys) && |sorted| == |keys|
    decreases |keys|
  {
    if keys == {} {
      assert IsSorted([], keys);
    } else {
      var key :| key in keys;
      CanBeSorted(keys - {key});
      var rest :| IsSorted(rest, keys - {key}) && |rest| == |keys| - 1;
      InsertKeepsOrder(rest, key);
      assert IsSorted(Insert(rest, key), keys);
    }
  }

  /** The keys of a set in byte order. */
  ghost function Sorted(keys: set<string>): (sorted: seq<string>)
    ensures IsSorted(sorted, keys) && |sorted| == |keys|
  {
    CanBeSorted(keys);
    var sorted :| IsSorted(sorted, keys) && |sorted| == |keys|;
    sorted
  }
}
