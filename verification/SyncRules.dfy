/** What comparing two rule lists means: one is a permutation of the other. */
module SyncRules {
  import opened Text
  import opened SyncProtocol

  lemma {:induction false} InsertKeepsRules(sorted: seq<Rule>, rule: Rule)
    ensures multiset(InsertRule(sorted, rule)) == multiset(sorted) + multiset{rule}
    decreases |sorted|
  {
    if sorted != [] && !Less(rule.objectType, sorted[0].objectType) {
      InsertKeepsRules(sorted[1..], rule);
      assert sorted == [sorted[0]] + sorted[1..];
    }
  }

  lemma {:induction false} SortKeepsRules(rules: seq<Rule>)
    ensures multiset(SortRules(rules)) == multiset(rules)
    decreases |rules|
  {
    if rules != [] {
      var front, last := rules[..|rules| - 1], rules[|rules| - 1];
      SortKeepsRules(front);
      InsertKeepsRules(SortRules(front), last);
      assert rules == front + [last];
    }
  }

  /** The lists have the same rules, each as often. */
  predicate SameContents(left: seq<Rule>, right: seq<Rule>) { multiset(left) == multiset(right) }

  /** Lists that compare as the same are permutations of each other. */
  lemma SameMeansPermuted(left: seq<Rule>, right: seq<Rule>)
    requires SameRules(left, right)
    ensures SameContents(left, right)
  {
    SortKeepsRules(left);
    SortKeepsRules(right);
  }

  // ---- Lists with one rule for each object type ----

  /** No two rules are for the same object type. */
  ghost predicate TypesDiffer(rules: seq<Rule>) {
    forall i, j :: 0 <= i < j < |rules| ==> rules[i].objectType != rules[j].objectType
  }

  ghost predicate TypesAscend(rules: seq<Rule>) {
    forall i, j :: 0 <= i < j < |rules| ==> Less(rules[i].objectType, rules[j].objectType)
  }

  lemma TypesOf(rules: seq<Rule>, rule: Rule)
    requires rule in multiset(rules)
    ensures exists i :: 0 <= i < |rules| && rules[i] == rule
  {}

  lemma {:induction false} InsertAscends(sorted: seq<Rule>, rule: Rule)
    requires TypesAscend(sorted) && forall i :: 0 <= i < |sorted| ==> sorted[i].objectType != rule.objectType
    ensures TypesAscend(InsertRule(sorted, rule))
    decreases |sorted|
  {
    var inserted := InsertRule(sorted, rule);
    if sorted == [] {
    } else if Less(rule.objectType, sorted[0].objectType) {
      forall i, j | 0 <= i < j < |inserted|
        ensures Less(inserted[i].objectType, inserted[j].objectType)
      {
        if i == 0 && j > 1 {
          LessTrans(rule.objectType, sorted[0].objectType, sorted[j - 1].objectType);
        }
      }
    } else {
      LessTotal(rule.objectType, sorted[0].objectType);
      InsertAscends(sorted[1..], rule);
      InsertKeepsRules(sorted[1..], rule);
      forall j | 0 < j < |inserted|
        ensures Less(inserted[0].objectType, inserted[j].objectType)
      {
        assert inserted[j] in multiset(inserted[1..]);
        assert inserted[1..] == InsertRule(sorted[1..], rule);
        if inserted[j] != rule {
          TypesOf(sorted[1..], inserted[j]);
        }
      }
    }
  }

  lemma {:induction false} SortAscends(rules: seq<Rule>)
    requires TypesDiffer(rules)
    ensures TypesAscend(SortRules(rules))
    decreases |rules|
  {
    if rules != [] {
      var front, last := rules[..|rules| - 1], rules[|rules| - 1];
      SortAscends(front);
      SortKeepsRules(front);
      forall i | 0 <= i < |SortRules(front)|
        ensures SortRules(front)[i].objectType != last.objectType
      {
        assert SortRules(front)[i] in multiset(SortRules(front));
        TypesOf(front, SortRules(front)[i]);
      }
      InsertAscends(SortRules(front), last);
    }
  }

  lemma FirstsAgree(a: seq<Rule>, b: seq<Rule>)
    requires TypesAscend(a) && TypesAscend(b) && SameContents(a, b) && a != []
    ensures b != [] && a[0] == b[0]
  {
    assert a[0] in multiset(a);
    TypesOf(b, a[0]);
    assert b[0] in multiset(b);
    TypesOf(a, b[0]);
    LessTotal(a[0].objectType, b[0].objectType);
  }

  lemma {:induction false} AscendingIsUnique(a: seq<Rule>, b: seq<Rule>)
    requires TypesAscend(a) && TypesAscend(b) && SameContents(a, b)
    ensures a == b
    decreases |a|
  {
    if a == [] {
      assert |multiset(b)| == 0;
    } else {
      FirstsAgree(a, b);
      assert a == [a[0]] + a[1..] && b == [b[0]] + b[1..];
      assert multiset(a[1..]) == multiset(a) - multiset{a[0]} && multiset(b[1..]) == multiset(b) - multiset{b[0]};
      AscendingIsUnique(a[1..], b[1..]);
    }
  }

  lemma PermutedTypesDiffer(left: seq<Rule>, right: seq<Rule>)
    requires SameContents(left, right) && TypesDiffer(left)
    ensures TypesDiffer(right)
  {
    forall i, j | 0 <= i < j < |right|
      ensures right[i].objectType != right[j].objectType
    {
      if right[i] == right[j] {
        Twice(right, i, j);
        OnlyOnce(left, right[i]);
      } else {
        assert right[i] in multiset(right) && right[j] in multiset(right);
        TypesOf(left, right[i]);
        TypesOf(left, right[j]);
      }
    }
  }

  lemma Twice(rules: seq<Rule>, i: nat, j: nat)
    requires i < j < |rules| && rules[i] == rules[j]
    ensures multiset(rules)[rules[i]] >= 2
  {
    assert rules == rules[..i] + [rules[i]] + rules[i + 1..j] + [rules[j]] + rules[j + 1..];
  }

  lemma {:induction false} OnlyOnce(rules: seq<Rule>, rule: Rule)
    requires TypesDiffer(rules)
    ensures multiset(rules)[rule] <= 1
    decreases |rules|
  {
    if rules != [] {
      assert rules == [rules[0]] + rules[1..];
      OnlyOnce(rules[1..], rule);
      if rules[0] == rule {
        assert forall k :: 0 <= k < |rules[1..]| ==> rules[1..][k] == rules[k + 1];
        assert rule !in rules[1..];
      }
    }
  }

  /** Where no two rules are for the same type, comparing as the same is being a permutation. */
  lemma SameIffPermuted(left: seq<Rule>, right: seq<Rule>)
    requires TypesDiffer(left)
    ensures SameRules(left, right) <==> SameContents(left, right)
  {
    if SameRules(left, right) {
      SameMeansPermuted(left, right);
    }
    if SameContents(left, right) {
      PermutedTypesDiffer(left, right);
      SortKeepsRules(left);
      SortKeepsRules(right);
      SortAscends(left);
      SortAscends(right);
      AscendingIsUnique(SortRules(left), SortRules(right));
      assert |multiset(left)| == |left| && |multiset(right)| == |right|;
    }
  }
}
