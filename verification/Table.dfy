/** What a control transaction means: one atomic, conditional update of a map of
    versioned records. The reference against which BarqStore is proved. */
module Table {
  import opened Results

  datatype Versioned<+V> = Versioned(value: V, version: nat)

  datatype Op = Put | Delete | Unknown

  datatype Mutation<+K, +V> = Mutation(op: Op, key: K, value: V, expected: Option<nat>)

  const MAX_MUTATIONS: nat := 100

  /** The version a caller sees for a key; a missing record counts as version 0. */
  function VersionOf<K, V>(t: map<K, Versioned<V>>, k: K): nat {
    if k in t then t[k].version else 0
  }

  /** A stated expectation: 0 means "must not exist", any other number means that very version. */
  predicate Meets<K, V>(t: map<K, Versioned<V>>, m: Mutation<K, V>) {
    && (m.op.Delete? ==> m.key in t)
    && (m.expected.Some? ==>
        if m.expected.value == 0 then m.key !in t
        else m.key in t && t[m.key].version == m.expected.value)
  }

  ghost predicate Distinct<K, V>(ms: seq<Mutation<K, V>>) {
    forall i, j :: 0 <= i < j < |ms| ==> ms[i].key != ms[j].key
  }

  /** The transaction may go through: every part is judged against the starting state. */
  ghost predicate Admissible<K, V>(t: map<K, Versioned<V>>, ms: seq<Mutation<K, V>>) {
    && 1 <= |ms| <= MAX_MUTATIONS
    && Distinct(ms)
    && (forall i :: 0 <= i < |ms| ==> ms[i].op != Unknown && Meets(t, ms[i]))
  }

  ghost predicate Deletes<K, V>(ms: seq<Mutation<K, V>>, k: K) {
    exists i :: 0 <= i < |ms| && ms[i].op.Delete? && ms[i].key == k
  }

  ghost predicate Puts<K, V>(ms: seq<Mutation<K, V>>, k: K) {
    exists i :: 0 <= i < |ms| && ms[i].op.Put? && ms[i].key == k
  }

  /** after is before with every mutation applied at once: each put advances its record's
      version by exactly one, each delete removes its record, nothing else moves. */
  ghost predicate AtomicUpdate<K(!new), V>(before: map<K, Versioned<V>>, ms: seq<Mutation<K, V>>,
                                           after: map<K, Versioned<V>>) {
    && (forall k :: k in after <==> Puts(ms, k) || (k in before && !Deletes(ms, k)))
    && (forall i :: 0 <= i < |ms| && ms[i].op.Put? ==>
          ms[i].key in after && after[ms[i].key] == Versioned(ms[i].value, VersionOf(before, ms[i].key) + 1))
    && (forall k :: k in before && !Puts(ms, k) && !Deletes(ms, k) ==> k in after && after[k] == before[k])
  }

  /** The starting state and the mutations determine the final state ... */
  lemma AtomicUpdateUnique<K(!new), V>(t: map<K, Versioned<V>>, ms: seq<Mutation<K, V>>,
                                       a: map<K, Versioned<V>>, b: map<K, Versioned<V>>)
    requires AtomicUpdate(t, ms, a) && AtomicUpdate(t, ms, b)
    ensures a == b
  {
    forall k | k in a
      ensures k in b && a[k] == b[k]
    {
      if Puts(ms, k) {
        var i :| 0 <= i < |ms| && ms[i].op.Put? && ms[i].key == k;
      }
    }
    assert a.Keys == b.Keys;
  }

  /** ... in whatever order the mutations are listed. */
  lemma OrderIrrelevant<K(!new), V>(t: map<K, Versioned<V>>, ms: seq<Mutation<K, V>>, ns: seq<Mutation<K, V>>,
                                    a: map<K, Versioned<V>>, b: map<K, Versioned<V>>)
    requires multiset(ms) == multiset(ns)
    requires Admissible(t, ms) && AtomicUpdate(t, ms, a) && AtomicUpdate(t, ns, b)
    ensures Admissible(t, ns) && a == b
  {
    DistinctPermutes(ms, ns);
    assert |ms| == |multiset(ms)| == |ns|;
    forall i | 0 <= i < |ns|
      ensures ns[i].op != Unknown && Meets(t, ns[i])
    {
      var _ := SameMember(ns, ms, i);
    }
    assert AtomicUpdate(t, ms, b) by {
      UpdatePermutes(t, ms, ns, b);
    }
    AtomicUpdateUnique(t, ms, a, b);
  }

  lemma SameMember<T>(ms: seq<T>, ns: seq<T>, i: nat) returns (j: nat)
    requires multiset(ms) == multiset(ns) && i < |ms|
    ensures j < |ns| && ns[j] == ms[i]
  {
    assert ms[i] in multiset(ns);
    assert ms[i] in ns;
    j :| 0 <= j < |ns| && ns[j] == ms[i];
  }

  lemma SameTargets<K, V>(ms: seq<Mutation<K, V>>, ns: seq<Mutation<K, V>>, k: K)
    requires multiset(ms) == multiset(ns)
    ensures Puts(ms, k) ==> Puts(ns, k)
    ensures Deletes(ms, k) ==> Deletes(ns, k)
  {
    if Puts(ms, k) {
      var i :| 0 <= i < |ms| && ms[i].op.Put? && ms[i].key == k;
      var _ := SameMember(ms, ns, i);
    }
    if Deletes(ms, k) {
      var i :| 0 <= i < |ms| && ms[i].op.Delete? && ms[i].key == k;
      var _ := SameMember(ms, ns, i);
    }
  }

  lemma UpdatePermutes<K(!new), V>(t: map<K, Versioned<V>>, ms: seq<Mutation<K, V>>, ns: seq<Mutation<K, V>>,
                         b: map<K, Versioned<V>>)
    requires multiset(ms) == multiset(ns) && AtomicUpdate(t, ns, b)
    ensures AtomicUpdate(t, ms, b)
  {
    forall k ensures Puts(ms, k) == Puts(ns, k) && Deletes(ms, k) == Deletes(ns, k) {
      SameTargets(ms, ns, k);
      SameTargets(ns, ms, k);
    }
    forall i | 0 <= i < |ms| && ms[i].op.Put?
      ensures ms[i].key in b && b[ms[i].key] == Versioned(ms[i].value, VersionOf(t, ms[i].key) + 1)
    {
      var _ := SameMember(ms, ns, i);
    }
  }

  lemma {:induction false} DistinctPermutes<K, V>(ms: seq<Mutation<K, V>>, ns: seq<Mutation<K, V>>)
    requires multiset(ms) == multiset(ns) && Distinct(ms)
    ensures Distinct(ns)
  {
    forall i, j | 0 <= i < j < |ns| && ns[i].key == ns[j].key
      ensures false
    {
      var a := SameMember(ns, ms, i);
      var b := SameMember(ns, ms, j);
      if a == b {
        assert ns[i] == ns[j];
        TwiceInMultiset(ns, i, j);
        OnceInMultiset(ms, a);
      }
    }
  }

  lemma TwiceInMultiset<T>(s: seq<T>, i: nat, j: nat)
    requires i < j < |s| && s[i] == s[j]
    ensures multiset(s)[s[i]] >= 2
  {
    assert s == s[..i] + [s[i]] + s[i + 1..j] + [s[j]] + s[j + 1..];
  }

  lemma OnceInMultiset<K, V>(ms: seq<Mutation<K, V>>, a: nat)
    requires a < |ms| && Distinct(ms)
    ensures multiset(ms)[ms[a]] == 1
  {
    assert ms == ms[..a] + [ms[a]] + ms[a + 1..];
    assert ms[a] !in multiset(ms[..a]) && ms[a] !in multiset(ms[a + 1..]);
  }

  // ---- Transactions of one mutation ----

  lemma SinglePut<K(!new), V>(t: map<K, Versioned<V>>, m: Mutation<K, V>, after: map<K, Versioned<V>>)
    requires m.op.Put?
    ensures Admissible(t, [m]) <==> Meets(t, m)
    ensures AtomicUpdate(t, [m], after) <==> after == t[m.key := Versioned(m.value, VersionOf(t, m.key) + 1)]
  {
    var ms, expected := [m], t[m.key := Versioned(m.value, VersionOf(t, m.key) + 1)];
    assert ms[0] == m;
    forall k ensures Puts(ms, k) <==> k == m.key {}
    assert AtomicUpdate(t, ms, expected);
    if AtomicUpdate(t, ms, after) {
      AtomicUpdateUnique(t, ms, after, expected);
    }
  }

  lemma SingleDelete<K(!new), V>(t: map<K, Versioned<V>>, m: Mutation<K, V>, after: map<K, Versioned<V>>)
    requires m.op.Delete?
    ensures Admissible(t, [m]) <==> Meets(t, m)
    ensures AtomicUpdate(t, [m], after) <==> after == t - {m.key}
  {
    var ms, expected := [m], t - {m.key};
    assert ms[0] == m;
    forall k ensures Deletes(ms, k) <==> k == m.key {}
    assert AtomicUpdate(t, ms, expected);
    if AtomicUpdate(t, ms, after) {
      AtomicUpdateUnique(t, ms, after, expected);
    }
  }

  // ---- Transactions of two puts ----

  function PutBoth<K, V>(t: map<K, Versioned<V>>, m: Mutation<K, V>, n: Mutation<K, V>): map<K, Versioned<V>> {
    t[m.key := Versioned(m.value, VersionOf(t, m.key) + 1)][n.key := Versioned(n.value, VersionOf(t, n.key) + 1)]
  }

  lemma DoublePut<K(!new), V>(t: map<K, Versioned<V>>, m: Mutation<K, V>, n: Mutation<K, V>,
                              after: map<K, Versioned<V>>)
    requires m.op.Put? && n.op.Put? && m.key != n.key
    ensures Admissible(t, [m, n]) <==> Meets(t, m) && Meets(t, n)
    ensures AtomicUpdate(t, [m, n], after) <==> after == PutBoth(t, m, n)
  {
    var ms := [m, n];
    assert ms[0] == m && ms[1] == n;
    forall k ensures Puts(ms, k) <==> k == m.key || k == n.key {}
    assert AtomicUpdate(t, ms, PutBoth(t, m, n));
    if AtomicUpdate(t, ms, after) {
      AtomicUpdateUnique(t, ms, after, PutBoth(t, m, n));
    }
  }
}
