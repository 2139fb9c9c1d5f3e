/** How records are named in control.barq: the primary key of a record, and the
    keys that the sync-rule service and the webhook dispatcher build from scopes,
    revisions and request identifiers. */
module Keys {
  import opened Text

  datatype Scope = Scope(tenant: string, database: string)

  const MAX_UINT64: nat := 0xFFFF_FFFF_FFFF_FFFF

  /** A length-prefixed string, "<length>:<bytes>". */
  function Framed(s: string): string { Decimal(|s|) + ":" + s }

  function RecordID(collection: string, key: string): string { Framed(collection) + key }

  function ScopeKey(scope: Scope): string { Framed(scope.tenant) + "/" + Framed(scope.database) }

  function PendingKey(scope: Scope, requestID: string): string { ScopeKey(scope) + "/" + requestID }

  function RevisionKey(scope: Scope, revision: nat): string { ScopeKey(scope) + "/" + ZeroPadded(revision, 20) }

  function CursorKey(scope: Scope): string { scope.tenant + "/" + scope.database }

  predicate HasPrefix(s: string, prefix: string) { |s| >= |prefix| && s[..|prefix|] == prefix }

  // ---- Framing can be undone, whatever follows it ----

  lemma {:induction false} ColonSplits(d: string, x: string, e: string, y: string)
    requires AllDigits(d) && AllDigits(e)
    requires d + ":" + x == e + ":" + y
    ensures d == e && x == y
  {
    var l, r := d + ":" + x, e + ":" + y;
    assert l[|d|] == ':' && r[|e|] == ':';
    assert forall i :: 0 <= i < |d| ==> l[i] == d[i];
    assert forall i :: 0 <= i < |e| ==> r[i] == e[i];
    assert |d| == |e|;
    assert d == l[..|d|] && e == r[..|e|];
    assert x == l[|d| + 1..] && y == r[|e| + 1..];
  }

  lemma {:induction false} FramedDetermines(a: string, x: string, b: string, y: string)
    requires Framed(a) + x == Framed(b) + y
    ensures a == b && x == y
  {
    ValueOfDecimal(|a|);
    ValueOfDecimal(|b|);
    assert Framed(a) + x == Decimal(|a|) + ":" + (a + x);
    assert Framed(b) + y == Decimal(|b|) + ":" + (b + y);
    ColonSplits(Decimal(|a|), a + x, Decimal(|b|), b + y);
    assert a == (a + x)[..|a|] && b == (b + y)[..|b|];
    assert x == (a + x)[|a|..] && y == (b + y)[|b|..];
  }

  /** Distinct records have distinct primary keys. */
  lemma RecordIDInjective(c1: string, k1: string, c2: string, k2: string)
    requires RecordID(c1, k1) == RecordID(c2, k2)
    ensures c1 == c2 && k1 == k2
  {
    FramedDetermines(c1, k1, c2, k2);
  }

  /** The scope can be read off the front of any key that starts with it. */
  lemma {:induction false} ScopeKeyDetermines(a: Scope, x: string, b: Scope, y: string)
    requires ScopeKey(a) + x == ScopeKey(b) + y
    ensures a == b && x == y
  {
    var restA, restB := "/" + (Framed(a.database) + x), "/" + (Framed(b.database) + y);
    assert ScopeKey(a) + x == Framed(a.tenant) + restA;
    assert ScopeKey(b) + y == Framed(b.tenant) + restB;
    FramedDetermines(a.tenant, restA, b.tenant, restB);
    assert restA[1..] == Framed(a.database) + x && restB[1..] == Framed(b.database) + y;
    FramedDetermines(a.database, x, b.database, y);
  }

  lemma ScopeKeyInjective(a: Scope, b: Scope)
    requires ScopeKey(a) == ScopeKey(b)
    ensures a == b
  {
    assert ScopeKey(a) + "" == ScopeKey(a) && ScopeKey(b) + "" == ScopeKey(b);
    ScopeKeyDetermines(a, "", b, "");
  }

  lemma PendingKeyInjective(a: Scope, r1: string, b: Scope, r2: string)
    requires PendingKey(a, r1) == PendingKey(b, r2)
    ensures a == b && r1 == r2
  {
    assert PendingKey(a, r1) == ScopeKey(a) + ("/" + r1) && PendingKey(b, r2) == ScopeKey(b) + ("/" + r2);
    ScopeKeyDetermines(a, "/" + r1, b, "/" + r2);
    assert ("/" + r1)[1..] == r1 && ("/" + r2)[1..] == r2;
  }

  lemma FitsTwentyDigits(n: nat)
    requires n <= MAX_UINT64
    ensures n < Power10(20) && ZeroPadded(n, 20) == Digits(n, 20)
  {
    assert Power10(5) == 100000;
    assert Power10(10) == 10000000000;
    assert Power10(15) == 1000000000000000;
    assert Power10(20) == 100000000000000000000;
    ZeroPaddedIsDigits(n, 20);
  }

  lemma RevisionKeyInjective(a: Scope, m: nat, b: Scope, n: nat)
    requires m <= MAX_UINT64 && n <= MAX_UINT64
    requires RevisionKey(a, m) == RevisionKey(b, n)
    ensures a == b && m == n
  {
    PendingKeyInjective(a, ZeroPadded(m, 20), b, ZeroPadded(n, 20));
    FitsTwentyDigits(m);
    FitsTwentyDigits(n);
    DigitsInjective(m, n, 20);
  }

  /** Listing by the prefix ScopeKey(scope) + "/" returns that scope's revisions and no others. */
  lemma RevisionListingIsExact(scope: Scope, other: Scope, revision: nat)
    ensures HasPrefix(RevisionKey(other, revision), ScopeKey(scope) + "/") <==> other == scope
  {
    var key, prefix := RevisionKey(other, revision), ScopeKey(scope) + "/";
    if HasPrefix(key, prefix) {
      var rest := key[|prefix|..];
      assert key == prefix + rest;
      assert key == ScopeKey(other) + ("/" + ZeroPadded(revision, 20));
      assert key == ScopeKey(scope) + ("/" + rest);
      ScopeKeyDetermines(other, "/" + ZeroPadded(revision, 20), scope, "/" + rest);
    }
  }

  /** Key order inside one scope is revision order, for every uint64. */
  lemma RevisionKeyOrder(scope: Scope, m: nat, n: nat)
    requires m <= MAX_UINT64 && n <= MAX_UINT64
    ensures Less(RevisionKey(scope, m), RevisionKey(scope, n)) <==> m < n
  {
    FitsTwentyDigits(m);
    FitsTwentyDigits(n);
    LessPrefix(ScopeKey(scope) + "/", ZeroPadded(m, 20), ZeroPadded(n, 20));
    DigitsOrder(m, n, 20);
  }

  // ---- The change cursor's key is not framed ----

  /** Two scopes share a cursor key exactly when one tenant is the other followed by
      "/" and the front of its database. */
  lemma {:induction false} CursorKeyCollision(a: Scope, b: Scope)
    requires |a.tenant| <= |b.tenant|
    ensures CursorKey(a) == CursorKey(b) <==>
            a == b || (exists mid :: b.tenant == a.tenant + "/" + mid && a.database == mid + "/" + b.database)
  {
    var l, r := CursorKey(a), CursorKey(b);
    if l == r && |a.tenant| == |b.tenant| {
      assert a.tenant == l[..|a.tenant|] && b.tenant == r[..|b.tenant|];
      assert a.database == l[|a.tenant| + 1..] && b.database == r[|b.tenant| + 1..];
    } else if l == r {
      assert l[|a.tenant|] == '/' && r[|a.tenant|] == b.tenant[|a.tenant|];
      var mid := b.tenant[|a.tenant| + 1..];
      assert b.tenant[..|a.tenant|] == r[..|a.tenant|] == l[..|a.tenant|] == a.tenant;
      assert b.tenant == a.tenant + "/" + mid;
      assert r == a.tenant + "/" + (mid + "/" + b.database);
      assert a.database == l[|a.tenant| + 1..] == r[|a.tenant| + 1..] == mid + "/" + b.database;
    }
    forall mid | b.tenant == a.tenant + "/" + mid && a.database == mid + "/" + b.database
      ensures l == r
    {
      assert l == a.tenant + "/" + mid + "/" + b.database == r;
    }
  }

  /** Tenants accepted by the registry contain no "/", so their cursors never collide. */
  lemma CursorKeyInjective(a: Scope, b: Scope)
    requires '/' !in a.tenant && '/' !in b.tenant
    requires CursorKey(a) == CursorKey(b)
    ensures a == b
  {
    if |a.tenant| <= |b.tenant| {
      CursorKeyCollision(a, b);
    } else {
      CursorKeyCollision(b, a);
    }
  }
}
