/** The three sync-rule collections are one string-keyed table, and each of the protocol's
    store operations is one transaction of that table. */
module SyncStorage {
  import opened Results
  import opened Keys
  import opened Table
  import opened BarqStore
  import opened SyncProtocol

  const REVISIONS := "sync_rule_revisions"
  const HEADS := "sync_rule_heads"
  const PENDING := "sync_rule_pending"

  datatype Doc = RevisionDoc(revision: Revision) | HeadDoc(head: Head) | PendingDoc(pending: Pending)

  function RevisionIdent(id: RevisionID): Ident { Ident(REVISIONS, RevisionKey(id.scope, id.revision)) }

  function HeadIdent(scope: Scope): Ident { Ident(HEADS, ScopeKey(scope)) }

  function PendingIdent(id: PendingID): Ident { Ident(PENDING, PendingKey(id.scope, id.requestID)) }

  lemma CollectionsDiffer()
    ensures REVISIONS != HEADS && HEADS != PENDING && PENDING != REVISIONS
  {
    assert |REVISIONS| == 19 && |HEADS| == 15 && |PENDING| == 17;
  }

  lemma IdentsDiffer(a: RevisionID, b: Scope, c: PendingID)
    ensures RevisionIdent(a) != HeadIdent(b) && HeadIdent(b) != PendingIdent(c) && PendingIdent(c) != RevisionIdent(a)
  {
    CollectionsDiffer();
  }

  lemma RevisionIdentInjective(a: RevisionID, b: RevisionID)
    requires a.revision <= MAX_UINT64 && b.revision <= MAX_UINT64 && RevisionIdent(a) == RevisionIdent(b)
    ensures a == b
  {
    RevisionKeyInjective(a.scope, a.revision, b.scope, b.revision);
  }

  lemma HeadIdentInjective(a: Scope, b: Scope)
    requires HeadIdent(a) == HeadIdent(b)
    ensures a == b
  {
    ScopeKeyInjective(a, b);
  }

  lemma PendingIdentInjective(a: PendingID, b: PendingID)
    requires PendingIdent(a) == PendingIdent(b)
    ensures a == b
  {
    PendingKeyInjective(a.scope, a.requestID, b.scope, b.requestID);
  }

  /** Revision numbers are uint64. */
  ghost predicate Bounded(store: Store) { forall id :: id in store.history ==> id.revision <= MAX_UINT64 }

  ghost predicate HoldsRevisions(table: map<Ident, Versioned<Doc>>, store: Store) {
    && (forall id: RevisionID :: id.revision <= MAX_UINT64 ==> (RevisionIdent(id) in table <==> id in store.history))
    && (forall id :: id in store.history ==>
          RevisionIdent(id) in table
          && table[RevisionIdent(id)] == Versioned(RevisionDoc(store.history[id].value), store.history[id].version))
  }

  ghost predicate HoldsHeads(table: map<Ident, Versioned<Doc>>, store: Store) {
    && (forall scope :: HeadIdent(scope) in table <==> scope in store.heads)
    && (forall scope :: scope in store.heads ==>
          table[HeadIdent(scope)] == Versioned(HeadDoc(store.heads[scope].value), store.heads[scope].version))
  }

  ghost predicate HoldsPending(table: map<Ident, Versioned<Doc>>, store: Store) {
    && (forall id :: PendingIdent(id) in table <==> id in store.pending)
    && (forall id :: id in store.pending ==>
          table[PendingIdent(id)] == Versioned(PendingDoc(store.pending[id].value), store.pending[id].version))
  }

  datatype Kind = OfRevisions | OfHeads | OfPending

  ghost predicate HoldsKind(table: map<Ident, Versioned<Doc>>, store: Store, kind: Kind) {
    match kind
    case OfRevisions => HoldsRevisions(table, store)
    case OfHeads => HoldsHeads(table, store)
    case OfPending => HoldsPending(table, store)
  }

  /** table holds exactly the records of store, under their string keys. */
  ghost predicate Holds(table: map<Ident, Versioned<Doc>>, store: Store) {
    forall kind :: HoldsKind(table, store, kind)
  }

  lemma HoldsAll(table: map<Ident, Versioned<Doc>>, store: Store)
    requires Holds(table, store)
    ensures HoldsRevisions(table, store) && HoldsHeads(table, store) && HoldsPending(table, store)
  {
    assert HoldsKind(table, store, OfRevisions) && HoldsKind(table, store, OfHeads)
           && HoldsKind(table, store, OfPending);
  }

  function PutRevision(r: Revision): Mutation<Ident, Doc> {
    Mutation(Put, RevisionIdent(RevisionOf(r)), RevisionDoc(r), Some(0))
  }

  function PutPending(p: Pending): Mutation<Ident, Doc> { Mutation(Put, PendingIdent(p.ID()), PendingDoc(p), Some(0)) }

  function DeletePending(id: PendingID, p: Pending, version: nat): Mutation<Ident, Doc> {
    Mutation(Delete, PendingIdent(id), PendingDoc(p), Some(version))
  }

  function PutHeadAt(head: Head, expected: nat): Mutation<Ident, Doc> {
    Mutation(Put, HeadIdent(head.scope), HeadDoc(head), Some(expected))
  }

  // ---- One mutation ----

  ghost predicate SameBut(table: map<Ident, Versioned<Doc>>, after: map<Ident, Versioned<Doc>>, k: Ident) {
    forall x :: x != k ==> (x in after <==> x in table) && (x in table ==> after[x] == table[x])
  }

  lemma RevisionsStay(table: map<Ident, Versioned<Doc>>, store: Store, after: map<Ident, Versioned<Doc>>, next: Store,
                      k: Ident)
    requires HoldsRevisions(table, store) && next.history == store.history && SameBut(table, after, k)
    requires k.collection != REVISIONS
    ensures HoldsRevisions(after, next)
  {
    forall id ensures RevisionIdent(id) != k {}
  }

  lemma HeadsStay(table: map<Ident, Versioned<Doc>>, store: Store, after: map<Ident, Versioned<Doc>>, next: Store,
                  k: Ident)
    requires HoldsHeads(table, store) && next.heads == store.heads && SameBut(table, after, k)
    requires k.collection != HEADS
    ensures HoldsHeads(after, next)
  {
    forall scope ensures HeadIdent(scope) != k {}
  }

  lemma PendingStays(table: map<Ident, Versioned<Doc>>, store: Store, after: map<Ident, Versioned<Doc>>, next: Store,
                     k: Ident)
    requires HoldsPending(table, store) && next.pending == store.pending && SameBut(table, after, k)
    requires k.collection != PENDING
    ensures HoldsPending(after, next)
  {
    forall id ensures PendingIdent(id) != k {}
  }

  lemma RevisionAdded(table: map<Ident, Versioned<Doc>>, store: Store, r: Revision)
    requires HoldsRevisions(table, store) && Bounded(store) && r.revision <= MAX_UINT64 && AddRevision(store, r).Ok?
    ensures HoldsRevisions(table[RevisionIdent(RevisionOf(r)) := Versioned(RevisionDoc(r), 1)],
                           AddRevision(store, r).value)
  {
    forall id: RevisionID | id.revision <= MAX_UINT64 && RevisionIdent(id) == RevisionIdent(RevisionOf(r))
      ensures id == RevisionOf(r)
    {
      RevisionIdentInjective(id, RevisionOf(r));
    }
  }

  lemma AddRevisionIsTransaction(table: map<Ident, Versioned<Doc>>, store: Store, r: Revision)
    requires Bounded(store) && Holds(table, store) && r.revision <= MAX_UINT64
    ensures AddRevision(store, r).Ok? <==> Meets(table, PutRevision(r))
    ensures AddRevision(store, r).Ok? ==>
      var version := VersionOf(table, RevisionIdent(RevisionOf(r))) + 1;
      Bounded(AddRevision(store, r).value)
      && Holds(table[RevisionIdent(RevisionOf(r)) := Versioned(RevisionDoc(r), version)], AddRevision(store, r).value)
  {
    HoldsAll(table, store);
    CollectionsDiffer();
    if AddRevision(store, r).Ok? {
      var k := RevisionIdent(RevisionOf(r));
      var after, next := table[k := Versioned(RevisionDoc(r), 1)], AddRevision(store, r).value;
      RevisionAdded(table, store, r);
      HeadsStay(table, store, after, next, k);
      PendingStays(table, store, after, next, k);
    }
  }

  lemma PendingAdded(table: map<Ident, Versioned<Doc>>, store: Store, p: Pending)
    requires HoldsPending(table, store) && AddPending(store, p).Ok?
    ensures HoldsPending(table[PendingIdent(p.ID()) := Versioned(PendingDoc(p), 1)], AddPending(store, p).value)
  {
    forall id | PendingIdent(id) == PendingIdent(p.ID()) ensures id == p.ID() { PendingIdentInjective(id, p.ID()); }
  }

  lemma PendingPut(table: map<Ident, Versioned<Doc>>, store: Store, p: Pending)
    requires Holds(table, store) && AddPending(store, p).Ok?
    ensures Holds(table[PendingIdent(p.ID()) := Versioned(PendingDoc(p), 1)], AddPending(store, p).value)
  {
    HoldsAll(table, store);
    CollectionsDiffer();
    var k := PendingIdent(p.ID());
    var after, next := table[k := Versioned(PendingDoc(p), 1)], AddPending(store, p).value;
    PendingAdded(table, store, p);
    HeadsStay(table, store, after, next, k);
    RevisionsStay(table, store, after, next, k);
  }

  lemma AddPendingIsTransaction(table: map<Ident, Versioned<Doc>>, store: Store, p: Pending)
    requires Holds(table, store)
    ensures AddPending(store, p).Ok? <==> Admissible(table, [PutPending(p)])
    ensures forall after :: AddPending(store, p).Ok? && AtomicUpdate(table, [PutPending(p)], after) ==>
              Holds(after, AddPending(store, p).value)
  {
    HoldsAll(table, store);
    SinglePut(table, PutPending(p), table);
    forall after
      ensures Admissible(table, [PutPending(p)]) <==> Meets(table, PutPending(p))
      ensures AddPending(store, p).Ok? && AtomicUpdate(table, [PutPending(p)], after) ==>
                Holds(after, AddPending(store, p).value)
    {
      SinglePut(table, PutPending(p), after);
      if AddPending(store, p).Ok? {
        PendingPut(table, store, p);
      }
    }
  }

  lemma PendingDropped(table: map<Ident, Versioned<Doc>>, store: Store, id: PendingID, version: nat)
    requires HoldsPending(table, store) && DropPending(store, id, version).Ok?
    ensures HoldsPending(table - {PendingIdent(id)}, DropPending(store, id, version).value)
  {
    forall other | PendingIdent(other) == PendingIdent(id) ensures other == id { PendingIdentInjective(other, id); }
  }

  lemma DropPendingIsTransaction(table: map<Ident, Versioned<Doc>>, store: Store, id: PendingID, p: Pending,
                                 version: nat)
    requires Holds(table, store) && version != 0
    ensures DropPending(store, id, version).Ok? <==> Meets(table, DeletePending(id, p, version))
    ensures DropPending(store, id, version).Ok? ==>
              Holds(table - {PendingIdent(id)}, DropPending(store, id, version).value)
  {
    HoldsAll(table, store);
    CollectionsDiffer();
    if DropPending(store, id, version).Ok? {
      var k := PendingIdent(id);
      PendingDropped(table, store, id, version);
      HeadsStay(table, store, table - {k}, DropPending(store, id, version).value, k);
      RevisionsStay(table, store, table - {k}, DropPending(store, id, version).value, k);
    }
  }

  lemma PutHeadIsTransaction(table: map<Ident, Versioned<Doc>>, store: Store, head: Head, expected: nat)
    requires Holds(table, store)
    ensures PutHead(store, head, expected).Ok? <==> Meets(table, PutHeadAt(head, expected))
    ensures PutHead(store, head, expected).Ok? ==>
      Holds(table[HeadIdent(head.scope) := Versioned(HeadDoc(head), VersionOf(table, HeadIdent(head.scope)) + 1)],
            PutHead(store, head, expected).value)
  {
    HoldsAll(table, store);
    assert VersionOf(table, HeadIdent(head.scope)) == VersionOf(store.heads, head.scope);
    if PutHead(store, head, expected).Ok? {
      HeadMoved(table, store, head, VersionOf(store.heads, head.scope) + 1);
    }
  }

  lemma HeadMoved(table: map<Ident, Versioned<Doc>>, store: Store, head: Head, version: nat)
    requires Holds(table, store)
    ensures Holds(table[HeadIdent(head.scope) := Versioned(HeadDoc(head), version)],
                  store.(heads := store.heads[head.scope := Versioned(head, version)]))
  {
    HoldsAll(table, store);
    CollectionsDiffer();
    var k := HeadIdent(head.scope);
    var after := table[k := Versioned(HeadDoc(head), version)];
    var next := store.(heads := store.heads[head.scope := Versioned(head, version)]);
    forall scope | HeadIdent(scope) == k ensures scope == head.scope { HeadIdentInjective(scope, head.scope); }
    assert HoldsHeads(after, next);
    RevisionsStay(table, store, after, next, k);
    PendingStays(table, store, after, next, k);
  }

  // ---- The finishing transaction ----

  function FinishMutations(r: Revision, id: PendingID, p: Pending, version: nat, writeHead: bool,
                           headVersion: nat): seq<Mutation<Ident, Doc>> {
    [PutRevision(r), DeletePending(id, p, version)] +
    if writeHead then [PutHeadAt(Head(r.scope, r.revision, r.hash), headVersion)] else []
  }

  lemma FinishAccepted(table: map<Ident, Versioned<Doc>>, store: Store, r: Revision, id: PendingID, p: Pending,
                       version: nat, writeHead: bool, headVersion: nat)
    requires Bounded(store) && Holds(table, store) && r.revision <= MAX_UINT64 && version != 0
    ensures FinishTransaction(store, r, id, version, writeHead, headVersion).Ok?
            <==> Admissible(table, FinishMutations(r, id, p, version, writeHead, headVersion))
  {
    IdentsDiffer(RevisionOf(r), r.scope, id);
    AddRevisionIsTransaction(table, store, r);
    DropPendingIsTransaction(table, store, id, p, version);
    PutHeadIsTransaction(table, store, Head(r.scope, r.revision, r.hash), headVersion);
    FinishParts(table, r, id, p, version, writeHead, headVersion);
  }

  /** The finishing mutations are admissible together exactly when each is by itself. */
  lemma FinishParts(table: map<Ident, Versioned<Doc>>, r: Revision, id: PendingID, p: Pending, version: nat,
                    writeHead: bool, headVersion: nat)
    requires RevisionIdent(RevisionOf(r)) != PendingIdent(id) && RevisionIdent(RevisionOf(r)) != HeadIdent(r.scope)
    requires HeadIdent(r.scope) != PendingIdent(id)
    ensures Admissible(table, FinishMutations(r, id, p, version, writeHead, headVersion))
            <==> Meets(table, PutRevision(r)) && Meets(table, DeletePending(id, p, version))
                 && (writeHead ==> Meets(table, PutHeadAt(Head(r.scope, r.revision, r.hash), headVersion)))
  {
    var ms := FinishMutations(r, id, p, version, writeHead, headVersion);
    assert ms[0] == PutRevision(r) && ms[1] == DeletePending(id, p, version);
    assert writeHead ==> ms[2] == PutHeadAt(Head(r.scope, r.revision, r.hash), headVersion);
  }

  /** The table after the finishing mutations. */
  function Finished(table: map<Ident, Versioned<Doc>>, r: Revision, id: PendingID,
                    writeHead: bool): map<Ident, Versioned<Doc>> {
    var revisionIdent := RevisionIdent(RevisionOf(r));
    var without :=
      table[revisionIdent := Versioned(RevisionDoc(r), VersionOf(table, revisionIdent) + 1)] - {PendingIdent(id)};
    if writeHead
    then without[HeadIdent(r.scope) := Versioned(HeadDoc(Head(r.scope, r.revision, r.hash)),
                                                 VersionOf(table, HeadIdent(r.scope)) + 1)]
    else without
  }

  lemma FinishedHolds(table: map<Ident, Versioned<Doc>>, store: Store, r: Revision, id: PendingID, p: Pending,
                      version: nat, writeHead: bool, headVersion: nat)
    requires Bounded(store) && Holds(table, store) && r.revision <= MAX_UINT64 && version != 0
    requires FinishTransaction(store, r, id, version, writeHead, headVersion).Ok?
    ensures Holds(Finished(table, r, id, writeHead),
                  FinishTransaction(store, r, id, version, writeHead, headVersion).value)
  {
    IdentsDiffer(RevisionOf(r), r.scope, id);
    AddRevisionIsTransaction(table, store, r);
    var a := AddRevision(store, r).value;
    var tableA := table[RevisionIdent(RevisionOf(r)) := Versioned(RevisionDoc(r),
                                                                  VersionOf(table, RevisionIdent(RevisionOf(r))) + 1)];
    DropPendingIsTransaction(tableA, a, id, p, version);
    if writeHead {
      PutHeadIsTransaction(tableA - {PendingIdent(id)}, DropPending(a, id, version).value,
                           Head(r.scope, r.revision, r.hash), headVersion);
    }
  }

  /** The protocol's finishing step is accepted exactly when the store accepts the two or three
      mutations the code submits, and leaves exactly the records that they leave. */
  lemma FinishIsTransaction(table: map<Ident, Versioned<Doc>>, store: Store, r: Revision, id: PendingID, p: Pending,
                            version: nat, writeHead: bool, headVersion: nat, after: map<Ident, Versioned<Doc>>)
    requires Bounded(store) && Holds(table, store) && r.revision <= MAX_UINT64 && version != 0
    ensures var done := FinishTransaction(store, r, id, version, writeHead, headVersion);
            var ms := FinishMutations(r, id, p, version, writeHead, headVersion);
            (done.Ok? <==> Admissible(table, ms))
            && (done.Ok? && AtomicUpdate(table, ms, after) ==> Holds(after, done.value))
  {
    FinishAccepted(table, store, r, id, p, version, writeHead, headVersion);
    var ms := FinishMutations(r, id, p, version, writeHead, headVersion);
    if FinishTransaction(store, r, id, version, writeHead, headVersion).Ok? && AtomicUpdate(table, ms, after) {
      FinishedHolds(table, store, r, id, p, version, writeHead, headVersion);
      FinishUpdate(table, ms, r, id, p, version, writeHead, headVersion);
      AtomicUpdateUnique(table, ms, after, Finished(table, r, id, writeHead));
    }
  }

  lemma FinishUpdate(table: map<Ident, Versioned<Doc>>, ms: seq<Mutation<Ident, Doc>>, r: Revision, id: PendingID,
                     p: Pending,
                     version: nat, writeHead: bool, headVersion: nat)
    requires ms == FinishMutations(r, id, p, version, writeHead, headVersion)
    ensures AtomicUpdate(table, ms, Finished(table, r, id, writeHead))
  {
    IdentsDiffer(RevisionOf(r), r.scope, id);
    var revisionIdent := RevisionIdent(RevisionOf(r));
    assert ms[0] == PutRevision(r) && ms[1] == DeletePending(id, p, version);
    forall k
      ensures Puts(ms, k) <==> k == revisionIdent || (writeHead && k == HeadIdent(r.scope))
      ensures Deletes(ms, k) <==> k == PendingIdent(id)
    {
      if writeHead {
        assert ms[2] == PutHeadAt(Head(r.scope, r.revision, r.hash), headVersion);
      }
    }
  }

  // ---- The same codes ----

  function CodeOf(done: Result<Store>): Option<ErrorCode> { if done.Ok? then None else Some(done.code) }

  lemma AddRevisionAnswers(table: map<Ident, Versioned<Doc>>, store: Store, r: Revision, jsonValid: Doc -> bool)
    requires Bounded(store) && Holds(table, store) && r.revision <= MAX_UINT64 && jsonValid(RevisionDoc(r))
    ensures Answers(table, [PutRevision(r)], jsonValid, NoFault, CodeOf(AddRevision(store, r)))
  {
    HoldsAll(table, store);
    AnswerToOne(table, PutRevision(r), jsonValid);
  }

  lemma AddPendingAnswers(table: map<Ident, Versioned<Doc>>, store: Store, p: Pending, jsonValid: Doc -> bool)
    requires Holds(table, store) && jsonValid(PendingDoc(p))
    ensures Answers(table, [PutPending(p)], jsonValid, NoFault, CodeOf(AddPending(store, p)))
  {
    HoldsAll(table, store);
    AnswerToOne(table, PutPending(p), jsonValid);
  }

  lemma DropPendingAnswers(table: map<Ident, Versioned<Doc>>, store: Store, id: PendingID, p: Pending, version: nat,
                           jsonValid: Doc -> bool)
    requires Holds(table, store) && version != 0
    ensures Answers(table, [DeletePending(id, p, version)], jsonValid, NoFault, CodeOf(DropPending(store, id, version)))
  {
    HoldsAll(table, store);
    AnswerToOne(table, DeletePending(id, p, version), jsonValid);
  }

  lemma PutHeadAnswers(table: map<Ident, Versioned<Doc>>, store: Store, head: Head, expected: nat,
                       jsonValid: Doc -> bool)
    requires Holds(table, store) && jsonValid(HeadDoc(head))
    ensures Answers(table, [PutHeadAt(head, expected)], jsonValid, NoFault, CodeOf(PutHead(store, head, expected)))
  {
    HoldsAll(table, store);
    AnswerToOne(table, PutHeadAt(head, expected), jsonValid);
  }

  /** What the store has against a mutation that is proper. */
  function Objection(table: map<Ident, Versioned<Doc>>, m: Mutation<Ident, Doc>): Option<ErrorCode> {
    if m.op.Delete? && m.key !in table then Some(NotFound)
    else if m.expected.Some?
         && (if m.key in table then m.expected.value == 0 || m.expected.value != table[m.key].version
             else m.expected.value != 0) then Some(Conflict)
    else None
  }

  lemma ObstacleIsObjection(table: map<Ident, Versioned<Doc>>, ms: seq<Mutation<Ident, Doc>>, i: nat,
                            jsonValid: Doc -> bool)
    requires i < |ms| && !Improper(ms, i, jsonValid)
    ensures Obstacle(table, ms, i, jsonValid, NoFault) == Objection(table, ms[i])
  {
    ObstacleExplains(table, ms, i, jsonValid, NoFault);
  }

  lemma Objections(table: map<Ident, Versioned<Doc>>, store: Store, r: Revision, id: PendingID, p: Pending,
                   version: nat, headVersion: nat)
    requires Bounded(store) && Holds(table, store) && r.revision <= MAX_UINT64 && version != 0
    ensures Objection(table, PutRevision(r)) == CodeOf(AddRevision(store, r))
    ensures Objection(table, DeletePending(id, p, version)) == CodeOf(DropPending(store, id, version))
    ensures var head := Head(r.scope, r.revision, r.hash);
            Objection(table, PutHeadAt(head, headVersion)) == CodeOf(PutHead(store, head, headVersion))
  {
    HoldsAll(table, store);
  }

  lemma FinishIsProper(r: Revision, id: PendingID, p: Pending, version: nat, writeHead: bool, headVersion: nat,
                       jsonValid: Doc -> bool, i: nat)
    requires jsonValid(RevisionDoc(r)) && jsonValid(HeadDoc(Head(r.scope, r.revision, r.hash)))
    requires i < |FinishMutations(r, id, p, version, writeHead, headVersion)|
    ensures !Improper(FinishMutations(r, id, p, version, writeHead, headVersion), i, jsonValid)
  {
    IdentsDiffer(RevisionOf(r), r.scope, id);
    var ms := FinishMutations(r, id, p, version, writeHead, headVersion);
    assert ms[0] == PutRevision(r) && ms[1] == DeletePending(id, p, version);
    assert writeHead ==> ms[2] == PutHeadAt(Head(r.scope, r.revision, r.hash), headVersion);
  }

  lemma FinishObstacle(table: map<Ident, Versioned<Doc>>, r: Revision, id: PendingID, p: Pending, version: nat,
                       writeHead: bool, headVersion: nat, jsonValid: Doc -> bool)
    requires jsonValid(RevisionDoc(r)) && jsonValid(HeadDoc(Head(r.scope, r.revision, r.hash)))
    ensures var ms := FinishMutations(r, id, p, version, writeHead, headVersion);
            var first, second := Objection(table, PutRevision(r)), Objection(table, DeletePending(id, p, version));
            var third := Objection(table, PutHeadAt(Head(r.scope, r.revision, r.hash), headVersion));
            FirstObstacle(table, ms, 0, jsonValid, NoFault) ==
            if first.Some? then first else if second.Some? then second else if writeHead then third else None
  {
    var ms := FinishMutations(r, id, p, version, writeHead, headVersion);
    forall i: nat | i < |ms|
      ensures Obstacle(table, ms, i, jsonValid, NoFault) == Objection(table, ms[i])
    {
      FinishIsProper(r, id, p, version, writeHead, headVersion, jsonValid, i);
      ObstacleIsObjection(table, ms, i, jsonValid);
    }
    assert ms[0] == PutRevision(r) && ms[1] == DeletePending(id, p, version);
    assert FirstObstacle(table, ms, 2, jsonValid, NoFault) ==
           if writeHead then Objection(table, PutHeadAt(Head(r.scope, r.revision, r.hash), headVersion)) else None;
  }

  /** The finishing transaction fails in the protocol with the code that the store answers. */
  lemma FinishAnswers(table: map<Ident, Versioned<Doc>>, store: Store, r: Revision, id: PendingID, p: Pending,
                      version: nat, writeHead: bool, headVersion: nat, jsonValid: Doc -> bool)
    requires Bounded(store) && Holds(table, store) && r.revision <= MAX_UINT64 && version != 0
    requires jsonValid(RevisionDoc(r)) && jsonValid(HeadDoc(Head(r.scope, r.revision, r.hash)))
    ensures Answers(table, FinishMutations(r, id, p, version, writeHead, headVersion), jsonValid, NoFault,
                    CodeOf(FinishTransaction(store, r, id, version, writeHead, headVersion)))
  {
    var ms := FinishMutations(r, id, p, version, writeHead, headVersion);
    FinishObstacle(table, r, id, p, version, writeHead, headVersion, jsonValid);
    Objections(table, store, r, id, p, version, headVersion);
    assert CodeOf(FinishTransaction(store, r, id, version, writeHead, headVersion)) ==
           Refusal(table, ms, jsonValid, NoFault);
    RefusalAnswers(table, ms, jsonValid, NoFault);
  }
}
