/** The five webhook collections are one string-keyed table, and every store operation of the
    pipeline is one transaction of that table. */
module WebhookStorage {
  import opened Results
  import opened Text
  import opened Keys
  import opened Table
  import opened BarqStore
  import opened WebhookModel
  import opened WebhookKeys
  import opened WebhookSystem

  const WEBHOOKS := "webhooks"
  const REVISIONS := "webhook_revisions"
  const MATERIALIZATIONS := "webhook_materializations"
  const DELIVERIES := "webhook_deliveries"
  const CURSORS := "webhook_change_cursors"

  /** What a record is about. */
  datatype Key = HookAt(id: string) | RevisionAt(revision: RevisionID) | MatAt(job: JobID) | DeliveryAt(job: JobID)
               | CursorAt(scope: Scope)

  datatype Doc = HookDoc(hook: Hook) | RevisionDoc(revision: HookRevision) | MatDoc(mat: Materialization)
               | DeliveryDoc(delivery: Delivery) | CursorDoc(cursor: nat)

  function HookRevisionKey(id: RevisionID): string { id.hookID + "/" + ZeroPadded(id.number, 20) }

  function IdentOf(key: Key): Ident {
    match key
    case HookAt(id) => Ident(WEBHOOKS, id)
    case RevisionAt(id) => Ident(REVISIONS, HookRevisionKey(id))
    case MatAt(job) => Ident(MATERIALIZATIONS, JobKey(job))
    case DeliveryAt(job) => Ident(DELIVERIES, JobKey(job))
    case CursorAt(scope) => Ident(CURSORS, CursorKey(scope))
  }

  ghost predicate IsJob(job: JobID) { IsHookID(job.hookID) && job.revision <= MAX_UINT64 }

  /** Webhook IDs are hexadecimal, revision numbers are uint64, tenants contain no slash. */
  ghost predicate IsNamed(key: Key) {
    match key
    case HookAt(id) => true
    case RevisionAt(id) => IsHookID(id.hookID) && id.number <= MAX_UINT64
    case MatAt(job) => IsJob(job)
    case DeliveryAt(job) => IsJob(job)
    case CursorAt(scope) => '/' !in scope.tenant
  }

  lemma HookRevisionKeyInjective(a: RevisionID, b: RevisionID)
    requires IsNamed(RevisionAt(a)) && IsNamed(RevisionAt(b)) && HookRevisionKey(a) == HookRevisionKey(b)
    ensures a == b
  {
    FirstSlash(a.hookID, ZeroPadded(a.number, 20), b.hookID, ZeroPadded(b.number, 20));
    FitsTwentyDigits(a.number);
    FitsTwentyDigits(b.number);
    DigitsInjective(a.number, b.number, 20);
  }

  lemma CollectionsDiffer()
    ensures WEBHOOKS != REVISIONS && WEBHOOKS != MATERIALIZATIONS && WEBHOOKS != DELIVERIES && WEBHOOKS != CURSORS
    ensures REVISIONS != MATERIALIZATIONS && REVISIONS != DELIVERIES && REVISIONS != CURSORS
    ensures MATERIALIZATIONS != DELIVERIES && MATERIALIZATIONS != CURSORS && DELIVERIES != CURSORS
  {
    assert |WEBHOOKS| == 8 && |REVISIONS| == 17 && |MATERIALIZATIONS| == 24 && |DELIVERIES| == 18 && |CURSORS| == 22;
  }

  /** No two records share a place in the table. */
  lemma IdentInjective(a: Key, b: Key)
    requires IsNamed(a) && IsNamed(b) && IdentOf(a) == IdentOf(b)
    ensures a == b
  {
    CollectionsDiffer();
    match a
    case HookAt(_) =>
    case RevisionAt(id) => HookRevisionKeyInjective(id, b.revision);
    case MatAt(job) => JobKeyInjective(job, b.job);
    case DeliveryAt(job) => JobKeyInjective(job, b.job);
    case CursorAt(scope) => CursorKeyInjective(scope, b.scope);
  }

  // ---- The store as a table ----

  predicate Has(store: Store, key: Key) {
    match key
    case HookAt(id) => id in store.hooks
    case RevisionAt(id) => id in store.revisions
    case MatAt(job) => job in store.mats
    case DeliveryAt(job) => job in store.deliveries
    case CursorAt(scope) => scope in store.cursors
  }

  function Lookup(store: Store, key: Key): Versioned<Doc>
    requires Has(store, key)
  {
    match key
    case HookAt(id) => Versioned(HookDoc(store.hooks[id].value), store.hooks[id].version)
    case RevisionAt(id) => Versioned(RevisionDoc(store.revisions[id].value), store.revisions[id].version)
    case MatAt(job) => Versioned(MatDoc(store.mats[job].value), store.mats[job].version)
    case DeliveryAt(job) => Versioned(DeliveryDoc(store.deliveries[job].value), store.deliveries[job].version)
    case CursorAt(scope) => Versioned(CursorDoc(store.cursors[scope].value), store.cursors[scope].version)
  }

  /** table holds exactly the records of store, under their string keys. */
  ghost predicate Shows(table: map<Ident, Versioned<Doc>>, store: Store) {
    && (forall key :: IsNamed(key) ==> (IdentOf(key) in table <==> Has(store, key)))
    && (forall key :: IsNamed(key) && Has(store, key) ==> table[IdentOf(key)] == Lookup(store, key))
  }

  predicate Suits(key: Key, doc: Doc) {
    match key
    case HookAt(_) => doc.HookDoc?
    case RevisionAt(_) => doc.RevisionDoc?
    case MatAt(_) => doc.MatDoc?
    case DeliveryAt(_) => doc.DeliveryDoc?
    case CursorAt(_) => doc.CursorDoc?
  }

  function Bumped(store: Store, key: Key): nat { if Has(store, key) then Lookup(store, key).version + 1 else 1 }

  /** The store with one record written. */
  function With(store: Store, key: Key, doc: Doc): Store
    requires Suits(key, doc)
  {
    var version := Bumped(store, key);
    match key
    case HookAt(id) => store.(hooks := store.hooks[id := Versioned(doc.hook, version)])
    case RevisionAt(id) => store.(revisions := store.revisions[id := Versioned(doc.revision, version)])
    case MatAt(job) => store.(mats := store.mats[job := Versioned(doc.mat, version)])
    case DeliveryAt(job) => store.(deliveries := store.deliveries[job := Versioned(doc.delivery, version)])
    case CursorAt(scope) => store.(cursors := store.cursors[scope := Versioned(doc.cursor, version)])
  }

  lemma WithLookup(store: Store, key: Key, doc: Doc, other: Key)
    requires Suits(key, doc)
    ensures Has(With(store, key, doc), other) <==> other == key || Has(store, other)
    ensures Has(With(store, key, doc), other) ==>
      Lookup(With(store, key, doc), other) ==
      if other == key then Versioned(doc, Bumped(store, key)) else Lookup(store, other)
  {}

  lemma WrittenShows(table: map<Ident, Versioned<Doc>>, store: Store, key: Key, doc: Doc)
    requires Shows(table, store) && IsNamed(key) && Suits(key, doc)
    ensures VersionOf(table, IdentOf(key)) + 1 == Bumped(store, key)
    ensures Shows(table[IdentOf(key) := Versioned(doc, Bumped(store, key))], With(store, key, doc))
  {
    var after := table[IdentOf(key) := Versioned(doc, Bumped(store, key))];
    forall other | IsNamed(other)
      ensures IdentOf(other) in after <==> Has(With(store, key, doc), other)
      ensures Has(With(store, key, doc), other) ==> after[IdentOf(other)] == Lookup(With(store, key, doc), other)
    {
      WithLookup(store, key, doc, other);
      if IdentOf(other) == IdentOf(key) {
        IdentInjective(other, key);
      }
    }
  }

  // ---- Transactions ----

  function PutAt(key: Key, doc: Doc, expected: nat): Mutation<Ident, Doc> {
    Mutation(Put, IdentOf(key), doc, Some(expected))
  }

  predicate Accepts(store: Store, key: Key, expected: nat) {
    if expected == 0 then !Has(store, key) else Has(store, key) && Lookup(store, key).version == expected
  }

  /** If the table holds the store and accepts the mutations, it then holds what the operation
      leaves; an operation whose mutations it refuses leaves the store as it was. */
  ghost predicate Agrees(before: Store, ms: seq<Mutation<Ident, Doc>>, after: Store, table: map<Ident, Versioned<Doc>>,
                         next: map<Ident, Versioned<Doc>>) {
    Shows(table, before) ==>
      if Admissible(table, ms) then AtomicUpdate(table, ms, next) ==> Shows(next, after) else after == before
  }

  ghost predicate IsTransaction(before: Store, ms: seq<Mutation<Ident, Doc>>, after: Store) {
    forall table, next :: Agrees(before, ms, after, table, next)
  }

  lemma AcceptsIsMeets(table: map<Ident, Versioned<Doc>>, store: Store, key: Key, doc: Doc, expected: nat)
    requires Shows(table, store) && IsNamed(key)
    ensures Meets(table, PutAt(key, doc, expected)) <==> Accepts(store, key, expected)
  {}

  lemma OnePut(before: Store, key: Key, doc: Doc, expected: nat, after: Store)
    requires IsNamed(key) && Suits(key, doc)
    requires after == if Accepts(before, key, expected) then With(before, key, doc) else before
    ensures IsTransaction(before, [PutAt(key, doc, expected)], after)
  {
    var m := PutAt(key, doc, expected);
    forall table, next
      ensures Agrees(before, [m], after, table, next)
    {
      if Shows(table, before) {
        SinglePut(table, m, next);
        AcceptsIsMeets(table, before, key, doc, expected);
        WrittenShows(table, before, key, doc);
      }
    }
  }

  /** A put that is not accepted is answered with a conflict: that is what tells the dispatcher that a
      delivery is there already, or that a record has changed since it was read. */
  lemma PutAnswers(table: map<Ident, Versioned<Doc>>, store: Store, key: Key, doc: Doc, expected: nat,
                   jsonValid: Doc -> bool)
    requires Shows(table, store) && IsNamed(key) && IdentOf(key).key != "" && jsonValid(doc)
    ensures Answers(table, [PutAt(key, doc, expected)], jsonValid, NoFault,
                    if Accepts(store, key, expected) then None else Some(Conflict))
  {
    AnswerToOne(table, PutAt(key, doc, expected), jsonValid);
  }

  lemma BothShow(table: map<Ident, Versioned<Doc>>, store: Store, a: Key, x: Doc, b: Key, y: Doc)
    requires Shows(table, store) && IsNamed(a) && Suits(a, x) && IsNamed(b) && Suits(b, y) && a != b
    ensures Shows(PutBoth(table, PutAt(a, x, 0), PutAt(b, y, 0)), With(With(store, a, x), b, y))
    ensures IdentOf(a) != IdentOf(b)
  {
    if IdentOf(a) == IdentOf(b) {
      IdentInjective(a, b);
    }
    WrittenShows(table, store, a, x);
    WrittenShows(table[IdentOf(a) := Versioned(x, Bumped(store, a))], With(store, a, x), b, y);
  }

  lemma TwoPuts(before: Store, a: Key, x: Doc, expectedA: nat, b: Key, y: Doc, expectedB: nat, after: Store)
    requires IsNamed(a) && Suits(a, x) && IsNamed(b) && Suits(b, y) && a != b
    requires var accepted := Accepts(before, a, expectedA) && Accepts(before, b, expectedB);
             after == if accepted then With(With(before, a, x), b, y) else before
    ensures IsTransaction(before, [PutAt(a, x, expectedA), PutAt(b, y, expectedB)], after)
  {
    var m, n := PutAt(a, x, expectedA), PutAt(b, y, expectedB);
    forall table, next
      ensures Agrees(before, [m, n], after, table, next)
    {
      if Shows(table, before) {
        BothShow(table, before, a, x, b, y);
        DoublePut(table, m, n, next);
        AcceptsIsMeets(table, before, a, x, expectedA);
        AcceptsIsMeets(table, before, b, y, expectedB);
      }
    }
  }

  // ---- The dispatcher's operations ----

  lemma SaveCursorIsTransaction(s: State, poll: Poll)
    requires poll.events != [] && IsNamed(CursorAt(poll.scope))
    ensures IsTransaction(s.store, [PutAt(CursorAt(poll.scope), CursorDoc(poll.events[0].cursor), poll.version)],
                          SaveCursor(s, poll).store)
  {
    OnePut(s.store, CursorAt(poll.scope), CursorDoc(poll.events[0].cursor), poll.version, SaveCursor(s, poll).store);
  }

  lemma StoreMaterializationIsTransaction(s: State, poll: Poll, revision: HookRevision, context: string)
    requires AtOneHook(poll) && IsJob(JobAt(poll))
    ensures IsTransaction(s.store, [PutAt(MatAt(JobAt(poll)), MatDoc(NewMaterialization(context)), 0)],
                          StoreMaterialization(s, poll, revision, context).store)
  {
    OnePut(s.store, MatAt(JobAt(poll)), MatDoc(NewMaterialization(context)), 0,
           StoreMaterialization(s, poll, revision, context).store);
  }

  lemma SettleIsTransaction(s: State, poll: Poll, record: Versioned<Materialization>, outcome: Outcome)
    requires AtOneHook(poll) && IsJob(JobAt(poll))
    ensures IsTransaction(s.store,
                          [PutAt(MatAt(JobAt(poll)), MatDoc(Transformed(record.value, outcome)), record.version)],
                          SettleMaterialization(s, poll, record, outcome).store)
  {
    OnePut(s.store, MatAt(JobAt(poll)), MatDoc(Transformed(record.value, outcome)), record.version,
           SettleMaterialization(s, poll, record, outcome).store);
  }

  lemma CreateIsTransaction(s: State, poll: Poll, d: Delivery)
    requires AtOneHook(poll) && IsJob(JobAt(poll))
    ensures IsTransaction(s.store, [PutAt(DeliveryAt(JobAt(poll)), DeliveryDoc(d), 0)],
                          CreateDelivery(s, poll, d).store)
  {
    OnePut(s.store, DeliveryAt(JobAt(poll)), DeliveryDoc(d), 0, CreateDelivery(s, poll, d).store);
  }

  lemma RecordIsTransaction(s: State, drain: Drain, response: Response, at: nat)
    requires drain.entries != [] && IsJob(drain.entries[0].job)
    ensures var e := drain.entries[0];
            IsTransaction(s.store,
                          [PutAt(DeliveryAt(e.job), DeliveryDoc(Attempted(e.record.value, response, at)),
                                 e.record.version)],
                          RecordAttempt(s, drain, response, at).store)
  {
    var e := drain.entries[0];
    OnePut(s.store, DeliveryAt(e.job), DeliveryDoc(Attempted(e.record.value, response, at)), e.record.version,
           RecordAttempt(s, drain, response, at).store);
  }

  // ---- The service's operations ----

  lemma RegisterIsTransaction(s: State, id: string, r: Registration, secret: string)
    requires IsHookID(id)
    ensures IsTransaction(s.store,
                          [PutAt(HookAt(id), HookDoc(NewHook(id, r)), 0),
                           PutAt(RevisionAt(RevisionID(id, 1)),
                                 RevisionDoc(HookRevision(id, 1, r.source, r.limits, secret)), 0)],
                          RegisterStep(s, id, r, secret).store)
  {
    TwoPuts(s.store, HookAt(id), HookDoc(NewHook(id, r)), 0,
            RevisionAt(RevisionID(id, 1)), RevisionDoc(HookRevision(id, 1, r.source, r.limits, secret)), 0,
            RegisterStep(s, id, r, secret).store);
  }

  /** Update and secret rotation. */
  lemma EditIsTransaction(s: State, c: nat, request: Request, hook: Versioned<Hook>, prior: HookRevision)
    requires request.Update? || request.RotateSecret?
    requires IsNamed(RevisionAt(RevisionID(request.id, hook.value.activeRevision + 1)))
    ensures var (changed, revision) := Edited(request, hook.value, prior);
            IsTransaction(s.store,
                          [PutAt(RevisionAt(RevisionID(request.id, revision.number)), RevisionDoc(revision), 0),
                           PutAt(HookAt(request.id), HookDoc(changed), hook.version)],
                          CommitEdit(s, c, request, hook, prior).store)
  {
    var (changed, revision) := Edited(request, hook.value, prior);
    TwoPuts(s.store, RevisionAt(RevisionID(request.id, revision.number)), RevisionDoc(revision), 0,
            HookAt(request.id), HookDoc(changed), hook.version, CommitEdit(s, c, request, hook, prior).store);
  }

  lemma DisableIsTransaction(s: State, c: nat, id: string, hook: Versioned<Hook>)
    ensures IsTransaction(s.store, [PutAt(HookAt(id), HookDoc(hook.value.(enabled := false)), hook.version)],
                          CommitDisable(s, c, id, hook).store)
  {
    OnePut(s.store, HookAt(id), HookDoc(hook.value.(enabled := false)), hook.version,
           CommitDisable(s, c, id, hook).store);
  }

  lemma ReplayIsTransaction(s: State, c: nat, request: Request, entries: seq<Entry>)
    requires entries != [] && IsJob(entries[0].job) && entries[0].record.value.status.Dead?
    ensures var e := entries[0];
            IsTransaction(s.store,
                          [PutAt(DeliveryAt(e.job), DeliveryDoc(Replayed(e.record.value, s.now)), e.record.version)],
                          ReplayNext(s, c, request, entries).store)
  {
    var e := entries[0];
    OnePut(s.store, DeliveryAt(e.job), DeliveryDoc(Replayed(e.record.value, s.now)), e.record.version,
           ReplayNext(s, c, request, entries).store);
  }
}
