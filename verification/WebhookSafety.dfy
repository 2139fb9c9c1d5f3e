/** What every run of the webhook pipeline keeps: no event is lost, revisions are contiguous
    and immutable, deliveries carry what was rendered, and attempts are bounded and spaced. */
module WebhookSafety {
  import opened Results
  import opened Keys
  import opened Table
  import opened WebhookModel
  import opened WebhookSystem

  // ---- The store ----

  /** The revisions of a webhook are exactly 1 up to its active one; there are no others. */
  ghost predicate Contiguous(hooks: map<string, Versioned<Hook>>, revisions: map<RevisionID, Versioned<HookRevision>>) {
    && (forall id :: id in hooks ==>
          hooks[id].version >= 1 && hooks[id].value.id == id && hooks[id].value.activeRevision >= 1)
    && (forall id: string, n: nat :: RevisionID(id, n) in revisions <==>
          id in hooks && 1 <= n <= hooks[id].value.activeRevision)
    && (forall id :: id in revisions ==>
          revisions[id].value.hookID == id.hookID && revisions[id].value.number == id.number)
  }

  /** From one revision to the next either the script and its limits stay, or the signing secret does. */
  ghost predicate Inherited(revisions: map<RevisionID, Versioned<HookRevision>>) {
    forall id: string, n: nat :: RevisionID(id, n) in revisions && RevisionID(id, n + 1) in revisions ==>
      Inherits(revisions[RevisionID(id, n)].value, revisions[RevisionID(id, n + 1)].value)
  }

  predicate Inherits(prior: HookRevision, next: HookRevision) {
    next.secret == prior.secret || (next.source == prior.source && next.limits == prior.limits)
  }

  ghost predicate Deliverable(mats: map<JobID, Versioned<Materialization>>, job: JobID) {
    job in mats && mats[job].value.status in {Rendered, Failed}
  }

  ghost predicate MatsOK(mats: map<JobID, Versioned<Materialization>>,
                         revisions: map<RevisionID, Versioned<HookRevision>>) {
    forall job :: job in mats ==> RevisionID(job.hookID, job.revision) in revisions
  }

  /** Every delivery belongs to a rendered or failed materialization, carries its payload, and is in a state that
      occurs. */
  ghost predicate DeliveriesOK(deliveries: map<JobID, Versioned<Delivery>>,
                               mats: map<JobID, Versioned<Materialization>>) {
    forall job :: job in deliveries ==>
      Deliverable(mats, job) && WellFormed(deliveries[job].value)
      && deliveries[job].value.payload == mats[job].value.payload
  }

  ghost predicate CursorsOK(cursors: map<Scope, Versioned<nat>>) {
    forall scope :: scope in cursors ==> cursors[scope].version >= 1
  }

  datatype StorePart = Numbers | Heritage | Renderings | Outbox | Positions

  ghost predicate StoreHolds(store: Store, part: StorePart) {
    match part
    case Numbers => Contiguous(store.hooks, store.revisions)
    case Heritage => Inherited(store.revisions)
    case Renderings => MatsOK(store.mats, store.revisions)
    case Outbox => DeliveriesOK(store.deliveries, store.mats)
    case Positions => CursorsOK(store.cursors)
  }

  /** The store, collection by collection. */
  ghost predicate StoreOK(store: Store) { forall part: StorePart :: StoreHolds(store, part) }

  lemma StoreParts(store: Store)
    requires StoreOK(store)
    ensures Contiguous(store.hooks, store.revisions) && Inherited(store.revisions)
    ensures MatsOK(store.mats, store.revisions) && DeliveriesOK(store.deliveries, store.mats)
    ensures CursorsOK(store.cursors)
  {
    assert StoreHolds(store, Numbers) && StoreHolds(store, Heritage) && StoreHolds(store, Renderings);
    assert StoreHolds(store, Outbox) && StoreHolds(store, Positions);
  }

  // ---- The feed and what has been passed ----

  function LastCursor(events: seq<Event>): nat {
    if events == [] then 0 else events[|events| - 1].cursor
  }

  ghost predicate Ascending(events: seq<Event>) {
    forall i, j :: 0 <= i < j < |events| ==> events[i].cursor < events[j].cursor
  }

  /** The poll that moved the cursor over this event left no listed webhook behind. */
  ghost predicate Passed(store: Store, passed: map<Mark, seq<Hook>>, scope: Scope, event: Event) {
    && Mark(scope, event.cursor) in passed
    && (forall i :: 0 <= i < |passed[Mark(scope, event.cursor)]| ==>
          Matches(passed[Mark(scope, event.cursor)][i], event) ==>
            Finished(store, JobOf(passed[Mark(scope, event.cursor)][i], event)))
  }

  ghost predicate ScopeOK(s: State, scope: Scope) {
    var events := FeedOf(s.feed, scope);
    && Ascending(events)
    && CursorOf(s.store, scope) <= LastCursor(events)
    && (forall i :: 0 <= i < |events| && events[i].cursor <= CursorOf(s.store, scope) ==>
          Passed(s.store, s.passed, scope, events[i]))
  }

  // ---- Snapshots ----

  /** A snapshot that may be stale; as long as the version stands, so does the value. */
  ghost predicate Coherent<K, V>(t: map<K, Versioned<V>>, k: K, snapshot: Versioned<V>) {
    k in t && snapshot.version <= t[k].version && (snapshot.version == t[k].version ==> snapshot == t[k])
  }

  ghost predicate EntriesOK(store: Store, entries: seq<Entry>) {
    forall i :: 0 <= i < |entries| ==> Coherent(store.deliveries, entries[i].job, entries[i].record)
  }

  ghost predicate ClientOK(store: Store, client: Client) {
    match client
    case HasHook(request, hook) =>
      && !request.Register? && Coherent(store.hooks, request.id, hook)
      && 1 <= hook.value.activeRevision <= store.hooks[request.id].value.activeRevision
    case HasRevision(request, hook, prior) =>
      && !request.Register? && Coherent(store.hooks, request.id, hook) && prior.hookID == request.id
      && RevisionID(request.id, hook.value.activeRevision) in store.revisions
      && store.revisions[RevisionID(request.id, hook.value.activeRevision)].value == prior
    case Replaying(request, entries) => EntriesOK(store, entries)
  }

  // ---- The dispatcher ----

  ghost predicate Known(store: Store, hook: Hook) {
    hook.id in store.hooks && 1 <= hook.activeRevision <= store.hooks[hook.id].value.activeRevision
  }

  /** The poll holds the cursor as it is, and its events are the next ones of the feed. */
  ghost predicate PollOK(s: State, p: Poll) {
    var events := FeedOf(s.feed, p.scope);
    && Expects(s.store.cursors, p.scope, p.version)
    && p.at + |p.events| <= |events| && events[p.at..p.at + |p.events|] == p.events
    && forall after: bool :: Divides(events, p.at, CursorOf(s.store, p.scope), after)
  }

  /** The events before a position are up to the cursor, and those from it on are after it. */
  ghost predicate Divides(events: seq<Event>, at: nat, cursor: nat, after: bool)
    requires at <= |events|
  {
    if after then forall i :: at <= i < |events| ==> cursor < events[i].cursor
    else forall i :: 0 <= i < at ==> events[i].cursor <= cursor
  }

  lemma PollParts(s: State, p: Poll)
    requires PollOK(s, p)
    ensures var events := FeedOf(s.feed, p.scope);
            && (forall i :: 0 <= i < p.at ==> events[i].cursor <= CursorOf(s.store, p.scope))
            && (forall i :: p.at <= i < |events| ==> CursorOf(s.store, p.scope) < events[i].cursor)
  {
    var events, cursor := FeedOf(s.feed, p.scope), CursorOf(s.store, p.scope);
    assert Divides(events, p.at, cursor, false) && Divides(events, p.at, cursor, true);
  }

  /** The webhooks before the next one are done with the event. */
  ghost predicate HooksOK(store: Store, p: Poll) {
    p.events != [] && p.next <= |p.listed| && forall i: nat :: HookOK(store, p, i)
  }

  /** The listed webhook is known and, if it comes before the next one, done with the event. */
  ghost predicate HookOK(store: Store, p: Poll, i: nat)
    requires p.events != []
  {
    && (i < |p.listed| ==> Known(store, p.listed[i]))
    && (i < p.next && i < |p.listed| && Matches(p.listed[i], p.events[0]) ==>
          Finished(store, JobOf(p.listed[i], p.events[0])))
  }

  lemma HookParts(store: Store, p: Poll)
    requires HooksOK(store, p)
    ensures forall i :: 0 <= i < |p.listed| ==> Known(store, p.listed[i])
    ensures forall i :: 0 <= i < p.next ==> Matches(p.listed[i], p.events[0]) ==>
              Finished(store, JobOf(p.listed[i], p.events[0]))
  {
    forall i | 0 <= i < |p.listed| ensures Known(store, p.listed[i]) { assert HookOK(store, p, i); }
    forall i | 0 <= i < p.next && Matches(p.listed[i], p.events[0])
      ensures Finished(store, JobOf(p.listed[i], p.events[0]))
    {
      assert HookOK(store, p, i);
    }
  }

  predicate AtAnyHook(w: Work) {
    w.AtHook? || w.AtMaterialization? || w.AtMissing? || w.AtReload? || w.AtTransform? || w.AtDelivery?
  }

  predicate IsPolling(w: Work) { w.AtEvent? || AtAnyHook(w) }

  predicate IsDraining(w: Work) { w.Draining? || w.Sent? || w.Replied? }

  /** What the dispatcher is about to do fits the materialization on record. */
  ghost predicate StageOK(store: Store, w: Work)
    requires AtAnyHook(w) && !w.AtHook? && AtOneHook(w.poll)
  {
    var job := JobAt(w.poll);
    && (w.AtTransform? ==> job in store.mats && store.mats[job] == w.record && w.record.value.status.Stored?)
    && (w.AtDelivery? ==> Deliverable(store.mats, job) && w.delivery.payload == store.mats[job].value.payload
                          && WellFormed(w.delivery) && w.delivery.attempts == 0)
  }

  ghost predicate WorkOK(s: State) { forall w: Work :: w == s.work ==> WorkFits(s, w) }

  ghost predicate WorkFits(s: State, w: Work) {
    && (w.HasCursor? ==> Expects(s.store.cursors, w.scope, w.version) && w.cursor == CursorOf(s.store, w.scope))
    && (IsPolling(w) ==> PollOK(s, w.poll))
    && (AtAnyHook(w) ==> HooksOK(s.store, w.poll))
    && (AtAnyHook(w) && !w.AtHook? ==> AtOneHook(w.poll) && StageOK(s.store, w))
    && (IsDraining(w) ==> EntriesOK(s.store, w.drain.entries))
    && (w.Sent? || w.Replied? ==>
        w.drain.entries != [] && IsDue(w.drain.entries[0].record.value, if w.Sent? then s.now else w.at))
    && (w.Replied? ==> w.at <= s.now)
  }

  // ---- Tallies ----

  /** The job of the request that is out, if any. */
  function InFlight(work: Work): Option<JobID> {
    if (work.Sent? || work.Replied?) && work.drain.entries != [] then Some(work.drain.entries[0].job) else None
  }

  /** How long after the first failure the next attempt is at the earliest. */
  function Spacing(attempts: nat): nat { (Power2(attempts + 1) - 2) * SECOND }

  ghost predicate Timely(d: Delivery, tally: Tally) {
    && (d.status.Retry? ==> d.nextAttemptAt >= tally.firstFailure + Spacing(d.attempts))
    && (d.status.Dead? && d.stage.DeliveryStage? ==> tally.lastFailure >= tally.firstFailure + 254 * SECOND)
  }

  function AttemptsOf(store: Store, job: JobID): nat {
    if job in store.deliveries then store.deliveries[job].value.attempts else 0
  }

  ghost predicate TallyOK(store: Store, work: Work, tally: Tally, job: JobID) {
    && tally.posts == tally.recorded + tally.lost + (if InFlight(work) == Some(job) then 1 else 0)
    && tally.recorded <= MAX_ATTEMPTS * tally.replays + AttemptsOf(store, job)
    && (job in store.deliveries ==> Timely(store.deliveries[job].value, tally))
  }

  ghost predicate TalliesOK(s: State) {
    forall job :: TallyOK(s.store, s.work, TallyOf(s.tallies, job), job)
  }

  /** The invariant, part by part. */
  datatype Part = InStore | InScope(scope: Scope) | AtWork | OnCall(client: nat) | InTally(job: JobID)

  ghost predicate Holds(s: State, part: Part) {
    match part
    case InStore => StoreOK(s.store)
    case InScope(scope) => ScopeOK(s, scope)
    case AtWork => WorkOK(s)
    case OnCall(c) => c in s.clients ==> ClientOK(s.store, s.clients[c])
    case InTally(job) => TallyOK(s.store, s.work, TallyOf(s.tallies, job), job)
  }

  ghost predicate Inv(s: State) { forall part: Part :: Holds(s, part) }

  ghost predicate ClientsOK(s: State) {
    forall c :: c in s.clients ==> ClientOK(s.store, s.clients[c])
  }

  ghost predicate ScopesOK(s: State) {
    forall scope :: ScopeOK(s, scope)
  }

  lemma Parts(s: State)
    requires Inv(s)
    ensures StoreOK(s.store) && ScopesOK(s) && WorkOK(s) && WorkFits(s, s.work) && ClientsOK(s) && TalliesOK(s)
  {
    assert Holds(s, InStore) && Holds(s, AtWork);
    forall scope ensures ScopeOK(s, scope) { assert Holds(s, InScope(scope)); }
    forall c | c in s.clients ensures ClientOK(s.store, s.clients[c]) { assert Holds(s, OnCall(c)); }
    forall job ensures TallyOK(s.store, s.work, TallyOf(s.tallies, job), job) { assert Holds(s, InTally(job)); }
  }

  lemma Whole(s: State)
    requires StoreOK(s.store) && ScopesOK(s) && WorkOK(s) && ClientsOK(s) && TalliesOK(s)
    ensures Inv(s)
  {
    forall part: Part
      ensures Holds(s, part)
    {
      if part.InScope? {
        assert ScopeOK(s, part.scope);
      } else if part.InTally? {
        assert TallyOK(s.store, s.work, TallyOf(s.tallies, part.job), part.job);
      }
    }
  }

  // ---- How the store changes ----

  ghost predicate Grows<K, V>(before: map<K, Versioned<V>>, after: map<K, Versioned<V>>) {
    forall k :: k in before ==> k in after && (after[k] == before[k] || after[k].version > before[k].version)
  }

  ghost predicate HooksExtend(before: map<string, Versioned<Hook>>, after: map<string, Versioned<Hook>>) {
    Grows(before, after)
    && (forall id :: id in before ==> before[id].value.activeRevision <= after[id].value.activeRevision)
  }

  ghost predicate RevisionsExtend(before: map<RevisionID, Versioned<HookRevision>>,
                                  after: map<RevisionID, Versioned<HookRevision>>) {
    forall id :: id in before ==> id in after && after[id] == before[id]
  }

  /** Materializations stay, and once settled they do not change. */
  ghost predicate MatsExtend(before: map<JobID, Versioned<Materialization>>,
                             after: map<JobID, Versioned<Materialization>>) {
    forall job :: job in before ==> job in after && (before[job].value.status.Stored? || after[job] == before[job])
  }

  /** Deliveries stay, and once completed they do not change. */
  ghost predicate DeliveriesExtend(before: map<JobID, Versioned<Delivery>>, after: map<JobID, Versioned<Delivery>>) {
    Grows(before, after)
    && (forall job :: job in before && before[job].value.status.Completed? ==> after[job] == before[job])
  }

  ghost predicate CursorsExtend(before: map<Scope, Versioned<nat>>, after: map<Scope, Versioned<nat>>) {
    forall scope :: scope in before ==> scope in after && before[scope].value <= after[scope].value
  }

  datatype Collection = Webhooks | Revisions | Materializations | Deliveries | Cursors

  ghost predicate ExtendsIn(before: Store, after: Store, c: Collection) {
    match c
    case Webhooks => HooksExtend(before.hooks, after.hooks)
    case Revisions => RevisionsExtend(before.revisions, after.revisions)
    case Materializations => MatsExtend(before.mats, after.mats)
    case Deliveries => DeliveriesExtend(before.deliveries, after.deliveries)
    case Cursors => CursorsExtend(before.cursors, after.cursors)
  }

  /** What no step undoes, in any collection. */
  ghost predicate Extends(before: Store, after: Store) { forall c: Collection :: ExtendsIn(before, after, c) }

  lemma InEach(before: Store, after: Store)
    requires Extends(before, after)
    ensures HooksExtend(before.hooks, after.hooks) && RevisionsExtend(before.revisions, after.revisions)
    ensures MatsExtend(before.mats, after.mats) && DeliveriesExtend(before.deliveries, after.deliveries)
    ensures CursorsExtend(before.cursors, after.cursors)
  {
    assert ExtendsIn(before, after, Webhooks) && ExtendsIn(before, after, Revisions);
    assert ExtendsIn(before, after, Materializations) && ExtendsIn(before, after, Deliveries)
           && ExtendsIn(before, after, Cursors);
  }

  lemma ExtendsItself(store: Store)
    ensures Extends(store, store)
  {}

  lemma ExtendsTransitive(a: Store, b: Store, c: Store)
    requires Extends(a, b) && Extends(b, c)
    ensures Extends(a, c)
  {
    InEach(a, b);
    InEach(b, c);
  }

  lemma EntriesStay(before: Store, after: Store, entries: seq<Entry>)
    requires Grows(before.deliveries, after.deliveries) && EntriesOK(before, entries)
    ensures EntriesOK(after, entries)
  {}

  lemma ClientsStay(before: Store, after: Store, clients: map<nat, Client>)
    requires HooksExtend(before.hooks, after.hooks) && RevisionsExtend(before.revisions, after.revisions)
    requires Grows(before.deliveries, after.deliveries)
    requires forall c :: c in clients ==> ClientOK(before, clients[c])
    ensures forall c :: c in clients ==> ClientOK(after, clients[c])
  {
    forall c | c in clients
      ensures ClientOK(after, clients[c])
    {
      if clients[c].Replaying? {
        EntriesStay(before, after, clients[c].entries);
      }
    }
  }

  lemma HooksStay(before: Store, after: Store, p: Poll)
    requires Extends(before, after) && HooksOK(before, p)
    ensures HooksOK(after, p)
  {
    InEach(before, after);
    forall i: nat ensures HookOK(after, p, i) { assert HookOK(before, p, i); }
  }

  lemma PollStays(s: State, t: State, p: Poll)
    requires PollOK(s, p) && t.feed == s.feed && t.store.cursors == s.store.cursors
    ensures PollOK(t, p)
  {
    var events, cursor := FeedOf(s.feed, p.scope), CursorOf(s.store, p.scope);
    forall after: bool ensures Divides(events, p.at, cursor, after) {}
  }

  /** Scopes whose cursor does not move keep what they have passed. */
  lemma ScopeStays(s: State, t: State, scope: Scope)
    requires ScopeOK(s, scope) && Extends(s.store, t.store)
    requires t.feed == s.feed && t.passed == s.passed && CursorOf(t.store, scope) == CursorOf(s.store, scope)
    ensures ScopeOK(t, scope)
  {
    InEach(s.store, t.store);
    var events := FeedOf(s.feed, scope);
    forall i | 0 <= i < |events| && events[i].cursor <= CursorOf(t.store, scope)
      ensures Passed(t.store, t.passed, scope, events[i])
    {
      assert Passed(s.store, s.passed, scope, events[i]);
    }
  }

  /** The dispatcher's position survives whatever leaves cursors and materializations alone. */
  lemma WorkStays(s: State, t: State)
    requires WorkFits(s, s.work) && Extends(s.store, t.store) && t.work == s.work && t.feed == s.feed && t.now >= s.now
    requires t.store.cursors == s.store.cursors && t.store.mats == s.store.mats
    ensures WorkFits(t, t.work)
  {
    if IsPolling(s.work) {
      PollStays(s, t, s.work.poll);
    }
    if AtAnyHook(s.work) {
      HooksStay(s.store, t.store, s.work.poll);
    }
    if IsDraining(s.work) {
      InEach(s.store, t.store);
      EntriesStay(s.store, t.store, s.work.drain.entries);
    }
  }

  // ---- Moves of the dispatcher that change nothing else ----

  lemma MoveKeeps(s: State, t: State)
    requires Inv(s) && t == s.(work := t.work) && WorkOK(t) && InFlight(t.work) == InFlight(s.work)
    ensures Inv(t)
  {
    Parts(s);
    forall job
      ensures TallyOK(t.store, t.work, TallyOf(t.tallies, job), job)
    {
      assert TallyOK(s.store, s.work, TallyOf(s.tallies, job), job);
    }
    forall scope
      ensures ScopeOK(t, scope)
    {
      ExtendsItself(s.store);
      ScopeStays(s, t, scope);
    }
  }

  lemma RestKeeps(s: State)
    requires Inv(s) && InFlight(s.work).None?
    ensures Inv(s.(work := Resting))
  {
    Parts(s);
    MoveKeeps(s, s.(work := Resting));
  }

  lemma {:induction false} FirstAfterSplits(events: seq<Event>, cursor: nat)
    requires Ascending(events)
    ensures var k := FirstAfter(events, cursor);
            && k <= |events|
            && (forall i :: 0 <= i < k ==> events[i].cursor <= cursor)
            && (forall i :: k <= i < |events| ==> cursor < events[i].cursor)
  {
    if events != [] && events[0].cursor <= cursor {
      assert Ascending(events[1..]);
      FirstAfterSplits(events[1..], cursor);
      var k := FirstAfter(events, cursor);
      forall i | 0 <= i < k
        ensures events[i].cursor <= cursor
      {
        if i > 0 { assert events[i] == events[1..][i - 1]; }
      }
      forall i | k <= i < |events|
        ensures cursor < events[i].cursor
      {
        assert events[i] == events[1..][i - 1];
      }
    }
  }

  lemma PageIsNext(s: State, scope: Scope, cursor: nat, version: nat)
    requires ScopeOK(s, scope) && Expects(s.store.cursors, scope, version) && cursor == CursorOf(s.store, scope)
    ensures var events := FeedOf(s.feed, scope);
            var from := FirstAfter(events, cursor);
            from <= |events| && PollOK(s, Poll(scope, version, from, events[from..EndOfPage(events, from)], [], 0))
  {
    FirstAfterSplits(FeedOf(s.feed, scope), cursor);
  }

  lemma ReadChanges(s: State, input: Input)
    requires Inv(s) && s.work.HasCursor?
    ensures Inv(DispatchStep(s, input)) && DispatchStep(s, input).store == s.store
  {
    Parts(s);
    PageIsNext(s, s.work.scope, s.work.cursor, s.work.version);
    MoveKeeps(s, DispatchStep(s, input));
  }

  lemma ListStep(s: State, hooks: seq<Hook>)
    requires s.work.AtEvent?
    ensures var poll := s.work.poll;
            DispatchStep(s, Hooks(hooks)) ==
            s.(work := if poll.events == [] then Resting else AtHook(poll.(listed := hooks, next := 0)))
  {}

  lemma ListHooks(s: State, hooks: seq<Hook>)
    requires Inv(s) && s.work.AtEvent? && IsHookListing(hooks, s.store)
    ensures Inv(DispatchStep(s, Hooks(hooks))) && DispatchStep(s, Hooks(hooks)).store == s.store
  {
    ListStep(s, hooks);
    var t := DispatchStep(s, Hooks(hooks));
    assert WorkOK(t) by {
      Parts(s);
      if t.work.AtHook? {
        ListedHooks(s.store, t.work.poll);
        PollStays(s, t, t.work.poll);
      }
    }
    MoveKeeps(s, t);
  }

  lemma ListedHooks(store: Store, p: Poll)
    requires StoreOK(store) && IsHookListing(p.listed, store) && p.events != [] && p.next == 0
    ensures HooksOK(store, p)
  {
    StoreParts(store);
    forall i: nat
      ensures HookOK(store, p, i)
    {
      if i < |p.listed| {
        assert store.hooks[p.listed[i].id].value == p.listed[i];
      }
    }
  }

  lemma NextHookKeeps(s: State, p: Poll)
    requires Inv(s) && PollOK(s, p) && HooksOK(s.store, p) && AtOneHook(p) && InFlight(s.work).None?
    requires Matches(HookAt(p), p.events[0]) ==> Finished(s.store, JobAt(p))
    ensures Inv(NextHook(s, p))
  {
    PollStays(s, NextHook(s, p), p);
    NextHookWork(NextHook(s, p), p);
    MoveKeeps(s, NextHook(s, p));
  }

  lemma ProceedKeeps(s: State, p: Poll, revision: HookRevision)
    requires Inv(s) && PollOK(s, p) && HooksOK(s.store, p) && AtOneHook(p) && InFlight(s.work).None?
    requires JobAt(p) in s.store.mats
    ensures Inv(Proceed(s, p, revision, s.store.mats[JobAt(p)]))
  {
    var record := s.store.mats[JobAt(p)];
    if record.value.status.Skipped? {
      NextHookKeeps(s, p);
    } else {
      var t := Proceed(s, p, revision, record);
      PollStays(s, t, p);
      ProceedWork(s, p, revision, t);
      MoveKeeps(s, t);
    }
  }

  lemma ProceedWork(s: State, p: Poll, revision: HookRevision, t: State)
    requires PollOK(t, p) && HooksOK(s.store, p) && AtOneHook(p)
    requires JobAt(p) in s.store.mats && !s.store.mats[JobAt(p)].value.status.Skipped?
    requires t == Proceed(s, p, revision, s.store.mats[JobAt(p)])
    ensures WorkOK(t) && InFlight(t.work).None? && t == s.(work := t.work)
  {}

  // ---- Writes of the dispatcher ----

  /** Inv of a state in which only store, work and tallies may have changed, and the cursors have not. */
  lemma WriteKeeps(s: State, t: State)
    requires Inv(s) && StoreOK(t.store) && Extends(s.store, t.store) && t.store.cursors == s.store.cursors
    requires t.feed == s.feed && t.passed == s.passed && t.clients == s.clients && t.now == s.now
    requires WorkOK(t) && TalliesOK(t)
    ensures Inv(t)
  {
    InEach(s.store, t.store);
    Parts(s);
    forall scope
      ensures ScopeOK(t, scope)
    {
      ScopeStays(s, t, scope);
    }
    ClientsStay(s.store, t.store, s.clients);
  }

  /** Tallies do not care about anything but deliveries and the request in flight. */
  lemma TalliesStay(s: State, t: State)
    requires TalliesOK(s) && t.tallies == s.tallies && t.store.deliveries == s.store.deliveries
    requires InFlight(t.work) == InFlight(s.work)
    ensures TalliesOK(t)
  {
    forall job
      ensures TallyOK(t.store, t.work, TallyOf(t.tallies, job), job)
    {
      assert TallyOK(s.store, s.work, TallyOf(s.tallies, job), job);
    }
  }

  /** Storing a materialization, or settling a stored one. */
  lemma PutMaterialization(store: Store, job: JobID, record: Versioned<Materialization>)
    requires StoreOK(store) && RevisionID(job.hookID, job.revision) in store.revisions
    requires job in store.mats ==> store.mats[job].value.status.Stored?
    ensures var after := store.(mats := store.mats[job := record]); StoreOK(after) && Extends(store, after)
  {
    ExtendsItself(store);
    StoreParts(store);
    SettlingKeepsDeliveries(store.deliveries, store.mats, job, record);
  }

  lemma SettlingKeepsDeliveries(deliveries: map<JobID, Versioned<Delivery>>,
                                mats: map<JobID, Versioned<Materialization>>, job: JobID,
                                record: Versioned<Materialization>)
    requires DeliveriesOK(deliveries, mats) && (job in mats ==> mats[job].value.status.Stored?)
    ensures DeliveriesOK(deliveries, mats[job := record])
  {
    assert job !in deliveries;
  }

  lemma PutDelivery(store: Store, job: JobID, d: Delivery)
    requires StoreOK(store) && job !in store.deliveries && Deliverable(store.mats, job)
    requires WellFormed(d) && d.payload == store.mats[job].value.payload
    ensures var after := store.(deliveries := store.deliveries[job := Versioned(d, 1)]);
            StoreOK(after) && Extends(store, after)
  {
    ExtendsItself(store);
    StoreParts(store);
  }

  lemma JobIsKnown(store: Store, p: Poll)
    requires StoreOK(store) && HooksOK(store, p) && AtOneHook(p)
    ensures RevisionID(HookAt(p).id, HookAt(p).activeRevision) in store.revisions
  {
    assert HookOK(store, p, p.next) && Known(store, p.listed[p.next]);
    StoreParts(store);
  }

  lemma StoreMaterializationKeeps(s: State, p: Poll, revision: HookRevision, context: string)
    requires Inv(s) && s.work == AtMissing(p, revision) && AtOneHook(p)
    ensures var t := StoreMaterialization(s, p, revision, context); Inv(t) && Extends(s.store, t.store)
  {
    Parts(s);
    var t := StoreMaterialization(s, p, revision, context);
    var job := JobAt(p);
    if job in s.store.mats {
      MoveKeeps(s, t);
    } else {
      var record := Versioned(NewMaterialization(context), 1);
      StoreMaterializationParts(s, t, p, job, record);
      TransformWork(t, p, revision, record);
      WriteKeeps(s, t);
    }
  }

  lemma TransformWork(t: State, p: Poll, revision: HookRevision, record: Versioned<Materialization>)
    requires PollOK(t, p) && HooksOK(t.store, p) && AtOneHook(p)
    requires JobAt(p) in t.store.mats && t.store.mats[JobAt(p)] == record && record.value.status.Stored?
    requires t.work == AtTransform(p, revision, record)
    ensures WorkFits(t, t.work)
  {}

  lemma StoreMaterializationParts(s: State, t: State, p: Poll, job: JobID, record: Versioned<Materialization>)
    requires Inv(s) && PollOK(s, p) && HooksOK(s.store, p) && AtOneHook(p) && job == JobAt(p)
    requires job in s.store.mats ==> s.store.mats[job].value.status.Stored?
    requires t.store == s.store.(mats := s.store.mats[job := record]) && t.feed == s.feed && t.tallies == s.tallies
    requires InFlight(s.work).None? && InFlight(t.work).None?
    ensures StoreOK(t.store) && Extends(s.store, t.store) && PollOK(t, p) && HooksOK(t.store, p) && TalliesOK(t)
  {
    Parts(s);
    JobIsKnown(s.store, p);
    PutMaterialization(s.store, job, record);
    HooksStay(s.store, t.store, p);
    PollStays(s, t, p);
    TalliesStay(s, t);
  }

  lemma SettleKeeps(s: State, p: Poll, revision: HookRevision, record: Versioned<Materialization>,
                    outcome: Outcome, t: State)
    requires Inv(s) && s.work == AtTransform(p, revision, record) && AtOneHook(p)
    requires t == SettleMaterialization(s, p, record, outcome)
    ensures Inv(t) && Extends(s.store, t.store)
  {
    Parts(s);
    if Expects(s.store.mats, JobAt(p), record.version) {
      SettleSucceeds(s, p, record, Transformed(record.value, outcome), t);
    } else {
      RestKeeps(s);
      ExtendsItself(s.store);
    }
  }

  lemma SettleSucceeds(s: State, p: Poll, record: Versioned<Materialization>, m: Materialization, t: State)
    requires Inv(s) && s.work.AtTransform? && s.work.poll == p && AtOneHook(p) && !m.status.Stored?
    requires JobAt(p) in s.store.mats && s.store.mats[JobAt(p)] == record && record.value.status.Stored?
    requires t == s.(store := s.store.(mats := s.store.mats[JobAt(p) := Versioned(m, record.version + 1)]),
                     work := t.work)
    requires t.work == if m.status.Skipped? then AtHook(p.(next := p.next + 1))
                       else AtDelivery(p, DeliveryFor(HookAt(p), m, s.now))
    ensures Inv(t) && Extends(s.store, t.store)
  {
    assert PollOK(s, p) && HooksOK(s.store, p) by { Parts(s); }
    StoreMaterializationParts(s, t, p, JobAt(p), Versioned(m, record.version + 1));
    SettledWork(t, p, m, s.now);
    WriteKeeps(s, t);
  }

  lemma SettledWork(t: State, p: Poll, m: Materialization, now: nat)
    requires PollOK(t, p) && HooksOK(t.store, p) && AtOneHook(p)
    requires JobAt(p) in t.store.mats && t.store.mats[JobAt(p)].value == m && !m.status.Stored?
    requires t.work == if m.status.Skipped? then AtHook(p.(next := p.next + 1))
                       else AtDelivery(p, DeliveryFor(HookAt(p), m, now))
    ensures WorkFits(t, t.work)
  {
    if m.status.Skipped? {
      NextHookWork(t, p);
    }
  }

  lemma NextHookWork(t: State, p: Poll)
    requires PollOK(t, p) && HooksOK(t.store, p) && AtOneHook(p)
    requires Matches(HookAt(p), p.events[0]) ==> Finished(t.store, JobAt(p))
    requires t.work == AtHook(p.(next := p.next + 1))
    ensures WorkFits(t, t.work)
  {
    var q := p.(next := p.next + 1);
    forall i: nat ensures HookOK(t.store, q, i) { assert HookOK(t.store, p, i); }
    assert PollOK(t, q) by { PollParts(t, p); }
  }

  lemma CreateDeliveryKeeps(s: State, p: Poll, d: Delivery, t: State)
    requires Inv(s) && s.work == AtDelivery(p, d) && AtOneHook(p) && t == CreateDelivery(s, p, d)
    ensures Inv(t) && Extends(s.store, t.store)
  {
    Parts(s);
    if JobAt(p) in s.store.deliveries {
      NextHookKeeps(s, p);
      ExtendsItself(s.store);
    } else {
      CreateSucceeds(s, p, d, t);
    }
  }

  lemma CreateSucceeds(s: State, p: Poll, d: Delivery, t: State)
    requires Inv(s) && s.work == AtDelivery(p, d) && AtOneHook(p) && JobAt(p) !in s.store.deliveries
    requires t == s.(store := s.store.(deliveries := s.store.deliveries[JobAt(p) := Versioned(d, 1)]),
                     work := AtHook(p.(next := p.next + 1)))
    ensures Inv(t) && Extends(s.store, t.store)
  {
    var job := JobAt(p);
    Parts(s);
    PutDelivery(s.store, job, d);
    HooksStay(s.store, t.store, p);
    PollStays(s, t, p);
    NextHookWork(t, p);
    CreatedTallies(s, t, job, d);
    WriteKeeps(s, t);
  }

  lemma CreatedTallies(s: State, t: State, job: JobID, d: Delivery)
    requires TalliesOK(s) && job !in s.store.deliveries && WellFormed(d) && d.attempts == 0
    requires t.store.deliveries == s.store.deliveries[job := Versioned(d, 1)] && t.tallies == s.tallies
    requires InFlight(s.work).None? && InFlight(t.work).None?
    ensures TalliesOK(t)
  {
    forall other
      ensures TallyOK(t.store, t.work, TallyOf(t.tallies, other), other)
    {
      assert TallyOK(s.store, s.work, TallyOf(s.tallies, other), other);
    }
  }

  lemma SaveCursorKeeps(s: State, p: Poll)
    requires Inv(s) && s.work == AtHook(p) && p.next >= |p.listed| && p.events != []
    ensures var t := SaveCursor(s, p); Inv(t) && Extends(s.store, t.store) && t.work.AtEvent?
  {
    Parts(s);
    var t := SaveCursor(s, p);
    var event := p.events[0];
    var events := FeedOf(s.feed, p.scope);
    assert ScopeOK(s, p.scope);
    assert events[p.at] == events[p.at..p.at + |p.events|][0] == event;
    SaveCursorExtends(s, p);
    forall scope
      ensures ScopeOK(t, scope)
    {
      assert ScopeOK(s, scope);
      if scope == p.scope {
        SaveCursorPasses(s, p);
      } else {
        SaveCursorElsewhere(s, p, scope);
      }
    }
    TalliesStay(s, t);
    InEach(s.store, t.store);
    ClientsStay(s.store, t.store, s.clients);
    SaveCursorPoll(s, p);
  }

  lemma SaveCursorExtends(s: State, p: Poll)
    requires StoreOK(s.store) && PollOK(s, p) && p.events != [] && ScopeOK(s, p.scope)
    ensures var t := SaveCursor(s, p); StoreOK(t.store) && Extends(s.store, t.store)
  {
    var events := FeedOf(s.feed, p.scope);
    assert events[p.at] == events[p.at..p.at + |p.events|][0] == p.events[0];
    PollParts(s, p);
    StoreParts(s.store);
  }

  lemma SaveCursorPoll(s: State, p: Poll)
    requires PollOK(s, p) && p.events != [] && Ascending(FeedOf(s.feed, p.scope))
    ensures var t := SaveCursor(s, p); t.work.AtEvent? && WorkFits(t, t.work)
  {
    var events := FeedOf(s.feed, p.scope);
    var q := SaveCursor(s, p).work.poll;
    PollParts(s, p);
    assert events[p.at] == events[p.at..p.at + |p.events|][0] == p.events[0];
    assert events[q.at..q.at + |q.events|] == events[p.at..p.at + |p.events|][1..];
  }

  lemma SaveCursorElsewhere(s: State, p: Poll, scope: Scope)
    requires ScopeOK(s, scope) && scope != p.scope && p.events != []
    ensures ScopeOK(SaveCursor(s, p), scope)
  {
    var t := SaveCursor(s, p);
    var events := FeedOf(s.feed, scope);
    forall i | 0 <= i < |events| && events[i].cursor <= CursorOf(s.store, scope)
      ensures Passed(t.store, t.passed, scope, events[i])
    {
      assert Passed(s.store, s.passed, scope, events[i]);
    }
  }

  lemma SaveCursorPasses(s: State, p: Poll)
    requires Inv(s) && s.work == AtHook(p) && p.next >= |p.listed| && p.events != []
    ensures ScopeOK(SaveCursor(s, p), p.scope)
  {
    Parts(s);
    PollParts(s, p);
    HookParts(s.store, p);
    var t := SaveCursor(s, p);
    var event := p.events[0];
    var events := FeedOf(s.feed, p.scope);
    assert ScopeOK(s, p.scope);
    assert events[p.at] == events[p.at..p.at + |p.events|][0] == event;
    forall i | 0 <= i < |events| && events[i].cursor <= CursorOf(t.store, p.scope)
      ensures Passed(t.store, t.passed, p.scope, events[i])
    {
      if i < p.at {
        assert Passed(s.store, s.passed, p.scope, events[i]);
        assert events[i].cursor < event.cursor;
      }
    }
  }

  // ---- Deliveries ----

  lemma Doublings(n: nat)
    requires n <= 8
    ensures Power2(n) == [1, 2, 4, 8, 16, 32, 64, 128, 256][n]
  {
    if n > 0 { Doublings(n - 1); }
  }

  /** Each failure pushes the next attempt out so far that the eighth comes 254 seconds after the first. */
  lemma AttemptSpacing(d: Delivery, tally: Tally, response: Response, at: nat)
    requires WellFormed(d) && IsDue(d, at) && Timely(d, tally)
    ensures var tried := Attempted(d, response, at); Timely(tried, Noted(tally, d, tried, at)) && WellFormed(tried)
  {
    Doublings(d.attempts + 1);
    if d.attempts < 7 { Doublings(d.attempts + 2); }
  }

  /** Overwriting a delivery that is not completed with a later state of it. */
  lemma OverwriteDelivery(store: Store, e: Entry, d: Delivery, after: Store)
    requires StoreOK(store) && e.job in store.deliveries && store.deliveries[e.job] == e.record
    requires WellFormed(d) && d.payload == e.record.value.payload && !e.record.value.status.Completed?
    requires after == store.(deliveries := store.deliveries[e.job := Versioned(d, e.record.version + 1)])
    ensures StoreOK(after) && Extends(store, after)
  {
    ExtendsItself(store);
    InEach(store, store);
    StoreParts(store);
    Overwrites(store.deliveries, store.mats, e.job, d, after.deliveries);
  }

  lemma Overwrites(deliveries: map<JobID, Versioned<Delivery>>, mats: map<JobID, Versioned<Materialization>>,
                   job: JobID, d: Delivery,
                   after: map<JobID, Versioned<Delivery>>)
    requires DeliveriesOK(deliveries, mats) && job in deliveries && !deliveries[job].value.status.Completed?
    requires WellFormed(d) && d.payload == deliveries[job].value.payload
    requires after == deliveries[job := Versioned(d, deliveries[job].version + 1)]
    ensures DeliveriesOK(after, mats) && DeliveriesExtend(deliveries, after)
  {}

  lemma RetallyKeeps(s: State, t: State)
    requires Inv(s) && t == s.(work := t.work, tallies := t.tallies) && WorkOK(t) && TalliesOK(t)
    ensures Inv(t)
  {
    Parts(s);
    ExtendsItself(s.store);
    WriteKeeps(s, t);
  }

  lemma SendKeeps(s: State, drain: Drain, t: State)
    requires Inv(s) && s.work == Draining(drain) && t == LookAtDelivery(s, drain)
    ensures Inv(t) && t.store == s.store
  {
    if drain.entries == [] || drain.delivered == drain.limit {
      RestKeeps(s);
    } else {
      var e := drain.entries[0];
      if !IsDue(e.record.value, s.now) {
        SkipKeeps(s, drain, t);
      } else if RevisionID(e.job.hookID, e.job.revision) !in s.store.revisions {
        RestKeeps(s);
      } else {
        SentKeeps(s, drain, t);
      }
    }
  }

  lemma SentKeeps(s: State, drain: Drain, t: State)
    requires Inv(s) && s.work == Draining(drain) && drain.entries != [] && t == LookAtDelivery(s, drain)
    requires t.work == Sent(drain)
    ensures Inv(t)
  {
    assert TalliesOK(t) by {
      Parts(s);
      SendTallies(s, drain, t);
    }
    assert EntriesOK(s.store, drain.entries) by { Parts(s); }
    SentWork(s, drain, t);
    RetallyKeeps(s, t);
  }

  lemma SentWork(s: State, drain: Drain, t: State)
    requires EntriesOK(s.store, drain.entries) && drain.entries != [] && t == LookAtDelivery(s, drain)
    requires t.work == Sent(drain)
    ensures t == s.(work := t.work, tallies := t.tallies) && WorkFits(t, t.work)
  {}

  lemma SkipKeeps(s: State, drain: Drain, t: State)
    requires Inv(s) && s.work == Draining(drain) && drain.entries != [] && t == SkipEntry(s, drain)
    ensures Inv(t)
  {
    Parts(s);
    MoveKeeps(s, t);
  }

  lemma SendTallies(s: State, drain: Drain, t: State)
    requires TalliesOK(s) && InFlight(s.work).None? && drain.entries != [] && t.work == Sent(drain)
    requires t.store == s.store
    requires var job := drain.entries[0].job;
             var tally := TallyOf(s.tallies, job);
             t.tallies == s.tallies[job := tally.(posts := tally.posts + 1)]
    ensures TalliesOK(t)
  {
    forall job
      ensures TallyOK(t.store, t.work, TallyOf(t.tallies, job), job)
    {
      assert TallyOK(s.store, s.work, TallyOf(s.tallies, job), job);
    }
  }

  lemma DropKeeps(s: State)
    requires Inv(s)
    ensures Inv(DropWork(s)) && DropWork(s).store == s.store
  {
    var t := DropWork(s);
    assert TalliesOK(t) by {
      Parts(s);
      DropTallies(s);
    }
    DropFrame(s, t);
    RetallyKeeps(s, t);
  }

  /** What dropping the work does to one tally. */
  lemma DroppedTally(s: State, job: JobID, t: State)
    requires t == DropWork(s)
    ensures t.store == s.store && InFlight(t.work).None?
    ensures var tally := TallyOf(s.tallies, job);
            TallyOf(t.tallies, job) == if InFlight(s.work) == Some(job) then tally.(lost := tally.lost + 1) else tally
  {
    DropIs(s);
  }

  lemma DropIs(s: State)
    ensures InFlight(s.work).None? ==> DropWork(s) == s.(work := Resting)
    ensures InFlight(s.work).Some? ==>
              var job := InFlight(s.work).value;
              var tally := TallyOf(s.tallies, job);
              DropWork(s) == s.(work := Resting, tallies := s.tallies[job := tally.(lost := tally.lost + 1)])
  {}

  lemma DropTallies(s: State)
    requires TalliesOK(s)
    ensures TalliesOK(DropWork(s))
  {
    var t := DropWork(s);
    forall job
      ensures TallyOK(t.store, t.work, TallyOf(t.tallies, job), job)
    {
      DroppedTally(s, job, t);
      assert TallyOK(s.store, s.work, TallyOf(s.tallies, job), job);
    }
  }

  lemma DropFrame(s: State, t: State)
    requires t == DropWork(s)
    ensures t == s.(work := Resting, tallies := t.tallies) && WorkOK(t)
  {}

  lemma RecordKeeps(s: State, drain: Drain, response: Response, at: nat, t: State)
    requires Inv(s) && s.work == Replied(drain, response, at) && drain.entries != []
    requires t == RecordAttempt(s, drain, response, at)
    ensures Inv(t) && Extends(s.store, t.store)
  {
    var e := drain.entries[0];
    if !Expects(s.store.deliveries, e.job, e.record.version) {
      DropKeeps(s);
      ExtendsItself(s.store);
    } else {
      StillCurrent(s, drain, response, at);
      Parts(s);
      RecordExtends(s, drain, response, at, t);
      RecordSucceeds(s, drain, response, at, t);
    }
  }

  lemma StillCurrent(s: State, drain: Drain, response: Response, at: nat)
    requires Inv(s) && s.work == Replied(drain, response, at) && drain.entries != []
    requires Expects(s.store.deliveries, drain.entries[0].job, drain.entries[0].record.version)
    ensures Current(s.store, drain.entries[0]) && IsDue(drain.entries[0].record.value, at)
  {
    Parts(s);
    assert Coherent(s.store.deliveries, drain.entries[0].job, drain.entries[0].record);
  }

  lemma RecordExtends(s: State, drain: Drain, response: Response, at: nat, t: State)
    requires StoreOK(s.store) && drain.entries != [] && t == RecordAttempt(s, drain, response, at)
    requires Current(s.store, drain.entries[0]) && IsDue(drain.entries[0].record.value, at)
    ensures StoreOK(t.store) && Extends(s.store, t.store)
  {
    var e := drain.entries[0];
    assert WellFormed(e.record.value) by { StoreParts(s.store); }
    AttemptMoves(e.record.value, response, at);
    OverwriteDelivery(s.store, e, Attempted(e.record.value, response, at), t.store);
  }

  lemma RecordSucceeds(s: State, drain: Drain, response: Response, at: nat, t: State)
    requires Inv(s) && s.work == Replied(drain, response, at) && drain.entries != []
    requires t == RecordAttempt(s, drain, response, at)
    requires Current(s.store, drain.entries[0]) && IsDue(drain.entries[0].record.value, at)
    requires StoreOK(t.store) && Extends(s.store, t.store)
    ensures Inv(t)
  {
    assert TalliesOK(t) by {
      Parts(s);
      StoreParts(s.store);
      RecordTallies(s, drain, response, at);
    }
    assert EntriesOK(s.store, drain.entries) by { Parts(s); }
    RecordFrame(s, drain, response, at, t);
    InEach(s.store, t.store);
    EntriesStay(s.store, t.store, drain.entries);
    RecordWork(t, drain);
    WriteKeeps(s, t);
  }

  lemma RecordFrame(s: State, drain: Drain, response: Response, at: nat, t: State)
    requires drain.entries != [] && Current(s.store, drain.entries[0]) && t == RecordAttempt(s, drain, response, at)
    ensures t.store.cursors == s.store.cursors && t.feed == s.feed && t.passed == s.passed && t.clients == s.clients
    ensures t.now == s.now
    ensures t.work == Draining(Drain(drain.entries[1..], drain.delivered + 1, drain.limit))
  {}

  /** The record is in the store as it was listed, and the write that expects it goes through. */
  ghost predicate Current(store: Store, e: Entry) {
    e.job in store.deliveries && Expects(store.deliveries, e.job, e.record.version)
    && store.deliveries[e.job] == e.record
  }

  lemma RecordWork(t: State, drain: Drain)
    requires EntriesOK(t.store, drain.entries) && drain.entries != []
    requires t.work == Draining(Drain(drain.entries[1..], drain.delivered + 1, drain.limit))
    ensures WorkFits(t, t.work)
  {}

  /** The tally and the record of the delivery that was tried. */
  lemma RecordedTally(s: State, drain: Drain, response: Response, at: nat, t: State)
    requires drain.entries != [] && Current(s.store, drain.entries[0]) && t == RecordAttempt(s, drain, response, at)
    ensures var e := drain.entries[0];
            var tried := Attempted(e.record.value, response, at);
            && t.store.deliveries == s.store.deliveries[e.job := Versioned(tried, e.record.version + 1)]
            && t.tallies == s.tallies[e.job := Noted(TallyOf(s.tallies, e.job), e.record.value, tried, at)]
            && InFlight(t.work).None?
  {}

  lemma TriedTally(store: Store, work: Work, e: Entry, tally: Tally, response: Response, at: nat, after: Store)
    requires TallyOK(store, work, tally, e.job) && InFlight(work) == Some(e.job)
    requires Current(store, e) && WellFormed(e.record.value) && IsDue(e.record.value, at)
    requires var tried := Attempted(e.record.value, response, at);
             after.deliveries == store.deliveries[e.job := Versioned(tried, e.record.version + 1)]
    ensures var tried := Attempted(e.record.value, response, at);
            TallyOK(after, Resting, Noted(tally, e.record.value, tried, at), e.job)
  {
    AttemptSpacing(e.record.value, tally, response, at);
  }

  lemma RecordTallies(s: State, drain: Drain, response: Response, at: nat)
    requires TalliesOK(s) && DeliveriesOK(s.store.deliveries, s.store.mats) && s.work == Replied(drain, response, at)
    requires drain.entries != []
    requires Current(s.store, drain.entries[0]) && IsDue(drain.entries[0].record.value, at)
    ensures TalliesOK(RecordAttempt(s, drain, response, at))
  {
    var e := drain.entries[0];
    var t := RecordAttempt(s, drain, response, at);
    RecordedTally(s, drain, response, at, t);
    forall job
      ensures TallyOK(t.store, t.work, TallyOf(t.tallies, job), job)
    {
      assert TallyOK(s.store, s.work, TallyOf(s.tallies, job), job);
      if job == e.job {
        TriedTally(s.store, s.work, e, TallyOf(s.tallies, job), response, at, t.store);
      }
    }
  }

  // ---- Any step of the dispatcher ----

  lemma LookAtHookKeeps(s: State, p: Poll)
    requires Inv(s) && s.work == AtHook(p) && AtOneHook(p)
    ensures Inv(LookAtHook(s, p)) && LookAtHook(s, p).store == s.store
  {
    Parts(s);
    if !Matches(HookAt(p), p.events[0]) {
      NextHookKeeps(s, p);
    } else {
      JobIsKnown(s.store, p);
      MoveKeeps(s, LookAtHook(s, p));
    }
  }

  lemma MaterializationKeeps(s: State, p: Poll, revision: HookRevision, input: Input, t: State)
    requires Inv(s) && s.work == AtMaterialization(p, revision) && AtOneHook(p) && t == DispatchStep(s, input)
    ensures Inv(t) && t.store == s.store
  {
    Parts(s);
    if JobAt(p) in s.store.mats {
      ProceedKeeps(s, p, revision);
    } else {
      MoveKeeps(s, t);
    }
  }

  lemma ReloadKeeps(s: State, p: Poll, revision: HookRevision, input: Input, t: State)
    requires Inv(s) && s.work == AtReload(p, revision) && AtOneHook(p) && t == DispatchStep(s, input)
    ensures Inv(t) && t.store == s.store
  {
    Parts(s);
    if JobAt(p) in s.store.mats {
      ProceedKeeps(s, p, revision);
    } else {
      RestKeeps(s);
    }
  }

  lemma StartKeeps(s: State, input: Input, t: State)
    requires Inv(s) && s.work.Resting? && Enabled(s, Dispatch(input)) && t == DispatchStep(s, input)
    ensures Inv(t) && t.store == s.store
  {
    assert WorkOK(t) by {
      Parts(s);
      StoreParts(s.store);
    }
    MoveKeeps(s, t);
  }

  lemma EventKeeps(s: State, input: Input, t: State)
    requires Inv(s) && Enabled(s, Dispatch(input)) && s.work.AtEvent? && t == DispatchStep(s, input)
    ensures Inv(t) && t.store == s.store
  {
    Parts(s);
    if s.work.poll.events == [] {
      RestKeeps(s);
    } else if input.Hooks? {
      ListHooks(s, input.hooks);
    }
  }

  lemma HookKeeps(s: State, input: Input, t: State)
    requires Inv(s) && s.work.AtHook? && t == DispatchStep(s, input)
    ensures Inv(t) && Extends(s.store, t.store)
  {
    Parts(s);
    var p := s.work.poll;
    if p.next >= |p.listed| {
      SaveCursorKeeps(s, p);
    } else {
      LookAtHookKeeps(s, p);
      ExtendsItself(s.store);
    }
  }

  lemma ReplyKeeps(s: State, input: Input, t: State)
    requires Inv(s) && s.work.Sent? && t == DispatchStep(s, input)
    ensures Inv(t) && t.store == s.store
  {
    if input.Reply? {
      RepliedKeeps(s, s.work.drain, input.response, t);
    }
  }

  lemma RepliedKeeps(s: State, drain: Drain, response: Response, t: State)
    requires Inv(s) && s.work == Sent(drain) && t == s.(work := Replied(drain, response, s.now))
    ensures Inv(t)
  {
    Parts(s);
    MoveKeeps(s, t);
  }

  /** The steps between the start of a poll and the end of a walk. */
  lemma PollingKeeps(s: State, input: Input, t: State)
    requires Inv(s) && Enabled(s, Dispatch(input)) && t == DispatchStep(s, input)
    requires s.work.Resting? || s.work.HasCursor? || s.work.AtEvent? || s.work.AtHook?
    ensures Inv(t) && Extends(s.store, t.store)
  {
    ExtendsItself(s.store);
    match s.work {
      case Resting => StartKeeps(s, input, t);
      case HasCursor(_, _, _) => ReadChanges(s, input);
      case AtEvent(_) => EventKeeps(s, input, t);
      case AtHook(_) => HookKeeps(s, input, t);
    }
  }

  lemma DispatchKeeps(s: State, input: Input, t: State)
    requires Inv(s) && Enabled(s, Dispatch(input)) && t == DispatchStep(s, input)
    ensures Inv(t) && Extends(s.store, t.store)
  {
    assert WorkFits(s, s.work) by { Parts(s); }
    ExtendsItself(s.store);
    match s.work {
      case AtMaterialization(p, revision) => MaterializationKeeps(s, p, revision, input, t);
      case AtReload(p, revision) => ReloadKeeps(s, p, revision, input, t);
      case AtMissing(p, revision) =>
        if input.Context? { StoreMaterializationKeeps(s, p, revision, input.context); }
      case AtTransform(p, revision, record) =>
        if input.Ran? { SettleKeeps(s, p, revision, record, input.outcome, t); }
      case AtDelivery(p, d) => CreateDeliveryKeeps(s, p, d, t);
      case Draining(drain) => SendKeeps(s, drain, t);
      case Sent(_) => ReplyKeeps(s, input, t);
      case Replied(drain, response, at) => RecordKeeps(s, drain, response, at, t);
      case _ => PollingKeeps(s, input, t);
    }
  }

  // ---- Service calls ----

  /** A service call may change webhooks, revisions and deliveries, never cursors or materializations. */
  lemma ServiceKeeps(s: State, t: State)
    requires Inv(s) && StoreOK(t.store) && Extends(s.store, t.store)
    requires t.store.cursors == s.store.cursors && t.store.mats == s.store.mats
    requires t.feed == s.feed && t.passed == s.passed && t.work == s.work && t.now == s.now
    requires ClientsOK(t) && TalliesOK(t)
    ensures Inv(t)
  {
    Parts(s);
    WorkStays(s, t);
    forall scope
      ensures ScopeOK(t, scope)
    {
      ScopeStays(s, t, scope);
    }
    Whole(t);
  }

  lemma FewerClientsKeep(s: State, t: State)
    requires Inv(s) && t == s.(clients := t.clients) && ClientsOK(t)
    ensures Inv(t)
  {
    Parts(s);
    ExtendsItself(s.store);
    ServiceKeeps(s, t);
  }

  lemma FinishKeeps(s: State, c: nat)
    requires Inv(s)
    ensures Inv(Finish(s, c))
  {
    Parts(s);
    FewerClientsKeep(s, Finish(s, c));
  }

  /** A change of webhooks and revisions, the rest of the store left alone. */
  lemma HooksChange(store: Store, after: Store)
    requires StoreOK(store) && after == store.(hooks := after.hooks, revisions := after.revisions)
    requires Contiguous(after.hooks, after.revisions) && Inherited(after.revisions)
    requires HooksExtend(store.hooks, after.hooks) && RevisionsExtend(store.revisions, after.revisions)
    ensures StoreOK(after) && Extends(store, after)
  {
    ExtendsItself(store);
    InEach(store, store);
    StoreParts(store);
    assert MatsOK(store.mats, after.revisions);
  }

  lemma AddHook(store: Store, id: string, hook: Hook, revision: HookRevision, after: Store)
    requires StoreOK(store) && id !in store.hooks && hook.id == id && hook.activeRevision == 1
    requires revision.hookID == id && revision.number == 1
    requires after == store.(hooks := store.hooks[id := Versioned(hook, 1)],
                             revisions := store.revisions[RevisionID(id, 1) := Versioned(revision, 1)])
    ensures StoreOK(after) && Extends(store, after)
  {
    StoreParts(store);
    AddContiguous(store.hooks, store.revisions, id, hook, revision);
    AddInherits(store.revisions, id, revision);
    HooksChange(store, after);
  }

  lemma AddContiguous(hooks: map<string, Versioned<Hook>>, revisions: map<RevisionID, Versioned<HookRevision>>,
                      id: string, hook: Hook, revision: HookRevision)
    requires Contiguous(hooks, revisions) && id !in hooks && hook.id == id && hook.activeRevision == 1
    requires revision.hookID == id && revision.number == 1
    ensures forall n: nat :: RevisionID(id, n) !in revisions
    ensures Contiguous(hooks[id := Versioned(hook, 1)], revisions[RevisionID(id, 1) := Versioned(revision, 1)])
  {}

  lemma AddInherits(revisions: map<RevisionID, Versioned<HookRevision>>, id: string, revision: HookRevision)
    requires Inherited(revisions) && forall n: nat :: RevisionID(id, n) !in revisions
    ensures Inherited(revisions[RevisionID(id, 1) := Versioned(revision, 1)])
  {}

  lemma RegisterKeeps(s: State, id: string, r: Registration, secret: string, t: State)
    requires Inv(s) && t == RegisterStep(s, id, r, secret)
    ensures Inv(t) && Extends(s.store, t.store)
  {
    Parts(s);
    if id in s.store.hooks || RevisionID(id, 1) in s.store.revisions {
      ExtendsItself(s.store);
    } else {
      AddHook(s.store, id, NewHook(id, r), HookRevision(id, 1, r.source, r.limits, secret), t.store);
      InEach(s.store, t.store);
      ClientsStay(s.store, t.store, s.clients);
      TalliesStay(s, t);
      ServiceKeeps(s, t);
    }
  }

  lemma CallKeeps(s: State, c: nat, request: Request, t: State)
    requires Inv(s) && t == CallStep(s, c, request)
    ensures Inv(t) && Extends(s.store, t.store)
  {
    ExtendsItself(s.store);
    if c in s.clients {
    } else if request.Register? {
      RegisterKeeps(s, request.id, request.registration, request.secret, t);
    } else if request.id in s.store.hooks {
      assert ClientsOK(t) by {
        Parts(s);
        StoreParts(s.store);
      }
      FewerClientsKeep(s, t);
    }
  }

  /** The record is as it was read, and the write that expects it goes through. */
  lemma HookIsCurrent(store: Store, id: string, hook: Versioned<Hook>)
    requires Coherent(store.hooks, id, hook) && Expects(store.hooks, id, hook.version)
    ensures id in store.hooks && store.hooks[id] == hook
  {}

  lemma EditHook(store: Store, id: string, hook: Versioned<Hook>, changed: Hook, revision: HookRevision, after: Store)
    requires StoreOK(store) && id in store.hooks && store.hooks[id] == hook
    requires changed.id == id && changed.activeRevision == revision.number == hook.value.activeRevision + 1
    requires revision.hookID == id
    requires RevisionID(id, hook.value.activeRevision) in store.revisions
    requires Inherits(store.revisions[RevisionID(id, hook.value.activeRevision)].value, revision)
    requires after == store.(hooks := store.hooks[id := Versioned(changed, hook.version + 1)],
                             revisions := store.revisions[RevisionID(id, revision.number) := Versioned(revision, 1)])
    ensures RevisionID(id, revision.number) !in store.revisions
    ensures StoreOK(after) && Extends(store, after)
  {
    StoreParts(store);
    EditContiguous(store.hooks, store.revisions, id, hook, changed, revision);
    EditInherits(store.revisions, RevisionID(id, hook.value.activeRevision), revision);
    HooksChange(store, after);
  }

  lemma EditContiguous(hooks: map<string, Versioned<Hook>>, revisions: map<RevisionID, Versioned<HookRevision>>,
                       id: string, hook: Versioned<Hook>, changed: Hook, revision: HookRevision)
    requires Contiguous(hooks, revisions) && id in hooks && hooks[id] == hook
    requires changed.id == id && changed.activeRevision == revision.number == hook.value.activeRevision + 1
    requires revision.hookID == id
    ensures RevisionID(id, revision.number) !in revisions
    ensures Contiguous(hooks[id := Versioned(changed, hook.version + 1)],
                       revisions[RevisionID(id, revision.number) := Versioned(revision, 1)])
  {}

  lemma EditInherits(revisions: map<RevisionID, Versioned<HookRevision>>, prior: RevisionID, revision: HookRevision)
    requires Inherited(revisions) && prior in revisions && Inherits(revisions[prior].value, revision)
    requires RevisionID(prior.hookID, prior.number + 1) !in revisions
    requires RevisionID(prior.hookID, prior.number + 2) !in revisions
    ensures Inherited(revisions[RevisionID(prior.hookID, prior.number + 1) := Versioned(revision, 1)])
  {}

  lemma CommitKeeps(s: State, c: nat, request: Request, hook: Versioned<Hook>, prior: HookRevision, t: State)
    requires Inv(s) && (request.Update? || request.RotateSecret?) && t == CommitEdit(s, c, request, hook, prior)
    requires Coherent(s.store.hooks, request.id, hook) && prior.hookID == request.id
    requires RevisionID(request.id, hook.value.activeRevision) in s.store.revisions
    requires s.store.revisions[RevisionID(request.id, hook.value.activeRevision)].value == prior
    ensures Inv(t) && Extends(s.store, t.store)
  {
    var (changed, revision) := Edited(request, hook.value, prior);
    var id := RevisionID(request.id, revision.number);
    if id in s.store.revisions || !Expects(s.store.hooks, request.id, hook.version) {
      FinishKeeps(s, c);
      ExtendsItself(s.store);
    } else {
      Parts(s);
      HookIsCurrent(s.store, request.id, hook);
      assert hook.value.id == request.id by { StoreParts(s.store); }
      EditHook(s.store, request.id, hook, changed, revision, t.store);
      CommitServes(s, c, t);
    }
  }

  lemma CommitServes(s: State, c: nat, t: State)
    requires Inv(s) && StoreOK(t.store) && Extends(s.store, t.store)
    requires t == s.(store := t.store, clients := s.clients - {c})
    requires t.store.cursors == s.store.cursors && t.store.mats == s.store.mats
    requires t.store.deliveries == s.store.deliveries
    ensures Inv(t)
  {
    Parts(s);
    InEach(s.store, t.store);
    ClientsStay(s.store, t.store, s.clients);
    TalliesStay(s, t);
    ServiceKeeps(s, t);
  }

  lemma DisableHook(store: Store, id: string, hook: Versioned<Hook>, after: Store)
    requires StoreOK(store) && id in store.hooks && store.hooks[id] == hook
    requires after == store.(hooks := store.hooks[id := Versioned(hook.value.(enabled := false), hook.version + 1)])
    ensures StoreOK(after) && Extends(store, after)
  {
    ExtendsItself(store);
    StoreParts(store);
  }

  lemma DisableKeeps(s: State, c: nat, id: string, hook: Versioned<Hook>, t: State)
    requires Inv(s) && t == CommitDisable(s, c, id, hook) && Coherent(s.store.hooks, id, hook)
    ensures Inv(t) && Extends(s.store, t.store)
  {
    if !Expects(s.store.hooks, id, hook.version) {
      FinishKeeps(s, c);
      ExtendsItself(s.store);
    } else {
      Parts(s);
      HookIsCurrent(s.store, id, hook);
      DisableHook(s.store, id, hook, t.store);
      CommitServes(s, c, t);
    }
  }

  lemma ReplayKeeps(s: State, c: nat, request: Request, entries: seq<Entry>, t: State)
    requires Inv(s) && EntriesOK(s.store, entries) && t == ReplayNext(s, c, request, entries)
    ensures Inv(t) && Extends(s.store, t.store)
  {
    ExtendsItself(s.store);
    if entries == [] {
      FinishKeeps(s, c);
    } else if !entries[0].record.value.status.Dead? {
      Parts(s);
      FewerClientsKeep(s, t);
    } else if !Expects(s.store.deliveries, entries[0].job, entries[0].record.version) {
      FinishKeeps(s, c);
    } else {
      ReplaySucceeds(s, c, request, entries, t);
    }
  }

  lemma ReplaySucceeds(s: State, c: nat, request: Request, entries: seq<Entry>, t: State)
    requires Inv(s) && EntriesOK(s.store, entries) && t == ReplayNext(s, c, request, entries) && entries != []
    requires entries[0].record.value.status.Dead?
    requires Expects(s.store.deliveries, entries[0].job, entries[0].record.version)
    ensures Inv(t) && Extends(s.store, t.store)
  {
    var e := entries[0];
    Parts(s);
    assert Coherent(s.store.deliveries, e.job, e.record);
    OverwriteDelivery(s.store, e, Replayed(e.record.value, s.now), t.store);
    assert TalliesOK(t) by {
      StoreParts(s.store);
      ReplayTallies(s, c, request, entries, t);
    }
    ReplayClients(s, t, c, request, entries);
    ServiceKeeps(s, t);
  }

  lemma ReplayClients(s: State, t: State, c: nat, request: Request, entries: seq<Entry>)
    requires ClientsOK(s) && EntriesOK(s.store, entries) && entries != [] && Extends(s.store, t.store)
    requires t.clients == s.clients[c := Replaying(request, entries[1..])]
    ensures ClientsOK(t)
  {
    InEach(s.store, t.store);
    ClientsStay(s.store, t.store, s.clients);
    EntriesStay(s.store, t.store, entries);
  }

  lemma ReplayTallies(s: State, c: nat, request: Request, entries: seq<Entry>, t: State)
    requires TalliesOK(s) && DeliveriesOK(s.store.deliveries, s.store.mats) && t == ReplayNext(s, c, request, entries)
    requires entries != []
    requires Current(s.store, entries[0]) && entries[0].record.value.status.Dead?
    ensures TalliesOK(t)
  {
    forall job
      ensures TallyOK(t.store, t.work, TallyOf(t.tallies, job), job)
    {
      assert TallyOK(s.store, s.work, TallyOf(s.tallies, job), job);
    }
  }

  lemma HookInHandKeeps(s: State, c: nat, entries: seq<Entry>, request: Request, hook: Versioned<Hook>, t: State)
    requires Inv(s) && Enabled(s, Continue(c, entries)) && t == ContinueStep(s, c, entries)
    requires c in s.clients && s.clients[c] == HasHook(request, hook) && !request.Disable?
    requires request.Replay? || RevisionID(request.id, hook.value.activeRevision) in s.store.revisions
    ensures Inv(t) && t.store == s.store
  {
    assert ClientsOK(t) by {
      Parts(s);
      StoreParts(s.store);
      assert ClientOK(s.store, s.clients[c]);
    }
    FewerClientsKeep(s, t);
  }

  lemma ContinueKeeps(s: State, c: nat, entries: seq<Entry>, t: State)
    requires Inv(s) && Enabled(s, Continue(c, entries)) && t == ContinueStep(s, c, entries)
    ensures Inv(t) && Extends(s.store, t.store)
  {
    ExtendsItself(s.store);
    if c in s.clients {
      assert ClientOK(s.store, s.clients[c]) by { Parts(s); }
      match s.clients[c] {
        case HasHook(request, hook) =>
          if request.Disable? {
            DisableKeeps(s, c, request.id, hook, t);
          } else if !request.Replay? && RevisionID(request.id, hook.value.activeRevision) !in s.store.revisions {
            FinishKeeps(s, c);
          } else {
            HookInHandKeeps(s, c, entries, request, hook, t);
          }
        case HasRevision(request, hook, prior) =>
          if request.Update? || request.RotateSecret? {
            CommitKeeps(s, c, request, hook, prior, t);
          } else {
            FinishKeeps(s, c);
          }
        case Replaying(request, left) => ReplayKeeps(s, c, request, left, t);
      }
    }
  }

  // ---- The world outside ----

  lemma PublishScope(s: State, event: Event)
    requires ScopeOK(s, event.scope) && Enabled(s, Publish(event))
    ensures ScopeOK(PublishStep(s, event), event.scope)
  {
    var t := PublishStep(s, event);
    var events := FeedOf(s.feed, event.scope);
    assert FeedOf(t.feed, event.scope) == events + [event];
    forall i | 0 <= i < |events + [event]| && (events + [event])[i].cursor <= CursorOf(t.store, event.scope)
      ensures Passed(t.store, t.passed, event.scope, (events + [event])[i])
    {
      assert i < |events|;
      assert Passed(s.store, s.passed, event.scope, events[i]);
    }
  }

  lemma PublishPoll(s: State, event: Event, p: Poll)
    requires PollOK(s, p) && ScopeOK(s, p.scope) && Enabled(s, Publish(event))
    ensures PollOK(PublishStep(s, event), p)
  {
    var t := PublishStep(s, event);
    var events := FeedOf(s.feed, p.scope);
    PollParts(s, p);
    if p.scope == event.scope {
      assert FeedOf(t.feed, p.scope) == events + [event];
      LongerFeed(events, event, p, CursorOf(s.store, p.scope));
    }
  }

  lemma LongerFeed(events: seq<Event>, event: Event, p: Poll, cursor: nat)
    requires p.at + |p.events| <= |events| && events[p.at..p.at + |p.events|] == p.events && cursor < event.cursor
    requires (forall i :: 0 <= i < p.at ==> events[i].cursor <= cursor)
             && (forall i :: p.at <= i < |events| ==> cursor < events[i].cursor)
    ensures var longer := events + [event];
            && longer[p.at..p.at + |p.events|] == p.events
            && (forall i :: 0 <= i < p.at ==> longer[i].cursor <= cursor)
            && (forall i :: p.at <= i < |longer| ==> cursor < longer[i].cursor)
  {}

  lemma PublishKeeps(s: State, event: Event)
    requires Inv(s) && Enabled(s, Publish(event))
    ensures Inv(PublishStep(s, event))
  {
    Parts(s);
    var t := PublishStep(s, event);
    forall scope
      ensures ScopeOK(t, scope)
    {
      assert ScopeOK(s, scope);
      if scope == event.scope {
        PublishScope(s, event);
      }
    }
    if IsPolling(s.work) {
      assert ScopeOK(s, s.work.poll.scope);
      PublishPoll(s, event, s.work.poll);
    }
    TalliesStay(s, t);
    assert WorkFits(t, t.work);
    Whole(t);
  }

  lemma TickKeeps(s: State, later: nat)
    requires Inv(s)
    ensures Inv(s.(now := s.now + later))
  {
    Parts(s);
    var t := s.(now := s.now + later);
    ExtendsItself(s.store);
    WorkStays(s, t);
    TalliesStay(s, t);
    forall scope
      ensures ScopeOK(t, scope)
    {
      ScopeStays(s, t, scope);
    }
    Whole(t);
  }

  lemma CrashKeeps(s: State)
    requires Inv(s)
    ensures Inv(Do(s, Crash)) && Do(s, Crash).store == s.store
  {
    DropKeeps(s);
    FewerClientsKeep(DropWork(s), Do(s, Crash));
  }

  // ---- Every step and every run ----

  lemma StepKeeps(s: State, step: Step, t: State)
    requires Inv(s) && Enabled(s, step) && t == Do(s, step)
    ensures Inv(t) && Extends(s.store, t.store)
  {
    ExtendsItself(s.store);
    match step {
      case Dispatch(input) => DispatchKeeps(s, input, t);
      case GiveUp => DropKeeps(s);
      case Call(c, request) => CallKeeps(s, c, request, t);
      case Continue(c, entries) => ContinueKeeps(s, c, entries, t);
      case Abandon(c) => FinishKeeps(s, c);
      case Crash => CrashKeeps(s);
      case Tick(later) => TickKeeps(s, later);
      case Publish(event) => PublishKeeps(s, event);
    }
  }

  lemma InitInv()
    ensures Inv(INITIAL)
  {
    Whole(INITIAL);
  }

  lemma {:induction false} RunKeeps(s: State, steps: seq<Step>)
    requires Inv(s) && IsRun(s, steps)
    ensures Inv(After(s, steps)) && Extends(s.store, After(s, steps).store)
    decreases |steps|
  {
    if steps == [] {
      ExtendsItself(s.store);
    } else {
      var t := Do(s, steps[0]);
      StepKeeps(s, steps[0], t);
      RunKeeps(t, steps[1..]);
      ExtendsTransitive(s.store, t.store, After(t, steps[1..]).store);
    }
  }
}
