/** Where records come from: in every run each materialization is what the data plane and the
    webhook's own script made of an event of the webhook's own tenant and database, and each
    delivery goes to the URL its webhook had. */
module WebhookOrigins {
  import opened Results
  import opened Keys
  import opened Table
  import opened WebhookModel
  import opened WebhookSystem
  import opened WebhookSafety
  import opened WebhookTheorems
  import D = DispatcherResults

  // ---- What a record can come from ----

  /** The webhook, as it stood, had to do with this event of the feed, and the job is theirs. */
  ghost predicate IsJobOf(s: State, hook: Hook, event: Event, job: JobID) {
    && event in FeedOf(s.feed, hook.scope) && !PassesOver(hook, event)
    && job == JobID(hook.id, hook.activeRevision, event.id)
  }

  ghost predicate MatComesFrom(env: Env, s: State, hook: Hook, event: Event, job: JobID) {
    && IsJobOf(s, hook, event, job) && job in s.store.mats
    && D.MaterializationIsTrue(env, s.store, hook, event, s.store.mats[job].value)
  }

  ghost predicate DeliveryComesFrom(s: State, hook: Hook, event: Event, job: JobID) {
    IsJobOf(s, hook, event, job) && job in s.store.deliveries && s.store.deliveries[job].value.url == hook.url
  }

  ghost predicate MatsHaveOrigins(env: Env, s: State, seen: iset<Hook>) {
    forall job :: job in s.store.mats ==> exists hook, event :: hook in seen && MatComesFrom(env, s, hook, event, job)
  }

  ghost predicate DeliveriesHaveOrigins(s: State, seen: iset<Hook>) {
    forall job :: job in s.store.deliveries ==>
      exists hook, event :: hook in seen && DeliveryComesFrom(s, hook, event, job)
  }

  ghost predicate FeedIsFiled(s: State) {
    forall scope, e :: e in FeedOf(s.feed, scope) ==> e.scope == scope
  }

  ghost predicate HooksSeen(s: State, seen: iset<Hook>) {
    forall id :: id in s.store.hooks ==> s.store.hooks[id].value in seen
  }

  /** What the dispatcher has in hand comes from the store and the feed. */
  ghost predicate WorkHasOrigin(s: State, w: Work, seen: iset<Hook>) {
    && (IsPolling(w) ==> forall e :: e in w.poll.events ==> e in FeedOf(s.feed, w.poll.scope))
    && (AtAnyHook(w) ==> forall h :: h in w.poll.listed ==> h in seen)
    && (AtAnyHook(w) && !w.AtHook? ==> AtOneHook(w.poll) && !PassesOver(HookAt(w.poll), w.poll.events[0]))
    && (w.AtMaterialization? || w.AtMissing? || w.AtReload? || w.AtTransform? ==>
        IsRevisionOf(s.store, HookAt(w.poll), w.revision))
    && (w.AtDelivery? ==> w.delivery.url == HookAt(w.poll).url)
  }

  ghost predicate IsRevisionOf(store: Store, hook: Hook, revision: HookRevision) {
    var id := RevisionID(hook.id, hook.activeRevision);
    id in store.revisions && store.revisions[id].value == revision
  }

  datatype Side = OfMats | OfDeliveries | OfFeed | OfHooks | OfWork

  ghost predicate Sound(env: Env, s: State, seen: iset<Hook>, side: Side) {
    match side
    case OfMats => MatsHaveOrigins(env, s, seen)
    case OfDeliveries => DeliveriesHaveOrigins(s, seen)
    case OfFeed => FeedIsFiled(s)
    case OfHooks => HooksSeen(s, seen)
    case OfWork => WorkHasOrigin(s, s.work, seen)
  }

  ghost predicate Originated(env: Env, s: State, seen: iset<Hook>) { forall side :: Sound(env, s, seen, side) }

  lemma Sides(env: Env, s: State, seen: iset<Hook>)
    requires Originated(env, s, seen)
    ensures MatsHaveOrigins(env, s, seen) && DeliveriesHaveOrigins(s, seen) && FeedIsFiled(s) && HooksSeen(s, seen)
    ensures WorkHasOrigin(s, s.work, seen)
  {
    assert Sound(env, s, seen, OfMats) && Sound(env, s, seen, OfDeliveries) && Sound(env, s, seen, OfFeed);
    assert Sound(env, s, seen, OfHooks) && Sound(env, s, seen, OfWork);
  }

  lemma AllSides(env: Env, s: State, seen: iset<Hook>)
    requires MatsHaveOrigins(env, s, seen) && DeliveriesHaveOrigins(s, seen) && FeedIsFiled(s) && HooksSeen(s, seen)
    requires WorkHasOrigin(s, s.work, seen)
    ensures Originated(env, s, seen)
  {}

  // ---- What outlasts a step ----

  ghost predicate FeedGrows(s: State, t: State) {
    forall scope, e :: e in FeedOf(s.feed, scope) ==> e in FeedOf(t.feed, scope)
  }

  ghost predicate RevisionsStay(s: State, t: State) {
    forall id :: id in s.store.revisions ==> id in t.store.revisions && t.store.revisions[id] == s.store.revisions[id]
  }

  lemma MatOriginStays(env: Env, s: State, t: State, hook: Hook, event: Event, job: JobID)
    requires MatComesFrom(env, s, hook, event, job) && FeedGrows(s, t) && RevisionsStay(s, t)
    requires job in t.store.mats && t.store.mats[job] == s.store.mats[job]
    ensures MatComesFrom(env, t, hook, event, job)
  {}

  /** Materializations that did not change keep their origins; the others have new ones. */
  lemma MatsStay(env: Env, s: State, t: State, seen: iset<Hook>)
    requires MatsHaveOrigins(env, s, seen) && FeedGrows(s, t) && RevisionsStay(s, t)
    requires forall job :: job in t.store.mats ==>
               (job in s.store.mats && t.store.mats[job] == s.store.mats[job])
               || exists hook, event :: hook in seen && MatComesFrom(env, t, hook, event, job)
    ensures MatsHaveOrigins(env, t, seen)
  {
    forall job | job in t.store.mats
      ensures exists hook, event :: hook in seen && MatComesFrom(env, t, hook, event, job)
    {
      if job in s.store.mats && t.store.mats[job] == s.store.mats[job] {
        var hook, event :| hook in seen && MatComesFrom(env, s, hook, event, job);
        MatOriginStays(env, s, t, hook, event, job);
      }
    }
  }

  lemma DeliveriesStay(s: State, t: State, seen: iset<Hook>)
    requires DeliveriesHaveOrigins(s, seen) && FeedGrows(s, t)
    requires forall job :: job in t.store.deliveries ==>
               (job in s.store.deliveries && t.store.deliveries[job].value.url == s.store.deliveries[job].value.url)
               || exists hook, event :: hook in seen && DeliveryComesFrom(t, hook, event, job)
    ensures DeliveriesHaveOrigins(t, seen)
  {
    forall job | job in t.store.deliveries
      ensures exists hook, event :: hook in seen && DeliveryComesFrom(t, hook, event, job)
    {
      if job in s.store.deliveries && t.store.deliveries[job].value.url == s.store.deliveries[job].value.url {
        var hook, event :| hook in seen && DeliveryComesFrom(s, hook, event, job);
        assert DeliveryComesFrom(t, hook, event, job);
      }
    }
  }

  lemma WorkStays(s: State, t: State, w: Work, seen: iset<Hook>)
    requires WorkHasOrigin(s, w, seen) && FeedGrows(s, t) && RevisionsStay(s, t)
    ensures WorkHasOrigin(t, w, seen)
  {}

  /** A step that leaves materializations and URLs alone. */
  lemma QuietKeeps(env: Env, s: State, t: State, seen: iset<Hook>)
    requires Originated(env, s, seen) && HooksSeen(t, seen) && FeedGrows(s, t) && FeedIsFiled(t) && RevisionsStay(s, t)
    requires t.store.mats == s.store.mats && WorkHasOrigin(t, t.work, seen)
    requires forall job :: job in t.store.deliveries ==>
               job in s.store.deliveries && t.store.deliveries[job].value.url == s.store.deliveries[job].value.url
    ensures Originated(env, t, seen)
  {
    Sides(env, s, seen);
    MatsStay(env, s, t, seen);
    DeliveriesStay(s, t, seen);
    AllSides(env, t, seen);
  }

  // ---- The dispatcher's steps ----

  /** What the dispatcher learns is what the data plane and the scripts say. */
  ghost predicate IsHonest(env: Env, s: State, step: Step) {
    step.Dispatch? ==>
      && (s.work.AtMissing? && AtOneHook(s.work.poll) && step.input.Context? ==>
          env.materialize(s.work.poll.events[0], HookAt(s.work.poll).lookups) == Some(step.input.context))
      && (s.work.AtTransform? && step.input.Ran? ==>
          step.input.outcome ==
          env.transform(s.work.revision.source, s.work.revision.limits, s.work.record.value.context))
  }

  lemma AtJob(s: State, w: Work, seen: iset<Hook>)
    requires FeedIsFiled(s) && WorkHasOrigin(s, w, seen) && AtAnyHook(w) && !w.AtHook?
    ensures HookAt(w.poll) in seen && IsJobOf(s, HookAt(w.poll), w.poll.events[0], JobAt(w.poll))
  {
    var hook, event := HookAt(w.poll), w.poll.events[0];
    assert hook in w.poll.listed && event in w.poll.events;
    assert event in FeedOf(s.feed, w.poll.scope) && event.scope == w.poll.scope;
    assert hook.scope == event.scope;
  }

  /** Steps of the dispatcher leave feed, webhooks and revisions alone. */
  ghost predicate OnlyRecords(s: State, t: State) {
    t.feed == s.feed && t.store.hooks == s.store.hooks && t.store.revisions == s.store.revisions
  }

  ghost predicate SameURLs(s: State, t: State) {
    forall job :: job in t.store.deliveries ==>
      job in s.store.deliveries && t.store.deliveries[job].value.url == s.store.deliveries[job].value.url
  }

  lemma RecordsKeep(env: Env, s: State, t: State, seen: iset<Hook>)
    requires Originated(env, s, seen) && OnlyRecords(s, t) && WorkHasOrigin(t, t.work, seen)
    requires t.store.mats == s.store.mats && SameURLs(s, t)
    ensures Originated(env, t, seen)
  {
    assert HooksSeen(t, seen) && FeedIsFiled(t) by { Sides(env, s, seen); }
    QuietKeeps(env, s, t, seen);
  }

  /** One materialization is new or changed, and has an origin. */
  lemma OneMatKeeps(env: Env, s: State, t: State, seen: iset<Hook>, job: JobID, record: Versioned<Materialization>,
                    hook: Hook, event: Event)
    requires Originated(env, s, seen) && OnlyRecords(s, t) && WorkHasOrigin(t, t.work, seen)
    requires t.store.mats == s.store.mats[job := record] && t.store.deliveries == s.store.deliveries
    requires hook in seen && MatComesFrom(env, t, hook, event, job)
    ensures Originated(env, t, seen)
  {
    Sides(env, s, seen);
    MatsStay(env, s, t, seen);
    DeliveriesStay(s, t, seen);
    AllSides(env, t, seen);
  }

  lemma OneDeliveryKeeps(env: Env, s: State, t: State, seen: iset<Hook>, job: JobID, record: Versioned<Delivery>,
                         hook: Hook, event: Event)
    requires Originated(env, s, seen) && OnlyRecords(s, t) && WorkHasOrigin(t, t.work, seen)
    requires t.store.mats == s.store.mats && t.store.deliveries == s.store.deliveries[job := record]
    requires hook in seen && DeliveryComesFrom(t, hook, event, job)
    ensures Originated(env, t, seen)
  {
    Sides(env, s, seen);
    MatsStay(env, s, t, seen);
    DeliveriesStay(s, t, seen);
    AllSides(env, t, seen);
  }

  // The steps at a webhook, one by one: first what they do to the position, then what they write.

  lemma StoreFrame(s: State, p: Poll, revision: HookRevision, context: string, seen: iset<Hook>, t: State)
    requires WorkHasOrigin(s, s.work, seen) && s.work == AtMissing(p, revision) && AtOneHook(p)
    requires t == StoreMaterialization(s, p, revision, context)
    ensures OnlyRecords(s, t) && WorkHasOrigin(t, t.work, seen) && t.store.deliveries == s.store.deliveries
    ensures t.store.mats ==
            if JobAt(p) in s.store.mats then s.store.mats
            else s.store.mats[JobAt(p) := Versioned(NewMaterialization(context), 1)]
  {}

  lemma StoredComesFrom(env: Env, s: State, w: Work, context: string, t: State, seen: iset<Hook>)
    requires FeedIsFiled(s) && WorkHasOrigin(s, w, seen) && w.AtMissing? && AtOneHook(w.poll) && OnlyRecords(s, t)
    requires env.materialize(w.poll.events[0], HookAt(w.poll).lookups) == Some(context)
    requires JobAt(w.poll) in t.store.mats && t.store.mats[JobAt(w.poll)].value == NewMaterialization(context)
    ensures HookAt(w.poll) in seen && MatComesFrom(env, t, HookAt(w.poll), w.poll.events[0], JobAt(w.poll))
  {
    AtJob(s, w, seen);
    assert IsRevisionOf(s.store, HookAt(w.poll), w.revision);
  }

  lemma StoreOriginates(env: Env, s: State, p: Poll, revision: HookRevision, context: string, seen: iset<Hook>,
                        t: State)
    requires Originated(env, s, seen) && s.work == AtMissing(p, revision) && AtOneHook(p)
    requires env.materialize(p.events[0], HookAt(p).lookups) == Some(context)
    requires t == StoreMaterialization(s, p, revision, context)
    ensures Originated(env, t, seen)
  {
    assert FeedIsFiled(s) && WorkHasOrigin(s, s.work, seen) by { Sides(env, s, seen); }
    StoreFrame(s, p, revision, context, seen, t);
    if JobAt(p) in s.store.mats {
      RecordsKeep(env, s, t, seen);
    } else {
      StoredComesFrom(env, s, s.work, context, t, seen);
      OneMatKeeps(env, s, t, seen, JobAt(p), t.store.mats[JobAt(p)], HookAt(p), p.events[0]);
    }
  }

  lemma SettleFrame(s: State, p: Poll, revision: HookRevision, record: Versioned<Materialization>, outcome: Outcome,
                    seen: iset<Hook>, t: State)
    requires WorkHasOrigin(s, s.work, seen) && s.work == AtTransform(p, revision, record) && AtOneHook(p)
    requires t == SettleMaterialization(s, p, record, outcome)
    ensures OnlyRecords(s, t) && WorkHasOrigin(t, t.work, seen) && t.store.deliveries == s.store.deliveries
    ensures t.store.mats ==
            if !Expects(s.store.mats, JobAt(p), record.version) then s.store.mats
            else s.store.mats[JobAt(p) := Versioned(Transformed(record.value, outcome), record.version + 1)]
  {
    SettlingIs(s, p, record, outcome, t);
  }

  lemma SettlingIs(s: State, p: Poll, record: Versioned<Materialization>, outcome: Outcome, t: State)
    requires AtOneHook(p) && t == SettleMaterialization(s, p, record, outcome)
    ensures t.feed == s.feed
    ensures t.store ==
            if !Expects(s.store.mats, JobAt(p), record.version) then s.store
            else s.store.(mats := s.store.mats[JobAt(p) := Versioned(Transformed(record.value, outcome),
                                                                     record.version + 1)])
    ensures || t.work.Resting? || t.work == AtHook(p.(next := p.next + 1))
            || t.work == AtDelivery(p, DeliveryFor(HookAt(p), Transformed(record.value, outcome), s.now))
  {}

  /** The script ran on the revision of the job, whichever webhook it is found through. */
  lemma SettledComesFrom(env: Env, s: State, p: Poll, revision: HookRevision, record: Versioned<Materialization>,
                         hook: Hook, event: Event, t: State)
    requires AtOneHook(p) && MatComesFrom(env, s, hook, event, JobAt(p)) && s.store.mats[JobAt(p)] == record
    requires IsRevisionOf(s.store, HookAt(p), revision) && OnlyRecords(s, t) && JobAt(p) in t.store.mats
    requires t.store.mats[JobAt(p)].value ==
             Transformed(record.value, env.transform(revision.source, revision.limits, record.value.context))
    ensures MatComesFrom(env, t, hook, event, JobAt(p))
  {
    assert RevisionID(hook.id, hook.activeRevision) == RevisionID(HookAt(p).id, HookAt(p).activeRevision);
  }

  lemma SettleOriginates(env: Env, s: State, p: Poll, revision: HookRevision, record: Versioned<Materialization>,
                         outcome: Outcome, seen: iset<Hook>, t: State)
    requires Originated(env, s, seen) && s.work == AtTransform(p, revision, record) && AtOneHook(p)
    requires JobAt(p) in s.store.mats && s.store.mats[JobAt(p)] == record
    requires outcome == env.transform(revision.source, revision.limits, record.value.context)
    requires t == SettleMaterialization(s, p, record, outcome)
    ensures Originated(env, t, seen)
  {
    assert WorkHasOrigin(s, s.work, seen) by { Sides(env, s, seen); }
    SettleFrame(s, p, revision, record, outcome, seen, t);
    if Expects(s.store.mats, JobAt(p), record.version) {
      var hook, event := OriginOf(env, s, seen, JobAt(p));
      SettledComesFrom(env, s, p, revision, record, hook, event, t);
      OneMatKeeps(env, s, t, seen, JobAt(p), t.store.mats[JobAt(p)], hook, event);
    } else {
      RecordsKeep(env, s, t, seen);
    }
  }

  lemma OriginOf(env: Env, s: State, seen: iset<Hook>, job: JobID) returns (hook: Hook, event: Event)
    requires Originated(env, s, seen) && job in s.store.mats
    ensures hook in seen && MatComesFrom(env, s, hook, event, job)
  {
    assert MatsHaveOrigins(env, s, seen) by { Sides(env, s, seen); }
    hook, event :| hook in seen && MatComesFrom(env, s, hook, event, job);
  }

  lemma CreateFrame(s: State, p: Poll, d: Delivery, seen: iset<Hook>, t: State)
    requires WorkHasOrigin(s, s.work, seen) && s.work == AtDelivery(p, d) && AtOneHook(p)
    requires t == CreateDelivery(s, p, d)
    ensures OnlyRecords(s, t) && WorkHasOrigin(t, t.work, seen) && t.store.mats == s.store.mats
    ensures t.store.deliveries == if JobAt(p) in s.store.deliveries then s.store.deliveries
                                  else s.store.deliveries[JobAt(p) := Versioned(d, 1)]
  {}

  lemma CreatedComesFrom(s: State, w: Work, t: State, seen: iset<Hook>)
    requires FeedIsFiled(s) && WorkHasOrigin(s, w, seen) && w.AtDelivery? && AtOneHook(w.poll) && OnlyRecords(s, t)
    requires JobAt(w.poll) in t.store.deliveries && t.store.deliveries[JobAt(w.poll)].value == w.delivery
    ensures HookAt(w.poll) in seen && DeliveryComesFrom(t, HookAt(w.poll), w.poll.events[0], JobAt(w.poll))
  {
    AtJob(s, w, seen);
  }

  lemma CreateOriginates(env: Env, s: State, p: Poll, d: Delivery, seen: iset<Hook>, t: State)
    requires Originated(env, s, seen) && s.work == AtDelivery(p, d) && AtOneHook(p) && t == CreateDelivery(s, p, d)
    ensures Originated(env, t, seen)
  {
    assert FeedIsFiled(s) && WorkHasOrigin(s, s.work, seen) by { Sides(env, s, seen); }
    CreateFrame(s, p, d, seen, t);
    if JobAt(p) in s.store.deliveries {
      RecordsKeep(env, s, t, seen);
    } else {
      CreatedComesFrom(s, s.work, t, seen);
      OneDeliveryKeeps(env, s, t, seen, JobAt(p), t.store.deliveries[JobAt(p)], HookAt(p), p.events[0]);
    }
  }

  lemma RecordedIs(s: State, drain: Drain, response: Response, at: nat, t: State)
    requires drain.entries != [] && t == RecordAttempt(s, drain, response, at)
    ensures t.feed == s.feed && (t.work.Resting? || t.work.Draining?)
    ensures var e := drain.entries[0];
            t.store == if !Expects(s.store.deliveries, e.job, e.record.version) then s.store
                       else s.store.(deliveries := s.store.deliveries[e.job := Versioned(
                                       Attempted(e.record.value, response, at), e.record.version + 1)])
  {}

  lemma RecordFrame(s: State, drain: Drain, response: Response, at: nat, seen: iset<Hook>, t: State)
    requires drain.entries != [] && Coherent(s.store.deliveries, drain.entries[0].job, drain.entries[0].record)
    requires t == RecordAttempt(s, drain, response, at)
    ensures OnlyRecords(s, t) && WorkHasOrigin(t, t.work, seen) && t.store.mats == s.store.mats && SameURLs(s, t)
  {
    RecordedIs(s, drain, response, at, t);
    RecordedURL(s, drain, response, at, t);
  }

  lemma RecordedURL(s: State, drain: Drain, response: Response, at: nat, t: State)
    requires drain.entries != [] && Coherent(s.store.deliveries, drain.entries[0].job, drain.entries[0].record)
    requires var e := drain.entries[0];
             t.store == if !Expects(s.store.deliveries, e.job, e.record.version) then s.store
                        else s.store.(deliveries := s.store.deliveries[e.job := Versioned(
                                        Attempted(e.record.value, response, at), e.record.version + 1)])
    ensures SameURLs(s, t)
  {
    var e := drain.entries[0];
    var tried := Attempted(e.record.value, response, at);
    assert tried.url == e.record.value.url;
    if Expects(s.store.deliveries, e.job, e.record.version) {
      OneSameURL(s, t, e.job, Versioned(tried, e.record.version + 1));
    }
  }

  lemma OneSameURL(s: State, t: State, job: JobID, record: Versioned<Delivery>)
    requires job in s.store.deliveries && record.value.url == s.store.deliveries[job].value.url
    requires t.store.deliveries == s.store.deliveries[job := record]
    ensures SameURLs(s, t)
  {}

  lemma RecordOriginates(env: Env, s: State, drain: Drain, response: Response, at: nat, seen: iset<Hook>, t: State)
    requires Originated(env, s, seen) && drain.entries != [] && EntriesOK(s.store, drain.entries)
    requires t == RecordAttempt(s, drain, response, at)
    ensures Originated(env, t, seen)
  {
    RecordFrame(s, drain, response, at, seen, t);
    RecordsKeep(env, s, t, seen);
  }

  lemma ProceedFrame(s: State, p: Poll, revision: HookRevision, seen: iset<Hook>, t: State)
    requires WorkHasOrigin(s, s.work, seen) && AtOneHook(p) && JobAt(p) in s.store.mats
    requires s.work == AtMaterialization(p, revision) || s.work == AtReload(p, revision)
    requires t == Proceed(s, p, revision, s.store.mats[JobAt(p)])
    ensures t == s.(work := t.work) && WorkHasOrigin(t, t.work, seen)
  {
    ProceedIs(s, p, revision, s.store.mats[JobAt(p)]);
  }

  lemma ProceedIs(s: State, p: Poll, revision: HookRevision, record: Versioned<Materialization>)
    requires AtOneHook(p)
    ensures Proceed(s, p, revision, record) ==
            s.(work := if record.value.status.Stored? then AtTransform(p, revision, record)
                       else if record.value.status.Skipped? then AtHook(p.(next := p.next + 1))
                       else AtDelivery(p, DeliveryFor(HookAt(p), record.value, s.now)))
  {}

  lemma LookFrame(s: State, p: Poll, seen: iset<Hook>, t: State)
    requires WorkHasOrigin(s, s.work, seen) && s.work == AtHook(p) && AtOneHook(p) && t == LookAtHook(s, p)
    ensures t == s.(work := t.work) && WorkHasOrigin(t, t.work, seen)
  {
    LooksIfAsked(s, p);
  }

  lemma HookFrame(s: State, input: Input, p: Poll, seen: iset<Hook>, t: State)
    requires WorkHasOrigin(s, s.work, seen) && s.work == AtHook(p) && t == DispatchStep(s, input)
    ensures OnlyRecords(s, t) && WorkHasOrigin(t, t.work, seen)
    ensures t.store.mats == s.store.mats && t.store.deliveries == s.store.deliveries
  {
    HookStepIs(s, input, p);
    if AtOneHook(p) {
      LookFrame(s, p, seen, t);
    } else if p.events != [] {
      SaveFrame(s, p, seen, t);
    }
  }

  lemma SaveFrame(s: State, p: Poll, seen: iset<Hook>, t: State)
    requires WorkHasOrigin(s, s.work, seen) && s.work == AtHook(p) && p.events != [] && t == SaveCursor(s, p)
    ensures OnlyRecords(s, t) && WorkHasOrigin(t, t.work, seen)
    ensures t.store.mats == s.store.mats && t.store.deliveries == s.store.deliveries
  {
    assert forall e :: e in p.events[1..] ==> e in p.events;
  }

  lemma StartFrame(s: State, input: Input, seen: iset<Hook>, t: State)
    requires WorkHasOrigin(s, s.work, seen) && HooksSeen(s, seen) && Enabled(s, Dispatch(input))
    requires t == DispatchStep(s, input)
    requires s.work.Resting? || s.work.HasCursor? || s.work.AtEvent? || s.work.Sent? || s.work.Draining?
    ensures OnlyRecords(s, t) && WorkHasOrigin(t, t.work, seen)
    ensures t.store.mats == s.store.mats && t.store.deliveries == s.store.deliveries
  {
    if s.work.HasCursor? {
      PageFrame(s, input, seen, t);
    } else if s.work.AtEvent? {
      ListFrame(s, input, seen, t);
    } else if s.work.Draining? {
      LookingLeaves(s, s.work.drain);
    }
  }

  lemma PageFrame(s: State, input: Input, seen: iset<Hook>, t: State)
    requires s.work.HasCursor? && t == DispatchStep(s, input)
    ensures t == s.(work := t.work) && WorkHasOrigin(t, t.work, seen)
  {}

  lemma ListFrame(s: State, input: Input, seen: iset<Hook>, t: State)
    requires WorkHasOrigin(s, s.work, seen) && HooksSeen(s, seen) && s.work.AtEvent? && Enabled(s, Dispatch(input))
    requires t == DispatchStep(s, input)
    ensures t == s.(work := t.work) && WorkHasOrigin(t, t.work, seen)
  {
    if input.Hooks? {
      forall h | h in input.hooks ensures h in seen {}
    }
  }

  lemma DispatchOriginates(env: Env, s: State, input: Input, seen: iset<Hook>, t: State)
    requires Inv(s) && Originated(env, s, seen) && Enabled(s, Dispatch(input)) && IsHonest(env, s, Dispatch(input))
    requires t == DispatchStep(s, input)
    ensures Originated(env, t, seen)
  {
    assert WorkFits(s, s.work) by { Parts(s); }
    assert HooksSeen(s, seen) && WorkHasOrigin(s, s.work, seen) by { Sides(env, s, seen); }
    match s.work {
      case AtMaterialization(p, revision) => PassOriginates(env, s, input, seen, t);
      case AtReload(p, revision) => PassOriginates(env, s, input, seen, t);
      case AtMissing(p, revision) =>
        if input.Context? { StoreOriginates(env, s, p, revision, input.context, seen, t); }
      case AtTransform(p, revision, record) =>
        if input.Ran? { SettleOriginates(env, s, p, revision, record, input.outcome, seen, t); }
      case AtDelivery(p, d) => CreateOriginates(env, s, p, d, seen, t);
      case Replied(drain, response, at) => RecordOriginates(env, s, drain, response, at, seen, t);
      case AtHook(p) =>
        HookFrame(s, input, p, seen, t);
        RecordsKeep(env, s, t, seen);
      case _ =>
        StartFrame(s, input, seen, t);
        RecordsKeep(env, s, t, seen);
    }
  }

  lemma PassOriginates(env: Env, s: State, input: Input, seen: iset<Hook>, t: State)
    requires Originated(env, s, seen) && (s.work.AtMaterialization? || s.work.AtReload?) && AtOneHook(s.work.poll)
    requires t == DispatchStep(s, input)
    ensures Originated(env, t, seen)
  {
    assert WorkHasOrigin(s, s.work, seen) by { Sides(env, s, seen); }
    PassStep(s, input, t);
    PassFrame(s, seen, t);
    RecordsKeep(env, s, t, seen);
  }

  lemma PassFrame(s: State, seen: iset<Hook>, t: State)
    requires WorkHasOrigin(s, s.work, seen)
    requires (s.work.AtMaterialization? || s.work.AtReload?) && AtOneHook(s.work.poll)
    requires var p, revision := s.work.poll, s.work.revision;
             t == if JobAt(p) in s.store.mats then Proceed(s, p, revision, s.store.mats[JobAt(p)])
                  else s.(work := if s.work.AtReload? then Resting else AtMissing(p, revision))
    ensures t == s.(work := t.work) && WorkHasOrigin(t, t.work, seen)
  {
    if JobAt(s.work.poll) in s.store.mats {
      ProceedFrame(s, s.work.poll, s.work.revision, seen, t);
    }
  }

  lemma PassStep(s: State, input: Input, t: State)
    requires (s.work.AtMaterialization? || s.work.AtReload?) && AtOneHook(s.work.poll) && t == DispatchStep(s, input)
    ensures var p, revision := s.work.poll, s.work.revision;
            t == if JobAt(p) in s.store.mats then Proceed(s, p, revision, s.store.mats[JobAt(p)])
                 else s.(work := if s.work.AtReload? then Resting else AtMissing(p, revision))
  {}

  // ---- The other steps ----

  lemma ReplayURLs(s: State, c: nat, request: Request, entries: seq<Entry>, t: State)
    requires EntriesOK(s.store, entries) && t == ReplayNext(s, c, request, entries)
    ensures OnlyRecords(s, t) && t.work == s.work && t.store.mats == s.store.mats && SameURLs(s, t)
  {
    if entries != [] {
      assert Coherent(s.store.deliveries, entries[0].job, entries[0].record);
    }
  }

  lemma ContinueFrame(s: State, c: nat, entries: seq<Entry>, t: State)
    requires ClientsOK(s) && t == ContinueStep(s, c, entries)
    ensures t.feed == s.feed && t.work == s.work && t.store.mats == s.store.mats && SameURLs(s, t)
  {
    if c in s.clients {
      assert ClientOK(s.store, s.clients[c]);
      if s.clients[c].Replaying? {
        ReplayURLs(s, c, s.clients[c].request, s.clients[c].entries, t);
      } else {
        ContinueElsewhere(s, c, entries, t);
        EditLeavesDeliveries(s, c, entries, t);
        EditLeavesMats(s, c, entries, t);
      }
    }
  }

  lemma EditLeavesMats(s: State, c: nat, entries: seq<Entry>, t: State)
    requires c in s.clients && !s.clients[c].Replaying? && t == ContinueStep(s, c, entries)
    ensures t.store.mats == s.store.mats
  {
    if s.clients[c].HasRevision? {
      CommitElsewhere(s, c, s.clients[c].request, s.clients[c].hook, s.clients[c].prior);
    }
  }

  lemma CallFrame(s: State, c: nat, request: Request, t: State)
    requires t == CallStep(s, c, request)
    ensures t.feed == s.feed && t.work == s.work && t.store.mats == s.store.mats && SameURLs(s, t)
  {}

  /** Steps that do not come from the dispatcher. */
  lemma OtherFrame(s: State, step: Step, t: State)
    requires Inv(s) && !step.Dispatch? && !step.Publish? && t == Do(s, step)
    ensures t.feed == s.feed && (t.work == s.work || t.work.Resting?)
    ensures t.store.mats == s.store.mats && SameURLs(s, t)
  {
    if step.Continue? {
      assert ClientsOK(s) by { Parts(s); }
      ContinueFrame(s, step.client, step.entries, t);
    } else if step.Call? {
      CallFrame(s, step.client, step.request, t);
    } else if step.GiveUp? || step.Crash? {
      DropElsewhere(s);
    }
  }

  lemma PublishFrame(s: State, event: Event, t: State)
    requires FeedIsFiled(s) && t == PublishStep(s, event)
    ensures FeedGrows(s, t) && FeedIsFiled(t) && t.store == s.store && t.work == s.work
  {
    forall scope, e | e in FeedOf(t.feed, scope)
      ensures e.scope == scope
    {
      if !(e in FeedOf(s.feed, scope)) {
        assert scope == event.scope && e == event;
      }
    }
  }

  lemma StepOriginates(env: Env, s: State, step: Step, seen: iset<Hook>, t: State)
    requires Inv(s) && Originated(env, s, seen) && Enabled(s, step) && IsHonest(env, s, step) && t == Do(s, step)
    requires HooksSeen(t, seen)
    ensures Originated(env, t, seen)
  {
    if step.Dispatch? {
      DispatchOriginates(env, s, step.input, seen, t);
    } else {
      assert FeedIsFiled(s) && WorkHasOrigin(s, s.work, seen) by { Sides(env, s, seen); }
      assert RevisionsStay(s, t) by {
        StepKeeps(s, step, t);
        InEach(s.store, t.store);
      }
      if step.Publish? {
        PublishFrame(s, step.event, t);
      } else {
        OtherFrame(s, step, t);
      }
      WorkStays(s, t, s.work, seen);
      QuietKeeps(env, s, t, seen);
    }
  }

  // ---- Every run ----

  /** The webhook was on record as it is at some point of the run. */
  ghost predicate WasOnRecord(s: State, steps: seq<Step>, hook: Hook)
    decreases |steps|
  {
    || (hook.id in s.store.hooks && s.store.hooks[hook.id].value == hook)
    || (steps != [] && WasOnRecord(Do(s, steps[0]), steps[1..], hook))
  }

  ghost predicate AllHonest(env: Env, s: State, steps: seq<Step>)
    decreases |steps|
  {
    steps == [] || (IsHonest(env, s, steps[0]) && AllHonest(env, Do(s, steps[0]), steps[1..]))
  }

  ghost predicate SeesAll(s: State, steps: seq<Step>, seen: iset<Hook>) {
    forall hook :: WasOnRecord(s, steps, hook) ==> hook in seen
  }

  lemma SeesNow(s: State, steps: seq<Step>, seen: iset<Hook>)
    requires Inv(s) && SeesAll(s, steps, seen)
    ensures HooksSeen(s, seen)
  {
    StoreIsOK(s);
    StoreParts(s.store);
    forall id | id in s.store.hooks
      ensures s.store.hooks[id].value in seen
    {
      assert WasOnRecord(s, steps, s.store.hooks[id].value);
    }
  }

  lemma {:induction false} RunOriginates(env: Env, s: State, steps: seq<Step>, seen: iset<Hook>)
    requires Inv(s) && Originated(env, s, seen) && IsRun(s, steps) && AllHonest(env, s, steps)
    requires SeesAll(s, steps, seen)
    ensures Originated(env, After(s, steps), seen)
    decreases |steps|
  {
    if steps != [] {
      var t := Do(s, steps[0]);
      StepKeeps(s, steps[0], t);
      assert SeesAll(t, steps[1..], seen) by {
        forall hook | WasOnRecord(t, steps[1..], hook) ensures hook in seen { assert WasOnRecord(s, steps, hook); }
      }
      SeesNow(t, steps[1..], seen);
      StepOriginates(env, s, steps[0], seen, t);
      RunOriginates(env, t, steps[1..], seen);
    }
  }

  lemma InitOriginates(env: Env, seen: iset<Hook>)
    ensures Originated(env, INITIAL, seen)
  {
    assert INITIAL.store == EMPTY && forall scope :: FeedOf(INITIAL.feed, scope) == [];
    AllSides(env, INITIAL, seen);
  }

  /** Whatever interleaves or crashes: each materialization belongs to a webhook that was on record and
      to an event of that webhook's tenant and database that it had asked for, its context is what the
      data plane makes of that event, and its fate is what the webhook's revision makes of that context. */
  lemma MaterializationsAreAskedFor(env: Env, s: State, steps: seq<Step>, job: JobID)
    requires Reachable(s, steps) && AllHonest(env, INITIAL, steps) && job in s.store.mats
    ensures exists hook, event :: WasOnRecord(INITIAL, steps, hook) && MatComesFrom(env, s, hook, event, job)
  {
    var seen := iset hook | WasOnRecord(INITIAL, steps, hook);
    RunOf(s, steps);
    InitInv();
    InitOriginates(env, seen);
    RunOriginates(env, INITIAL, steps, seen);
    var hook, event := OriginOf(env, s, seen, job);
  }

  /** And each delivery goes to the URL of a webhook that was on record and had asked for the event. */
  lemma DeliveriesAreAskedFor(env: Env, s: State, steps: seq<Step>, job: JobID)
    requires Reachable(s, steps) && AllHonest(env, INITIAL, steps) && job in s.store.deliveries
    ensures exists hook, event :: WasOnRecord(INITIAL, steps, hook) && DeliveryComesFrom(s, hook, event, job)
  {
    var seen := iset hook | WasOnRecord(INITIAL, steps, hook);
    RunOf(s, steps);
    InitInv();
    InitOriginates(env, seen);
    RunOriginates(env, INITIAL, steps, seen);
    assert DeliveriesHaveOrigins(s, seen) by { Sides(env, s, seen); }
    var hook, event :| hook in seen && DeliveryComesFrom(s, hook, event, job);
  }
}
