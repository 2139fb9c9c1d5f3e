/** The dispatcher's loops, written as the server runs them, proved equal to the functions
    that say what one event, one poll and one delivery pass do. */
module DispatcherService {
  import opened Results
  import opened Keys
  import opened Table
  import opened WebhookModel
  import opened Dispatcher
  import opened DispatcherResults
  import opened WebhookRetry
  import Text

  /** The cursors after so many of the events have been processed: one write for each. */
  ghost predicate CursorAfter(before: map<Scope, Versioned<nat>>, after: map<Scope, Versioned<nat>>, scope: Scope,
                              events: seq<Event>, processed: nat)
    requires processed <= |events|
  {
    after == if processed == 0 then before
             else before[scope := Versioned(events[processed - 1].cursor, VersionOf(before, scope) + processed)]
  }

  lemma CursorNext(before: map<Scope, Versioned<nat>>, middle: map<Scope, Versioned<nat>>, scope: Scope,
                   events: seq<Event>, processed: nat)
    requires processed < |events| && CursorAfter(before, middle, scope, events, processed)
    ensures CursorAfter(before, middle[scope := Versioned(events[processed].cursor, VersionOf(middle, scope) + 1)],
                        scope, events, processed + 1)
  {}

  /** Where a poll stands that has processed some of its events. */
  ghost predicate OnTrack(env: Env, before: map<Scope, Versioned<nat>>, hooks: seq<Hook>, events: seq<Event>,
                          scope: Scope, now: nat, outcome: Run, processed: nat, version: nat, store: Store,
                          life: Life) {
    && processed <= |events| && IsHookListing(hooks, store) && version == VersionOf(store.cursors, scope)
    && CursorAfter(before, store.cursors, scope, events, processed)
    && PollEvents(env, store, hooks, events[processed..], scope, version, now, life) == outcome
  }

  lemma TrackNext(env: Env, before: map<Scope, Versioned<nat>>, hooks: seq<Hook>, events: seq<Event>, scope: Scope,
                  now: nat, outcome: Run, processed: nat, version: nat, store: Store, life: Life)
    requires processed < |events|
    requires OnTrack(env, before, hooks, events, scope, now, outcome, processed, version, store, life)
    ensures var r := Dispatcher.PollEvent(env, store, hooks, events[processed], scope, version, now, life);
            if r.status.Done? then
              OnTrack(env, before, hooks, events, scope, now, outcome, processed + 1, version + 1, r.store, r.life)
            else r == outcome && CursorAfter(before, r.store.cursors, scope, events, processed)
  {
    PollNext(env, store, hooks, events, processed, scope, version, now, life);
    PollEventCursor(env, store, hooks, events[processed], scope, version, now, life);
    CursorNext(before, store.cursors, scope, events, processed);
  }

  /** A webhook that has nothing to do with the event is left alone, any other is dealt with in the end. */
  ghost predicate IsServed(before: Store, after: Store, hook: Hook, event: Event, status: Status) {
    var job := JobID(hook.id, hook.activeRevision, event.id);
    if PassesOver(hook, event) then Untouched(before, after, job) else status.Done? ==> IsDealtWith(after, job)
  }

  lemma ServesEach(env: Env, store: Store, hooks: seq<Hook>, event: Event, now: nat, life: Life)
    requires IsHookListing(hooks, store)
    ensures var r := ProcessHooks(env, store, hooks, event, now, life);
            forall hook :: hook in hooks ==> IsServed(store, r.store, hook, event, r.status)
  {
    forall hook | hook in hooks
      ensures var r := ProcessHooks(env, store, hooks, event, now, life);
              IsServed(store, r.store, hook, event, r.status)
    {
      assert IDsDiffer(hooks) by {
        forall i, j | 0 <= i < j < |hooks| ensures hooks[i].id != hooks[j].id { Text.LessIrreflexive(hooks[i].id); }
      }
      OnlyOne(hooks, hook);
      RunIsTrue(env, store, hooks, event, now, life, hook);
    }
  }

  /** As many deliveries as are due, or as the batch has room for, the first ones on the listing: one attempt each. */
  ghost predicate TriesTheDue(after: Store, entries: seq<Entry>, exchange: JobID -> Exchange, batch: nat,
                              delivered: nat, status: Status)
  {
    var due := DueAmong(entries, exchange);
    status.Done? && delivered == (if due <= batch then due else batch) && AllPassed(after, entries, exchange, batch)
  }

  lemma ServesTheDue(store: Store, entries: seq<Entry>, exchange: JobID -> Exchange, limit: int, life: Life)
    ensures var batch: nat := if limit <= 0 then 100 else limit;
            var p := DeliverPass(store, entries, exchange, BatchSize(limit), 0, life);
            Fresh(entries, store) && Sound(store) && life.None? ==>
              TriesTheDue(p.store, entries, exchange, batch, p.delivered, p.status)
  {
    if Fresh(entries, store) && Sound(store) && life.None? {
      PassTriesAsMany(store, entries, exchange, BatchSize(limit), 0);
      PassTriesTheDue(store, entries, exchange, BatchSize(limit), 0);
    }
  }

  class Loop {
    const env: Env
    var store: Store
    var life: Life

    constructor (env: Env, store: Store, life: Life)
      ensures this.env == env && this.store == store && this.life == life
    {
      this.env, this.store, this.life := env, store, life;
    }

    /** The state of the process, as the functions of the specification return it. */
    function Now(status: Status): Run
      reads this
    {
      Run(store, life, status)
    }

    /** Account for one store write; false when the process dies before it. */
    method Write() returns (alive: bool)
      modifies `life
      ensures alive == CanWrite(old(life))
      ensures life == if alive then Spend(old(life)) else old(life)
    {
      if life.Some? {
        if life.value == 0 { return false; }
        life := Some(life.value - 1);
      }
      alive := true;
    }

    method CreateNew(job: JobID, d: Delivery) returns (status: Status)
      modifies this
      ensures Now(status) == CreateDelivery(old(store), job, d, old(life))
    {
      if job in store.deliveries { return Done; }
      var alive := Write();
      if !alive { return Died; }
      store := store.(deliveries := store.deliveries[job := Versioned(d, 1)]);
      status := Done;
    }

    /** The materialization on record, or a new one; found tells that the caller can go on with it. */
    method LoadOrMaterialize(job: JobID, hook: Hook, event: Event) returns (status: Status)
      modifies this
      ensures old(job in store.mats) ==> status == Done && store == old(store) && life == old(life)
      ensures old(job !in store.mats) && env.materialize(event, hook.lookups).None? ==>
                status == Stopped(Unavailable) && store == old(store) && life == old(life)
      ensures old(job !in store.mats) && env.materialize(event, hook.lookups).Some? && !CanWrite(old(life)) ==>
                status == Died && store == old(store) && life == old(life)
      ensures old(job !in store.mats) && env.materialize(event, hook.lookups).Some? && CanWrite(old(life)) ==>
                && status == Done && life == Spend(old(life))
                && store == Materialized(old(store), job, env.materialize(event, hook.lookups).value)
      ensures status.Done? ==> job in store.mats
    {
      if job in store.mats { return Done; }
      var context := env.materialize(event, hook.lookups);
      if context.None? { return Stopped(Unavailable); }
      var alive := Write();
      if !alive { return Died; }
      store := store.(mats := store.mats[job := Versioned(NewMaterialization(context.value), 1)]);
      status := Done;
    }

    /** Run the script on a stored materialization, record what came of it, and queue the delivery. */
    method TransformMaterialization(hook: Hook, revision: HookRevision, job: JobID, now: nat) returns (status: Status)
      requires job in store.mats && store.mats[job].value.status.Stored?
      modifies this
      ensures Now(status) == AfterMaterialized(env, old(store), hook, revision, job, now, old(life))
    {
      var record := store.mats[job];
      var m := record.value;
      var d: Option<Delivery> := None;
      match env.transform(revision.source, revision.limits, m.context) {
        case Threw(error) =>
          m := m.(status := Failed, error := error);
          d := Some(Delivery(hook.url, m.payload, Dead, TransformStage, 0, 0, error, now));
        case Unmatched =>
          m := m.(status := Skipped);
        case Matched(payload) =>
          m := m.(status := Rendered, payload := payload);
          d := Some(Delivery(hook.url, payload, Pending, DeliveryStage, 0, 0, "", now));
      }
      var alive := Write();
      if !alive { return Died; }
      store := store.(mats := store.mats[job := Versioned(m, record.version + 1)]);
      if d.None? { return Done; }
      status := CreateNew(job, d.value);
    }

    /** Queue the delivery of a materialization that an earlier run settled. */
    method EnsureDelivery(hook: Hook, job: JobID, m: Materialization, now: nat) returns (status: Status)
      modifies this
      ensures Now(status) == CreateDelivery(old(store), job, DeliveryFor(hook, m, now), old(life))
    {
      var d := Delivery(hook.url, m.payload, Pending, DeliveryStage, 0, 0, "", now);
      if m.status.Failed? {
        d := d.(status := Dead, stage := TransformStage, lastError := m.error);
      }
      status := CreateNew(job, d);
    }

    method ProcessOne(hook: Hook, event: Event, now: nat) returns (status: Status)
      modifies this
      ensures Now(status) == ProcessHook(env, old(store), hook, event, now, old(life))
      ensures PassesOver(hook, event) ==> status == Done && store == old(store) && life == old(life)
      ensures !PassesOver(hook, event) && status.Done? ==>
        IsDealtWith(store, JobID(hook.id, hook.activeRevision, event.id))
    {
      if PassesOver(hook, event) {
        PassedOverIsUntouched(env, store, hook, event, now, life);
      } else if ProcessHook(env, store, hook, event, now, life).status.Done? {
        AskedIsDealtWith(env, store, hook, event, now, life);
      }
      if !Matches(hook, event) { return Done; }
      var id := RevisionID(hook.id, hook.activeRevision);
      if id !in store.revisions { return Stopped(NotFound); }
      var revision := store.revisions[id].value;
      var job := JobID(hook.id, hook.activeRevision, event.id);
      status := LoadOrMaterialize(job, hook, event);
      if !status.Done? { return; }
      var m := store.mats[job].value;
      if m.status.Stored? {
        status := TransformMaterialization(hook, revision, job, now);
      } else if m.status.Rendered? || m.status.Failed? {
        status := EnsureDelivery(hook, job, m, now);
      }
    }

    method ProcessEvent(hooks: seq<Hook>, event: Event, now: nat) returns (status: Status)
      requires IsHookListing(hooks, store)
      modifies this
      ensures Now(status) == ProcessHooks(env, old(store), hooks, event, now, old(life))
      ensures store.hooks == old(store.hooks)
      ensures forall hook :: hook in hooks ==> IsServed(old(store), store, hook, event, status)
    {
      ServesEach(env, store, hooks, event, now, life);
      status := Done;
      var i := 0;
      while i < |hooks|
        invariant 0 <= i <= |hooks| && status == Done && store.hooks == old(store.hooks)
        invariant ProcessHooks(env, store, hooks[i..], event, now, life) ==
                  ProcessHooks(env, old(store), hooks, event, now, old(life))
      {
        HookKeeps(env, store, hooks[i], event, now, life);
        assert hooks[i..][1..] == hooks[i + 1..];
        status := ProcessOne(hooks[i], event, now);
        if !status.Done? { return; }
        i := i + 1;
      }
    }

    method PollEvent(scope: Scope, hooks: seq<Hook>, event: Event, version: nat, now: nat) returns (status: Status)
      requires IsHookListing(hooks, store)
      modifies this
      ensures Now(status) == Dispatcher.PollEvent(env, old(store), hooks, event, scope, version, now, old(life))
    {
      status := ProcessEvent(hooks, event, now);
      if !status.Done? { return; }
      var present := if scope in store.cursors then store.cursors[scope].version else 0;
      if present != version { return Stopped(Conflict); }
      var alive := Write();
      if !alive { return Died; }
      store := store.(cursors := store.cursors[scope := Versioned(event.cursor, version + 1)]);
    }

    /** One poll of a scope: the events after the saved cursor, in order, the cursor saved after each. */
    method PollOnce(scope: Scope, hooks: seq<Hook>, events: seq<Event>, now: nat)
      returns (processed: nat, status: Status)
      requires IsHookListing(hooks, store)
      modifies this
      ensures Now(status) ==
              PollEvents(env, old(store), hooks, events, scope, VersionOf(old(store).cursors, scope), now, old(life))
      ensures processed <= |events| && (status.Done? ==> processed == |events|)
      ensures CursorAfter(old(store).cursors, store.cursors, scope, events, processed)
    {
      ghost var before := store.cursors;
      ghost var outcome := PollEvents(env, store, hooks, events, scope, VersionOf(before, scope), now, life);
      var version: nat := if scope in store.cursors then store.cursors[scope].version else 0;
      processed, status := 0, Done;
      assert events[0..] == events;
      while processed < |events|
        invariant 0 <= processed && status == Done
        invariant OnTrack(env, before, hooks, events, scope, now, outcome, processed, version, store, life)
      {
        TrackNext(env, before, hooks, events, scope, now, outcome, processed, version, store, life);
        status := PollEvent(scope, hooks, events[processed], version, now);
        if !status.Done? { return; }
        version := version + 1;
        processed := processed + 1;
      }
    }

    /** One attempt: the record's fields are updated as the exchange goes. */
    method Deliver(d: Delivery, x: Exchange) returns (tried: Delivery)
      ensures tried == Attempted(d, x.response, x.ended)
    {
      tried := d.(attempts := d.attempts + 1);
      match x.response {
        case Answered(code) =>
          tried := tried.(lastStatus := code);
          if 200 <= code < 300 {
            tried := tried.(status := Completed, lastError := "");
            return;
          }
          tried := tried.(lastError := "webhook returned HTTP " + Text.Decimal(code));
        case NoResponse(error) =>
          tried := tried.(lastError := error);
      }
      if tried.attempts >= MAX_ATTEMPTS {
        tried := tried.(status := Dead);
        return;
      }
      tried := tried.(status := Retry, nextAttemptAt := x.ended + Backoff(tried.attempts));
    }

    method DeliverDue(entries: seq<Entry>, exchange: JobID -> Exchange, limit: int)
      returns (delivered: nat, status: Status)
      modifies this
      ensures Pass(store, life, status, delivered) ==
              DeliverPass(old(store), entries, exchange, BatchSize(limit), 0, old(life))
      ensures Fresh(entries, old(store)) && Sound(old(store)) && old(life).None? ==>
                TriesTheDue(store, entries, exchange, if limit <= 0 then 100 else limit, delivered, status)
    {
      ServesTheDue(store, entries, exchange, limit, life);
      var batch: nat := if limit <= 0 then 100 else limit;
      delivered, status := 0, Done;
      var i := 0;
      while i < |entries| && delivered != batch
        invariant 0 <= i <= |entries| && status == Done
        invariant DeliverPass(store, entries[i..], exchange, batch, delivered, life)
                  == DeliverPass(old(store), entries, exchange, batch, 0, old(life))
      {
        var e, x := entries[i], exchange(entries[i].job);
        assert entries[i..][1..] == entries[i + 1..];
        i := i + 1;
        if !IsDue(e.record.value, x.checked) { continue; }
        if RevisionID(e.job.hookID, e.job.revision) !in store.revisions { return delivered, Stopped(NotFound); }
        var tried := Deliver(e.record.value, x);
        if e.job !in store.deliveries || store.deliveries[e.job].version != e.record.version {
          return delivered, Stopped(Conflict);
        }
        var alive := Write();
        if !alive { return delivered, Died; }
        store := store.(deliveries := store.deliveries[e.job := Versioned(tried, e.record.version + 1)]);
        delivered := delivered + 1;
      }
    }
  }
}
