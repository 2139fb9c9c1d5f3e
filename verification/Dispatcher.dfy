/** The dispatcher as the server runs it: events in, deliveries out, one store write after
    another, with the process free to die after any of them. */
module Dispatcher {
  import opened Results
  import opened Keys
  import opened Table
  import opened WebhookModel

  /** How many more store writes the process lives to make; None means that it does not die. */
  type Life = Option<nat>

  datatype Status = Done | Died | Stopped(code: ErrorCode)

  datatype Run = Run(store: Store, life: Life, status: Status)

  predicate CanWrite(life: Life) { life.None? || life.value > 0 }

  function Spend(life: Life): Life
    requires CanWrite(life)
  {
    if life.None? then None else Some(life.value - 1)
  }

  // ---- What the code does with one event, write by write ----

  /** Create a delivery unless it is already there. */
  function CreateDelivery(store: Store, job: JobID, d: Delivery, life: Life): Run {
    if job in store.deliveries then Run(store, life, Done)
    else if !CanWrite(life) then Run(store, life, Died)
    else Run(store.(deliveries := store.deliveries[job := Versioned(d, 1)]), Spend(life), Done)
  }

  function AfterMaterialized(env: Env, store: Store, hook: Hook, revision: HookRevision, job: JobID, now: nat,
                             life: Life): Run
    requires job in store.mats
  {
    var record := store.mats[job];
    match record.value.status
    case Stored =>
      var m := Transformed(record.value, env.transform(revision.source, revision.limits, record.value.context));
      if !CanWrite(life) then Run(store, life, Died)
      else
        var updated := store.(mats := store.mats[job := Versioned(m, record.version + 1)]);
        if m.status.Skipped? then Run(updated, Spend(life), Done)
        else CreateDelivery(updated, job, DeliveryFor(hook, m, now), Spend(life))
    case Skipped => Run(store, life, Done)
    case _ => CreateDelivery(store, job, DeliveryFor(hook, record.value, now), life)
  }

  function Materialized(store: Store, job: JobID, context: string): Store {
    store.(mats := store.mats[job := Versioned(NewMaterialization(context), 1)])
  }

  function ProcessHook(env: Env, store: Store, hook: Hook, event: Event, now: nat, life: Life): Run {
    var job := JobOf(hook, event);
    var id := RevisionID(hook.id, hook.activeRevision);
    if !Matches(hook, event) then Run(store, life, Done)
    else if id !in store.revisions then Run(store, life, Stopped(NotFound))
    else if job in store.mats then AfterMaterialized(env, store, hook, store.revisions[id].value, job, now, life)
    else
      var context := env.materialize(event, hook.lookups);
      if context.None? then Run(store, life, Stopped(Unavailable))
      else if !CanWrite(life) then Run(store, life, Died)
      else
        var stored := Materialized(store, job, context.value);
        AfterMaterialized(env, stored, hook, store.revisions[id].value, job, now, Spend(life))
  }

  function ProcessHooks(env: Env, store: Store, hooks: seq<Hook>, event: Event, now: nat, life: Life): Run
    decreases |hooks|
  {
    if hooks == [] then Run(store, life, Done)
    else
      var first := ProcessHook(env, store, hooks[0], event, now, life);
      if first.status.Done? then ProcessHooks(env, first.store, hooks[1..], event, now, first.life) else first
  }

  /** One event of a poll: process it, then save the cursor over the version read or written last. */
  function PollEvent(env: Env, store: Store, hooks: seq<Hook>, event: Event, scope: Scope, version: nat, now: nat,
                     life: Life): Run {
    var r := ProcessHooks(env, store, hooks, event, now, life);
    if !r.status.Done? then r
    else if VersionOf(r.store.cursors, scope) != version then Run(r.store, r.life, Stopped(Conflict))
    else if !CanWrite(r.life) then Run(r.store, r.life, Died)
    else Run(r.store.(cursors := r.store.cursors[scope := Versioned(event.cursor, version + 1)]), Spend(r.life), Done)
  }

  function PollEvents(env: Env, store: Store, hooks: seq<Hook>, events: seq<Event>, scope: Scope, version: nat,
                      now: nat, life: Life): Run
    decreases |events|
  {
    if events == [] then Run(store, life, Done)
    else
      var first := PollEvent(env, store, hooks, events[0], scope, version, now, life);
      if first.status.Done? then PollEvents(env, first.store, hooks, events[1..], scope, version + 1, now, first.life)
      else first
  }

  // ---- Equal but for timestamps ----

  function Timeless(d: Delivery): Delivery { d.(nextAttemptAt := 0) }

  ghost predicate SameButTime(a: Store, b: Store) {
    && a.hooks == b.hooks && a.revisions == b.revisions && a.mats == b.mats && a.cursors == b.cursors
    && SameDeliveries(a.deliveries, b.deliveries)
  }

  ghost predicate SameDeliveries(a: map<JobID, Versioned<Delivery>>, b: map<JobID, Versioned<Delivery>>) {
    && a.Keys == b.Keys
    && (forall j :: j in a ==> a[j].version == b[j].version && Timeless(a[j].value) == Timeless(b[j].value))
  }

  // ---- What a run leaves behind ----

  /** Nothing but this job's own records changes. */
  lemma OthersUntouched(env: Env, store: Store, hook: Hook, event: Event, now: nat, life: Life)
    ensures var after := ProcessHook(env, store, hook, event, now, life).store;
            var job := JobOf(hook, event);
            && after.hooks == store.hooks && after.revisions == store.revisions && after.cursors == store.cursors
            && after.mats - {job} == store.mats - {job} && after.deliveries - {job} == store.deliveries - {job}
  {
    var job := JobOf(hook, event);
    var id := RevisionID(hook.id, hook.activeRevision);
    if Matches(hook, event) && id in store.revisions {
      if job in store.mats {
        AfterTouchesOne(env, store, hook, store.revisions[id].value, job, now, life);
      } else if env.materialize(event, hook.lookups).Some? && CanWrite(life) {
        var stored := Materialized(store, job, env.materialize(event, hook.lookups).value);
        assert stored.mats - {job} == store.mats - {job};
        AfterTouchesOne(env, stored, hook, store.revisions[id].value, job, now, Spend(life));
      }
    }
  }

  lemma AfterTouchesOne(env: Env, store: Store, hook: Hook, revision: HookRevision, job: JobID, now: nat, life: Life)
    requires job in store.mats
    ensures var after := AfterMaterialized(env, store, hook, revision, job, now, life).store;
            && after.hooks == store.hooks && after.revisions == store.revisions && after.cursors == store.cursors
            && after.mats - {job} == store.mats - {job} && after.deliveries - {job} == store.deliveries - {job}
  {
    if !store.mats[job].value.status.Stored? {
      SettledTouchesOne(env, store, hook, revision, job, now, life);
    } else if CanWrite(life) {
      AfterTransform(env, store, hook, revision, job, now, life);
      var t := Transform(env, store, revision, job);
      assert t.mats - {job} == store.mats - {job};
      SettledTouchesOne(env, t, hook, revision, job, now, Spend(life));
    }
  }

  lemma SettledTouchesOne(env: Env, store: Store, hook: Hook, revision: HookRevision, job: JobID, now: nat, life: Life)
    requires job in store.mats && !store.mats[job].value.status.Stored?
    ensures var after := AfterMaterialized(env, store, hook, revision, job, now, life).store;
            && after == store.(deliveries := after.deliveries) && after.deliveries - {job} == store.deliveries - {job}
  {}

  // ---- Time does not matter ----

  lemma CreateIgnoresTime(a: Store, b: Store, job: JobID, da: Delivery, db: Delivery)
    requires SameButTime(a, b) && Timeless(da) == Timeless(db)
    ensures SameButTime(CreateDelivery(a, job, da, None).store, CreateDelivery(b, job, db, None).store)
  {}

  lemma StoredIgnoresTime(env: Env, a: Store, b: Store, hook: Hook, revision: HookRevision, job: JobID, nowA: nat,
                          nowB: nat)
    requires SameButTime(a, b) && job in a.mats && a.mats[job].value.status.Stored?
    ensures var x := AfterMaterialized(env, a, hook, revision, job, nowA, None);
            var y := AfterMaterialized(env, b, hook, revision, job, nowB, None);
            SameButTime(x.store, y.store) && x.status == y.status == Done && x.life == y.life == None
  {
    var record := a.mats[job];
    var m := Transformed(record.value, env.transform(revision.source, revision.limits, record.value.context));
    var c := a.(mats := a.mats[job := Versioned(m, record.version + 1)]);
    var d := b.(mats := a.mats[job := Versioned(m, record.version + 1)]);
    assert SameButTime(c, d);
    if !m.status.Skipped? {
      CreateIgnoresTime(c, d, job, DeliveryFor(hook, m, nowA), DeliveryFor(hook, m, nowB));
    }
  }

  lemma AfterIgnoresTime(env: Env, a: Store, b: Store, hook: Hook, revision: HookRevision, job: JobID, nowA: nat,
                         nowB: nat)
    requires SameButTime(a, b) && job in a.mats
    ensures var x := AfterMaterialized(env, a, hook, revision, job, nowA, None);
            var y := AfterMaterialized(env, b, hook, revision, job, nowB, None);
            SameButTime(x.store, y.store) && x.status == y.status == Done && x.life == y.life == None
  {
    var m := a.mats[job].value;
    if m.status.Stored? {
      StoredIgnoresTime(env, a, b, hook, revision, job, nowA, nowB);
    } else if !m.status.Skipped? {
      CreateIgnoresTime(a, b, job, DeliveryFor(hook, m, nowA), DeliveryFor(hook, m, nowB));
    }
  }

  /** Neither the clock nor the times already on record influence what is done. */
  lemma HookIgnoresTime(env: Env, a: Store, b: Store, hook: Hook, event: Event, nowA: nat, nowB: nat)
    requires SameButTime(a, b)
    ensures var x, y := ProcessHook(env, a, hook, event, nowA, None), ProcessHook(env, b, hook, event, nowB, None);
            SameButTime(x.store, y.store) && x.status == y.status && !x.status.Died? && x.life == y.life == None
  {
    var job := JobOf(hook, event);
    var id := RevisionID(hook.id, hook.activeRevision);
    if Matches(hook, event) && id in a.revisions {
      var context := env.materialize(event, hook.lookups);
      if job in a.mats {
        AfterIgnoresTime(env, a, b, hook, a.revisions[id].value, job, nowA, nowB);
      } else if context.Some? {
        var stored := a.mats[job := Versioned(NewMaterialization(context.value), 1)];
        AfterIgnoresTime(env, a.(mats := stored), b.(mats := stored), hook, a.revisions[id].value, job, nowA, nowB);
      }
    }
  }

  lemma {:induction false} HooksIgnoreTime(env: Env, a: Store, b: Store, hooks: seq<Hook>, event: Event, nowA: nat,
                                           nowB: nat)
    requires SameButTime(a, b)
    ensures var x, y := ProcessHooks(env, a, hooks, event, nowA, None), ProcessHooks(env, b, hooks, event, nowB, None);
            SameButTime(x.store, y.store) && x.status == y.status && !x.status.Died?
    decreases |hooks|
  {
    if hooks != [] {
      HookIgnoresTime(env, a, b, hooks[0], event, nowA, nowB);
      var x, y := ProcessHook(env, a, hooks[0], event, nowA, None), ProcessHook(env, b, hooks[0], event, nowB, None);
      if x.status.Done? {
        HooksIgnoreTime(env, x.store, y.store, hooks[1..], event, nowA, nowB);
      }
    }
  }

  // ---- The same event again ----

  /** What is settled for one job, and what a run leaves alone. */
  ghost predicate Keeps(before: Store, after: Store) {
    && after.hooks == before.hooks && after.revisions == before.revisions && after.cursors == before.cursors
    && (forall j :: Finished(before, j) ==> Finished(after, j))
  }

  lemma CreateConverges(store: Store, job: JobID, d1: Delivery, life: Life, d2: Delivery, d: Delivery)
    requires Timeless(d1) == Timeless(d2) == Timeless(d)
    ensures SameButTime(CreateDelivery(CreateDelivery(store, job, d1, life).store, job, d2, None).store,
                        CreateDelivery(store, job, d, None).store)
  {
    if job !in store.deliveries && CanWrite(life) {
      var created := store.(deliveries := store.deliveries[job := Versioned(d1, 1)]);
      assert CreateDelivery(created, job, d2, None).store == created;
      assert SameDeliveries(created.deliveries, store.deliveries[job := Versioned(d, 1)]);
    }
  }

  lemma AfterKeeps(env: Env, store: Store, hook: Hook, revision: HookRevision, job: JobID, now: nat, life: Life)
    requires job in store.mats
    ensures var cut := AfterMaterialized(env, store, hook, revision, job, now, life);
            && Keeps(store, cut.store) && job in cut.store.mats && !cut.status.Stopped?
            && (cut.status.Done? ==> Finished(cut.store, job))
  {
    if !store.mats[job].value.status.Stored? {
      SettledKeeps(env, store, hook, revision, job, now, life);
    } else if CanWrite(life) {
      AfterTransform(env, store, hook, revision, job, now, life);
      var t := Transform(env, store, revision, job);
      assert Keeps(store, t);
      SettledKeeps(env, t, hook, revision, job, now, Spend(life));
    }
  }

  lemma SettledKeeps(env: Env, store: Store, hook: Hook, revision: HookRevision, job: JobID, now: nat, life: Life)
    requires job in store.mats && !store.mats[job].value.status.Stored?
    ensures var cut := AfterMaterialized(env, store, hook, revision, job, now, life);
            && Keeps(store, cut.store) && cut.store.mats == store.mats && !cut.status.Stopped?
            && (cut.status.Done? ==> Finished(cut.store, job))
  {
    if !store.mats[job].value.status.Skipped? {
      CreateKeeps(store, job, DeliveryFor(hook, store.mats[job].value, now), life);
    }
  }

  lemma CreateKeeps(store: Store, job: JobID, d: Delivery, life: Life)
    ensures var r := CreateDelivery(store, job, d, life);
            Keeps(store, r.store) && r.store.mats == store.mats && (r.status.Done? ==> job in r.store.deliveries)
  {}

  function Transform(env: Env, store: Store, revision: HookRevision, job: JobID): Store
    requires job in store.mats
  {
    var record := store.mats[job];
    var m := Transformed(record.value, env.transform(revision.source, revision.limits, record.value.context));
    store.(mats := store.mats[job := Versioned(m, record.version + 1)])
  }

  lemma AfterTransform(env: Env, store: Store, hook: Hook, revision: HookRevision, job: JobID, now: nat, life: Life)
    requires job in store.mats && store.mats[job].value.status.Stored? && CanWrite(life)
    ensures !Transform(env, store, revision, job).mats[job].value.status.Stored?
    ensures AfterMaterialized(env, store, hook, revision, job, now, life)
            == AfterMaterialized(env, Transform(env, store, revision, job), hook, revision, job, now, Spend(life))
  {}

  lemma SettledConverges(env: Env, store: Store, hook: Hook, revision: HookRevision, job: JobID, now1: nat,
                         life: Life, now2: nat, now: nat)
    requires job in store.mats && !store.mats[job].value.status.Stored?
    ensures var cut := AfterMaterialized(env, store, hook, revision, job, now1, life);
            cut.store.mats == store.mats
            && SameButTime(AfterMaterialized(env, cut.store, hook, revision, job, now2, None).store,
                           AfterMaterialized(env, store, hook, revision, job, now, None).store)
  {
    var m := store.mats[job].value;
    if !m.status.Skipped? {
      CreateKeeps(store, job, DeliveryFor(hook, m, now1), life);
      CreateConverges(store, job, DeliveryFor(hook, m, now1), life, DeliveryFor(hook, m, now2),
                      DeliveryFor(hook, m, now));
    }
  }

  lemma AfterConverges(env: Env, store: Store, hook: Hook, revision: HookRevision, job: JobID, now1: nat,
                       life: Life, now2: nat, now: nat)
    requires job in store.mats
    ensures var cut := AfterMaterialized(env, store, hook, revision, job, now1, life);
            job in cut.store.mats
            && SameButTime(AfterMaterialized(env, cut.store, hook, revision, job, now2, None).store,
                           AfterMaterialized(env, store, hook, revision, job, now, None).store)
  {
    if !store.mats[job].value.status.Stored? {
      SettledConverges(env, store, hook, revision, job, now1, life, now2, now);
    } else if CanWrite(life) {
      AfterTransform(env, store, hook, revision, job, now1, life);
      AfterTransform(env, store, hook, revision, job, now, None);
      SettledConverges(env, Transform(env, store, revision, job), hook, revision, job, now1, Spend(life), now2, now);
    } else {
      AfterIgnoresTime(env, store, store, hook, revision, job, now2, now);
    }
  }

  /** This webhook has been dealt with for the event. */
  ghost predicate Dealt(store: Store, hook: Hook, event: Event) {
    Matches(hook, event) ==>
      Finished(store, JobOf(hook, event)) && RevisionID(hook.id, hook.activeRevision) in store.revisions
  }

  lemma HookKeeps(env: Env, store: Store, hook: Hook, event: Event, now: nat, life: Life)
    ensures var cut := ProcessHook(env, store, hook, event, now, life);
            Keeps(store, cut.store) && (cut.status.Done? ==> Dealt(cut.store, hook, event))
  {
    var job := JobOf(hook, event);
    var id := RevisionID(hook.id, hook.activeRevision);
    if Matches(hook, event) && id in store.revisions {
      var revision := store.revisions[id].value;
      var context := env.materialize(event, hook.lookups);
      if job in store.mats {
        AfterKeeps(env, store, hook, revision, job, now, life);
      } else if context.Some? && CanWrite(life) {
        AfterKeeps(env, Materialized(store, job, context.value), hook, revision, job, now, Spend(life));
      }
    }
  }

  /** One webhook cut short and run again comes out as one uninterrupted run. */
  lemma HookConverges(env: Env, store: Store, hook: Hook, event: Event, now1: nat, life: Life, now2: nat, now: nat)
    ensures var cut := ProcessHook(env, store, hook, event, now1, life);
            var again := ProcessHook(env, cut.store, hook, event, now2, None);
            var once := ProcessHook(env, store, hook, event, now, None);
            SameButTime(again.store, once.store) && again.status == once.status
  {
    var job := JobOf(hook, event);
    var id := RevisionID(hook.id, hook.activeRevision);
    HookKeeps(env, store, hook, event, now1, life);
    HookIgnoresTime(env, store, store, hook, event, now2, now);
    if Matches(hook, event) && id in store.revisions {
      var revision := store.revisions[id].value;
      var context := env.materialize(event, hook.lookups);
      if job in store.mats {
        AfterConverges(env, store, hook, revision, job, now1, life, now2, now);
        MaterializedHook(env, store, hook, event, now1, life);
        MaterializedHook(env, store, hook, event, now, None);
        var cut := ProcessHook(env, store, hook, event, now1, life);
        MaterializedHook(env, cut.store, hook, event, now2, None);
      } else if context.Some? && CanWrite(life) {
        NewHookConverges(env, store, hook, event, now1, life, now2, now);
      }
    }
  }

  lemma MaterializedHook(env: Env, store: Store, hook: Hook, event: Event, now: nat, life: Life)
    requires Matches(hook, event) && RevisionID(hook.id, hook.activeRevision) in store.revisions
    requires JobOf(hook, event) in store.mats
    ensures ProcessHook(env, store, hook, event, now, life)
            == AfterMaterialized(env, store, hook, store.revisions[RevisionID(hook.id, hook.activeRevision)].value,
                                 JobOf(hook, event), now, life)
    ensures var r := ProcessHook(env, store, hook, event, now, life); r.life.None? <==> life.None?
    ensures life.None? ==> ProcessHook(env, store, hook, event, now, life).status == Done
  {}

  lemma NewHookConverges(env: Env, store: Store, hook: Hook, event: Event, now1: nat, life: Life, now2: nat, now: nat)
    requires Matches(hook, event) && RevisionID(hook.id, hook.activeRevision) in store.revisions
    requires JobOf(hook, event) !in store.mats
    requires env.materialize(event, hook.lookups).Some? && CanWrite(life)
    ensures var cut := ProcessHook(env, store, hook, event, now1, life);
            var again := ProcessHook(env, cut.store, hook, event, now2, None);
            var once := ProcessHook(env, store, hook, event, now, None);
            SameButTime(again.store, once.store) && again.status == once.status == Done
  {
    var job := JobOf(hook, event);
    var context := env.materialize(event, hook.lookups).value;
    var revision := store.revisions[RevisionID(hook.id, hook.activeRevision)].value;
    var stored := Materialized(store, job, context);
    AfterConverges(env, stored, hook, revision, job, now1, Spend(life), now2, now);
    AfterKeeps(env, stored, hook, revision, job, now1, Spend(life));
    MaterializedHook(env, stored, hook, event, now1, Spend(life));
    MaterializedHook(env, stored, hook, event, now, None);
    var cut := ProcessHook(env, stored, hook, event, now1, Spend(life));
    MaterializedHook(env, cut.store, hook, event, now2, None);
  }

  /** A webhook that has been dealt with has nothing more to do. */
  lemma DealtIsQuiet(env: Env, store: Store, hook: Hook, event: Event, now: nat, life: Life)
    requires Dealt(store, hook, event)
    ensures ProcessHook(env, store, hook, event, now, life) == Run(store, life, Done)
  {}

  lemma {:induction false} HooksKeep(env: Env, store: Store, hooks: seq<Hook>, event: Event, now: nat, life: Life)
    ensures var r := ProcessHooks(env, store, hooks, event, now, life);
            Keeps(store, r.store)
            && (r.status.Done? ==> forall i :: 0 <= i < |hooks| ==> Dealt(r.store, hooks[i], event))
    decreases |hooks|
  {
    if hooks != [] {
      HookKeeps(env, store, hooks[0], event, now, life);
      var first := ProcessHook(env, store, hooks[0], event, now, life);
      if first.status.Done? {
        HooksKeep(env, first.store, hooks[1..], event, now, first.life);
        var r := ProcessHooks(env, first.store, hooks[1..], event, now, first.life);
        assert Dealt(r.store, hooks[0], event);
        forall i | 0 <= i < |hooks| && r.status.Done?
          ensures Dealt(r.store, hooks[i], event)
        {
          if i > 0 {
            assert hooks[i] == hooks[1..][i - 1];
          }
        }
      }
    }
  }

  /** Processing an event may be cut after any store write: running it again gives the
      materializations and deliveries of one uninterrupted run, timestamps aside. */
  lemma {:induction false} EventConverges(env: Env, store: Store, hooks: seq<Hook>, event: Event, now1: nat,
                                          life: Life, now2: nat, now: nat)
    ensures var cut := ProcessHooks(env, store, hooks, event, now1, life);
            var again := ProcessHooks(env, cut.store, hooks, event, now2, None);
            var once := ProcessHooks(env, store, hooks, event, now, None);
            SameButTime(again.store, once.store) && again.status == once.status
    decreases |hooks|
  {
    if hooks != [] {
      var rest := hooks[1..];
      var cut1 := ProcessHook(env, store, hooks[0], event, now1, life);
      HookConverges(env, store, hooks[0], event, now1, life, now2, now);
      HookKeeps(env, store, hooks[0], event, now1, life);
      var again1 := ProcessHook(env, cut1.store, hooks[0], event, now2, None);
      var once1 := ProcessHook(env, store, hooks[0], event, now, None);
      HookIgnoresTime(env, store, store, hooks[0], event, now, now);
      HookIgnoresTime(env, cut1.store, cut1.store, hooks[0], event, now2, now2);
      if !cut1.status.Done? {
        HooksIgnoreTime(env, again1.store, once1.store, rest, event, now2, now);
      } else {
        var cut := ProcessHooks(env, cut1.store, rest, event, now1, cut1.life);
        HooksKeep(env, cut1.store, rest, event, now1, cut1.life);
        DealtIsQuiet(env, cut.store, hooks[0], event, now2, None);
        DealtIsQuiet(env, cut1.store, hooks[0], event, now2, None);
        EventConverges(env, cut1.store, rest, event, now1, cut1.life, now2, now);
        HooksIgnoreTime(env, cut1.store, once1.store, rest, event, now, now);
      }
    }
  }

  /** The store after a series of runs of the same event, each cut as its life says. */
  function CutRuns(env: Env, store: Store, hooks: seq<Hook>, event: Event, lives: seq<(nat, Life)>): Store
    decreases |lives|
  {
    if lives == [] then store
    else CutRuns(env, ProcessHooks(env, store, hooks, event, lives[0].0, lives[0].1).store, hooks, event, lives[1..])
  }

  /** However often the process died on an event, the run that survives ends where a single run would have. */
  lemma {:induction false} CrashesDoNotMatter(env: Env, store: Store, hooks: seq<Hook>, event: Event,
          lives: seq<(nat, Life)>, now2: nat, now: nat)
    ensures var again := ProcessHooks(env, CutRuns(env, store, hooks, event, lives), hooks, event, now2, None);
            var once := ProcessHooks(env, store, hooks, event, now, None);
            SameButTime(again.store, once.store) && again.status == once.status
    decreases |lives|
  {
    if lives == [] {
      HooksIgnoreTime(env, store, store, hooks, event, now2, now);
    } else {
      var first := ProcessHooks(env, store, hooks, event, lives[0].0, lives[0].1).store;
      CrashesDoNotMatter(env, first, hooks, event, lives[1..], now2, now);
      EventConverges(env, store, hooks, event, lives[0].0, lives[0].1, now, now);
    }
  }

  /** An event that has been dealt with for every webhook is not dealt with again: no write happens, whatever the
      clock. */
  lemma {:induction false} FinishedEventIsQuiet(env: Env, store: Store, hooks: seq<Hook>, event: Event, now: nat,
          life: Life)
    requires forall i :: 0 <= i < |hooks| ==> Dealt(store, hooks[i], event)
    ensures ProcessHooks(env, store, hooks, event, now, life) == Run(store, life, Done)
    decreases |hooks|
  {
    if hooks != [] {
      DealtIsQuiet(env, store, hooks[0], event, now, life);
      FinishedEventIsQuiet(env, store, hooks[1..], event, now, life);
    }
  }

  /** ... and a run that came to its end has dealt with the event for every webhook. */
  lemma RunTwiceIsRunOnce(env: Env, store: Store, hooks: seq<Hook>, event: Event, now1: nat, life: Life, now2: nat,
                          again: Life)
    requires ProcessHooks(env, store, hooks, event, now1, life).status.Done?
    ensures var once := ProcessHooks(env, store, hooks, event, now1, life).store;
            ProcessHooks(env, once, hooks, event, now2, again) == Run(once, again, Done)
  {
    HooksKeep(env, store, hooks, event, now1, life);
    FinishedEventIsQuiet(env, ProcessHooks(env, store, hooks, event, now1, life).store, hooks, event, now2, again);
  }

  /** A poll that is not disturbed moves the cursor with each event it has dealt with, and with nothing else. */
  lemma PollEventCursor(env: Env, store: Store, hooks: seq<Hook>, event: Event, scope: Scope, version: nat,
                        now: nat, life: Life)
    requires VersionOf(store.cursors, scope) == version
    ensures var r := PollEvent(env, store, hooks, event, scope, version, now, life);
            && r.store.hooks == store.hooks && r.status != Stopped(Conflict)
            && r.store.cursors == (if r.status.Done? then store.cursors[scope := Versioned(event.cursor, version + 1)]
                                   else store.cursors)
            && (r.status.Done? ==> forall i :: 0 <= i < |hooks| ==> Dealt(r.store, hooks[i], event))
  {
    HooksKeep(env, store, hooks, event, now, life);
    NoConflict(env, store, hooks, event, now, life);
    var r := ProcessHooks(env, store, hooks, event, now, life);
    if r.status.Done? && CanWrite(r.life) {
      forall i | 0 <= i < |hooks|
        ensures Dealt(PollEvent(env, store, hooks, event, scope, version, now, life).store, hooks[i], event)
      {
        assert Dealt(r.store, hooks[i], event);
      }
    }
  }

  lemma {:induction false} NoConflict(env: Env, store: Store, hooks: seq<Hook>, event: Event, now: nat, life: Life)
    ensures ProcessHooks(env, store, hooks, event, now, life).status != Stopped(Conflict)
    decreases |hooks|
  {
    if hooks != [] {
      var first := ProcessHook(env, store, hooks[0], event, now, life);
      NoConflict(env, first.store, hooks[1..], event, now, first.life);
    }
  }

  /** The rest of a poll after one more event. */
  lemma PollNext(env: Env, store: Store, hooks: seq<Hook>, events: seq<Event>, i: nat, scope: Scope, version: nat,
                 now: nat, life: Life)
    requires i < |events|
    ensures var first := PollEvent(env, store, hooks, events[i], scope, version, now, life);
            PollEvents(env, store, hooks, events[i..], scope, version, now, life) ==
            if first.status.Done? then
              PollEvents(env, first.store, hooks, events[i + 1..], scope, version + 1, now, first.life)
            else first
  {
    assert events[i..][1..] == events[i + 1..];
  }
}
