/** What processing an event leaves on record, said of the records themselves: who is passed over,
    whose script ran on what, and what is to be sent where. */
module DispatcherResults {
  import opened Results
  import opened Keys
  import opened Table
  import opened WebhookModel
  import opened Dispatcher

  // ---- One webhook ----

  /** A webhook that has nothing to do with the event costs nothing and changes nothing. */
  lemma PassedOverIsUntouched(env: Env, store: Store, hook: Hook, event: Event, now: nat, life: Life)
    requires PassesOver(hook, event)
    ensures ProcessHook(env, store, hook, event, now, life) == Run(store, life, Done)
  {
    assert hook.scope == event.scope ==> hook.scope.tenant == event.scope.tenant;
  }

  ghost predicate IsDealtWith(store: Store, job: JobID) {
    && job in store.mats
    && (store.mats[job].value.status.Skipped?
        || (store.mats[job].value.status in {Rendered, Failed} && job in store.deliveries))
  }

  lemma AskedIsDealtWith(env: Env, store: Store, hook: Hook, event: Event, now: nat, life: Life)
    requires !PassesOver(hook, event) && ProcessHook(env, store, hook, event, now, life).status.Done?
    ensures IsDealtWith(ProcessHook(env, store, hook, event, now, life).store,
                        JobID(hook.id, hook.activeRevision, event.id))
  {
    assert Matches(hook, event);
    HookKeeps(env, store, hook, event, now, life);
  }

  /** What the records of the webhook's job say is so: the context is what the data plane makes of the
      event for this webhook, the fate is the one the script decides on that context, and what is to
      be sent goes to the webhook's URL with the payload of the script, or says why it is not. */
  ghost predicate IsTrue(env: Env, store: Store, hook: Hook, event: Event) {
    var job := JobID(hook.id, hook.activeRevision, event.id);
    && (job in store.mats ==> MaterializationIsTrue(env, store, hook, event, store.mats[job].value))
    && (job in store.deliveries ==>
          job in store.mats && DeliveryIsTrue(hook, store.mats[job].value, store.deliveries[job].value))
  }

  ghost predicate MaterializationIsTrue(env: Env, store: Store, hook: Hook, event: Event, m: Materialization) {
    var id := RevisionID(hook.id, hook.activeRevision);
    && env.materialize(event, hook.lookups) == Some(m.context)
    && id in store.revisions
    && var outcome := env.transform(store.revisions[id].value.source, store.revisions[id].value.limits, m.context);
       match m.status
       case Stored => true
       case Rendered => outcome == Matched(m.payload)
       case Skipped => outcome == Unmatched
       case Failed => outcome == Threw(m.error)
  }

  ghost predicate DeliveryIsTrue(hook: Hook, m: Materialization, d: Delivery) {
    && d.url == hook.url && d.payload == m.payload
    && (m.status.Rendered? || (m.status.Failed? && d.status.Dead? && d.lastError == m.error))
  }

  lemma SettledIsTrue(env: Env, store: Store, hook: Hook, event: Event, now: nat, life: Life)
    requires IsTrue(env, store, hook, event) && JobOf(hook, event) in store.mats
    requires !store.mats[JobOf(hook, event)].value.status.Stored?
    requires RevisionID(hook.id, hook.activeRevision) in store.revisions
    ensures var revision := store.revisions[RevisionID(hook.id, hook.activeRevision)].value;
            IsTrue(env, AfterMaterialized(env, store, hook, revision, JobOf(hook, event), now, life).store, hook, event)
  {}

  lemma StoredIsTrue(env: Env, store: Store, hook: Hook, event: Event, now: nat, life: Life)
    requires IsTrue(env, store, hook, event) && JobOf(hook, event) in store.mats
    requires store.mats[JobOf(hook, event)].value.status.Stored?
    requires RevisionID(hook.id, hook.activeRevision) in store.revisions
    ensures var revision := store.revisions[RevisionID(hook.id, hook.activeRevision)].value;
            IsTrue(env, AfterMaterialized(env, store, hook, revision, JobOf(hook, event), now, life).store, hook, event)
  {
    var job, revision := JobOf(hook, event), store.revisions[RevisionID(hook.id, hook.activeRevision)].value;
    assert job !in store.deliveries;
    if CanWrite(life) {
      AfterTransform(env, store, hook, revision, job, now, life);
      SettledIsTrue(env, Transform(env, store, revision, job), hook, event, now, Spend(life));
    }
  }

  lemma HookIsTrue(env: Env, store: Store, hook: Hook, event: Event, now: nat, life: Life)
    requires IsTrue(env, store, hook, event)
    ensures IsTrue(env, ProcessHook(env, store, hook, event, now, life).store, hook, event)
  {
    var job, id := JobOf(hook, event), RevisionID(hook.id, hook.activeRevision);
    if Matches(hook, event) && id in store.revisions {
      var context := env.materialize(event, hook.lookups);
      if job in store.mats {
        MaterializedIsTrue(env, store, hook, event, now, life);
      } else if context.Some? && CanWrite(life) {
        MaterializedIsTrue(env, Materialized(store, job, context.value), hook, event, now, Spend(life));
      }
    }
  }

  lemma MaterializedIsTrue(env: Env, store: Store, hook: Hook, event: Event, now: nat, life: Life)
    requires IsTrue(env, store, hook, event) && JobOf(hook, event) in store.mats
    requires RevisionID(hook.id, hook.activeRevision) in store.revisions
    ensures var revision := store.revisions[RevisionID(hook.id, hook.activeRevision)].value;
            IsTrue(env, AfterMaterialized(env, store, hook, revision, JobOf(hook, event), now, life).store, hook, event)
  {
    if store.mats[JobOf(hook, event)].value.status.Stored? {
      StoredIsTrue(env, store, hook, event, now, life);
    } else {
      SettledIsTrue(env, store, hook, event, now, life);
    }
  }

  // ---- All webhooks ----

  ghost predicate IDsDiffer(hooks: seq<Hook>) { forall i, j :: 0 <= i < j < |hooks| ==> hooks[i].id != hooks[j].id }

  ghost predicate Untouched(before: Store, after: Store, job: JobID) {
    && (job in after.mats <==> job in before.mats) && (job in after.mats ==> after.mats[job] == before.mats[job])
    && (job in after.deliveries <==> job in before.deliveries)
    && (job in after.deliveries ==> after.deliveries[job] == before.deliveries[job])
  }

  lemma OtherJobUntouched(env: Env, store: Store, other: Hook, event: Event, now: nat, life: Life, job: JobID)
    requires job != JobOf(other, event)
    ensures var after := ProcessHook(env, store, other, event, now, life).store;
            Untouched(store, after, job) && after.revisions == store.revisions
  {
    var after := ProcessHook(env, store, other, event, now, life).store;
    OthersUntouched(env, store, other, event, now, life);
    assert job in after.mats <==> job in after.mats - {JobOf(other, event)};
    assert job in after.deliveries <==> job in after.deliveries - {JobOf(other, event)};
  }

  /** A run, cut anywhere or not, keeps what is on record about a webhook true, leaves nothing about a
      webhook it passes over, and deals with the others if it gets through. */
  lemma {:induction false} RunIsTrue(env: Env, store: Store, hooks: seq<Hook>, event: Event, now: nat, life: Life,
                                     hook: Hook)
    requires IDsDiffer(hooks) && forall k :: 0 <= k < |hooks| && hooks[k].id == hook.id ==> hooks[k] == hook
    ensures var r := ProcessHooks(env, store, hooks, event, now, life);
            var job := JobID(hook.id, hook.activeRevision, event.id);
            && (IsTrue(env, store, hook, event) ==> IsTrue(env, r.store, hook, event))
            && (PassesOver(hook, event) ==> Untouched(store, r.store, job))
            && (!PassesOver(hook, event) && hook in hooks && r.status.Done? ==> IsDealtWith(r.store, job))
    decreases |hooks|
  {
    if hooks != [] {
      var first := ProcessHook(env, store, hooks[0], event, now, life);
      var job := JobOf(hook, event);
      if hooks[0] == hook {
        if IsTrue(env, store, hook, event) {
          HookIsTrue(env, store, hook, event, now, life);
        }
        if PassesOver(hook, event) {
          PassedOverIsUntouched(env, store, hook, event, now, life);
        } else if first.status.Done? {
          AskedIsDealtWith(env, store, hook, event, now, life);
        }
      } else {
        OtherJobUntouched(env, store, hooks[0], event, now, life, job);
      }
      if first.status.Done? {
        RunIsTrue(env, first.store, hooks[1..], event, now, first.life, hook);
        if hooks[0] == hook {
          assert hook !in hooks[1..] by { NotAgain(hooks); }
          StaysDealtWith(env, first.store, hooks[1..], event, now, first.life, hook);
        }
      }
    }
  }

  lemma NotAgain(hooks: seq<Hook>)
    requires hooks != [] && IDsDiffer(hooks)
    ensures hooks[0] !in hooks[1..]
  {
    forall k | 0 <= k < |hooks[1..]|
      ensures hooks[1..][k] != hooks[0]
    {
      assert hooks[1..][k] == hooks[k + 1];
    }
  }

  /** Webhooks with other IDs leave the job alone. */
  lemma {:induction false} StaysDealtWith(env: Env, store: Store, hooks: seq<Hook>, event: Event, now: nat, life: Life,
                                          hook: Hook)
    requires hook !in hooks && forall k :: 0 <= k < |hooks| && hooks[k].id == hook.id ==> hooks[k] == hook
    ensures Untouched(store, ProcessHooks(env, store, hooks, event, now, life).store, JobOf(hook, event))
    decreases |hooks|
  {
    if hooks != [] {
      assert hooks[0] in hooks;
      OtherJobUntouched(env, store, hooks[0], event, now, life, JobOf(hook, event));
      var first := ProcessHook(env, store, hooks[0], event, now, life);
      if first.status.Done? {
        StaysDealtWith(env, first.store, hooks[1..], event, now, first.life, hook);
      }
    }
  }

  lemma {:induction false} CutRunsAreTrue(env: Env, store: Store, hooks: seq<Hook>, event: Event,
                                          lives: seq<(nat, Life)>, hook: Hook)
    requires IDsDiffer(hooks) && hook in hooks && IsTrue(env, store, hook, event)
    ensures var after := CutRuns(env, store, hooks, event, lives);
            && IsTrue(env, after, hook, event)
            && (PassesOver(hook, event) ==> Untouched(store, after, JobID(hook.id, hook.activeRevision, event.id)))
    decreases |lives|
  {
    if lives != [] {
      OnlyOne(hooks, hook);
      RunIsTrue(env, store, hooks, event, lives[0].0, lives[0].1, hook);
      var next := ProcessHooks(env, store, hooks, event, lives[0].0, lives[0].1).store;
      CutRunsAreTrue(env, next, hooks, event, lives[1..], hook);
    }
  }

  lemma OnlyOne(hooks: seq<Hook>, hook: Hook)
    requires IDsDiffer(hooks) && hook in hooks
    ensures forall k :: 0 <= k < |hooks| && hooks[k].id == hook.id ==> hooks[k] == hook
  {
    var i :| 0 <= i < |hooks| && hooks[i] == hook;
  }

  /** However often the process died on an event that was new to the webhook: after a run that gets
      through, there is nothing about a webhook that the event passes over, and any other has on
      record what its own script made of this very event, and a delivery of that to its own URL
      unless the script passed the event over. */
  lemma EventIsTold(env: Env, store: Store, hooks: seq<Hook>, event: Event, lives: seq<(nat, Life)>, now: nat,
                    hook: Hook)
    requires IDsDiffer(hooks) && hook in hooks
    requires var job := JobID(hook.id, hook.activeRevision, event.id);
             job !in store.mats && job !in store.deliveries
    requires ProcessHooks(env, CutRuns(env, store, hooks, event, lives), hooks, event, now, None).status.Done?
    ensures var job := JobID(hook.id, hook.activeRevision, event.id);
            var after := ProcessHooks(env, CutRuns(env, store, hooks, event, lives), hooks, event, now, None).store;
            if PassesOver(hook, event) then job !in after.mats && job !in after.deliveries
            else IsDealtWith(after, job) && IsTrue(env, after, hook, event)
  {
    CutRunsAreTrue(env, store, hooks, event, lives, hook);
    OnlyOne(hooks, hook);
    RunIsTrue(env, CutRuns(env, store, hooks, event, lives), hooks, event, now, None, hook);
  }
}
