/** The two views of the dispatcher agree: what the functions say about polls and delivery passes is
    what the state machine does when nobody interferes. */
module DispatcherRuns {
  import opened Results
  import opened Table
  import opened WebhookModel
  import opened Dispatcher
  import R = WebhookRetry
  import S = WebhookSystem

  /** What the data plane, the script runtime and the listing of webhooks answer to the dispatcher where it stands. */
  function Answer(env: Env, hooks: seq<Hook>, w: S.Work): S.Input {
    if w.AtEvent? then S.Hooks(hooks)
    else if w.AtMissing? && S.AtOneHook(w.poll) then
      var context := env.materialize(w.poll.events[0], S.HookAt(w.poll).lookups);
      if context.Some? then S.Context(context.value) else S.Nothing
    else if w.AtTransform? then S.Ran(env.transform(w.revision.source, w.revision.limits, w.record.value.context))
    else S.Nothing
  }

  function Advance(env: Env, hooks: seq<Hook>, s: S.State, k: nat): S.State
    decreases k
  {
    if k == 0 then s else Advance(env, hooks, S.DispatchStep(s, Answer(env, hooks, s.work)), k - 1)
  }

  /** k steps of the dispatcher lead from s to t. */
  ghost predicate Leads(env: Env, hooks: seq<Hook>, s: S.State, k: nat, t: S.State) { Advance(env, hooks, s, k) == t }

  lemma {:induction false} AdvanceAdds(env: Env, hooks: seq<Hook>, s: S.State, j: nat, k: nat)
    ensures Advance(env, hooks, Advance(env, hooks, s, j), k) == Advance(env, hooks, s, j + k)
    decreases j
  {
    if j > 0 {
      AdvanceAdds(env, hooks, S.DispatchStep(s, Answer(env, hooks, s.work)), j - 1, k);
    }
  }

  /** One more step after k. */
  lemma OneMore(env: Env, hooks: seq<Hook>, s: S.State, k: nat, t: S.State, u: S.State)
    requires Leads(env, hooks, s, k, t) && u == S.DispatchStep(t, Answer(env, hooks, t.work))
    ensures Leads(env, hooks, s, k + 1, u)
  {
    AdvanceAdds(env, hooks, s, k, 1);
    assert Advance(env, hooks, t, 1) == Advance(env, hooks, u, 0);
  }

  // ---- Single steps ----

  function At(s: S.State, store: Store, work: S.Work): S.State { s.(store := store, work := work) }

  function NextAt(p: S.Poll): S.Work { S.AtHook(p.(next := p.next + 1)) }

  lemma StepDelivery(env: Env, hooks: seq<Hook>, s: S.State, p: S.Poll, d: Delivery)
    requires S.AtOneHook(p) && s.work == S.AtDelivery(p, d)
    ensures S.DispatchStep(s, Answer(env, hooks, s.work)) ==
            At(s, CreateDelivery(s.store, S.JobAt(p), d, None).store, NextAt(p))
  {}

  /** What is done with a materialization that is settled. */
  function SettledStore(s: S.State, p: S.Poll): Store
    requires S.AtOneHook(p) && S.JobAt(p) in s.store.mats
  {
    var m := s.store.mats[S.JobAt(p)].value;
    if m.status.Skipped? then s.store
    else CreateDelivery(s.store, S.JobAt(p), DeliveryFor(S.HookAt(p), m, s.now), None).store
  }

  lemma StepSettled(env: Env, hooks: seq<Hook>, s: S.State, p: S.Poll, revision: HookRevision)
    requires S.AtOneHook(p) && s.work == S.AtMaterialization(p, revision)
    requires S.JobAt(p) in s.store.mats && !s.store.mats[S.JobAt(p)].value.status.Stored?
    ensures exists k :: Leads(env, hooks, s, k, At(s, SettledStore(s, p), NextAt(p)))
  {
    var m := s.store.mats[S.JobAt(p)].value;
    var t := S.DispatchStep(s, Answer(env, hooks, s.work));
    OneMore(env, hooks, s, 0, s, t);
    if !m.status.Skipped? {
      var d := DeliveryFor(S.HookAt(p), m, s.now);
      assert t == At(s, s.store, S.AtDelivery(p, d));
      StepDelivery(env, hooks, t, p, d);
      OneMore(env, hooks, s, 1, t, At(s, SettledStore(s, p), NextAt(p)));
    } else {
      assert t == At(s, SettledStore(s, p), NextAt(p));
    }
  }

  lemma StepSettle(env: Env, hooks: seq<Hook>, s: S.State, p: S.Poll, revision: HookRevision)
    requires S.AtOneHook(p) && S.JobAt(p) in s.store.mats && s.store.mats[S.JobAt(p)].version >= 1
    requires s.work == S.AtTransform(p, revision, s.store.mats[S.JobAt(p)])
    ensures var updated := Transform(env, s.store, revision, S.JobAt(p));
            var m := updated.mats[S.JobAt(p)].value;
            S.DispatchStep(s, Answer(env, hooks, s.work))
            == At(s, updated, if m.status.Skipped? then NextAt(p)
                  else S.AtDelivery(p, DeliveryFor(S.HookAt(p), m, s.now)))
  {}

  lemma StepTransform(env: Env, hooks: seq<Hook>, s: S.State, p: S.Poll, revision: HookRevision, hook: Hook)
    requires S.AtOneHook(p) && hook == S.HookAt(p) && S.JobAt(p) in s.store.mats
    requires s.work == S.AtTransform(p, revision, s.store.mats[S.JobAt(p)])
    requires s.store.mats[S.JobAt(p)].value.status.Stored? && s.store.mats[S.JobAt(p)].version >= 1
    ensures exists k ::
              Leads(env, hooks, s, k,
                    At(s, AfterMaterialized(env, s.store, hook, revision, S.JobAt(p), s.now, None).store, NextAt(p)))
  {
    var job := S.JobAt(p);
    var updated := Transform(env, s.store, revision, job);
    var m := updated.mats[job].value;
    AfterTransform(env, s.store, hook, revision, job, s.now, None);
    StepSettle(env, hooks, s, p, revision);
    var t := S.DispatchStep(s, Answer(env, hooks, s.work));
    OneMore(env, hooks, s, 0, s, t);
    if !m.status.Skipped? {
      var d := DeliveryFor(hook, m, s.now);
      StepDelivery(env, hooks, t, p, d);
      OneMore(env, hooks, s, 1, t, At(s, CreateDelivery(updated, job, d, None).store, NextAt(p)));
    }
    SettledIs(env, s.store, updated, hook, revision, job, s.now);
  }

  lemma SettledIs(env: Env, store: Store, updated: Store, hook: Hook, revision: HookRevision, job: JobID, now: nat)
    requires job in store.mats && job in updated.mats && !updated.mats[job].value.status.Stored?
    requires AfterMaterialized(env, store, hook, revision, job, now, None) ==
             AfterMaterialized(env, updated, hook, revision, job, now, None)
    ensures AfterMaterialized(env, store, hook, revision, job, now, None).store
            == if updated.mats[job].value.status.Skipped? then updated
               else CreateDelivery(updated, job, DeliveryFor(hook, updated.mats[job].value, now), None).store
  {}

  // ---- One webhook ----

  lemma Then(env: Env, hooks: seq<Hook>, s: S.State, j: nat, t: S.State, k: nat, u: S.State)
    requires Leads(env, hooks, s, j, t) && Leads(env, hooks, t, k, u)
    ensures Leads(env, hooks, s, j + k, u)
  {
    AdvanceAdds(env, hooks, s, j, k);
  }

  /** Stored records have versions from 1 on. */
  ghost predicate Numbered(store: Store) { forall job :: job in store.mats ==> store.mats[job].version >= 1 }

  lemma StepLook(env: Env, hooks: seq<Hook>, s: S.State, p: S.Poll)
    requires s.work == S.AtHook(p) && S.AtOneHook(p)
    ensures var hook := S.HookAt(p);
            var id := RevisionID(hook.id, hook.activeRevision);
            S.DispatchStep(s, Answer(env, hooks, s.work)) ==
              if !Matches(hook, p.events[0]) then At(s, s.store, NextAt(p))
              else if id !in s.store.revisions then At(s, s.store, S.Resting)
              else At(s, s.store, S.AtMaterialization(p, s.store.revisions[id].value))
  {}

  lemma StepLoad(env: Env, hooks: seq<Hook>, s: S.State, p: S.Poll, revision: HookRevision)
    requires s.work == S.AtMaterialization(p, revision) && S.AtOneHook(p)
    requires S.JobAt(p) in s.store.mats ==> s.store.mats[S.JobAt(p)].value.status.Stored?
    ensures S.DispatchStep(s, Answer(env, hooks, s.work)) ==
              if S.JobAt(p) in s.store.mats then At(s, s.store, S.AtTransform(p, revision, s.store.mats[S.JobAt(p)]))
              else At(s, s.store, S.AtMissing(p, revision))
  {}

  lemma StepMaterialize(env: Env, hooks: seq<Hook>, s: S.State, p: S.Poll, revision: HookRevision)
    requires s.work == S.AtMissing(p, revision) && S.AtOneHook(p) && S.JobAt(p) !in s.store.mats
    requires env.materialize(p.events[0], S.HookAt(p).lookups).Some?
    ensures var record := Versioned(NewMaterialization(env.materialize(p.events[0], S.HookAt(p).lookups).value), 1);
            S.DispatchStep(s, Answer(env, hooks, s.work))
            == At(s, s.store.(mats := s.store.mats[S.JobAt(p) := record]), S.AtTransform(p, revision, record))
  {}

  /** From the revision in hand to the next webhook. */
  lemma AfterLook(env: Env, hooks: seq<Hook>, s: S.State, p: S.Poll, revision: HookRevision, hook: Hook)
    requires s.work == S.AtMaterialization(p, revision) && S.AtOneHook(p) && hook == S.HookAt(p) && Numbered(s.store)
    requires S.JobAt(p) in s.store.mats
    ensures exists k ::
              Leads(env, hooks, s, k,
                    At(s, AfterMaterialized(env, s.store, hook, revision, S.JobAt(p), s.now, None).store, NextAt(p)))
  {
    var job := S.JobAt(p);
    if s.store.mats[job].value.status.Stored? {
      StepLoad(env, hooks, s, p, revision);
      var t := At(s, s.store, S.AtTransform(p, revision, s.store.mats[job]));
      OneMore(env, hooks, s, 0, s, t);
      StepTransform(env, hooks, t, p, revision, hook);
      var u := At(s, AfterMaterialized(env, s.store, hook, revision, job, s.now, None).store, NextAt(p));
      var k :| Leads(env, hooks, t, k, u);
      Then(env, hooks, s, 1, t, k, u);
    } else {
      StepSettled(env, hooks, s, p, revision);
      assert SettledStore(s, p) == AfterMaterialized(env, s.store, hook, revision, job, s.now, None).store;
    }
  }

  lemma MissingLook(env: Env, hooks: seq<Hook>, s: S.State, p: S.Poll, revision: HookRevision, hook: Hook,
                    stored: Store)
    requires s.work == S.AtMaterialization(p, revision) && S.AtOneHook(p) && hook == S.HookAt(p)
    requires S.JobAt(p) !in s.store.mats && env.materialize(p.events[0], hook.lookups).Some?
    requires stored == Materialized(s.store, S.JobAt(p), env.materialize(p.events[0], hook.lookups).value)
    ensures exists k ::
              Leads(env, hooks, s, k,
                    At(s, AfterMaterialized(env, stored, hook, revision, S.JobAt(p), s.now, None).store, NextAt(p)))
  {
    var job := S.JobAt(p);
    StepLoad(env, hooks, s, p, revision);
    var t := At(s, s.store, S.AtMissing(p, revision));
    OneMore(env, hooks, s, 0, s, t);
    StepMaterialize(env, hooks, t, p, revision);
    var m := At(s, stored, S.AtTransform(p, revision, stored.mats[job]));
    OneMore(env, hooks, s, 1, t, m);
    StepTransform(env, hooks, m, p, revision, hook);
    var u := At(s, AfterMaterialized(env, stored, hook, revision, job, s.now, None).store, NextAt(p));
    var k :| Leads(env, hooks, m, k, u);
    Then(env, hooks, s, 2, m, k, u);
  }

  lemma HookRuns(env: Env, hooks: seq<Hook>, s: S.State, p: S.Poll)
    requires s.work == S.AtHook(p) && S.AtOneHook(p) && Numbered(s.store)
    requires ProcessHook(env, s.store, S.HookAt(p), p.events[0], s.now, None).status.Done?
    ensures exists k :: Leads(env, hooks, s, k,
                              At(s, ProcessHook(env, s.store, S.HookAt(p), p.events[0], s.now, None).store, NextAt(p)))
  {
    var hook, event := S.HookAt(p), p.events[0];
    var id := RevisionID(hook.id, hook.activeRevision);
    var u := At(s, ProcessHook(env, s.store, hook, event, s.now, None).store, NextAt(p));
    StepLook(env, hooks, s, p);
    var t := S.DispatchStep(s, Answer(env, hooks, s.work));
    OneMore(env, hooks, s, 0, s, t);
    if Matches(hook, event) {
      var revision := s.store.revisions[id].value;
      if S.JobAt(p) in s.store.mats {
        AfterLook(env, hooks, t, p, revision, hook);
      } else {
        MissingLook(env, hooks, t, p, revision, hook,
                    Materialized(s.store, S.JobAt(p), env.materialize(event, hook.lookups).value));
      }
      var k :| Leads(env, hooks, t, k, u);
      Then(env, hooks, s, 1, t, k, u);
    } else {
      assert t == u;
    }
  }

  // ---- The whole event ----

  lemma HookKeepsNumbered(env: Env, store: Store, hook: Hook, event: Event, now: nat)
    requires Numbered(store)
    ensures Numbered(ProcessHook(env, store, hook, event, now, None).store)
  {
    var job, id := JobOf(hook, event), RevisionID(hook.id, hook.activeRevision);
    if Matches(hook, event) && id in store.revisions {
      var context := env.materialize(event, hook.lookups);
      if job in store.mats {
        AfterKeepsNumbered(env, store, hook, store.revisions[id].value, job, now);
      } else if context.Some? {
        AfterKeepsNumbered(env, Materialized(store, job, context.value), hook, store.revisions[id].value, job, now);
      }
    }
  }

  lemma AfterKeepsNumbered(env: Env, store: Store, hook: Hook, revision: HookRevision, job: JobID, now: nat)
    requires Numbered(store) && job in store.mats
    ensures Numbered(AfterMaterialized(env, store, hook, revision, job, now, None).store)
  {}

  /** Walking an event undisturbed, the machine arrives at the end of its list of webhooks with
      exactly the store that processing the event computes. */
  lemma {:induction false} EventRuns(env: Env, hooks: seq<Hook>, s: S.State, p: S.Poll)
    requires s.work == S.AtHook(p) && p.events != [] && p.next <= |p.listed| && Numbered(s.store)
    requires ProcessHooks(env, s.store, p.listed[p.next..], p.events[0], s.now, None).status.Done?
    ensures exists k :: Leads(env, hooks, s, k,
                              At(s, ProcessHooks(env, s.store, p.listed[p.next..], p.events[0], s.now, None).store,
                                            S.AtHook(p.(next := |p.listed|))))
    decreases |p.listed| - p.next
  {
    var event, left := p.events[0], p.listed[p.next..];
    var u := At(s, ProcessHooks(env, s.store, left, event, s.now, None).store, S.AtHook(p.(next := |p.listed|)));
    if p.next == |p.listed| {
      assert u == s && Leads(env, hooks, s, 0, u);
    } else {
      assert left[0] == S.HookAt(p) && left[1..] == p.listed[p.next + 1..];
      HookIgnoresTime(env, s.store, s.store, left[0], event, s.now, s.now);
      HookRuns(env, hooks, s, p);
      HookKeepsNumbered(env, s.store, left[0], event, s.now);
      var first := ProcessHook(env, s.store, left[0], event, s.now, None).store;
      var q := p.(next := p.next + 1);
      var t := At(s, first, S.AtHook(q));
      EventRuns(env, hooks, t, q);
      var j :| Leads(env, hooks, s, j, t);
      var k :| Leads(env, hooks, t, k, u);
      Then(env, hooks, s, j, t, k, u);
    }
  }

  // ---- The whole poll ----

  /** Undisturbed, the dispatcher comes to rest with this store. */
  ghost predicate Finishes(env: Env, hooks: seq<Hook>, s: S.State, store: Store) {
    exists k :: Rests(Advance(env, hooks, s, k), store)
  }

  ghost predicate Rests(t: S.State, store: Store) { t.work == S.Resting && t.store == store }

  lemma FinishesLater(env: Env, hooks: seq<Hook>, s: S.State, j: nat, t: S.State, store: Store)
    requires Leads(env, hooks, s, j, t) && Finishes(env, hooks, t, store)
    ensures Finishes(env, hooks, s, store)
  {
    var k :| Rests(Advance(env, hooks, t, k), store);
    AdvanceAdds(env, hooks, s, j, k);
    assert Rests(Advance(env, hooks, s, j + k), store);
  }

  /** Stored cursors have versions from 1 on. */
  ghost predicate CursorsNumbered(store: Store) {
    forall scope :: scope in store.cursors ==> store.cursors[scope].version >= 1
  }

  lemma HookKeepsCursors(env: Env, store: Store, hook: Hook, event: Event, now: nat)
    ensures ProcessHook(env, store, hook, event, now, None).store.cursors == store.cursors
  {}

  lemma {:induction false} HooksKeepNumbered(env: Env, store: Store, hooks: seq<Hook>, event: Event, now: nat)
    requires Numbered(store)
    ensures var r := ProcessHooks(env, store, hooks, event, now, None);
            Numbered(r.store) && r.store.cursors == store.cursors && r.life == None
    decreases |hooks|
  {
    if hooks != [] {
      HookKeepsNumbered(env, store, hooks[0], event, now);
      HookKeepsCursors(env, store, hooks[0], event, now);
      LivesOn(env, store, hooks[0], event, now);
      HooksKeepNumbered(env, ProcessHook(env, store, hooks[0], event, now, None).store, hooks[1..], event, now);
    }
  }

  lemma LivesOn(env: Env, store: Store, hook: Hook, event: Event, now: nat)
    ensures ProcessHook(env, store, hook, event, now, None).life == None
  {}

  /** The poll after the cursor has moved over its first event. */
  function NextPoll(p: S.Poll): S.Poll
    requires p.events != []
  {
    S.Poll(p.scope, p.version + 1, p.at + 1, p.events[1..], [], 0)
  }

  function Moved(store: Store, p: S.Poll): Store
    requires p.events != []
  {
    store.(cursors := store.cursors[p.scope := Versioned(p.events[0].cursor, p.version + 1)])
  }

  lemma StepSave(env: Env, hooks: seq<Hook>, s: S.State, p: S.Poll)
    requires s.work == S.AtHook(p) && p.events != [] && p.next == |p.listed| && CursorsNumbered(s.store)
    requires VersionOf(s.store.cursors, p.scope) == p.version
    ensures var t := S.DispatchStep(s, Answer(env, hooks, s.work));
            t == s.(store := Moved(s.store, p), passed := t.passed, work := S.AtEvent(NextPoll(p)))
  {}

  /** The machine's poll, one event after the other, computes what the function says. */
  lemma {:induction false} PollRuns(env: Env, hooks: seq<Hook>, s: S.State, p: S.Poll)
    requires s.work == S.AtEvent(p) && Numbered(s.store) && CursorsNumbered(s.store)
    requires PollEvents(env, s.store, hooks, p.events, p.scope, p.version, s.now, None).status.Done?
    ensures Finishes(env, hooks, s, PollEvents(env, s.store, hooks, p.events, p.scope, p.version, s.now, None).store)
    decreases |p.events|
  {
    var t := S.DispatchStep(s, Answer(env, hooks, s.work));
    if p.events == [] {
      assert Advance(env, hooks, s, 1) == Advance(env, hooks, t, 0) == t;
      assert Rests(Advance(env, hooks, s, 1), s.store);
    } else {
      OneMore(env, hooks, s, 0, s, t);
      var q := p.(listed := hooks, next := 0);
      assert t == At(s, s.store, S.AtHook(q));
      PollGoesOn(env, s.store, hooks, p, s.now);
      var after := EventThenCursor(env, hooks, t, q);
      PollRuns(env, hooks, after, NextPoll(q));
      var target := PollEvents(env, after.store, hooks, p.events[1..], p.scope, p.version + 1, s.now, None).store;
      var j :| Leads(env, hooks, t, j, after);
      FinishesLater(env, hooks, t, j, after, target);
      FinishesLater(env, hooks, s, 1, t, target);
    }
  }

  lemma PollGoesOn(env: Env, store: Store, hooks: seq<Hook>, p: S.Poll, now: nat)
    requires p.events != []
    requires PollEvents(env, store, hooks, p.events, p.scope, p.version, now, None).status.Done?
    ensures var first := PollEvent(env, store, hooks, p.events[0], p.scope, p.version, now, None);
            first.status.Done?
            && PollEvents(env, store, hooks, p.events, p.scope, p.version, now, None) ==
               PollEvents(env, first.store, hooks, p.events[1..], p.scope, p.version + 1, now, first.life)
  {}

  lemma EventThenCursor(env: Env, hooks: seq<Hook>, s: S.State, p: S.Poll) returns (after: S.State)
    requires s.work == S.AtHook(p) && p.listed == hooks && p.next == 0 && p.events != []
    requires Numbered(s.store) && CursorsNumbered(s.store)
    requires PollEvent(env, s.store, hooks, p.events[0], p.scope, p.version, s.now, None).status.Done?
    ensures var first := PollEvent(env, s.store, hooks, p.events[0], p.scope, p.version, s.now, None);
            after.store == first.store && first.life == None && Numbered(after.store) && CursorsNumbered(after.store)
    ensures after.work == S.AtEvent(NextPoll(p)) && after.now == s.now && exists j :: Leads(env, hooks, s, j, after)
  {
    assert hooks[0..] == hooks;
    EventRuns(env, hooks, s, p);
    HooksKeepNumbered(env, s.store, hooks, p.events[0], s.now);
    var q := p.(next := |hooks|);
    var t := At(s, ProcessHooks(env, s.store, hooks, p.events[0], s.now, None).store, S.AtHook(q));
    var k :| Leads(env, hooks, s, k, t);
    StepSave(env, hooks, t, q);
    after := S.DispatchStep(t, Answer(env, hooks, t.work));
    OneMore(env, hooks, s, k, t, after);
  }

  // ---- A delivery pass ----

  /** The clock goes on from one exchange to the next. */
  ghost predicate OnClock(now: nat, entries: seq<Entry>, exchange: JobID -> R.Exchange)
    decreases |entries|
  {
    entries == []
    || var x := exchange(entries[0].job);
       now <= x.checked && (IsDue(entries[0].record.value, x.checked) ==> x.checked <= x.ended)
       && OnClock(if IsDue(entries[0].record.value, x.checked) then x.ended else x.checked, entries[1..], exchange)
  }

  predicate IsDrainStep(step: S.Step) { step.Tick? || (step.Dispatch? && (step.input.Nothing? || step.input.Reply?)) }

  /** With time passing and answers coming in, the dispatcher comes to rest with this store. */
  ghost predicate Drains(s: S.State, store: Store) {
    exists steps :: S.IsRun(s, steps) && (forall i :: 0 <= i < |steps| ==> IsDrainStep(steps[i]))
      && Rests(S.After(s, steps), store)
  }

  lemma DrainsNow(s: S.State, store: Store)
    requires Rests(s, store)
    ensures Drains(s, store)
  {
    assert S.IsRun(s, []) && Rests(S.After(s, []), store);
  }

  lemma DrainsBefore(s: S.State, step: S.Step, t: S.State, store: Store)
    requires S.Enabled(s, step) && IsDrainStep(step) && t == S.Do(s, step) && Drains(t, store)
    ensures Drains(s, store)
  {
    var rest :| S.IsRun(t, rest) && (forall i :: 0 <= i < |rest| ==> IsDrainStep(rest[i]))
        && Rests(S.After(t, rest), store);
    var steps := [step] + rest;
    assert steps[1..] == rest;
    assert S.IsRun(s, steps) && Rests(S.After(s, steps), store);
  }

  lemma Waits(s: S.State, until: nat, store: Store)
    requires s.now <= until && Drains(s.(now := until), store)
    ensures Drains(s, store)
  {
    DrainsBefore(s, S.Tick(until - s.now), s.(now := until), store);
  }

  ghost predicate EntriesNumbered(entries: seq<Entry>) {
    forall i :: 0 <= i < |entries| ==> entries[i].record.version >= 1
  }

  predicate Overwrites(store: Store, e: Entry) {
    e.job in store.deliveries && store.deliveries[e.job].version == e.record.version
  }

  lemma PassAtDue(store: Store, drain: S.Drain, exchange: JobID -> R.Exchange)
    requires drain.entries != [] && drain.delivered != drain.limit
    requires var e := drain.entries[0];
             IsDue(e.record.value, exchange(e.job).checked)
             && RevisionID(e.job.hookID, e.job.revision) in store.revisions
    ensures var e := drain.entries[0];
            R.DeliverPass(store, drain.entries, exchange, drain.limit, drain.delivered, None).store ==
            if Overwrites(store, e) then
              R.DeliverPass(R.Recorded(store, e, exchange(e.job)), drain.entries[1..], exchange, drain.limit,
                            drain.delivered + 1, None).store
            else store
  {}

  /** What is left to do after the outcome of an exchange has been recorded, or could not be. */
  ghost predicate AfterRecord(store: Store, drain: S.Drain, x: R.Exchange, t: S.State)
    requires drain.entries != []
  {
    t.now == x.ended
    && if Overwrites(store, drain.entries[0]) then
         t.work == S.Draining(S.Drain(drain.entries[1..], drain.delivered + 1, drain.limit))
         && t.store == R.Recorded(store, drain.entries[0], x)
       else Rests(t, store)
  }

  lemma RecordStep(s: S.State, drain: S.Drain, x: R.Exchange)
    requires drain.entries != [] && drain.entries[0].record.version >= 1 && s.now == x.ended
    requires s.work == S.Replied(drain, x.response, x.ended)
    ensures AfterRecord(s.store, drain, x, S.Do(s, S.Dispatch(S.Nothing)))
  {}

  /** Sending, hearing back and recording the outcome, with the clock moving on meanwhile. */
  lemma SendAndRecord(s: S.State, drain: S.Drain, x: R.Exchange, store: Store)
    requires drain.entries != [] && drain.entries[0].record.version >= 1 && s.work == S.Sent(drain) && s.now <= x.ended
    requires forall t :: AfterRecord(s.store, drain, x, t) ==> Drains(t, store)
    ensures Drains(s, store)
  {
    var b := s.(now := x.ended);
    var c := b.(work := S.Replied(drain, x.response, x.ended));
    RecordStep(c, drain, x);
    DrainsBefore(c, S.Dispatch(S.Nothing), S.Do(c, S.Dispatch(S.Nothing)), store);
    DrainsBefore(b, S.Dispatch(S.Reply(x.response)), c, store);
    Waits(s, x.ended, store);
  }

  lemma ClockNext(now: nat, entries: seq<Entry>, exchange: JobID -> R.Exchange)
    requires OnClock(now, entries, exchange) && entries != []
    requires IsDue(entries[0].record.value, exchange(entries[0].job).checked)
    ensures exchange(entries[0].job).checked <= exchange(entries[0].job).ended
    ensures OnClock(exchange(entries[0].job).ended, entries[1..], exchange)
  {}

  /** The machine's drain of a listing computes what the function says about the pass. */
  lemma {:induction false} DrainRuns(s: S.State, drain: S.Drain, exchange: JobID -> R.Exchange)
    requires s.work == S.Draining(drain) && OnClock(s.now, drain.entries, exchange) && EntriesNumbered(drain.entries)
    ensures Drains(s, R.DeliverPass(s.store, drain.entries, exchange, drain.limit, drain.delivered, None).store)
    decreases |drain.entries|, 3
  {
    var target := R.DeliverPass(s.store, drain.entries, exchange, drain.limit, drain.delivered, None).store;
    if drain.entries == [] || drain.delivered == drain.limit {
      DrainsNow(s.(work := S.Resting), s.store);
      DrainsBefore(s, S.Dispatch(S.Nothing), s.(work := S.Resting), s.store);
    } else {
      LookRuns(s.(now := exchange(drain.entries[0].job).checked), drain, exchange, target);
      Waits(s, exchange(drain.entries[0].job).checked, target);
    }
  }

  lemma {:induction false} LookRuns(s: S.State, drain: S.Drain, exchange: JobID -> R.Exchange, target: Store)
    requires s.work == S.Draining(drain) && drain.entries != [] && drain.delivered != drain.limit
    requires EntriesNumbered(drain.entries) && s.now == exchange(drain.entries[0].job).checked
    requires OnClock(s.now, drain.entries, exchange)
    requires target == R.DeliverPass(s.store, drain.entries, exchange, drain.limit, drain.delivered, None).store
    ensures Drains(s, target)
    decreases |drain.entries|, 2
  {
    var e, x := drain.entries[0], exchange(drain.entries[0].job);
    var t := S.Do(s, S.Dispatch(S.Nothing));
    if !IsDue(e.record.value, s.now) {
      assert t == s.(work := S.Draining(drain.(entries := drain.entries[1..])));
      DrainRuns(t, drain.(entries := drain.entries[1..]), exchange);
    } else if RevisionID(e.job.hookID, e.job.revision) !in s.store.revisions {
      DrainsNow(t, s.store);
    } else {
      SentRuns(t, drain, exchange, target);
    }
    DrainsBefore(s, S.Dispatch(S.Nothing), t, target);
  }

  lemma {:induction false} SentRuns(s: S.State, drain: S.Drain, exchange: JobID -> R.Exchange, target: Store)
    requires s.work == S.Sent(drain) && drain.entries != [] && drain.delivered != drain.limit
    requires EntriesNumbered(drain.entries) && s.now == exchange(drain.entries[0].job).checked
    requires IsDue(drain.entries[0].record.value, s.now) && OnClock(s.now, drain.entries, exchange)
    requires RevisionID(drain.entries[0].job.hookID, drain.entries[0].job.revision) in s.store.revisions
    requires target == R.DeliverPass(s.store, drain.entries, exchange, drain.limit, drain.delivered, None).store
    ensures Drains(s, target)
    decreases |drain.entries|, 1
  {
    var x := exchange(drain.entries[0].job);
    ClockNext(s.now, drain.entries, exchange);
    PassAtDue(s.store, drain, exchange);
    forall t | AfterRecord(s.store, drain, x, t)
      ensures Drains(t, target)
    {
      RecordedRuns(s.store, drain, exchange, t, target);
    }
    SendAndRecord(s, drain, x, target);
  }

  lemma {:induction false} RecordedRuns(store: Store, drain: S.Drain, exchange: JobID -> R.Exchange, t: S.State,
                                        target: Store)
    requires drain.entries != [] && EntriesNumbered(drain.entries)
    requires var x := exchange(drain.entries[0].job);
             AfterRecord(store, drain, x, t) && OnClock(x.ended, drain.entries[1..], exchange)
    requires target ==
             if Overwrites(store, drain.entries[0]) then
               R.DeliverPass(R.Recorded(store, drain.entries[0], exchange(drain.entries[0].job)), drain.entries[1..],
                             exchange, drain.limit, drain.delivered + 1, None).store
             else store
    ensures Drains(t, target)
    decreases |drain.entries|, 0
  {
    if Overwrites(store, drain.entries[0]) {
      DrainRuns(t, S.Drain(drain.entries[1..], drain.delivered + 1, drain.limit), exchange);
    } else {
      DrainsNow(t, store);
    }
  }
}
