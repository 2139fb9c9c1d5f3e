/** What the invariant of the webhook pipeline means for its users: statements about every
    reachable state and every run. */
module WebhookTheorems {
  import opened Results
  import opened Keys
  import opened Table
  import opened WebhookModel
  import opened WebhookSystem
  import opened WebhookSafety
  import WebhookRetry

  datatype Side = Runs | Ends

  ghost predicate Leads(steps: seq<Step>, s: State, side: Side) {
    match side
    case Runs => IsRun(INITIAL, steps)
    case Ends => After(INITIAL, steps) == s
  }

  /** The steps lead from the initial state to s. */
  ghost predicate Reachable(s: State, steps: seq<Step>) { forall side :: Leads(steps, s, side) }

  lemma RunOf(s: State, steps: seq<Step>)
    requires Reachable(s, steps)
    ensures IsRun(INITIAL, steps) && After(INITIAL, steps) == s
  {
    assert Leads(steps, s, Runs) && Leads(steps, s, Ends);
  }

  lemma ReachableInv(s: State, steps: seq<Step>)
    requires Reachable(s, steps)
    ensures Inv(s)
  {
    RunOf(s, steps);
    InitInv();
    RunKeeps(INITIAL, steps);
  }

  lemma StoreIsOK(s: State)
    requires Inv(s)
    ensures StoreOK(s.store)
  {
    Parts(s);
  }

  /** What it means for a job to be done with. */
  lemma FinishedMeans(store: Store, job: JobID)
    requires StoreOK(store) && Finished(store, job)
    ensures job in store.mats
    ensures store.mats[job].value.status.Skipped?
            || (store.mats[job].value.status in {Rendered, Failed} && job in store.deliveries
                && store.deliveries[job].value.payload == store.mats[job].value.payload)
  {
    StoreParts(store);
  }

  /** The machine goes past a webhook that has nothing to do with the event, and looks at any other. */
  lemma LooksIfAsked(s: State, p: Poll)
    requires AtOneHook(p)
    ensures var hook, t := HookAt(p), LookAtHook(s, p);
            var id := RevisionID(hook.id, hook.activeRevision);
            t == s.(work := if PassesOver(hook, p.events[0]) then AtHook(p.(next := p.next + 1))
                            else if id in s.store.revisions then AtMaterialization(p, s.store.revisions[id].value)
                            else Resting)
  {
    AskedMatches(HookAt(p), p.events[0]);
  }

  lemma AskedMatches(hook: Hook, event: Event)
    ensures Matches(hook, event) <==> !PassesOver(hook, event)
  {}

  /** No event is lost. In every reachable state, each webhook that the poll which moved the cursor
      over an event had listed and that has to do with it has, at the revision listed, a materialization that is
      skipped, or one that is rendered or failed and whose delivery is present. */
  lemma NoEventIsLost(s: State, steps: seq<Step>, scope: Scope, i: nat)
    requires Reachable(s, steps) && i < |FeedOf(s.feed, scope)|
    requires FeedOf(s.feed, scope)[i].cursor <= CursorOf(s.store, scope)
    ensures var event := FeedOf(s.feed, scope)[i];
            var mark := Mark(scope, event.cursor);
            mark in s.passed
            && forall k :: 0 <= k < |s.passed[mark]| && !PassesOver(s.passed[mark][k], event) ==>
                 var job := JobID(s.passed[mark][k].id, s.passed[mark][k].activeRevision, event.id);
                 && job in s.store.mats
                 && (s.store.mats[job].value.status.Skipped?
                     || (s.store.mats[job].value.status in {Rendered, Failed} && job in s.store.deliveries))
  {
    ReachableInv(s, steps);
    StoreIsOK(s);
    assert ScopeOK(s, scope) by { Parts(s); }
    assert Passed(s.store, s.passed, scope, FeedOf(s.feed, scope)[i]);
    var event := FeedOf(s.feed, scope)[i];
    var listed := s.passed[Mark(scope, event.cursor)];
    forall k | 0 <= k < |listed| && !PassesOver(listed[k], event)
      ensures Finished(s.store, JobOf(listed[k], event))
      ensures var job := JobOf(listed[k], event);
              job in s.store.mats
              && (s.store.mats[job].value.status.Skipped?
                  || (s.store.mats[job].value.status in {Rendered, Failed} && job in s.store.deliveries))
    {
      AskedMatches(listed[k], event);
      FinishedMeans(s.store, JobOf(listed[k], event));
    }
  }

  /** Only the end of a walk over the listed webhooks moves a cursor, to the event just walked. */
  lemma CursorMovesOverItsList(s: State, input: Input, scope: Scope, t: State)
    requires t == DispatchStep(s, input) && CursorOf(t.store, scope) != CursorOf(s.store, scope)
    ensures s.work.AtHook? && s.work.poll.scope == scope && s.work.poll.next >= |s.work.poll.listed|
    ensures s.work.poll.events != []
    ensures var p := s.work.poll;
            var mark := Mark(scope, p.events[0].cursor);
            mark in t.passed && t.passed[mark] == p.listed && CursorOf(t.store, scope) == p.events[0].cursor
  {
    if s.work.AtHook? {
      HookStepIs(s, input, s.work.poll);
      if AtOneHook(s.work.poll) {
        LookingReads(s, s.work.poll);
      }
    } else {
      CursorsElsewhere(s, input, t);
    }
  }

  lemma HookStepIs(s: State, input: Input, p: Poll)
    requires s.work == AtHook(p)
    ensures DispatchStep(s, input) ==
            if p.events == [] then s else if p.next >= |p.listed| then SaveCursor(s, p) else LookAtHook(s, p)
  {}

  lemma CursorsElsewhere(s: State, input: Input, t: State)
    requires t == DispatchStep(s, input) && !s.work.AtHook?
    ensures t.store.cursors == s.store.cursors
  {
    if s.work.Replied? || s.work.AtDelivery? {
      CursorsLeft(s, input, t);
    } else if s.work.AtTransform? || s.work.AtMissing? {
      OnlyMaterializations(s, input, t);
    } else {
      OnlyReads(s, input, t);
    }
  }

  lemma CursorsLeft(s: State, input: Input, t: State)
    requires t == DispatchStep(s, input) && (s.work.Replied? || s.work.AtDelivery?)
    ensures t.store.cursors == s.store.cursors
  {}

  /** The feed, the marks and the cursors are as before, and a walk still walks the same list. */
  ghost predicate WalksOn(s: State, t: State, listed: seq<Hook>) {
    && t.feed == s.feed && t.passed == s.passed && t.store.cursors == s.store.cursors
    && (AtAnyHook(t.work) ==> t.work.poll.listed == listed)
  }

  lemma StoringWalksOn(s: State, p: Poll, revision: HookRevision, context: string)
    requires AtOneHook(p)
    ensures var t := StoreMaterialization(s, p, revision, context);
            WalksOn(s, t, p.listed) && t.store.deliveries == s.store.deliveries
  {}

  lemma SettlingWalksOn(s: State, p: Poll, record: Versioned<Materialization>, outcome: Outcome)
    requires AtOneHook(p)
    ensures var t := SettleMaterialization(s, p, record, outcome);
            WalksOn(s, t, p.listed) && t.store.deliveries == s.store.deliveries
  {}

  lemma CreatingWalksOn(s: State, p: Poll, d: Delivery)
    requires AtOneHook(p)
    ensures WalksOn(s, CreateDelivery(s, p, d), p.listed)
  {}

  lemma LookingWalksOn(s: State, p: Poll)
    requires AtOneHook(p)
    ensures WalksOn(s, LookAtHook(s, p), p.listed)
  {}

  lemma OnlyMaterializations(s: State, input: Input, t: State)
    requires t == DispatchStep(s, input) && (s.work.AtTransform? || s.work.AtMissing?)
    ensures WalksOn(s, t, s.work.poll.listed) && t.store.deliveries == s.store.deliveries
  {
    var p := s.work.poll;
    if AtOneHook(p) {
      if s.work.AtTransform? {
        if input.Ran? { SettlingWalksOn(s, p, s.work.record, input.outcome); }
      } else if input.Context? {
        StoringWalksOn(s, p, s.work.revision, input.context);
      }
    }
  }

  lemma OnlyReads(s: State, input: Input, t: State)
    requires t == DispatchStep(s, input) && !s.work.AtHook? && !s.work.Replied? && !s.work.AtDelivery?
    requires !s.work.AtTransform? && !s.work.AtMissing?
    ensures t.store == s.store
  {
    if s.work.AtMaterialization? {
      Proceeds(s, input, t);
    } else if s.work.AtReload? {
      Proceeds(s, input, t);
    } else if s.work.Draining? {
      Looks(s, input, t);
    }
  }

  lemma Proceeds(s: State, input: Input, t: State)
    requires t == DispatchStep(s, input) && (s.work.AtMaterialization? || s.work.AtReload?)
    ensures t.store == s.store
  {
    var p := s.work.poll;
    if AtOneHook(p) && JobAt(p) in s.store.mats {
      ProceedReads(s, p, s.work.revision, s.store.mats[JobAt(p)]);
    }
  }

  lemma ProceedReads(s: State, p: Poll, revision: HookRevision, record: Versioned<Materialization>)
    requires AtOneHook(p)
    ensures Proceed(s, p, revision, record).store == s.store
  {}

  lemma Looks(s: State, input: Input, t: State)
    requires t == DispatchStep(s, input) && s.work.Draining?
    ensures t.store == s.store
  {}

  // ---- A webhook that is left alone misses nothing ----

  /** The current walk, and every walk that moved the scope's cursor beyond a starting point, included this webhook. */
  ghost predicate Included(s: State, hook: Hook, scope: Scope, start: nat) {
    && (AtAnyHook(s.work) ==> hook in s.work.poll.listed)
    && var events := FeedOf(s.feed, scope);
       forall i :: 0 <= i < |events| && start < events[i].cursor <= CursorOf(s.store, scope) ==>
         Mark(scope, events[i].cursor) in s.passed && hook in s.passed[Mark(scope, events[i].cursor)]
  }

  lemma SaveCursorIncludes(s: State, p: Poll, hook: Hook, scope: Scope, start: nat, t: State)
    requires PollOK(s, p) && p.events != [] && Ascending(FeedOf(s.feed, p.scope)) && t == SaveCursor(s, p)
    requires Included(s, hook, scope, start) && s.work == AtHook(p)
    ensures Included(t, hook, scope, start)
  {
    var events := FeedOf(s.feed, scope);
    PollParts(s, p);
    if scope == p.scope {
      assert events[p.at] == events[p.at..p.at + |p.events|][0] == p.events[0];
      forall i | 0 <= i < |events| && start < events[i].cursor <= CursorOf(t.store, scope)
        ensures Mark(scope, events[i].cursor) in t.passed && hook in t.passed[Mark(scope, events[i].cursor)]
      {
        if i < p.at {
          assert events[i].cursor < events[p.at].cursor;
        }
      }
    }
  }

  /** A step that neither saves a cursor, nor publishes, nor starts a walk. */
  lemma SameMarksInclude(s: State, t: State, hook: Hook, scope: Scope, start: nat)
    requires Included(s, hook, scope, start) && t.feed == s.feed && t.passed == s.passed
    requires CursorOf(t.store, scope) == CursorOf(s.store, scope)
    requires AtAnyHook(t.work) ==> AtAnyHook(s.work) && t.work.poll.listed == s.work.poll.listed
    ensures Included(t, hook, scope, start)
  {}

  lemma DispatchIncludes(s: State, input: Input, hook: Hook, scope: Scope, start: nat, t: State)
    requires Inv(s) && Enabled(s, Dispatch(input)) && t == DispatchStep(s, input)
    requires hook.id in s.store.hooks && s.store.hooks[hook.id].value == hook
    requires Included(s, hook, scope, start)
    ensures Included(t, hook, scope, start)
  {
    assert WorkFits(s, s.work) by { Parts(s); }
    if s.work.AtHook? && s.work.poll.next >= |s.work.poll.listed| {
      assert ScopeOK(s, s.work.poll.scope) by { Parts(s); }
      SaveCursorIncludes(s, s.work.poll, hook, scope, start, t);
    } else if s.work.AtEvent? {
      ListingIncludes(s, input, hook, scope, start, t);
    } else {
      StaysInWalk(s, input, t);
      SameMarksInclude(s, t, hook, scope, start);
    }
  }

  lemma ListingIncludes(s: State, input: Input, hook: Hook, scope: Scope, start: nat, t: State)
    requires s.work.AtEvent? && Enabled(s, Dispatch(input)) && t == DispatchStep(s, input)
    requires hook.id in s.store.hooks && s.store.hooks[hook.id].value == hook
    requires Included(s, hook, scope, start)
    ensures Included(t, hook, scope, start)
  {}

  lemma StaysInWalk(s: State, input: Input, t: State)
    requires t == DispatchStep(s, input) && WorkFits(s, s.work) && !s.work.AtEvent?
    requires (s.work.AtHook? ==> s.work.poll.next < |s.work.poll.listed|)
    ensures t.feed == s.feed && t.passed == s.passed && t.store.cursors == s.store.cursors
    ensures AtAnyHook(t.work) ==> AtAnyHook(s.work) && t.work.poll.listed == s.work.poll.listed
  {
    if s.work.AtHook? {
      LookingWalksOn(s, s.work.poll);
    } else if s.work.AtTransform? || s.work.AtMissing? {
      OnlyMaterializations(s, input, t);
    } else if s.work.AtDelivery? {
      CreatingWalksOn(s, s.work.poll, s.work.delivery);
    } else if s.work.AtMaterialization? || s.work.AtReload? {
      ProceedsInWalk(s, input, t);
    } else {
      OutsideWalk(s, input, t);
    }
  }

  lemma ProceedWalksOn(s: State, p: Poll, revision: HookRevision, record: Versioned<Materialization>)
    requires AtOneHook(p)
    ensures WalksOn(s, Proceed(s, p, revision, record), p.listed)
  {}

  lemma ProceedsInWalk(s: State, input: Input, t: State)
    requires t == DispatchStep(s, input) && (s.work.AtMaterialization? || s.work.AtReload?)
    ensures WalksOn(s, t, s.work.poll.listed)
  {
    var p := s.work.poll;
    if AtOneHook(p) && JobAt(p) in s.store.mats {
      ProceedWalksOn(s, p, s.work.revision, s.store.mats[JobAt(p)]);
    }
  }

  lemma OutsideWalk(s: State, input: Input, t: State)
    requires t == DispatchStep(s, input) && (s.work.Resting? || s.work.HasCursor? || IsDraining(s.work))
    requires WorkFits(s, s.work)
    ensures WalksOn(s, t, []) && !AtAnyHook(t.work)
  {
    if s.work.Replied? {
      RecordOutsideWalk(s, s.work.drain, s.work.response, s.work.at);
    } else if s.work.Draining? {
      LookOutsideWalk(s, s.work.drain);
    }
  }

  lemma RecordOutsideWalk(s: State, drain: Drain, response: Response, at: nat)
    requires drain.entries != []
    ensures WalksOn(s, RecordAttempt(s, drain, response, at), [])
    ensures !AtAnyHook(RecordAttempt(s, drain, response, at).work)
  {}

  lemma LookOutsideWalk(s: State, drain: Drain)
    ensures WalksOn(s, LookAtDelivery(s, drain), []) && !AtAnyHook(LookAtDelivery(s, drain).work)
  {}

  lemma StepIncludes(s: State, step: Step, hook: Hook, scope: Scope, start: nat, t: State)
    requires Inv(s) && Enabled(s, step) && t == Do(s, step)
    requires hook.id in s.store.hooks && s.store.hooks[hook.id].value == hook
    requires Included(s, hook, scope, start)
    ensures Included(t, hook, scope, start)
  {
    match step {
      case Dispatch(input) => DispatchIncludes(s, input, hook, scope, start, t);
      case Publish(event) =>
        Parts(s);
        assert ScopeOK(s, scope);
        assert event.scope == scope ==> FeedOf(t.feed, scope) == FeedOf(s.feed, scope) + [event];
      case Continue(c, entries) =>
        ContinueElsewhere(s, c, entries, t);
        SameMarksInclude(s, t, hook, scope, start);
      case _ =>
        OthersElsewhere(s, step, t);
        SameMarksInclude(s, t, hook, scope, start);
    }
  }

  lemma OthersElsewhere(s: State, step: Step, t: State)
    requires t == Do(s, step) && !step.Dispatch? && !step.Continue? && !step.Publish?
    ensures t.feed == s.feed && t.passed == s.passed && (t.work == s.work || t.work.Resting?)
    ensures t.store.cursors == s.store.cursors
  {
    if step.Call? {
      CallElsewhere(s, step.client, step.request, t);
    } else if step.GiveUp? || step.Crash? {
      DropElsewhere(s);
    }
  }

  lemma CallElsewhere(s: State, c: nat, request: Request, t: State)
    requires t == CallStep(s, c, request)
    ensures t.feed == s.feed && t.passed == s.passed && t.work == s.work && t.now == s.now
    ensures t.store.cursors == s.store.cursors && t.store.deliveries == s.store.deliveries
  {}

  lemma DropElsewhere(s: State)
    ensures var t := DropWork(s);
            t.feed == s.feed && t.passed == s.passed && t.work.Resting? && t.now == s.now && t.store == s.store
  {}

  lemma ContinueElsewhere(s: State, c: nat, entries: seq<Entry>, t: State)
    requires t == ContinueStep(s, c, entries)
    ensures t.feed == s.feed && t.passed == s.passed && t.work == s.work && t.store.cursors == s.store.cursors
  {
    if c in s.clients {
      if s.clients[c].HasRevision? {
        CommitElsewhere(s, c, s.clients[c].request, s.clients[c].hook, s.clients[c].prior);
      } else if s.clients[c].Replaying? {
        ReplayElsewhere(s, c, s.clients[c].request, s.clients[c].entries);
      }
    }
  }

  lemma CommitElsewhere(s: State, c: nat, request: Request, hook: Versioned<Hook>, prior: HookRevision)
    ensures request.Update? || request.RotateSecret? ==>
              var t := CommitEdit(s, c, request, hook, prior);
              t.feed == s.feed && t.passed == s.passed && t.work == s.work
              && t.store.cursors == s.store.cursors && t.store.deliveries == s.store.deliveries
              && t.store.mats == s.store.mats
  {}

  lemma ReplayElsewhere(s: State, c: nat, request: Request, entries: seq<Entry>)
    ensures var t := ReplayNext(s, c, request, entries);
            t.feed == s.feed && t.passed == s.passed && t.work == s.work && t.store.cursors == s.store.cursors
  {}

  /** A webhook that is the same at both ends of a run was the same all the way. */
  lemma SameInBetween(a: Store, b: Store, c: Store, record: Versioned<Hook>)
    requires Extends(a, b) && Extends(b, c)
    requires var id := record.value.id; id in a.hooks && a.hooks[id] == record && id in c.hooks && c.hooks[id] == record
    ensures var id := record.value.id; id in b.hooks && b.hooks[id] == record
  {
    InEach(a, b);
    InEach(b, c);
  }

  lemma {:induction false} RunIncludes(s: State, steps: seq<Step>, record: Versioned<Hook>, scope: Scope, start: nat)
    requires Inv(s) && IsRun(s, steps) && Included(s, record.value, scope, start)
    requires var id := record.value.id; id in s.store.hooks && s.store.hooks[id] == record
    requires var id := record.value.id; id in After(s, steps).store.hooks && After(s, steps).store.hooks[id] == record
    ensures Included(After(s, steps), record.value, scope, start)
    decreases |steps|
  {
    if steps != [] {
      var t := Do(s, steps[0]);
      StepKeeps(s, steps[0], t);
      StepIncludes(s, steps[0], record.value, scope, start, t);
      RunKeeps(t, steps[1..]);
      SameInBetween(s.store, t.store, After(t, steps[1..]).store, record);
      RunIncludes(t, steps[1..], record, scope, start);
    }
  }

  /** A webhook that is on record while the dispatcher is not walking, and that nobody changes from then
      on, misses no matching event the cursor passes: it is skipped by its own script, or it has a delivery. */
  lemma SteadyWebhookMissesNothing(s: State, before: seq<Step>, later: seq<Step>, id: string, scope: Scope, i: nat)
    requires Reachable(s, before) && IsRun(s, later) && !AtAnyHook(s.work)
    requires id in s.store.hooks && id in After(s, later).store.hooks
    requires After(s, later).store.hooks[id] == s.store.hooks[id]
    requires var t := After(s, later);
             i < |FeedOf(t.feed, scope)|
             && CursorOf(s.store, scope) < FeedOf(t.feed, scope)[i].cursor <= CursorOf(t.store, scope)
    requires !PassesOver(s.store.hooks[id].value, FeedOf(After(s, later).feed, scope)[i])
    ensures var t := After(s, later);
            var job := JobID(id, s.store.hooks[id].value.activeRevision, FeedOf(t.feed, scope)[i].id);
            && job in t.store.mats
            && (t.store.mats[job].value.status.Skipped?
                || (job in t.store.deliveries
                    && t.store.deliveries[job].value.payload == t.store.mats[job].value.payload))
  {
    var t := After(s, later);
    AskedMatches(s.store.hooks[id].value, FeedOf(t.feed, scope)[i]);
    ReachableInv(s, before);
    assert s.store.hooks[id].value.id == id by { HookIsFiled(s, id); }
    RunIncludes(s, later, s.store.hooks[id], scope, CursorOf(s.store, scope));
    RunKeeps(s, later);
    IncludedIsFinished(t, s.store.hooks[id].value, scope, CursorOf(s.store, scope), i);
    StoreIsOK(t);
    FinishedMeans(t.store, JobOf(s.store.hooks[id].value, FeedOf(t.feed, scope)[i]));
  }

  lemma HookIsFiled(s: State, id: string)
    requires Inv(s) && id in s.store.hooks
    ensures s.store.hooks[id].value.id == id
  {
    StoreIsOK(s);
    StoreParts(s.store);
  }

  lemma IncludedIsFinished(t: State, hook: Hook, scope: Scope, start: nat, i: nat)
    requires Inv(t) && Included(t, hook, scope, start) && i < |FeedOf(t.feed, scope)|
    requires start < FeedOf(t.feed, scope)[i].cursor <= CursorOf(t.store, scope)
    requires Matches(hook, FeedOf(t.feed, scope)[i])
    ensures Finished(t.store, JobOf(hook, FeedOf(t.feed, scope)[i]))
  {
    var event := FeedOf(t.feed, scope)[i];
    assert ScopeOK(t, scope) by { Parts(t); }
    assert Passed(t.store, t.passed, scope, event);
    var k :| 0 <= k < |t.passed[Mark(scope, event.cursor)]| && t.passed[Mark(scope, event.cursor)][k] == hook;
  }

  /** What was rendered is what is sent: from the moment a materialization is rendered it never
      changes, and its delivery carries exactly its payload in every later state that has one. */
  lemma RenderedIsSent(s: State, before: seq<Step>, later: seq<Step>, job: JobID)
    requires Reachable(s, before) && IsRun(s, later)
    requires job in s.store.mats && s.store.mats[job].value.status.Rendered?
    ensures var t := After(s, later);
            && job in t.store.mats && t.store.mats[job] == s.store.mats[job]
            && (job in s.store.deliveries ==> job in t.store.deliveries)
            && (job in t.store.deliveries ==> t.store.deliveries[job].value.payload == s.store.mats[job].value.payload)
  {
    ReachableInv(s, before);
    RunKeeps(s, later);
    StoreIsOK(After(s, later));
    RenderedStays(s.store, After(s, later).store, job);
  }

  lemma RenderedStays(before: Store, after: Store, job: JobID)
    requires Extends(before, after) && StoreOK(after) && job in before.mats && before.mats[job].value.status.Rendered?
    ensures job in after.mats && after.mats[job] == before.mats[job]
    ensures job in before.deliveries ==> job in after.deliveries
    ensures job in after.deliveries ==> after.deliveries[job].value.payload == before.mats[job].value.payload
  {
    InEach(before, after);
    StoreParts(after);
  }

  /** The stored revisions of a webhook are exactly 1 up to its active one ... */
  lemma RevisionsContiguous(s: State, steps: seq<Step>, id: string, number: nat)
    requires Reachable(s, steps)
    ensures RevisionID(id, number) in s.store.revisions <==>
              id in s.store.hooks && 1 <= number <= s.store.hooks[id].value.activeRevision
  {
    ReachableInv(s, steps);
    StoreIsOK(s);
    StoreParts(s.store);
  }

  /** ... they never change, and active revisions never go back ... */
  lemma RevisionsImmutable(s: State, before: seq<Step>, later: seq<Step>, id: RevisionID)
    requires Reachable(s, before) && IsRun(s, later) && id in s.store.revisions
    ensures var t := After(s, later);
            && id in t.store.revisions && t.store.revisions[id] == s.store.revisions[id]
            && id.hookID in t.store.hooks && id.hookID in s.store.hooks
               && s.store.hooks[id.hookID].value.activeRevision <= t.store.hooks[id.hookID].value.activeRevision
  {
    ReachableInv(s, before);
    RunKeeps(s, later);
    StoreIsOK(s);
    RevisionStays(s.store, After(s, later).store, id);
  }

  lemma RevisionStays(before: Store, after: Store, id: RevisionID)
    requires Extends(before, after) && StoreOK(before) && id in before.revisions
    ensures id in after.revisions && after.revisions[id] == before.revisions[id]
    ensures id.hookID in before.hooks && id.hookID in after.hooks
    ensures before.hooks[id.hookID].value.activeRevision <= after.hooks[id.hookID].value.activeRevision
  {
    InEach(before, after);
    StoreParts(before);
    assert RevisionID(id.hookID, id.number) in before.revisions;
  }

  /** ... no edit changes both the script and the signing secret ... */
  lemma EditsInherit(s: State, steps: seq<Step>, id: string, number: nat)
    requires Reachable(s, steps) && RevisionID(id, number) in s.store.revisions
    requires RevisionID(id, number + 1) in s.store.revisions
    ensures var prior, next :=
      s.store.revisions[RevisionID(id, number)].value, s.store.revisions[RevisionID(id, number + 1)].value;
            next.secret == prior.secret || (next.source == prior.source && next.limits == prior.limits)
  {
    ReachableInv(s, steps);
    StoreIsOK(s);
    StoreParts(s.store);
  }

  /** ... so that whoever looks a revision up finds it: for every materialization, every delivery,
      the webhook the dispatcher is at, and the webhook a service call has read. */
  lemma RevisionAlwaysFound(s: State, steps: seq<Step>)
    requires Reachable(s, steps)
    ensures forall job :: job in s.store.mats || job in s.store.deliveries ==>
              RevisionID(job.hookID, job.revision) in s.store.revisions
    ensures AtAnyHook(s.work) && AtOneHook(s.work.poll) ==>
              RevisionID(HookAt(s.work.poll).id, HookAt(s.work.poll).activeRevision) in s.store.revisions
    ensures IsDraining(s.work) && s.work.drain.entries != [] ==>
              RevisionID(s.work.drain.entries[0].job.hookID, s.work.drain.entries[0].job.revision) in s.store.revisions
    ensures forall c :: c in s.clients && s.clients[c].HasHook? ==>
              RevisionID(s.clients[c].request.id, s.clients[c].hook.value.activeRevision) in s.store.revisions
  {
    ReachableInv(s, steps);
    JobsHaveRevisions(s);
    if AtAnyHook(s.work) && AtOneHook(s.work.poll) {
      assert HooksOK(s.store, s.work.poll) by { Parts(s); }
      StoreIsOK(s);
      JobIsKnown(s.store, s.work.poll);
    }
    assert IsDraining(s.work) && s.work.drain.entries != [] ==>
             Coherent(s.store.deliveries, s.work.drain.entries[0].job, s.work.drain.entries[0].record) by {
      Parts(s);
    }
    forall c | c in s.clients && s.clients[c].HasHook?
      ensures RevisionID(s.clients[c].request.id, s.clients[c].hook.value.activeRevision) in s.store.revisions
    {
      ClientsHaveRevisions(s, c);
    }
  }

  lemma JobsHaveRevisions(s: State)
    requires Inv(s)
    ensures forall job :: job in s.store.mats || job in s.store.deliveries ==>
              RevisionID(job.hookID, job.revision) in s.store.revisions
  {
    StoreIsOK(s);
    StoreParts(s.store);
    forall job | job in s.store.deliveries
      ensures RevisionID(job.hookID, job.revision) in s.store.revisions
    {
      assert Deliverable(s.store.mats, job);
    }
  }

  lemma ClientsHaveRevisions(s: State, c: nat)
    requires Inv(s) && c in s.clients && s.clients[c].HasHook?
    ensures RevisionID(s.clients[c].request.id, s.clients[c].hook.value.activeRevision) in s.store.revisions
  {
    Parts(s);
    assert ClientOK(s.store, s.clients[c]);
    StoreParts(s.store);
  }

  /** Which attempts go with which status, in every reachable state. */
  lemma AttemptsByStatus(s: State, steps: seq<Step>, job: JobID)
    requires Reachable(s, steps) && job in s.store.deliveries
    ensures var d := s.store.deliveries[job].value;
            && (d.status.Pending? ==> d.attempts == 0)
            && (d.status.Retry? ==> 1 <= d.attempts <= 7)
            && (d.status.Completed? ==> 1 <= d.attempts <= 8)
            && (d.status.Dead? ==> d.attempts == if d.stage.DeliveryStage? then 8 else 0)
  {
    ReachableInv(s, steps);
    StoreIsOK(s);
    StoreParts(s.store);
  }

  /** A completed delivery stays as it is for ever. */
  lemma CompletedIsFinal(s: State, before: seq<Step>, later: seq<Step>, job: JobID)
    requires Reachable(s, before) && IsRun(s, later)
    requires job in s.store.deliveries && s.store.deliveries[job].value.status.Completed?
    ensures job in After(s, later).store.deliveries && After(s, later).store.deliveries[job] == s.store.deliveries[job]
  {
    ReachableInv(s, before);
    RunKeeps(s, later);
    InEach(s.store, After(s, later).store);
  }

  /** Requests sent for a delivery: at most eight for its creation and for each replay, and one more
      for each pass that was cut between a request and the record of its outcome; one may be out. */
  lemma PostsAreBounded(s: State, steps: seq<Step>, job: JobID)
    requires Reachable(s, steps)
    ensures var tally := TallyOf(s.tallies, job);
            tally.posts <= 8 * (1 + tally.replays) + tally.lost + (if InFlight(s.work) == Some(job) then 1 else 0)
    ensures var tally := TallyOf(s.tallies, job);
            job in s.store.deliveries && s.store.deliveries[job].value.status.Pending? ==>
              tally.posts <= 8 * tally.replays + tally.lost + (if InFlight(s.work) == Some(job) then 1 else 0)
  {
    ReachableInv(s, steps);
    Parts(s);
    StoreParts(s.store);
    assert TallyOK(s.store, s.work, TallyOf(s.tallies, job), job);
  }

  /** A delivery that died of failed attempts did so at least 254 seconds after the first of the eight. */
  lemma EighthFailureIsLate(s: State, steps: seq<Step>, job: JobID)
    requires Reachable(s, steps) && job in s.store.deliveries
    requires s.store.deliveries[job].value.status.Dead? && s.store.deliveries[job].value.stage.DeliveryStage?
    ensures TallyOf(s.tallies, job).lastFailure >= TallyOf(s.tallies, job).firstFailure + 254 * SECOND
  {
    ReachableInv(s, steps);
    Parts(s);
    assert TallyOK(s.store, s.work, TallyOf(s.tallies, job), job);
  }

  /** To the same receiver, with the same payload, due at once, and with no attempts made. */
  predicate IsQueuedAgain(d: Delivery, now: nat, again: Delivery) {
    again == Delivery(d.url, d.payload, Pending, DeliveryStage, 0, 0, "", now)
  }

  ghost predicate IsReplay(s: State, job: JobID, t: State) {
    && job in s.store.deliveries && job in t.store.deliveries
    && IsQueuedAgain(s.store.deliveries[job].value, s.now, t.store.deliveries[job].value)
    && TallyOf(t.tallies, job).replays == TallyOf(s.tallies, job).replays + 1
  }

  /** Only a replay takes a delivery out of the dead letters. */
  lemma DeadIsLeftByReplayOnly(s: State, steps: seq<Step>, step: Step, job: JobID)
    requires Reachable(s, steps) && Enabled(s, step)
    requires job in s.store.deliveries && s.store.deliveries[job].value.status.Dead?
    ensures var t := Do(s, step);
            job in t.store.deliveries
            && (t.store.deliveries[job] == s.store.deliveries[job]
                || (step.Continue? && step.client in s.clients && s.clients[step.client].Replaying?
                    && IsReplay(s, job, t)))
  {
    ReachableInv(s, steps);
    if step.Dispatch? {
      assert WorkFits(s, s.work) by { Parts(s); }
      DispatchLeavesDead(s, step.input, job, Do(s, step));
    } else if step.Continue? {
      assert ClientsOK(s) by { Parts(s); }
      ContinueLeavesDead(s, step.client, step.entries, job, Do(s, step));
    } else {
      OthersLeaveDeliveries(s, step, Do(s, step));
    }
  }

  lemma OthersLeaveDeliveries(s: State, step: Step, t: State)
    requires t == Do(s, step) && !step.Dispatch? && !step.Continue?
    ensures t.store.deliveries == s.store.deliveries
  {}

  lemma DispatchLeavesDead(s: State, input: Input, job: JobID, t: State)
    requires WorkFits(s, s.work) && t == DispatchStep(s, input)
    requires job in s.store.deliveries && s.store.deliveries[job].value.status.Dead?
    ensures job in t.store.deliveries && t.store.deliveries[job] == s.store.deliveries[job]
  {
    if s.work.Replied? {
      FrontIsLive(s);
      RecordLeavesDead(s, s.work.drain, s.work.response, s.work.at, job, t);
    } else if s.work.AtDelivery? {
      CreateLeavesDead(s, input, job, t);
    } else {
      DeliveriesElsewhere(s, input, t);
    }
  }

  lemma FrontIsLive(s: State)
    requires WorkFits(s, s.work) && s.work.Replied?
    ensures s.work.drain.entries != [] && IsLive(s.work.drain.entries[0].record.value)
    ensures Coherent(s.store.deliveries, s.work.drain.entries[0].job, s.work.drain.entries[0].record)
  {}

  lemma CreateLeavesDead(s: State, input: Input, job: JobID, t: State)
    requires s.work.AtDelivery? && t == DispatchStep(s, input) && job in s.store.deliveries
    ensures job in t.store.deliveries && t.store.deliveries[job] == s.store.deliveries[job]
  {}

  lemma RecordLeavesDead(s: State, drain: Drain, response: Response, at: nat, job: JobID, t: State)
    requires drain.entries != [] && t == RecordAttempt(s, drain, response, at)
    requires Coherent(s.store.deliveries, drain.entries[0].job, drain.entries[0].record)
    requires IsLive(drain.entries[0].record.value)
    requires job in s.store.deliveries && s.store.deliveries[job].value.status.Dead?
    ensures job in t.store.deliveries && t.store.deliveries[job] == s.store.deliveries[job]
  {}

  lemma DeliveriesElsewhere(s: State, input: Input, t: State)
    requires t == DispatchStep(s, input) && !s.work.Replied? && !s.work.AtDelivery?
    ensures t.store.deliveries == s.store.deliveries
  {
    if s.work.AtHook? {
      Walks(s, input, t);
    } else if s.work.AtTransform? || s.work.AtMissing? {
      OnlyMaterializations(s, input, t);
    } else {
      OnlyReads(s, input, t);
    }
  }

  lemma Walks(s: State, input: Input, t: State)
    requires t == DispatchStep(s, input) && s.work.AtHook?
    ensures t.store.deliveries == s.store.deliveries
  {
    var p := s.work.poll;
    if p.events != [] {
      if p.next >= |p.listed| {
        SavingLeavesDeliveries(s, p);
      } else {
        LookingReads(s, p);
      }
    }
  }

  lemma SavingLeavesDeliveries(s: State, p: Poll)
    requires p.events != []
    ensures SaveCursor(s, p).store.deliveries == s.store.deliveries && SaveCursor(s, p).now == s.now
    ensures SaveCursor(s, p).work.Resting? || SaveCursor(s, p).work.AtEvent?
  {}

  lemma LookingReads(s: State, p: Poll)
    requires AtOneHook(p)
    ensures var t := LookAtHook(s, p);
            t.store == s.store && t.now == s.now && (t.work.AtHook? || t.work.Resting? || t.work.AtMaterialization?)
  {
    assert LookAtHook(s, p).store == s.store;
  }

  lemma ContinueLeavesDead(s: State, c: nat, entries: seq<Entry>, job: JobID, t: State)
    requires ClientsOK(s) && t == ContinueStep(s, c, entries)
    requires job in s.store.deliveries && s.store.deliveries[job].value.status.Dead?
    ensures job in t.store.deliveries
            && (t.store.deliveries[job] == s.store.deliveries[job]
                || (c in s.clients && s.clients[c].Replaying? && IsReplay(s, job, t)))
  {
    if c in s.clients && s.clients[c].Replaying? {
      assert ClientOK(s.store, s.clients[c]);
      ReplayLeavesDead(s, c, s.clients[c].request, s.clients[c].entries, job, t);
    } else if c in s.clients {
      EditLeavesDeliveries(s, c, entries, t);
    }
  }

  lemma EditLeavesDeliveries(s: State, c: nat, entries: seq<Entry>, t: State)
    requires c in s.clients && !s.clients[c].Replaying? && t == ContinueStep(s, c, entries)
    ensures t.store.deliveries == s.store.deliveries
  {
    if s.clients[c].HasRevision? {
      CommitElsewhere(s, c, s.clients[c].request, s.clients[c].hook, s.clients[c].prior);
    }
  }

  lemma ReplayLeavesDead(s: State, c: nat, request: Request, entries: seq<Entry>, job: JobID, t: State)
    requires EntriesOK(s.store, entries) && t == ReplayNext(s, c, request, entries)
    requires job in s.store.deliveries && s.store.deliveries[job].value.status.Dead?
    ensures job in t.store.deliveries && (t.store.deliveries[job] == s.store.deliveries[job] || IsReplay(s, job, t))
  {
    if entries != [] {
      assert Coherent(s.store.deliveries, entries[0].job, entries[0].record);
    }
  }

  // ---- Nothing waits longer than it may ----

  /** No live delivery waits for longer than 128 seconds from now, and none on its way will. */
  ghost predicate Near(s: State) {
    && WebhookRetry.NotFar(s.store, s.now)
    && (s.work.AtDelivery? ==> s.work.delivery.nextAttemptAt <= s.now)
    && (s.work.Replied? ==> s.work.at <= s.now)
  }

  lemma StaysNear(s: State, t: State)
    requires Near(s) && t.store.deliveries == s.store.deliveries && t.now >= s.now && !t.work.AtDelivery?
    requires t.work.Replied? ==> t.work.at <= t.now
    ensures Near(t)
  {}

  lemma RecordIs(s: State, drain: Drain, response: Response, at: nat, t: State)
    requires drain.entries != [] && t == RecordAttempt(s, drain, response, at)
    ensures t.now == s.now && (t.work.Draining? || t.work.Resting?)
    ensures var e := drain.entries[0];
            var tried := Versioned(Attempted(e.record.value, response, at), e.record.version + 1);
            t.store.deliveries == s.store.deliveries || t.store.deliveries == s.store.deliveries[e.job := tried]
  {
    if !Expects(s.store.deliveries, drain.entries[0].job, drain.entries[0].record.version) {
      DroppingLeaves(s);
    }
  }

  lemma DroppingLeaves(s: State)
    ensures var t := DropWork(s); t.store == s.store && t.now == s.now && t.work == Resting
  {}

  lemma RecordIsNear(s: State, drain: Drain, response: Response, at: nat, t: State)
    requires Near(s) && drain.entries != [] && at <= s.now && t == RecordAttempt(s, drain, response, at)
    ensures Near(t)
  {
    RecordIs(s, drain, response, at, t);
    WebhookRetry.AttemptNotFar(drain.entries[0].record.value, response, at);
  }

  lemma HookIsNear(s: State, input: Input, t: State)
    requires Near(s) && s.work.AtHook? && t == DispatchStep(s, input) && t != s
    ensures Near(t)
  {
    var p := s.work.poll;
    if p.next >= |p.listed| {
      SavingLeavesDeliveries(s, p);
    } else {
      LookingReads(s, p);
    }
    StaysNear(s, t);
  }

  lemma DrainIsNear(s: State, drain: Drain, t: State)
    requires Near(s) && t == LookAtDelivery(s, drain)
    ensures Near(t)
  {
    LookingLeaves(s, drain);
    StaysNear(s, t);
  }

  lemma LookingLeaves(s: State, drain: Drain)
    ensures var t := LookAtDelivery(s, drain);
            t == s.(work := t.work, tallies := t.tallies) && (t.work.Resting? || t.work.Draining? || t.work.Sent?)
  {}

  lemma StartIsNear(s: State, input: Input, t: State)
    requires Near(s) && t == DispatchStep(s, input)
    requires s.work.Resting? || s.work.HasCursor? || s.work.AtEvent? || s.work.Sent?
    ensures Near(t)
  {}

  lemma LookIsNear(s: State, input: Input, t: State)
    requires Near(s) && t == DispatchStep(s, input) && t != s
    requires s.work.Resting? || s.work.HasCursor? || s.work.AtEvent? || s.work.AtHook? || s.work.Draining?
             || s.work.Sent?
    ensures Near(t)
  {
    if s.work.AtHook? {
      HookIsNear(s, input, t);
    } else if s.work.Draining? {
      DrainIsNear(s, s.work.drain, t);
    } else {
      StartIsNear(s, input, t);
    }
  }

  lemma ProceedIsNear(s: State, poll: Poll, revision: HookRevision, record: Versioned<Materialization>, t: State)
    requires Near(s) && AtOneHook(poll) && t == Proceed(s, poll, revision, record)
    ensures Near(t)
  {}

  lemma SettleIsNear(s: State, poll: Poll, record: Versioned<Materialization>, outcome: Outcome, t: State)
    requires Near(s) && AtOneHook(poll) && t == SettleMaterialization(s, poll, record, outcome)
    ensures Near(t)
  {}

  lemma StoreIsNear(s: State, poll: Poll, revision: HookRevision, context: string, t: State)
    requires Near(s) && AtOneHook(poll) && t == StoreMaterialization(s, poll, revision, context)
    ensures Near(t)
  {}

  lemma CreateIsNear(s: State, poll: Poll, d: Delivery, t: State)
    requires Near(s) && AtOneHook(poll) && d.nextAttemptAt <= s.now && t == CreateDelivery(s, poll, d)
    ensures Near(t)
  {}

  lemma JobIsNear(s: State, input: Input, t: State)
    requires Near(s) && t == DispatchStep(s, input) && t != s
    requires s.work.AtMaterialization? || s.work.AtMissing? || s.work.AtReload? || s.work.AtTransform?
             || s.work.AtDelivery?
    ensures Near(t)
  {
    var poll := s.work.poll;
    if s.work.AtMissing? {
      StoreIsNear(s, poll, s.work.revision, input.context, t);
    } else if s.work.AtTransform? {
      SettleIsNear(s, poll, s.work.record, input.outcome, t);
    } else if s.work.AtDelivery? {
      CreateIsNear(s, poll, s.work.delivery, t);
    } else if JobAt(poll) in s.store.mats {
      ProceedIsNear(s, poll, s.work.revision, s.store.mats[JobAt(poll)], t);
    }
  }

  lemma DispatchIsNear(s: State, input: Input, t: State)
    requires Near(s) && t == DispatchStep(s, input)
    ensures Near(t)
  {
    if t != s {
      if s.work.Replied? {
        RecordIsNear(s, s.work.drain, s.work.response, s.work.at, t);
      } else if AtAnyHook(s.work) && !s.work.AtHook? {
        JobIsNear(s, input, t);
      } else {
        LookIsNear(s, input, t);
      }
    }
  }

  lemma ReplayIsNear(s: State, c: nat, request: Request, entries: seq<Entry>, t: State)
    requires Near(s) && t == ReplayNext(s, c, request, entries)
    ensures Near(t)
  {}

  lemma ContinueKeepsTime(s: State, c: nat, entries: seq<Entry>, t: State)
    requires t == ContinueStep(s, c, entries)
    ensures t.now == s.now
  {}

  lemma ContinueIsNear(s: State, c: nat, entries: seq<Entry>, t: State)
    requires Near(s) && t == ContinueStep(s, c, entries)
    ensures Near(t)
  {
    if c in s.clients && s.clients[c].Replaying? {
      ReplayIsNear(s, c, s.clients[c].request, s.clients[c].entries, t);
    } else if c in s.clients {
      EditLeavesDeliveries(s, c, entries, t);
      ContinueElsewhere(s, c, entries, t);
      ContinueKeepsTime(s, c, entries, t);
    }
  }

  lemma StepIsNear(s: State, step: Step, t: State)
    requires Near(s) && t == Do(s, step)
    ensures Near(t)
  {
    if step.Dispatch? {
      DispatchIsNear(s, step.input, t);
    } else if step.Continue? {
      ContinueIsNear(s, step.client, step.entries, t);
    } else {
      if step.Call? {
        CallElsewhere(s, step.client, step.request, t);
      } else if step.GiveUp? || step.Crash? {
        DropElsewhere(s);
      }
      assert t.store.deliveries == s.store.deliveries && t.now >= s.now && (t.work == s.work || t.work.Resting?);
    }
  }

  lemma {:induction false} RunIsNear(s: State, steps: seq<Step>)
    requires Near(s)
    ensures Near(After(s, steps))
    decreases |steps|
  {
    if steps != [] {
      StepIsNear(s, steps[0], Do(s, steps[0]));
      RunIsNear(Do(s, steps[0]), steps[1..]);
    }
  }

  /** Every reachable store is one from which retrying is known to end, by count and by the clock. */
  lemma ReachableStoresAreSound(s: State, steps: seq<Step>)
    requires Reachable(s, steps)
    ensures WebhookRetry.Sound(s.store) && WebhookRetry.NotFar(s.store, s.now)
  {
    ReachableInv(s, steps);
    StoreIsOK(s);
    StoreParts(s.store);
    JobsHaveRevisions(s);
    RunOf(s, steps);
    RunIsNear(INITIAL, steps);
  }
}
