/** What the service's calls on webhooks do to the records, whoever else is at work. */
module WebhookCalls {
  import opened Results
  import opened Keys
  import opened Table
  import opened WebhookModel
  import opened WebhookSystem
  import opened WebhookSafety
  import opened WebhookTheorems

  // ---- Registering, updating, rotating the secret, disabling ----

  /** The webhook is still as the call read it. */
  ghost predicate IsUnchanged(s: State, id: string, hook: Versioned<Hook>) {
    id in s.store.hooks && s.store.hooks[id].version == hook.version
  }

  /** A webhook that has not changed since has the revision after the one read still free. */
  lemma NextIsFree(s: State, c: nat)
    requires Inv(s) && c in s.clients && s.clients[c].HasRevision?
    requires IsUnchanged(s, s.clients[c].request.id, s.clients[c].hook)
    ensures var request, hook, prior := s.clients[c].request, s.clients[c].hook, s.clients[c].prior;
            var current, next := RevisionID(request.id, hook.value.activeRevision),
                RevisionID(request.id, hook.value.activeRevision + 1);
            && s.store.hooks[request.id] == hook && hook.value.id == request.id && next !in s.store.revisions
            && current in s.store.revisions && s.store.revisions[current].value == prior
            && prior.hookID == request.id && prior.number == hook.value.activeRevision && hook.version != 0
  {
    Parts(s);
    StoreParts(s.store);
    assert ClientOK(s.store, s.clients[c]);
  }

  /** A registration under a new ID is on record as given, with its script as revision 1; under a
      known ID it changes nothing. */
  lemma RegisterTakesEffect(s: State, steps: seq<Step>, c: nat, id: string, r: Registration, secret: string, t: State)
    requires Reachable(s, steps) && c !in s.clients && t == Do(s, Call(c, Register(id, r, secret)))
    ensures if id in s.store.hooks then t == s
            else && t.store.hooks == s.store.hooks[id := Versioned(Hook(id, r.scope, r.url, r.events, r.objectTypes,
                                                                        r.lookups, 1, true), 1)]
                 && t.store.revisions == s.store.revisions[RevisionID(id, 1) := Versioned(
                      HookRevision(id, 1, r.source, r.limits, secret), 1)]
  {
    ReachableInv(s, steps);
    StoreIsOK(s);
    StoreParts(s.store);
  }

  /** An update of a webhook that has not changed since it was read puts everything on record as asked,
      the script as the next revision with the secret of the last; otherwise nothing changes. */
  lemma UpdateTakesEffect(s: State, steps: seq<Step>, c: nat, entries: seq<Entry>, t: State)
    requires Reachable(s, steps) && c in s.clients && s.clients[c].HasRevision? && s.clients[c].request.Update?
    requires t == Do(s, Continue(c, entries))
    ensures var id, r, hook := s.clients[c].request.id, s.clients[c].request.registration, s.clients[c].hook;
            var n := hook.value.activeRevision;
            if IsUnchanged(s, id, hook) then
              && t.store.hooks == s.store.hooks[id := Versioned(Hook(id, r.scope, r.url, r.events, r.objectTypes,
                                                                     r.lookups, n + 1, true), hook.version + 1)]
              && RevisionID(id, n) in s.store.revisions
              && t.store.revisions == s.store.revisions[RevisionID(id, n + 1) := Versioned(
                   HookRevision(id, n + 1, r.source, r.limits, s.store.revisions[RevisionID(id, n)].value.secret), 1)]
            else t.store == s.store
  {
    ReachableInv(s, steps);
    CommitIs(s, c, s.clients[c].request, s.clients[c].hook, s.clients[c].prior);
    if IsUnchanged(s, s.clients[c].request.id, s.clients[c].hook) {
      NextIsFree(s, c);
    } else {
      ReadIsKnown(s, c);
    }
  }

  /** A rotation does the same with the new secret, and leaves all else as it is. */
  lemma RotationTakesEffect(s: State, steps: seq<Step>, c: nat, entries: seq<Entry>, t: State)
    requires Reachable(s, steps) && c in s.clients && s.clients[c].HasRevision? && s.clients[c].request.RotateSecret?
    requires t == Do(s, Continue(c, entries))
    ensures var id, hook := s.clients[c].request.id, s.clients[c].hook;
            var n := hook.value.activeRevision;
            if IsUnchanged(s, id, hook) then
              && RevisionID(id, n) in s.store.revisions
              && t.store.hooks == s.store.hooks[id := Versioned(s.store.hooks[id].value.(activeRevision := n + 1),
                                                                hook.version + 1)]
              && var prior := s.store.revisions[RevisionID(id, n)].value;
                 t.store.revisions == s.store.revisions[RevisionID(id, n + 1) := Versioned(
                   HookRevision(id, n + 1, prior.source, prior.limits, s.clients[c].request.secret), 1)]
            else t.store == s.store
  {
    ReachableInv(s, steps);
    CommitIs(s, c, s.clients[c].request, s.clients[c].hook, s.clients[c].prior);
    if IsUnchanged(s, s.clients[c].request.id, s.clients[c].hook) {
      NextIsFree(s, c);
    } else {
      ReadIsKnown(s, c);
    }
  }

  lemma ReadIsKnown(s: State, c: nat)
    requires Inv(s) && c in s.clients && s.clients[c].HasRevision?
    ensures s.clients[c].request.id in s.store.hooks
  {
    Parts(s);
    assert ClientOK(s.store, s.clients[c]);
  }

  lemma CommitIs(s: State, c: nat, request: Request, hook: Versioned<Hook>, prior: HookRevision)
    requires request.Update? || request.RotateSecret?
    ensures var (changed, revision) := Edited(request, hook.value, prior);
            var id := RevisionID(request.id, revision.number);
            CommitEdit(s, c, request, hook, prior).store ==
            if id in s.store.revisions || !Expects(s.store.hooks, request.id, hook.version) then s.store
            else s.store.(hooks := s.store.hooks[request.id := Versioned(changed, hook.version + 1)],
                          revisions := s.store.revisions[id := Versioned(revision, 1)])
  {}

  /** Disabling a webhook that has not changed since it was read only disables it; otherwise nothing changes. */
  lemma DisableTakesEffect(s: State, steps: seq<Step>, c: nat, entries: seq<Entry>, t: State)
    requires Reachable(s, steps) && c in s.clients && s.clients[c].HasHook? && s.clients[c].request.Disable?
    requires t == Do(s, Continue(c, entries))
    ensures var id, hook := s.clients[c].request.id, s.clients[c].hook;
            if IsUnchanged(s, id, hook) then
              t.store == s.store.(hooks := s.store.hooks[id := Versioned(s.store.hooks[id].value.(enabled := false),
                                                                         hook.version + 1)])
            else t.store == s.store
  {
    ReachableInv(s, steps);
    ReadIsCoherent(s, c);
    DisableIs(s, c, s.clients[c].request.id, s.clients[c].hook);
  }

  lemma ReadIsCoherent(s: State, c: nat)
    requires Inv(s) && c in s.clients && s.clients[c].HasHook?
    ensures var id, hook := s.clients[c].request.id, s.clients[c].hook;
            && id in s.store.hooks && (IsUnchanged(s, id, hook) ==> s.store.hooks[id] == hook && hook.version >= 1)
  {
    StoreIsOK(s);
    StoreParts(s.store);
    Parts(s);
    assert ClientOK(s.store, s.clients[c]);
  }

  lemma DisableIs(s: State, c: nat, id: string, hook: Versioned<Hook>)
    ensures CommitDisable(s, c, id, hook).store ==
            if !Expects(s.store.hooks, id, hook.version) then s.store
            else s.store.(hooks := s.store.hooks[id := Versioned(hook.value.(enabled := false), hook.version + 1)])
  {}

  // ---- Replaying dead letters ----

  /** One step of a replay queues the delivery it is at again if it is dead and still as listed, gives up if it is
      dead and has changed, and goes past it otherwise. */
  lemma ReplayStepIs(s: State, c: nat, entries: seq<Entry>, t: State)
    requires c in s.clients && s.clients[c].Replaying? && s.clients[c].entries != []
    requires t == Do(s, Continue(c, entries))
    ensures var e := s.clients[c].entries[0];
            var d := e.record.value;
            var stands := Expects(s.store.deliveries, e.job, e.record.version);
            if d.status.Dead? && stands then
              && t.store == s.store.(deliveries := s.store.deliveries[e.job := Versioned(
                   Delivery(d.url, d.payload, Pending, DeliveryStage, 0, 0, "", s.now), e.record.version + 1)])
              && t.clients == s.clients[c := s.clients[c].(entries := s.clients[c].entries[1..])] && t.now == s.now
            else
              && t.store == s.store && t.now == s.now
              && t.clients == if d.status.Dead? then s.clients - {c}
                              else s.clients[c := s.clients[c].(entries := s.clients[c].entries[1..])]
  {}

  /** So many steps of the call, one after the other. */
  function Steps(c: nat, n: nat): seq<Step> { seq(n, _ => Continue(c, [])) }

  /** The listing shows the deliveries as they are, each once; records have versions, which start at 1. */
  ghost predicate Shows(entries: seq<Entry>, deliveries: map<JobID, Versioned<Delivery>>) {
    && (forall i, j :: 0 <= i < j < |entries| ==> entries[i].job != entries[j].job)
    && forall i :: 0 <= i < |entries| ==>
         && entries[i].record.version >= 1
         && entries[i].job in deliveries && deliveries[entries[i].job] == entries[i].record
  }

  lemma TailShows(entries: seq<Entry>, before: map<JobID, Versioned<Delivery>>,
                  after: map<JobID, Versioned<Delivery>>)
    requires entries != [] && Shows(entries, before)
    requires after == before || (entries[0].job in after && after == before[entries[0].job := after[entries[0].job]])
    ensures Shows(entries[1..], after)
  {}

  /** Dead letters on the listing are queued again, everything else is as it was. */
  ghost predicate IsReplayed(before: Store, entries: seq<Entry>, now: nat, after: Store) {
    && after == before.(deliveries := after.deliveries) && after.deliveries.Keys == before.deliveries.Keys
    && forall job :: job in before.deliveries ==>
         var d := before.deliveries[job].value;
         if d.status.Dead? && Entry(job, before.deliveries[job]) in entries then
           after.deliveries[job].value == Delivery(d.url, d.payload, Pending, DeliveryStage, 0, 0, "", now)
         else after.deliveries[job] == before.deliveries[job]
  }

  /** A replay that is left alone queues every dead letter on its listing again, and touches nothing else. */
  lemma {:induction false} ReplayQueuesAllDead(s: State, c: nat, entries: seq<Entry>)
    requires c in s.clients && s.clients[c].Replaying? && s.clients[c].entries == entries
    requires Shows(entries, s.store.deliveries)
    ensures IsReplayed(s.store, entries, s.now, After(s, Steps(c, |entries|)).store)
    decreases |entries|
  {
    if entries != [] {
      var t := Do(s, Continue(c, []));
      ReplayStepIs(s, c, [], t);
      assert Steps(c, |entries|)[0] == Continue(c, []) && Steps(c, |entries|)[1..] == Steps(c, |entries| - 1);
      TailShows(entries, s.store.deliveries, t.store.deliveries);
      ReplayQueuesAllDead(t, c, entries[1..]);
      OneMoreReplayed(s.store, entries, s.now, t.store, After(t, Steps(c, |entries| - 1)).store);
    }
  }

  lemma OneMoreReplayed(before: Store, entries: seq<Entry>, now: nat, middle: Store, after: Store)
    requires entries != [] && Shows(entries, before.deliveries) && IsReplayed(middle, entries[1..], now, after)
    requires var d := entries[0].record.value;
             var again := Delivery(d.url, d.payload, Pending, DeliveryStage, 0, 0, "", now);
             middle == if !d.status.Dead? then before
                       else before.(deliveries := before.deliveries[entries[0].job :=
                              Versioned(again, entries[0].record.version + 1)])
    ensures IsReplayed(before, entries, now, after)
  {
    forall job | job in before.deliveries
      ensures var d := before.deliveries[job].value;
              if d.status.Dead? && Entry(job, before.deliveries[job]) in entries then
                after.deliveries[job].value == Delivery(d.url, d.payload, Pending, DeliveryStage, 0, 0, "", now)
              else after.deliveries[job] == before.deliveries[job]
    {
      var e := Entry(job, before.deliveries[job]);
      assert e in entries <==> e == entries[0] || e in entries[1..];
      if job == entries[0].job {
        assert e == entries[0];
      } else {
        assert middle.deliveries[job] == before.deliveries[job];
      }
    }
  }
}
